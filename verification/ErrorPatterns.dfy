/** How RetryManager classifies error messages: a hand-written case-insensitive search. */
module ErrorPatterns {
  import opened Models

  // ---- Lower case ----

  /** Only ASCII letters change; a char stands for a byte. */
  function LowerChar(c: char): char {
    if 'A' <= c <= 'Z' then (c as int + 32) as char else c
  }

  function Lower(s: string): (r: string)
    ensures |r| == |s|
  {
    seq(|s|, i requires 0 <= i < |s| => LowerChar(s[i]))
  }

  method ToLower(s: string) returns (r: string)
    ensures r == Lower(s)
  {
    var b := new char[|s|](i requires 0 <= i < |s| => s[i]);
    var i := 0;
    while i < b.Length
      invariant 0 <= i <= b.Length == |s|
      invariant forall j :: 0 <= j < i ==> b[j] == LowerChar(s[j])
      invariant forall j :: i <= j < |s| ==> b[j] == s[j]
    {
      if 'A' <= b[i] <= 'Z' {
        b[i] := (b[i] as int + ('a' as int - 'A' as int)) as char;
      }
      i := i + 1;
    }
    r := b[..];
  }

  lemma LowerIdempotent(s: string)
    ensures Lower(Lower(s)) == Lower(s)
  {
  }

  /** Exactly the 26 capital letters have another lower case. */
  lemma LowerAlphabet(s: string)
    ensures Lower("ABCDEFGHIJKLMNOPQRSTUVWXYZ") == "abcdefghijklmnopqrstuvwxyz"
    ensures forall i :: 0 <= i < |s| && s[i] !in "ABCDEFGHIJKLMNOPQRSTUVWXYZ" ==> Lower(s)[i] == s[i]
  {
    var capitals := "ABCDEFGHIJKLMNOPQRSTUVWXYZ";
    forall c: char | 'A' <= c <= 'Z' ensures c in capitals {
      assert capitals[c as int - 'A' as int] == c;
    }
  }

  // ---- Search ----

  predicate OccursAt(p: string, s: string, i: nat) {
    i + |p| <= |s| && s[i..i + |p|] == p
  }

  ghost predicate Occurs(p: string, s: string) {
    exists i: nat :: OccursAt(p, s, i)
  }

  method ContainsIgnoreCase(s: string, substr: string) returns (found: bool)
    ensures found <==> Occurs(Lower(substr), Lower(s))
  {
    var ls := ToLower(s);
    var lp := ToLower(substr);
    var i := 0;
    while i <= |ls| - |lp|
      invariant 0 <= i
      invariant forall j: nat :: j < i ==> !OccursAt(lp, ls, j)
    {
      if ls[i..i + |lp|] == lp {
        assert OccursAt(lp, ls, i);
        return true;
      }
      i := i + 1;
    }
    found := false;
  }

  /** Equal, or longer and containing the pattern in any case.  A message of the pattern's own length is
      compared as it is, case included. */
  ghost predicate Matches(s: string, p: string) {
    s == p || (|s| > |p| && Occurs(Lower(p), Lower(s)))
  }

  method Contains(s: string, substr: string) returns (found: bool)
    ensures found <==> Matches(s, substr)
    ensures found <==> s == substr || (|s| > |substr| && exists i: nat :: OccursAt(Lower(substr), Lower(s), i))
  {
    if |s| < |substr| {
      return false;
    }
    if s == substr {
      return true;
    }
    if |s| == |substr| {
      return false;
    }
    found := ContainsIgnoreCase(s, substr);
  }

  // ---- The verdict ----

  const RETRIABLE := ["timeout", "connection refused", "connection reset", "temporary failure", "network",
                      "503", "502", "504"]
  const NON_RETRIABLE := ["not found", "404", "401", "403", "invalid", "authentication", "authorization"]

  ghost predicate MatchesAny(s: string, patterns: seq<string>) {
    exists p :: p in patterns && Matches(s, p)
  }

  ghost predicate Retriable(message: string) {
    MatchesAny(message, RETRIABLE) || !MatchesAny(message, NON_RETRIABLE)
  }

  method AnyMatch(s: string, patterns: seq<string>) returns (found: bool)
    ensures found <==> MatchesAny(s, patterns)
  {
    for k := 0 to |patterns|
      invariant forall j :: 0 <= j < k ==> !Matches(s, patterns[j])
    {
      var hit := Contains(s, patterns[k]);
      if hit {
        assert patterns[k] in patterns;
        return true;
      }
    }
    found := false;
  }

  /** No error is None.  An unknown error is retriable. */
  method IsRetriableError(err: Option<string>) returns (retry: bool)
    ensures retry <==> err.Some? && Retriable(err.value)
    ensures retry <==> err.Some? && (SoundsTransient(err.value) || !SoundsPermanent(err.value))
  {
    if err.None? {
      return false;
    }
    VerdictSpelledOut(err.value);
    var hit := AnyMatch(err.value, RETRIABLE);
    if hit {
      return true;
    }
    hit := AnyMatch(err.value, NON_RETRIABLE);
    retry := !hit;
  }

  ghost predicate SoundsTransient(m: string) {
    || Matches(m, "timeout") || Matches(m, "connection refused") || Matches(m, "connection reset")
    || Matches(m, "temporary failure") || Matches(m, "network")
    || Matches(m, "503") || Matches(m, "502") || Matches(m, "504")
  }

  ghost predicate SoundsPermanent(m: string) {
    || Matches(m, "not found") || Matches(m, "404") || Matches(m, "401") || Matches(m, "403")
    || Matches(m, "invalid") || Matches(m, "authentication") || Matches(m, "authorization")
  }

  /** The verdict word by word: a message that holds one of the eight transient signs is retried, even beside a
      permanent one; otherwise one that holds any of the seven permanent signs is not, and any other is. */
  lemma VerdictSpelledOut(m: string)
    ensures Retriable(m) <==> SoundsTransient(m) || !SoundsPermanent(m)
  {
    hide Matches;
    AnyTransient(m);
    AnyPermanent(m);
  }

  lemma AnyTransient(m: string)
    ensures MatchesAny(m, RETRIABLE) <==> SoundsTransient(m)
  {
    hide Matches;
    var ps := RETRIABLE;
    assert ps == [ps[0], ps[1], ps[2], ps[3], ps[4], ps[5], ps[6], ps[7]];
    assert forall p :: p in ps <==> exists i :: 0 <= i < |ps| && ps[i] == p;
  }

  lemma AnyPermanent(m: string)
    ensures MatchesAny(m, NON_RETRIABLE) <==> SoundsPermanent(m)
  {
    hide Matches;
    var ps := NON_RETRIABLE;
    assert ps == [ps[0], ps[1], ps[2], ps[3], ps[4], ps[5], ps[6]];
    assert forall p :: p in ps <==> exists i :: 0 <= i < |ps| && ps[i] == p;
  }

  // ---- Does the letter case of a message matter? ----

  /** The patterns that are spelt with letters and rule a retry out. */
  const FINAL_WORDS := ["not found", "invalid", "authentication", "authorization"]

  lemma OccursHasChar(p: string, s: string, c: char)
    requires Occurs(p, s) && c in p
    ensures c in s
  {
    var i: nat :| OccursAt(p, s, i);
    var k :| 0 <= k < |p| && p[k] == c;
    assert s[i + k] == s[i..i + |p|][k];
  }

  lemma RetriableAreLower(p: string)
    requires p in RETRIABLE
    ensures Lower(p) == p
  {
  }

  lemma FinalAreLower(p: string)
    requires p in NON_RETRIABLE
    ensures Lower(p) == p
  {
  }

  lemma PatternsAreLower(p: string)
    requires p in RETRIABLE || p in NON_RETRIABLE
    ensures Lower(p) == p
  {
    hide Lower;
    if p in RETRIABLE {
      RetriableAreLower(p);
    } else {
      FinalAreLower(p);
    }
  }

  /** Away from the lengths of the patterns, and for messages already in lower case, case plays no part. */
  lemma MatchesLower(s: string, p: string)
    requires Lower(p) == p
    ensures |s| != |p| ==> (Matches(s, p) <==> Matches(Lower(s), p))
    ensures |s| == |p| ==> (Matches(s, p) <==> s == p) && (Matches(Lower(s), p) <==> Lower(s) == p)
  {
    LowerIdempotent(s);
  }

  lemma AbsentChar(p: string, s: string, c: char)
    requires c in p && c !in s
    ensures !Occurs(p, s)
  {
    if Occurs(p, s) {
      OccursHasChar(p, s, c);
    }
  }

  lemma NotFoundNotInRefused()
    ensures !Occurs("not found", "connection refused")
  {
    var p, s := "not found", "connection refused";
    forall i: nat ensures !OccursAt(p, s, i) {
      assert i + |p| <= |s| ==> s[i..i + |p|][0] == s[i] && s[i..i + |p|][1] == s[i + 1];
    }
  }

  lemma DigitsHoldZero(q: string)
    requires q in ["503", "502", "504", "404", "401", "403"]
    ensures '0' in q && |q| == 3
  {
    assert q[1] == '0';
  }

  /** Letters that the longer retriable patterns lack. */
  lemma RetriableLack(p: string)
    requires p in RETRIABLE && |p| > 3
    ensures 'h' !in p && 'v' !in p
  {
  }

  lemma RetriableLackZero(p: string)
    requires p in RETRIABLE && |p| > 3
    ensures '0' !in p
  {
  }

  lemma RetriableLackD(p: string)
    requires p in RETRIABLE && p != "connection refused"
    ensures 'd' !in p
  {
  }

  /** No pattern that rules a retry out lies inside one that asks for it. */
  lemma FinalNotInRetriable(p: string, q: string)
    requires p in RETRIABLE && q in NON_RETRIABLE && |q| < |p|
    ensures !Occurs(q, p)
  {
    RetriableLack(p);
    RetriableLackZero(p);
    if q == "not found" {
      if p == "connection refused" {
        NotFoundNotInRefused();
      } else {
        RetriableLackD(p);
        assert q[8] == 'd';
        AbsentChar(q, p, 'd');
      }
    } else if q == "invalid" {
      assert q[2] == 'v';
      AbsentChar(q, p, 'v');
    } else if q == "authentication" || q == "authorization" {
      assert q[3] == 'h';
      AbsentChar(q, p, 'h');
    } else {
      DigitsHoldZero(q);
      AbsentChar(q, p, '0');
    }
  }

  lemma FinalWordsLack(p: string)
    requires p in FINAL_WORDS
    ensures 'm' !in p && 'w' !in p && '0' !in p
  {
  }

  lemma LongerFinalWordsLack(p: string)
    requires p in FINAL_WORDS
    ensures |p| > 7 ==> 'v' !in p
    ensures |p| > 9 ==> 'f' !in p
    ensures |p| > 13 ==> 'r' !in p
  {
  }

  /** No other pattern lies inside a final word. */
  lemma RetriableNotInFinalWord(p: string, q: string)
    requires p in FINAL_WORDS && q in RETRIABLE && |q| < |p|
    ensures !Occurs(q, p)
  {
    FinalWordsLack(p);
    if q == "timeout" {
      assert q[2] == 'm';
      AbsentChar(q, p, 'm');
    } else if q == "network" {
      assert q[3] == 'w';
      AbsentChar(q, p, 'w');
    } else {
      assert |q| == 3;
      DigitsHoldZero(q);
      AbsentChar(q, p, '0');
    }
  }

  lemma FinalNotInFinalWord(p: string, q: string)
    requires p in FINAL_WORDS && q in NON_RETRIABLE && |q| < |p|
    ensures !Occurs(q, p)
  {
    FinalWordsLack(p);
    LongerFinalWordsLack(p);
    if q == "not found" {
      assert q[4] == 'f';
      AbsentChar(q, p, 'f');
    } else if q == "invalid" {
      assert q[2] == 'v';
      AbsentChar(q, p, 'v');
    } else if q == "authorization" {
      assert q[5] == 'r';
      AbsentChar(q, p, 'r');
    } else {
      DigitsHoldZero(q);
      AbsentChar(q, p, '0');
    }
  }

  /** A message that equals no pattern when lowered is judged by its lower case. */
  lemma OrdinaryMessage(m: string)
    requires m == Lower(m) || (Lower(m) !in RETRIABLE && Lower(m) !in NON_RETRIABLE)
    ensures Retriable(m) <==> Retriable(Lower(m))
  {
    forall p | p in RETRIABLE || p in NON_RETRIABLE ensures Matches(m, p) <==> Matches(Lower(m), p) {
      PatternsAreLower(p);
      MatchesLower(m, p);
    }
  }

  /** A message that is a pattern in other than lower case matches none of the patterns p that are
      not inside the pattern it spells. */
  lemma OddCaseMatches(m: string, p: string)
    requires m != Lower(m) && Lower(p) == p && (|p| < |m| ==> !Occurs(p, Lower(m)))
    ensures !Matches(m, p)
  {
    MatchesLower(m, p);
  }

  lemma OddCaseRetriable(m: string)
    requires m != Lower(m) && Lower(m) in RETRIABLE
    ensures Retriable(m) && Retriable(Lower(m))
  {
    assert Matches(Lower(m), Lower(m));
    forall q | q in NON_RETRIABLE ensures !Matches(m, q) {
      PatternsAreLower(q);
      if |q| < |m| {
        FinalNotInRetriable(Lower(m), q);
      }
      OddCaseMatches(m, q);
    }
  }

  lemma FinalWordNotRetriable(w: string)
    requires w in FINAL_WORDS
    ensures !Retriable(w)
  {
    assert w in NON_RETRIABLE && Matches(w, w);
    PatternsAreLower(w);
    forall q | q in RETRIABLE ensures !Matches(w, q) {
      PatternsAreLower(q);
      if |q| < |w| {
        RetriableNotInFinalWord(w, q);
      }
      assert w != q;
    }
  }

  lemma OddCaseFinalWord(m: string)
    requires m != Lower(m) && Lower(m) in FINAL_WORDS
    ensures Retriable(m) && !Retriable(Lower(m))
  {
    FinalWordNotRetriable(Lower(m));
    forall q | q in NON_RETRIABLE ensures !Matches(m, q) {
      PatternsAreLower(q);
      if |q| < |m| {
        FinalNotInFinalWord(Lower(m), q);
      }
      OddCaseMatches(m, q);
    }
  }

  lemma DigitsHaveNoCase(m: string)
    requires Lower(m) in NON_RETRIABLE && Lower(m) !in FINAL_WORDS
    ensures m == Lower(m)
  {
    forall i | 0 <= i < |m| ensures m[i] == Lower(m)[i] {
      assert Lower(m)[i] == LowerChar(m[i]);
    }
  }

  lemma FinalWordsAreFinal(w: string)
    requires w in FINAL_WORDS
    ensures w in NON_RETRIABLE && w !in RETRIABLE
  {
  }

  /** Letter case decides the verdict for exactly four messages: one that is "not found", "invalid",
      "authentication" or "authorization" in other than lower case is retried, its lower case is not. */
  lemma CaseMattersOnlyForFinalWords(m: string)
    ensures (Retriable(m) <==> Retriable(Lower(m))) <==> (m == Lower(m) || Lower(m) !in FINAL_WORDS)
  {
    hide Lower, Retriable;
    if Lower(m) in FINAL_WORDS {
      FinalWordsAreFinal(Lower(m));
    }
    if m == Lower(m) || (Lower(m) !in RETRIABLE && Lower(m) !in NON_RETRIABLE) {
      OrdinaryMessage(m);
    } else if Lower(m) in RETRIABLE {
      OddCaseRetriable(m);
    } else if Lower(m) in FINAL_WORDS {
      OddCaseFinalWord(m);
    } else {
      DigitsHaveNoCase(m);
    }
  }

  /** Two messages that differ only in letter case get the same verdict, but for those four. */
  lemma SameVerdictUpToCase(a: string, b: string)
    requires Lower(a) == Lower(b)
    ensures (Retriable(a) <==> Retriable(b)) <==>
            (Lower(a) !in FINAL_WORDS || (a == Lower(a) <==> b == Lower(b)))
  {
    hide Lower, Retriable;
    CaseMattersOnlyForFinalWords(a);
    CaseMattersOnlyForFinalWords(b);
  }
}
