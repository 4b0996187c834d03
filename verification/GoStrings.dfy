/** The functions of Go's strings package that the parsers use, for separators of one character. */
module GoStrings {

  predicate HasPrefix(s: string, prefix: string) {
    |prefix| <= |s| && s[..|prefix|] == prefix
  }

  /** The position of the first c, or |s| when there is none. */
  function IndexOf(s: string, c: char): (i: nat)
    ensures i <= |s| && c !in s[..i]
    ensures i < |s| <==> c in s
    ensures i < |s| ==> s[i] == c
  {
    if s == "" then 0 else if s[0] == c then 0 else
      var i := IndexOf(s[1..], c);
      assert s[..i + 1] == [s[0]] + s[1..][..i];
      i + 1
  }

  function Before(s: string, c: char): string { s[..IndexOf(s, c)] }

  function After(s: string, c: char): string {
    if c in s then s[IndexOf(s, c) + 1..] else ""
  }

  /** At most n parts, the last of which is not split further. */
  function SplitN(s: string, c: char, n: nat): (parts: seq<string>)
    requires n > 0
    ensures 0 < |parts| <= n
  {
    if n == 1 || c !in s then [s] else [Before(s, c)] + SplitN(After(s, c), c, n - 1)
  }

  function Split(s: string, c: char): (parts: seq<string>)
    ensures |parts| > 0
    ensures |parts| > 1 <==> c in s
    ensures forall i :: 0 <= i < |parts| ==> c !in parts[i]
    decreases |s|
  {
    if c !in s then [s] else [Before(s, c)] + Split(After(s, c), c)
  }

  function Join(parts: seq<string>, c: char): string {
    if parts == [] then ""
    else if |parts| == 1 then parts[0]
    else parts[0] + [c] + Join(parts[1..], c)
  }

  /** Join undoes Split. */
  lemma {:induction false} JoinSplit(s: string, c: char)
    ensures Join(Split(s, c), c) == s
    decreases |s|
  {
    if c in s {
      JoinSplit(After(s, c), c);
      PutBack(s, c);
      assert Split(s, c)[1..] == Split(After(s, c), c);
    }
  }

  /** Split undoes Join, for parts without the separator. */
  lemma {:induction false} SplitJoin(parts: seq<string>, c: char)
    requires |parts| > 0 && forall i :: 0 <= i < |parts| ==> c !in parts[i]
    ensures Split(Join(parts, c), c) == parts
    decreases |parts|
  {
    if |parts| > 1 {
      SplitJoin(parts[1..], c);
      CutAt(parts[0], c, Join(parts[1..], c));
      assert parts == [parts[0]] + parts[1..];
    }
  }

  lemma {:induction false} IndexOfIs(s: string, c: char, i: nat)
    requires i < |s| && s[i] == c && c !in s[..i]
    ensures IndexOf(s, c) == i
  {
    if i > 0 {
      assert s[0] == s[..i][0];
      assert s[1..][..i - 1] == s[..i][1..];
      IndexOfIs(s[1..], c, i - 1);
    }
  }

  lemma {:induction false} IndexOfAtLeast(s: string, c: char, n: nat)
    requires n <= |s| && c !in s[..n]
    ensures n <= IndexOf(s, c)
  {
    if n > 0 {
      assert s[0] == s[..n][0];
      assert s[1..][..n - 1] == s[..n][1..];
      IndexOfAtLeast(s[1..], c, n - 1);
    }
  }

  /** The first separator, when it is known. */
  lemma CutAt(a: string, c: char, b: string)
    requires c !in a
    ensures c in a + [c] + b
    ensures Before(a + [c] + b, c) == a && After(a + [c] + b, c) == b
  {
    var s := a + [c] + b;
    assert s[|a|] == c && s[..|a|] == a && s[|a| + 1..] == b;
    IndexOfIs(s, c, |a|);
  }

  lemma CutNone(a: string, c: char)
    requires c !in a
    ensures Before(a, c) == a && After(a, c) == ""
  {
  }

  lemma PutBack(s: string, c: char)
    requires c in s
    ensures s == Before(s, c) + [c] + After(s, c)
  {
  }

  lemma PrefixBeforeCut(s: string, c: char, prefix: string)
    requires c !in prefix
    ensures HasPrefix(Before(s, c), prefix) <==> HasPrefix(s, prefix)
  {
    if HasPrefix(s, prefix) {
      IndexOfAtLeast(s, c, |prefix|);
    }
    if |prefix| <= IndexOf(s, c) {
      assert Before(s, c)[..|prefix|] == s[..|prefix|];
    }
  }

  lemma PrefixSplits(s: string, prefix: string)
    ensures HasPrefix(prefix + s, prefix) && (prefix + s)[|prefix|..] == s
    ensures HasPrefix(s, prefix) ==> s == prefix + s[|prefix|..]
  {
  }

  lemma PrefixTwice(s: string, prefix: string)
    ensures HasPrefix(s, prefix + prefix) <==> HasPrefix(s, prefix) && HasPrefix(s[|prefix|..], prefix)
  {
    var n := |prefix|;
    if 2 * n <= |s| {
      assert s[..2 * n] == s[..n] + s[n..][..n];
      if s[..2 * n] == prefix + prefix {
        assert s[..n] == (prefix + prefix)[..n] == prefix;
        assert s[n..][..n] == (prefix + prefix)[n..] == prefix;
      }
    }
  }
}
