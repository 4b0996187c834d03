/** Parsing and printing of image references. */
module ImageReference {
  import opened GoStrings

  datatype Parts = Parts(registry: string, repository: string, tag: string, digest: string)

  const DOCKER_HUB := "docker.io"
  const DOCKER_PREFIX := "docker.io/"
  const SHA_PREFIX := "sha256:"

  function NormalizeImageReference(p: Parts): string {
    var base := if p.registry != "" && p.registry != DOCKER_HUB then p.registry + "/" + p.repository else p.repository;
    var tagged := if p.tag != "" then base + ":" + p.tag else base + ":latest";
    if p.digest != "" then
      var digest := if !HasPrefix(p.digest, SHA_PREFIX) then SHA_PREFIX + p.digest else p.digest;
      tagged + "@" + digest
    else tagged
  }

  /** The tag is cut at the first colon, before the registry is looked at; so the first component never
      holds a colon, and a port is taken for the tag. */
  function ParseImageReference(imageRef: string): Parts {
    var cutDigest := if '@' in imageRef then SplitN(imageRef, '@', 2) else [imageRef, ""];
    var cutTag := if ':' in cutDigest[0] then SplitN(cutDigest[0], ':', 2) else [cutDigest[0], "latest"];
    var name, tag, digest := cutTag[0], cutTag[1], cutDigest[1];
    var parts := Split(name, '/');
    if |parts| > 1 && ('.' in parts[0] || ':' in parts[0]) then
      Parts(parts[0], Join(parts[1..], '/'), tag, digest)
    else
      Parts(DOCKER_HUB, name, tag, digest)
  }

  datatype Validity = Valid | EmptyReference | EmptyRepository | EmptyTag | EmptyRegistry

  function ValidateImageReference(imageRef: string): Validity {
    if imageRef == "" then EmptyReference
    else
      var p := ParseImageReference(imageRef);
      if p.repository == "" then EmptyRepository
      else if p.tag == "" then EmptyTag
      else if p.registry == "" then EmptyRegistry
      else Valid
  }

  // ---- The shape of a reference ----

  /** The part before the tag and digest. */
  function Name(s: string): string { Before(Before(s, '@'), ':') }

  /** The tag, with its default for a missing and for an empty one. */
  function Tag(s: string): string {
    var cut := After(Before(s, '@'), ':');
    if cut != "" then cut else "latest"
  }

  function WithSha(digest: string): string {
    if HasPrefix(digest, SHA_PREFIX) then digest else SHA_PREFIX + digest
  }

  /** The digest with its separator and prefix, or nothing. */
  function Suffix(digest: string): string {
    if digest == "" then "" else "@" + WithSha(digest)
  }

  predicate NamesRegistry(name: string) {
    '/' in name && '.' in Before(name, '/')
  }

  /** A reference whose registry is written out as docker.io loses it when it is normalised. */
  function StripHub(name: string): string {
    if HasPrefix(name, DOCKER_PREFIX) then name[|DOCKER_PREFIX|..] else name
  }

  lemma SplitTwo(s: string, c: char)
    requires c in s
    ensures SplitN(s, c, 2) == [Before(s, c), After(s, c)]
  {
    assert SplitN(After(s, c), c, 1) == [After(s, c)];
  }

  lemma SplitHeadTail(s: string, c: char)
    requires c in s
    ensures Split(s, c)[0] == Before(s, c) && Join(Split(s, c)[1..], c) == After(s, c)
  {
    JoinSplit(After(s, c), c);
    assert Split(s, c)[1..] == Split(After(s, c), c);
  }

  /** What the parser computes, in terms of where the separators are. */
  lemma ParseShape(s: string)
    ensures var p, name := ParseImageReference(s), Name(s);
            && p.digest == After(s, '@')
            && p.tag == (if ':' in Before(s, '@') then After(Before(s, '@'), ':') else "latest")
            && (if NamesRegistry(name) then p.registry == Before(name, '/') && p.repository == After(name, '/')
                else p.registry == "docker.io" && p.repository == name)
  {
    hide SplitN, Split, Join;
    var head := Before(s, '@');
    if '@' in s {
      SplitTwo(s, '@');
    } else {
      CutNone(s, '@');
    }
    if ':' in head {
      SplitTwo(head, ':');
    } else {
      CutNone(head, ':');
    }
    var name := Name(s);
    assert ':' !in name;
    if '/' in name {
      SplitHeadTail(name, '/');
    }
  }

  /** An explicit docker.io is the first of several components. */
  lemma HubIsFirstComponent(name: string)
    ensures HasPrefix(name, DOCKER_PREFIX) <==> '/' in name && Before(name, '/') == DOCKER_HUB
    ensures HasPrefix(name, DOCKER_PREFIX) ==> After(name, '/') == StripHub(name) && NamesRegistry(name)
  {
    assert DOCKER_HUB[6] == '.' && '/' !in DOCKER_HUB;
    if HasPrefix(name, DOCKER_PREFIX) {
      PrefixSplits(name, DOCKER_PREFIX);
      assert name == DOCKER_HUB + ['/'] + StripHub(name);
      CutAt(DOCKER_HUB, '/', StripHub(name));
    }
    if '/' in name && Before(name, '/') == DOCKER_HUB {
      PutBack(name, '/');
      assert name == DOCKER_PREFIX + After(name, '/');
      PrefixSplits(After(name, '/'), DOCKER_PREFIX);
    }
  }

  // ---- What is printed ----

  predicate DefaultRegistry(p: Parts) {
    p.registry == "" || p.registry == DOCKER_HUB
  }

  function BaseName(p: Parts): string {
    if DefaultRegistry(p) then p.repository else p.registry + "/" + p.repository
  }

  /** The four parts with their defaults. */
  function WithDefaults(p: Parts): Parts {
    Parts(if p.registry == "" then DOCKER_HUB else p.registry,
          p.repository,
          if p.tag == "" then "latest" else p.tag,
          if p.digest == "" then "" else WithSha(p.digest))
  }

  function Print(name: string, tag: string, digest: string): string {
    name + ":" + tag + Suffix(digest)
  }

  lemma NormalizeShape(p: Parts)
    ensures NormalizeImageReference(p) == Print(BaseName(p), WithDefaults(p).tag, p.digest)
  {
    var base := BaseName(p);
    assert base + ":latest" == base + ":" + "latest";
    var tagged := base + ":" + WithDefaults(p).tag;
    if p.digest == "" {
      assert tagged + "" == tagged;
    } else {
      assert tagged + "@" + WithSha(p.digest) == tagged + Suffix(p.digest);
    }
  }

  /** The four parts that make up a printed reference, letter by letter. */
  lemma PrintedForm(p: Parts)
    ensures NormalizeImageReference(p) ==
            (if p.registry == "" || p.registry == "docker.io" then "" else p.registry + "/") + p.repository
            + ":" + (if p.tag == "" then "latest" else p.tag)
            + (if p.digest == "" then "" else if HasPrefix(p.digest, "sha256:") then "@" + p.digest
               else "@sha256:" + p.digest)
  {
    var host := if p.registry == "" || p.registry == "docker.io" then "" else p.registry + "/";
    var tag := if p.tag == "" then "latest" else p.tag;
    assert BaseName(p) == host + p.repository;
    NormalizeShape(p);
    assert "@" + ("sha256:" + p.digest) == "@sha256:" + p.digest;
  }

  function Canonical(s: string): string { NormalizeImageReference(ParseImageReference(s)) }

  lemma ParsedBase(s: string)
    ensures BaseName(ParseImageReference(s)) == StripHub(Name(s))
    ensures WithDefaults(ParseImageReference(s)).tag == Tag(s)
  {
    hide ParseImageReference;
    ParseShape(s);
    var name := Name(s);
    HubIsFirstComponent(name);
    if NamesRegistry(name) {
      PutBack(name, '/');
    }
  }

  /** Normalising a parsed reference keeps its name, up to an explicit docker.io, and spells out the rest. */
  lemma CanonicalShape(s: string)
    ensures Canonical(s) == Print(StripHub(Name(s)), Tag(s), After(s, '@'))
  {
    hide ParseImageReference, NormalizeImageReference, BaseName, WithDefaults, Name, Tag, Print, StripHub;
    ParseShape(s);
    ParsedBase(s);
    NormalizeShape(ParseImageReference(s));
  }

  /** Reading a reference that was put together from clean pieces. */
  lemma ReadBack(name: string, tag: string, digest: string)
    requires ':' !in name && '@' !in name && '@' !in tag && tag != ""
    ensures var s := Print(name, tag, digest);
            && Name(s) == name && Tag(s) == tag && ':' in Before(s, '@') && After(Before(s, '@'), ':') == tag
            && After(s, '@') == (if digest == "" then "" else WithSha(digest))
  {
    var head := name + [':'] + tag;
    var s := Print(name, tag, digest);
    if digest == "" {
      assert s == head;
      CutNone(s, '@');
    } else {
      assert s == head + ['@'] + WithSha(digest);
      CutAt(head, '@', WithSha(digest));
    }
    CutAt(name, ':', tag);
  }

  lemma SuffixIdempotent(digest: string)
    ensures Suffix(if digest == "" then "" else WithSha(digest)) == Suffix(digest)
  {
    PrefixSplits(digest, SHA_PREFIX);
  }

  lemma PieceIsClean(s: string, c: char, d: char)
    requires d !in s
    ensures d !in Before(s, c) && d !in After(s, c)
  {
  }

  lemma NameIsClean(s: string)
    ensures ':' !in Name(s) && '@' !in Name(s) && '@' !in Tag(s) && Tag(s) != ""
    ensures ':' !in StripHub(Name(s)) && '@' !in StripHub(Name(s))
  {
    PieceIsClean(Before(s, '@'), ':', '@');
    assert forall c :: c in StripHub(Name(s)) ==> c in Name(s);
  }

  /** What normalising does to the pieces. */
  lemma CanonicalPieces(s: string)
    ensures Name(Canonical(s)) == StripHub(Name(s)) && Tag(Canonical(s)) == Tag(s)
    ensures Suffix(After(Canonical(s), '@')) == Suffix(After(s, '@'))
  {
    hide Canonical, Name, Tag, Print, StripHub, Suffix, WithSha;
    CanonicalShape(s);
    NameIsClean(s);
    ReadBack(StripHub(Name(s)), Tag(s), After(s, '@'));
    SuffixIdempotent(After(s, '@'));
  }

  // ---- Idempotence ----

  lemma HubTwice(s: string)
    ensures HasPrefix(StripHub(Name(s)), DOCKER_PREFIX) <==> HasPrefix(s, DOCKER_PREFIX + DOCKER_PREFIX)
  {
    var twice := DOCKER_PREFIX + DOCKER_PREFIX;
    assert ':' !in twice && '@' !in twice;
    PrefixBeforeCut(Before(s, '@'), ':', twice);
    PrefixBeforeCut(s, '@', twice);
    PrefixTwice(Name(s), DOCKER_PREFIX);
  }

  lemma SameTail(a: string, b: string, tail: string)
    ensures a + tail == b + tail <==> a == b
  {
    if a + tail == b + tail {
      assert a == (a + tail)[..|a|];
      assert b == (b + tail)[..|b|];
    }
  }

  lemma PrintTail(name: string, tag: string, digest: string)
    ensures Print(name, tag, digest) == name + (":" + tag + Suffix(digest))
  {
  }

  /** Normalising is idempotent on exactly the references that do not begin with docker.io twice: of two
      leading components docker.io only the first is dropped each time. */
  lemma IdempotentIffHubAtMostOnce(s: string)
    ensures Canonical(Canonical(s)) == Canonical(s) <==> !HasPrefix(s, DOCKER_PREFIX + DOCKER_PREFIX)
  {
    hide Canonical, Name, Tag, Print, Suffix, Before, After;
    var t := Canonical(s);
    CanonicalShape(s);
    CanonicalShape(t);
    CanonicalPieces(s);
    HubTwice(s);
    var name, tag := Name(t), Tag(t);
    PrintTail(name, tag, After(s, '@'));
    PrintTail(StripHub(name), tag, After(t, '@'));
    SameTail(StripHub(name), name, ":" + tag + Suffix(After(s, '@')));
  }

  /** How many components docker.io a string begins with. */
  function LeadingHubs(s: string): nat
    decreases |s|
  {
    if HasPrefix(s, DOCKER_PREFIX) then 1 + LeadingHubs(s[|DOCKER_PREFIX|..]) else 0
  }

  lemma BeforeSkips(a: string, b: string, c: char)
    requires c !in a
    ensures Before(a + b, c) == a + Before(b, c)
  {
    if c in b {
      PutBack(b, c);
      assert a + b == (a + Before(b, c)) + [c] + After(b, c);
      CutAt(a + Before(b, c), c, After(b, c));
    } else {
      CutNone(a + b, c);
      CutNone(b, c);
    }
  }

  lemma LeadingHubsMore(s: string)
    ensures LeadingHubs(DOCKER_PREFIX + s) == 1 + LeadingHubs(s)
  {
    PrefixSplits(s, DOCKER_PREFIX);
  }

  lemma {:induction false} LeadingHubsBeforeCut(s: string, c: char)
    requires c !in DOCKER_PREFIX
    ensures LeadingHubs(Before(s, c)) == LeadingHubs(s)
    decreases |s|
  {
    hide Before;
    PrefixBeforeCut(s, c, DOCKER_PREFIX);
    if HasPrefix(s, DOCKER_PREFIX) {
      var rest := s[|DOCKER_PREFIX|..];
      PrefixSplits(s, DOCKER_PREFIX);
      LeadingHubsBeforeCut(rest, c);
      BeforeSkips(DOCKER_PREFIX, rest, c);
      LeadingHubsMore(rest);
      LeadingHubsMore(Before(rest, c));
    }
  }

  lemma LeadingHubsOfName(s: string)
    ensures LeadingHubs(Name(s)) == LeadingHubs(s)
  {
    hide LeadingHubs;
    assert '@' !in DOCKER_PREFIX && ':' !in DOCKER_PREFIX;
    LeadingHubsBeforeCut(s, '@');
    LeadingHubsBeforeCut(Before(s, '@'), ':');
  }

  lemma CanonicalDropsOneHub(s: string)
    ensures LeadingHubs(Canonical(s)) == if LeadingHubs(s) > 0 then LeadingHubs(s) - 1 else 0
  {
    hide Canonical, Name;
    LeadingHubsOfName(s);
    LeadingHubsOfName(Canonical(s));
    CanonicalPieces(s);
  }

  function Iterate(s: string, n: nat): string {
    if n == 0 then s else Canonical(Iterate(s, n - 1))
  }

  lemma {:induction false} IterateDropsHubs(s: string, n: nat)
    ensures LeadingHubs(Iterate(s, n)) == if LeadingHubs(s) > n then LeadingHubs(s) - n else 0
  {
    hide Canonical, LeadingHubs;
    if n > 0 {
      IterateDropsHubs(s, n - 1);
      CanonicalDropsOneHub(Iterate(s, n - 1));
    }
  }

  /** Iterating reaches a fixpoint, after exactly as many rounds as there are leading components docker.io
      (one round at least, which spells out the defaults). */
  lemma FixpointAfterLeadingHubs(s: string, n: nat)
    requires n >= 1
    ensures Iterate(s, n + 1) == Iterate(s, n) <==> LeadingHubs(s) <= n
  {
    hide Canonical;
    var t := Iterate(s, n - 1);
    IterateDropsHubs(s, n - 1);
    IdempotentIffHubAtMostOnce(t);
    PrefixTwice(t, DOCKER_PREFIX);
    assert Iterate(s, n) == Canonical(t);
  }

  // ---- Round trip ----

  /** What a caller can check of the parts: no separator inside them (so no port in the registry), a dot
      in an explicit registry, and no dotted first component of the repository under the default one. */
  predicate Printable(p: Parts) {
    && ':' !in p.repository && '@' !in p.repository && '@' !in p.tag
    && (if DefaultRegistry(p) then !NamesRegistry(p.repository)
        else '.' in p.registry && '/' !in p.registry && ':' !in p.registry && '@' !in p.registry)
  }

  /** The parsed form of a printed reference whose base has no separator. */
  lemma CleanBaseReadsBack(p: Parts)
    requires ':' !in BaseName(p) && '@' !in BaseName(p) && '@' !in p.tag
    ensures var q, base := ParseImageReference(NormalizeImageReference(p)), BaseName(p);
            && q.tag == WithDefaults(p).tag && q.digest == WithDefaults(p).digest
            && (if NamesRegistry(base) then q.registry == Before(base, '/') && q.repository == After(base, '/')
                else q.registry == DOCKER_HUB && q.repository == base)
  {
    hide ParseImageReference, NormalizeImageReference, BaseName, Name, Tag, Print, WithSha, Before, After;
    NormalizeShape(p);
    ReadBack(BaseName(p), WithDefaults(p).tag, p.digest);
    ParseShape(NormalizeImageReference(p));
  }

  lemma PrintableReadsBack(p: Parts)
    requires Printable(p)
    ensures ParseImageReference(NormalizeImageReference(p)) == WithDefaults(p)
  {
    hide ParseImageReference, NormalizeImageReference, WithSha;
    CleanBaseReadsBack(p);
    if !DefaultRegistry(p) {
      assert BaseName(p) == p.registry + ['/'] + p.repository;
      CutAt(p.registry, '/', p.repository);
    }
  }

  /** The first separator c comes no later than the one at i. */
  lemma {:induction false} IndexOfAtMost(s: string, c: char, i: nat)
    requires i < |s| && s[i] == c
    ensures IndexOf(s, c) <= i
  {
    if i > 0 && s[0] != c {
      IndexOfAtMost(s[1..], c, i - 1);
    }
  }

  /** The parsed name is a prefix of the printed base, and all of it only if the base has no separator. */
  lemma ParsedNameIsShorter(name: string, tag: string, digest: string)
    requires ':' in name || '@' in name
    ensures |Name(Print(name, tag, digest))| < |name|
  {
    var s := Print(name, tag, digest);
    var head := Before(s, '@');
    if '@' in name {
      var i :| 0 <= i < |name| && name[i] == '@';
      IndexOfAtMost(s, '@', i);
    } else {
      var i :| 0 <= i < |name| && name[i] == ':';
      if i < |head| {
        IndexOfAtMost(head, ':', i);
      }
    }
  }

  /** A parsed registry and repository make up the name again, whatever the reference. */
  lemma NameRebuilds(s: string)
    ensures var p := ParseImageReference(s);
            && (p.registry != DOCKER_HUB ==> Name(s) == p.registry + "/" + p.repository && '.' in p.registry)
            && (p.registry == DOCKER_HUB ==> |p.repository| <= |Name(s)|)
            && '/' !in p.registry && '@' !in p.tag
  {
    hide ParseImageReference;
    ParseShape(s);
    var name, head := Name(s), Before(s, '@');
    assert '/' !in DOCKER_HUB && '@' !in "latest";
    PieceIsClean(head, ':', '@');
    if '/' in name {
      PutBack(name, '/');
    }
  }

  lemma OnlyCleanBaseReadsBack(p: Parts)
    requires ParseImageReference(NormalizeImageReference(p)) == WithDefaults(p)
    ensures ':' !in BaseName(p) && '@' !in BaseName(p) && '@' !in p.tag
    ensures !DefaultRegistry(p) ==> '.' in p.registry && '/' !in p.registry
  {
    hide ParseImageReference, NormalizeImageReference, Name, Print, WithSha;
    NormalizeShape(p);
    NameRebuilds(NormalizeImageReference(p));
    if ':' in BaseName(p) || '@' in BaseName(p) {
      ParsedNameIsShorter(BaseName(p), WithDefaults(p).tag, p.digest);
    }
  }

  lemma OnlyPrintableReadsBack(p: Parts)
    requires ParseImageReference(NormalizeImageReference(p)) == WithDefaults(p)
    ensures Printable(p)
  {
    hide ParseImageReference, NormalizeImageReference, WithSha;
    OnlyCleanBaseReadsBack(p);
    CleanBaseReadsBack(p);
    assert forall c :: c in p.repository ==> c in BaseName(p);
    if !DefaultRegistry(p) {
      assert forall c :: c in p.registry ==> c in BaseName(p);
    } else if NamesRegistry(p.repository) {
      PutBack(p.repository, '/');
    }
  }

  /** Parsing a printed reference gives back its four parts, up to the defaults, if and only if they are
      printable. */
  lemma RoundTripIffPrintable(p: Parts)
    ensures ParseImageReference(NormalizeImageReference(p)) == WithDefaults(p) <==> Printable(p)
  {
    hide ParseImageReference, NormalizeImageReference, WithDefaults, Printable;
    if Printable(p) {
      PrintableReadsBack(p);
    } else if ParseImageReference(NormalizeImageReference(p)) == WithDefaults(p) {
      OnlyPrintableReadsBack(p);
    }
  }

  /** A registry with a port is taken apart at the port. */
  lemma PortIsTakenForTag(host: string, rest: string)
    requires '@' !in host + ":" + rest && ':' !in host && '/' !in host
    ensures ParseImageReference(host + ":" + rest) == Parts(DOCKER_HUB, host, rest, "")
  {
    hide ParseImageReference;
    var s := host + ":" + rest;
    ParseShape(s);
    CutNone(s, '@');
    CutAt(host, ':', rest);
  }

  // ---- Validation ----

  lemma ValidityShape(s: string)
    ensures var p := ParseImageReference(s);
            && (ValidateImageReference(s) == Valid <==> s != "" && p.repository != "" && p.tag != "")
            && (ValidateImageReference(s) == EmptyReference <==> s == "")
            && (ValidateImageReference(s) == EmptyRepository <==> s != "" && p.repository == "")
            && (ValidateImageReference(s) == EmptyTag <==> s != "" && p.repository != "" && p.tag == "")
            && p.registry != ""
  {
    hide ParseImageReference;
    ParseShape(s);
  }

  /** The name docker.io, then one dotted component, then a slash with nothing after it. */
  predicate HubThenBareRegistry(name: string) {
    HasPrefix(name, DOCKER_PREFIX) && NamesRegistry(StripHub(name)) && After(StripHub(name), '/') == ""
  }

  lemma CanonicalParse(s: string)
    ensures var p := ParseImageReference(Canonical(s));
            && p.tag == Tag(s) != "" && Canonical(s) != ""
            && p.repository ==
               (if NamesRegistry(StripHub(Name(s))) then After(StripHub(Name(s)), '/') else StripHub(Name(s)))
  {
    hide ParseImageReference, Canonical, Name, Tag, StripHub, NamesRegistry, Suffix;
    CanonicalShape(s);
    NameIsClean(s);
    ReadBack(StripHub(Name(s)), Tag(s), After(s, '@'));
    ParseShape(Canonical(s));
  }

  /** A valid reference stays valid when it is normalised, but for one family: without the docker.io in
      front, what follows is read as a registry without a repository. */
  lemma ValidityKeptIff(s: string)
    requires ValidateImageReference(s) == Valid
    ensures ValidateImageReference(Canonical(s)) == Valid <==> !HubThenBareRegistry(Name(s))
  {
    hide ValidateImageReference, ParseImageReference, Canonical, Name, Tag;
    ValidityShape(s);
    ValidityShape(Canonical(s));
    ParseShape(s);
    CanonicalParse(s);
    HubIsFirstComponent(Name(s));
  }
}
