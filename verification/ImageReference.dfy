/** The webhook's pattern for image references, as a grammar with unique readings. */
module ImageReference {
  import opened Text
  import opened Regex
  import opened Names

  predicate Separator(c: char) { c == '.' || c == '_' || c == '-' }
  predicate Word(c: char) { 'a' <= c <= 'z' || 'A' <= c <= 'Z' || '0' <= c <= '9' || c == '_' }
  predicate TagChar(c: char) { Word(c) || c == '.' || c == '-' }
  predicate DigestChar(c: char) { 'a' <= c <= 'z' || 'A' <= c <= 'Z' || '0' <= c <= '9' || c == ':' }

  /** [a-z0-9]+(?:[._-][a-z0-9]+)* */
  const UNIT := Cat(Chars(Separator), Plus(Chars(LetterOrDigit)))
  const TAIL := Star(UNIT)
  const COMPONENT := Cat(Plus(Chars(LetterOrDigit)), TAIL)

  /** (component/)* component (:tag)? (@digest)? */
  const PATH := Star(Cat(COMPONENT, One('/')))
  const TAG := Cat(One(':'), Cat(Chars(Word), Star(Chars(TagChar))))
  const DIGEST := Cat(One('@'), Plus(Chars(DigestChar)))
  const MARKS := Cat(Opt(TAG), Opt(DIGEST))
  const IMAGE := Cat(PATH, Cat(COMPONENT, MARKS))

  // ---------------------------------------------------------------- one component

  /** Letters, digits and single separators, with a letter or digit at both ends. */
  predicate IsComponent(s: string) {
    && s != [] && LetterOrDigit(s[0]) && LetterOrDigit(s[|s| - 1])
    && (forall i :: 0 <= i < |s| ==> LetterOrDigit(s[i]) || Separator(s[i]))
    && (forall i :: 0 < i < |s| ==> !(Separator(s[i - 1]) && Separator(s[i])))
  }

  lemma ComponentJoins(word: string, rest: string)
    requires word != [] && All(LetterOrDigit, word)
    requires rest == [] || (Separator(rest[0]) && IsComponent(rest[1..]))
    ensures IsComponent(word + rest)
  {
    var s := word + rest;
    assert forall i :: 0 <= i < |word| ==> s[i] == word[i];
    assert forall i :: |word| < i < |s| ==> s[i] == rest[1..][i - |word| - 1];
  }

  /** The leading word of a component, and what follows it. */
  lemma {:induction false} ComponentSplits(s: string) returns (k: nat)
    requires IsComponent(s)
    ensures 0 < k <= |s| && All(LetterOrDigit, s[..k])
    ensures k < |s| ==> Separator(s[k]) && IsComponent(s[k + 1..])
  {
    k := 1;
    while k < |s| && LetterOrDigit(s[k])
      invariant 0 < k <= |s| && All(LetterOrDigit, s[..k])
    {
      k := k + 1;
    }
    if k < |s| {
      var t := s[k + 1..];
      assert !Separator(s[k + 1]);
      assert forall i :: 0 <= i < |t| ==> t[i] == s[k + 1 + i];
    }
  }

  /** One separator and a word. */
  lemma UnitLanguage(s: string)
    ensures Matches(UNIT, s) <==> s != [] && Separator(s[0]) && s[1..] != [] && All(LetterOrDigit, s[1..])
  {
    CharsThen(Separator, Plus(Chars(LetterOrDigit)), s);
    if s != [] { PlusOfChars(LetterOrDigit, s[1..]); }
  }

  /** What may follow a word: nothing, or a separator and a component. */
  predicate IsTail(s: string) {
    s == [] || (Separator(s[0]) && IsComponent(s[1..]))
  }

  lemma {:induction false} TailReads(s: string)
    requires Matches(TAIL, s)
    ensures IsTail(s)
    decreases |s|
  {
    if s != [] {
      var i := StarSplits(UNIT, s);
      UnitLanguage(s[..i]);
      TailReads(s[i..]);
      ComponentJoins(s[..i][1..], s[i..]);
      assert s[1..] == s[..i][1..] + s[i..];
    }
  }

  lemma {:induction false} TailAccepted(s: string)
    requires IsTail(s)
    ensures Matches(TAIL, s)
    decreases |s|
  {
    if s != [] {
      var k := ComponentSplits(s[1..]);
      var head, rest := s[..k + 1], s[k + 1..];
      assert head[1..] == s[1..][..k];
      UnitLanguage(head);
      assert k < |s[1..]| ==> rest[0] == s[1..][k] && rest[1..] == s[1..][k + 1..];
      TailAccepted(rest);
      StarMatches(UNIT, head, rest);
      assert head + rest == s;
    }
  }

  lemma ComponentReads(s: string)
    requires Matches(COMPONENT, s)
    ensures IsComponent(s)
  {
    var i := CatSplits(Plus(Chars(LetterOrDigit)), TAIL, s);
    PlusOfChars(LetterOrDigit, s[..i]);
    TailReads(s[i..]);
    ComponentJoins(s[..i], s[i..]);
    assert s == s[..i] + s[i..];
  }

  lemma ComponentAccepted(s: string)
    requires IsComponent(s)
    ensures Matches(COMPONENT, s)
  {
    var k := ComponentSplits(s);
    PlusOfChars(LetterOrDigit, s[..k]);
    assert k < |s| ==> s[k..][0] == s[k] && s[k..][1..] == s[k + 1..];
    TailAccepted(s[k..]);
    CatMatches(Plus(Chars(LetterOrDigit)), TAIL, s[..k], s[k..]);
    assert s == s[..k] + s[k..];
  }

  /** The component pattern accepts exactly the components. */
  lemma ComponentLanguage(s: string)
    ensures Matches(COMPONENT, s) <==> IsComponent(s)
  {
    if Matches(COMPONENT, s) { ComponentReads(s); }
    if IsComponent(s) { ComponentAccepted(s); }
  }

  // ---------------------------------------------------------------- whole references

  datatype Reference = Reference(components: seq<string>, tag: Option<string>, digest: Option<string>)

  predicate IsTag(t: string) {
    t != [] && Word(t[0]) && All(TagChar, t)
  }

  predicate IsDigest(d: string) {
    d != [] && All(DigestChar, d)
  }

  predicate WellFormed(r: Reference) {
    && r.components != [] && (forall c :: c in r.components ==> IsComponent(c))
    && (r.tag.Some? ==> IsTag(r.tag.value)) && (r.digest.Some? ==> IsDigest(r.digest.value))
  }

  function Suffix(mark: char, part: Option<string>): string {
    match part
    case None => ""
    case Some(p) => [mark] + p
  }

  function Print(r: Reference): string {
    Join(r.components, '/') + (Suffix(':', r.tag) + Suffix('@', r.digest))
  }

  function Slashed(components: seq<string>): string {
    if components == [] then "" else components[0] + "/" + Slashed(components[1..])
  }

  lemma {:induction false} JoinOfSlashed(front: seq<string>, last: string)
    ensures Join(front + [last], '/') == Slashed(front) + last
  {
    if front == [] {
      assert front + [last] == [last];
    } else {
      JoinOfSlashed(front[1..], last);
      assert (front + [last])[1..] == front[1..] + [last];
    }
  }

  lemma {:induction false} PathReads(s: string) returns (front: seq<string>)
    requires Matches(PATH, s)
    ensures s == Slashed(front) && forall c :: c in front ==> IsComponent(c)
    decreases |s|
  {
    if s == [] { return []; }
    var i := StarSplits(Cat(COMPONENT, One('/')), s);
    ThenChars(COMPONENT, x => x == '/', s[..i]);
    var c := s[..i][..i - 1];
    ComponentLanguage(c);
    var rest := PathReads(s[i..]);
    front := [c] + rest;
    assert s == c + "/" + s[i..];
  }

  lemma {:induction false} PathMatches(front: seq<string>)
    requires forall c :: c in front ==> IsComponent(c)
    ensures Matches(PATH, Slashed(front))
  {
    if front != [] {
      ComponentLanguage(front[0]);
      CatMatches(COMPONENT, One('/'), front[0], "/");
      PathMatches(front[1..]);
      StarMatches(Cat(COMPONENT, One('/')), front[0] + "/", Slashed(front[1..]));
    }
  }

  lemma TagLanguage(s: string)
    ensures Matches(Opt(TAG), s) <==> s == [] || (s[0] == ':' && IsTag(s[1..]))
  {
    if s != [] {
      CharsThen(x => x == ':', Cat(Chars(Word), Star(Chars(TagChar))), s);
      var t := s[1..];
      CharsThen(Word, Star(Chars(TagChar)), t);
      if t != [] {
        StarOfChars(TagChar, t[1..]);
        assert forall i :: 0 < i < |t| ==> t[i] == t[1..][i - 1];
      }
    }
  }

  lemma DigestLanguage(s: string)
    ensures Matches(Opt(DIGEST), s) <==> s == [] || (s[0] == '@' && IsDigest(s[1..]))
  {
    if s != [] {
      CharsThen(x => x == '@', Plus(Chars(DigestChar)), s);
      PlusOfChars(DigestChar, s[1..]);
    }
  }

  lemma MarksRead(u: string) returns (tag: Option<string>, digest: Option<string>)
    requires Matches(MARKS, u)
    ensures u == Suffix(':', tag) + Suffix('@', digest)
    ensures (tag.Some? ==> IsTag(tag.value)) && (digest.Some? ==> IsDigest(digest.value))
  {
    var k := CatSplits(Opt(TAG), Opt(DIGEST), u);
    TagLanguage(u[..k]);
    DigestLanguage(u[k..]);
    tag := if k == 0 then None else Some(u[..k][1..]);
    digest := if k == |u| then None else Some(u[k..][1..]);
  }

  lemma MarksAccepted(tag: Option<string>, digest: Option<string>)
    requires (tag.Some? ==> IsTag(tag.value)) && (digest.Some? ==> IsDigest(digest.value))
    ensures Matches(MARKS, Suffix(':', tag) + Suffix('@', digest))
  {
    var t, d := Suffix(':', tag), Suffix('@', digest);
    assert tag.Some? ==> t[1..] == tag.value;
    assert digest.Some? ==> d[1..] == digest.value;
    TagLanguage(t);
    DigestLanguage(d);
    CatMatches(Opt(TAG), Opt(DIGEST), t, d);
  }

  lemma PrintPieces(front: seq<string>, last: string, tag: Option<string>, digest: Option<string>)
    ensures Print(Reference(front + [last], tag, digest)) == Slashed(front) + (last + (Suffix(':', tag) + Suffix('@', digest)))
  {
    JoinOfSlashed(front, last);
  }

  /** What follows the path: the last component and the marks. */
  lemma LastReads(t: string) returns (last: string, tag: Option<string>, digest: Option<string>)
    requires Matches(Cat(COMPONENT, MARKS), t)
    ensures IsComponent(last) && t == last + (Suffix(':', tag) + Suffix('@', digest))
    ensures (tag.Some? ==> IsTag(tag.value)) && (digest.Some? ==> IsDigest(digest.value))
  {
    var j := CatSplits(COMPONENT, MARKS, t);
    last := t[..j];
    ComponentLanguage(last);
    tag, digest := MarksRead(t[j..]);
    assert t == t[..j] + t[j..];
  }

  /** Every accepted reference reads as components, optional tag and optional digest; printing the parts
      gives it back. */
  lemma AcceptedReads(s: string) returns (r: Reference)
    requires Matches(IMAGE, s)
    ensures WellFormed(r) && Print(r) == s
  {
    var i := CatSplits(PATH, Cat(COMPONENT, MARKS), s);
    var front := PathReads(s[..i]);
    var last, tag, digest := LastReads(s[i..]);
    r := Reference(front + [last], tag, digest);
    PrintPieces(front, last, tag, digest);
    assert s == s[..i] + s[i..];
  }

  /** Conversely every printed well-formed reference is accepted. */
  lemma PrintedAccepted(r: Reference)
    requires WellFormed(r)
    ensures Matches(IMAGE, Print(r))
  {
    var n := |r.components| - 1;
    var front, last := r.components[..n], r.components[n];
    assert r.components == front + [last];
    PrintPieces(front, last, r.tag, r.digest);
    PathMatches(front);
    ComponentLanguage(last);
    var marks := Suffix(':', r.tag) + Suffix('@', r.digest);
    MarksAccepted(r.tag, r.digest);
    CatMatches(COMPONENT, MARKS, last, marks);
    CatMatches(PATH, Cat(COMPONENT, MARKS), Slashed(front), last + marks);
  }

  // ---------------------------------------------------------------- readings are unique

  lemma CutNotShorter(a: string, part: Option<string>, a': string, part': Option<string>, mark: char)
    requires Free(a', mark) && a + Suffix(mark, part) == a' + Suffix(mark, part')
    ensures |a| >= |a'|
  {
    var s := a + Suffix(mark, part);
    assert forall i :: 0 <= i < |a'| ==> s[i] == a'[i];
    assert part.Some? ==> s[|a|] == mark;
  }

  /** Where the front part is free of the mark, the mark tells the two parts apart. */
  lemma CutIsUnique(a: string, part: Option<string>, a': string, part': Option<string>, mark: char)
    requires Free(a, mark) && Free(a', mark) && a + Suffix(mark, part) == a' + Suffix(mark, part')
    ensures a == a' && part == part'
  {
    CutNotShorter(a, part, a', part', mark);
    CutNotShorter(a', part', a, part, mark);
    var s := a + Suffix(mark, part);
    assert a == s[..|a|] && a' == s[..|a|];
    assert Suffix(mark, part) == s[|a|..] && Suffix(mark, part') == s[|a|..];
    assert part.Some? ==> Suffix(mark, part)[1..] == part.value;
    assert part'.Some? ==> Suffix(mark, part')[1..] == part'.value;
  }

  lemma {:induction false} JoinFree(components: seq<string>, c: char)
    requires forall x :: x in components ==> IsComponent(x)
    requires c == ':' || c == '@'
    ensures Free(Join(components, '/'), c)
  {
    if |components| > 0 {
      assert components[0] in components;
      JoinFree(components[1..], c);
    }
  }

  lemma ComponentsSlashFree(components: seq<string>)
    requires forall x :: x in components ==> IsComponent(x)
    ensures forall i :: 0 <= i < |components| ==> Free(components[i], '/')
  {
    forall i | 0 <= i < |components| ensures Free(components[i], '/') {
      assert components[i] in components;
    }
  }

  lemma Regroup(a: string, b: string, c: string)
    ensures a + b + c == a + (b + c)
  {
  }

  /** What stands before the digest holds no '@'. */
  lemma FrontFree(path: string, tag: Option<string>)
    requires Free(path, '@') && (tag.Some? ==> IsTag(tag.value))
    ensures Free(path + Suffix(':', tag), '@')
  {
  }

  /** Of a printed path and what follows it, the marks tell path, tag and digest apart. */
  lemma MarksAreUnique(path: string, tag: Option<string>, digest: Option<string>,
                       path': string, tag': Option<string>, digest': Option<string>)
    requires Free(path, ':') && Free(path, '@') && Free(path', ':') && Free(path', '@')
    requires (tag.Some? ==> IsTag(tag.value)) && (tag'.Some? ==> IsTag(tag'.value))
    requires path + (Suffix(':', tag) + Suffix('@', digest)) == path' + (Suffix(':', tag') + Suffix('@', digest'))
    ensures path == path' && tag == tag' && digest == digest'
  {
    var front, front' := path + Suffix(':', tag), path' + Suffix(':', tag');
    FrontFree(path, tag);
    FrontFree(path', tag');
    Regroup(path, Suffix(':', tag), Suffix('@', digest));
    Regroup(path', Suffix(':', tag'), Suffix('@', digest'));
    CutIsUnique(front, digest, front', digest', '@');
    CutIsUnique(path, tag, path', tag', ':');
  }

  /** A path of components splits in one way. */
  lemma PathIsUnique(components: seq<string>, components': seq<string>)
    requires components != [] && forall c :: c in components ==> IsComponent(c)
    requires components' != [] && forall c :: c in components' ==> IsComponent(c)
    requires Join(components, '/') == Join(components', '/')
    ensures components == components'
  {
    ComponentsSlashFree(components);
    ComponentsSlashFree(components');
    SplitUndoesJoin(components, '/');
    SplitUndoesJoin(components', '/');
  }

  /** Two well-formed references that print alike are the same: every accepted string has one reading. */
  lemma ReadingIsUnique(r: Reference, r': Reference)
    requires WellFormed(r) && WellFormed(r') && Print(r) == Print(r')
    ensures r == r'
  {
    JoinFree(r.components, ':');
    JoinFree(r.components, '@');
    JoinFree(r'.components, ':');
    JoinFree(r'.components, '@');
    MarksAreUnique(Join(r.components, '/'), r.tag, r.digest, Join(r'.components, '/'), r'.tag, r'.digest);
    PathIsUnique(r.components, r'.components);
  }

  // ---------------------------------------------------------------- character by character

  lemma ComponentsSpelledOut(s: string)
    ensures Matches(COMPONENT, s) <==>
            && s != [] && s[0] !in {'.', '_', '-'} && s[|s| - 1] !in {'.', '_', '-'}
            && (forall i :: 0 <= i < |s| ==> 'a' <= s[i] <= 'z' || '0' <= s[i] <= '9' || s[i] in {'.', '_', '-'})
            && (forall i :: 0 < i < |s| ==> !(s[i - 1] in {'.', '_', '-'} && s[i] in {'.', '_', '-'}))
  {
    ComponentLanguage(s);
  }

  lemma TagsSpelledOut(t: string)
    ensures Matches(Opt(TAG), ":" + t) <==>
            && t != [] && t[0] != '.' && t[0] != '-'
            && forall i :: 0 <= i < |t| ==>
                 'a' <= t[i] <= 'z' || 'A' <= t[i] <= 'Z' || '0' <= t[i] <= '9' || t[i] in {'.', '_', '-'}
  {
    TagLanguage(":" + t);
    assert (":" + t)[1..] == t;
  }

  lemma DigestsSpelledOut(d: string)
    ensures Matches(Opt(DIGEST), "@" + d) <==>
            && d != []
            && forall i :: 0 <= i < |d| ==> 'a' <= d[i] <= 'z' || 'A' <= d[i] <= 'Z' || '0' <= d[i] <= '9' || d[i] == ':'
  {
    DigestLanguage("@" + d);
    assert ("@" + d)[1..] == d;
  }

  lemma ReleasedImageParts()
    ensures IsComponent("apache") && IsComponent("seata-server") && IsTag("1.8.0") && IsDigest("sha256:0a9")
  {
  }

  lemma ReleasedImagePrints()
    ensures Print(Reference(["apache", "seata-server"], Some("1.8.0"), Some("sha256:0a9"))) == "apache/seata-server:1.8.0@sha256:0a9"
  {
    var components := ["apache", "seata-server"];
    assert components[1..] == ["seata-server"];
    assert Join(components[1..], '/') == "seata-server";
    assert Join(components, '/') == "apache/seata-server";
  }

  /** A released image with a version and a digest is accepted. */
  lemma VersionedImageAccepted()
    ensures Matches(IMAGE, "apache/seata-server:1.8.0@sha256:0a9")
  {
    var r := Reference(["apache", "seata-server"], Some("1.8.0"), Some("sha256:0a9"));
    ReleasedImageParts();
    ReleasedImagePrints();
    PrintedAccepted(r);
  }

  // ---------------------------------------------------------------- no registry port

  /** Behind the path no slash occurs. */
  lemma MarksSlashFree(tag: Option<string>, digest: Option<string>)
    requires (tag.Some? ==> IsTag(tag.value)) && (digest.Some? ==> IsDigest(digest.value))
    ensures Free(Suffix(':', tag) + Suffix('@', digest), '/')
  {
  }

  /** No colon occurs in the path, so none before a slash. */
  lemma NoSlashBehindColon(r: Reference, i: nat, j: nat)
    requires WellFormed(r) && i < j < |Print(r)| && Print(r)[i] == ':'
    ensures Print(r)[j] != '/'
  {
    var path, marks := Join(r.components, '/'), Suffix(':', r.tag) + Suffix('@', r.digest);
    JoinFree(r.components, ':');
    MarksSlashFree(r.tag, r.digest);
    assert forall k :: 0 <= k < |path| ==> Print(r)[k] == path[k];
    assert Print(r)[j] == marks[j - |path|];
  }

  /** A reference with a colon somewhere before a slash, as a registry with a port has it, is never accepted. */
  lemma RegistryPortRejected(s: string, i: nat, j: nat)
    requires i < j < |s| && s[i] == ':' && s[j] == '/'
    ensures !Matches(IMAGE, s)
  {
    if Matches(IMAGE, s) {
      var r := AcceptedReads(s);
      NoSlashBehindColon(r, i, j);
      assert false;
    }
  }

  /** Such a reference, which container runtimes take. */
  lemma LocalRegistryRejected()
    ensures !Matches(IMAGE, "localhost:5000/apache/seata-server")
  {
    var s := "localhost:5000/apache/seata-server";
    assert s[9] == ':' && s[14] == '/';
    RegistryPortRejected(s, 9, 14);
  }
}
