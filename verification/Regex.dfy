/** Regular expressions with their textbook meaning, anchored at both ends, and the facts about
    character classes that the webhook's patterns are analysed with. */
module Regex {
  datatype Regex =
    | Empty
    | Chars(accepts: char -> bool)
    | Cat(first: Regex, second: Regex)
    | Opt(body: Regex)
    | Star(body: Regex)

  function Plus(r: Regex): Regex {
    Cat(r, Star(r))
  }

  function One(c: char): Regex {
    Chars(x => x == c)
  }

  predicate Matches(r: Regex, s: string)
    decreases r, |s|
  {
    match r
    case Empty => s == []
    case Chars(accepts) => |s| == 1 && accepts(s[0])
    case Cat(first, second) => exists i :: 0 <= i <= |s| && Matches(first, s[..i]) && Matches(second, s[i..])
    case Opt(body) => s == [] || Matches(body, s)
    case Star(body) => s == [] || exists i :: 0 < i <= |s| && Matches(body, s[..i]) && Matches(r, s[i..])
  }

  predicate All(accepts: char -> bool, s: string) {
    forall i :: 0 <= i < |s| ==> accepts(s[i])
  }

  lemma CatMatches(first: Regex, second: Regex, a: string, b: string)
    requires Matches(first, a) && Matches(second, b)
    ensures Matches(Cat(first, second), a + b)
  {
    assert (a + b)[..|a|] == a && (a + b)[|a|..] == b;
  }

  lemma StarMatches(body: Regex, a: string, b: string)
    requires Matches(body, a) && Matches(Star(body), b)
    ensures Matches(Star(body), a + b)
  {
    if a == [] {
      assert a + b == b;
    } else {
      assert (a + b)[..|a|] == a && (a + b)[|a|..] == b;
    }
  }

  lemma CatSplits(first: Regex, second: Regex, s: string) returns (i: nat)
    requires Matches(Cat(first, second), s)
    ensures i <= |s| && Matches(first, s[..i]) && Matches(second, s[i..])
  {
    i :| 0 <= i <= |s| && Matches(first, s[..i]) && Matches(second, s[i..]);
  }

  lemma StarSplits(body: Regex, s: string) returns (i: nat)
    requires s != [] && Matches(Star(body), s)
    ensures 0 < i <= |s| && Matches(body, s[..i]) && Matches(Star(body), s[i..])
  {
    i :| 0 < i <= |s| && Matches(body, s[..i]) && Matches(Star(body), s[i..]);
  }

  lemma {:induction false} StarOfChars(accepts: char -> bool, s: string)
    ensures Matches(Star(Chars(accepts)), s) <==> All(accepts, s)
  {
    if s != [] {
      StarOfChars(accepts, s[1..]);
      if All(accepts, s) {
        StarMatches(Chars(accepts), s[..1], s[1..]);
        assert s[..1] + s[1..] == s;
      }
      if Matches(Star(Chars(accepts)), s) {
        var i :| 0 < i <= |s| && Matches(Chars(accepts), s[..i]) && Matches(Star(Chars(accepts)), s[i..]);
        assert i == 1;
        assert forall j :: 0 < j < |s| ==> s[j] == s[1..][j - 1];
      }
    }
  }

  /** A character in front of a pattern. */
  lemma CharsThen(accepts: char -> bool, r: Regex, s: string)
    ensures Matches(Cat(Chars(accepts), r), s) <==> s != [] && accepts(s[0]) && Matches(r, s[1..])
  {
    if Matches(Cat(Chars(accepts), r), s) {
      var i :| 0 <= i <= |s| && Matches(Chars(accepts), s[..i]) && Matches(r, s[i..]);
      assert i == 1;
    }
    if s != [] && accepts(s[0]) && Matches(r, s[1..]) {
      CatMatches(Chars(accepts), r, s[..1], s[1..]);
      assert s[..1] + s[1..] == s;
    }
  }

  lemma OneChar(accepts: char -> bool, s: string)
    ensures Matches(Chars(accepts), s) <==> |s| == 1 && accepts(s[0])
  {
  }

  /** A character behind a pattern. */
  lemma ThenChars(r: Regex, accepts: char -> bool, s: string)
    ensures Matches(Cat(r, Chars(accepts)), s) <==> s != [] && accepts(s[|s| - 1]) && Matches(r, s[..|s| - 1])
  {
    if Matches(Cat(r, Chars(accepts)), s) {
      var i := CatSplits(r, Chars(accepts), s);
      OneChar(accepts, s[i..]);
    }
    if s != [] && accepts(s[|s| - 1]) && Matches(r, s[..|s| - 1]) {
      OneChar(accepts, s[|s| - 1..]);
      CatMatches(r, Chars(accepts), s[..|s| - 1], s[|s| - 1..]);
      assert s[..|s| - 1] + s[|s| - 1..] == s;
    }
  }

  lemma PlusOfChars(accepts: char -> bool, s: string)
    ensures Matches(Plus(Chars(accepts)), s) <==> s != [] && All(accepts, s)
  {
    CharsThen(accepts, Star(Chars(accepts)), s);
    if s != [] {
      StarOfChars(accepts, s[1..]);
      assert forall j :: 0 < j < |s| ==> s[j] == s[1..][j - 1];
    }
  }
}
