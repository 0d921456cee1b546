/** The webhook's patterns for service names and environment variable names, as languages. */
module Names {
  import opened Text
  import opened Regex

  predicate Lower(c: char) { 'a' <= c <= 'z' }
  predicate LetterOrDigit(c: char) { 'a' <= c <= 'z' || '0' <= c <= '9' }
  predicate LabelChar(c: char) { c == '-' || LetterOrDigit(c) }
  predicate EnvHead(c: char) { 'A' <= c <= 'Z' || 'a' <= c <= 'z' || c == '_' }
  predicate EnvTail(c: char) { EnvHead(c) || '0' <= c <= '9' }

  /** ^[a-z]([-a-z0-9]*[a-z0-9])?$ */
  const LABEL := Cat(Chars(Lower), Opt(Cat(Star(Chars(LabelChar)), Chars(LetterOrDigit))))

  /** ^[A-Za-z_][A-Za-z0-9_]*$ */
  const ENV_NAME := Cat(Chars(EnvHead), Star(Chars(EnvTail)))

  /** A lower-case label in the sense of section 2.3.1 of RFC 1035. */
  predicate IsLabel(s: string) {
    && 1 <= |s| <= 63 && Lower(s[0]) && s[|s| - 1] != '-'
    && forall i :: 0 <= i < |s| ==> LabelChar(s[i])
  }

  lemma LabelShape(s: string)
    ensures Matches(LABEL, s) <==> s != [] && Lower(s[0]) && s[|s| - 1] != '-' && All(LabelChar, s)
  {
    var tail := Cat(Star(Chars(LabelChar)), Chars(LetterOrDigit));
    CharsThen(Lower, Opt(tail), s);
    if s != [] {
      var t := s[1..];
      ThenChars(Star(Chars(LabelChar)), LetterOrDigit, t);
      if t != [] { StarOfChars(LabelChar, t[..|t| - 1]); }
      assert forall i :: 0 < i < |s| ==> s[i] == t[i - 1];
      assert forall i :: 0 <= i < |t| - 1 ==> t[..|t| - 1][i] == t[i];
    }
  }

  /** Pattern and length test together accept exactly the labels. */
  lemma LabelLanguage(s: string)
    ensures Matches(LABEL, s) && |s| <= 63 <==> IsLabel(s)
  {
    LabelShape(s);
  }

  /** The same, character by character. */
  lemma LabelsSpelledOut(s: string)
    ensures Matches(LABEL, s) && |s| <= 63 <==>
            && 1 <= |s| <= 63 && 'a' <= s[0] <= 'z' && s[|s| - 1] != '-'
            && forall i :: 0 <= i < |s| ==> 'a' <= s[i] <= 'z' || '0' <= s[i] <= '9' || s[i] == '-'
  {
    LabelLanguage(s);
  }

  /** No label holds a character that an address is cut at, so membership lists of accepted names read back. */
  lemma LabelsAreSeparatorFree(s: string)
    requires IsLabel(s)
    ensures Free(s, ',') && Free(s, '.') && Free(s, ':')
  {
  }

  lemma EnvNameLanguage(s: string)
    ensures Matches(ENV_NAME, s) <==> s != [] && EnvHead(s[0]) && All(EnvTail, s)
  {
    CharsThen(EnvHead, Star(Chars(EnvTail)), s);
    if s != [] {
      StarOfChars(EnvTail, s[1..]);
      assert forall i :: 0 < i < |s| ==> s[i] == s[1..][i - 1];
    }
  }

  /** The same, character by character. */
  lemma EnvNamesSpelledOut(s: string)
    ensures Matches(ENV_NAME, s) <==>
            && s != [] && !('0' <= s[0] <= '9')
            && forall i :: 0 <= i < |s| ==> 'a' <= s[i] <= 'z' || 'A' <= s[i] <= 'Z' || '0' <= s[i] <= '9' || s[i] == '_'
  {
    EnvNameLanguage(s);
  }

  /** The console credentials the reconciler looks up are not names the webhook would let through. */
  lemma DottedNamesRejected(s: string)
    requires !Free(s, '.')
    ensures !Matches(ENV_NAME, s)
  {
    EnvNameLanguage(s);
  }
}
