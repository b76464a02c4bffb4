/**
  * The language-code validator shared by the submit, transcription and
  * dubbing routes, `^[a-z]{2}(-[A-Z]{2})?$`: a two-letter lower-case language
  * (ISO 639-1 shape) with an optional two-letter upper-case region (ISO
  * 3166-1 alpha-2 shape), a small subset of the tags of section 2.1 of RFC 5646.
  */
module LanguageCode {
  import opened Wrappers
  import Schema

  predicate IsLower(c: char)
  {
    'a' <= c <= 'z'
  }

  predicate IsUpper(c: char)
  {
    'A' <= c <= 'Z'
  }

  /** The regular expression, anchored at both ends. */
  predicate MatchesPattern(s: string)
  {
    || (|s| == 2 && IsLower(s[0]) && IsLower(s[1]))
    || (|s| == 5 && IsLower(s[0]) && IsLower(s[1]) && s[2] == '-' && IsUpper(s[3]) && IsUpper(s[4]))
  }

  /** A code split into its subtags. */
  datatype Tag = Tag(language: string, region: Option<string>)

  predicate WellFormed(t: Tag)
  {
    && |t.language| == 2 && IsLower(t.language[0]) && IsLower(t.language[1])
    && (t.region.Some? ==> |t.region.value| == 2 && IsUpper(t.region.value[0]) && IsUpper(t.region.value[1]))
  }

  function Format(t: Tag): (s: string)
    requires WellFormed(t)
    ensures MatchesPattern(s)
    ensures |s| == if t.region.Some? then 5 else 2
  {
    if t.region.Some? then t.language + "-" + t.region.value else t.language
  }

  /** Splits a code the pattern accepts; rejects every other string. */
  function Parse(s: string): (r: Option<Tag>)
    ensures r.Some? <==> MatchesPattern(s)
    ensures r.Some? ==> WellFormed(r.value) && Format(r.value) == s
  {
    if |s| == 2 && IsLower(s[0]) && IsLower(s[1]) then Some(Tag(s, None))
    else if |s| == 5 && IsLower(s[0]) && IsLower(s[1]) && s[2] == '-' && IsUpper(s[3]) && IsUpper(s[4]) then
      assert s == s[..2] + "-" + s[3..];
      Some(Tag(s[..2], Some(s[3..])))
    else None
  }

  lemma ParseFormat(t: Tag)
    requires WellFormed(t)
    ensures Parse(Format(t)) == Some(t)
  {
    var s := Format(t);
    if t.region.Some? {
      assert s[..2] == t.language && s[3..] == t.region.value;
    }
  }

  /** Every accepted code fits the 10-character language columns of the MySQL schema. */
  lemma AcceptedCodeFitsColumn(s: string)
    requires MatchesPattern(s)
    ensures |s| <= Schema.LanguageMaxLength
  {
  }

  lemma PatternExamples()
    ensures MatchesPattern("en-US") && MatchesPattern("pt")
    ensures !MatchesPattern("invalid-lang") && !MatchesPattern("EN-us") && !MatchesPattern("en-")
  {
  }
}
