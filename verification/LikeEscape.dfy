/**
  The title search: publicTitlePattern (backend/repository/video_repository.go) and the LIKE predicate with
  ESCAPE '\' of section 8.5 of ISO/IEC 9075:1992. Titles and queries are taken as already lower-cased.
 */
module LikeEscape {

  const BACKSLASH: char := '\\'

  predicate IsSpecial(c: char) {
    c == BACKSLASH || c == '%' || c == '_'
  }

  /** The replacer of publicTitlePattern, character by character. */
  function Escaped(query: string): string {
    if query == "" then ""
    else (if IsSpecial(query[0]) then [BACKSLASH, query[0]] else [query[0]]) + Escaped(query[1..])
  }

  function TitlePattern(query: string): string {
    "%" + Escaped(query) + "%"
  }

  // Every escape character is followed by a character that needs escaping; anything else is an error of LIKE.
  predicate WellFormed(pattern: string) {
    pattern == ""
    || (if pattern[0] == BACKSLASH then |pattern| >= 2 && IsSpecial(pattern[1]) && WellFormed(pattern[2..])
        else WellFormed(pattern[1..]))
  }

  /** `text LIKE pattern ESCAPE '\'`: % stands for any characters, _ for one, an escaped character for itself. */
  predicate Like(text: string, pattern: string)
    requires WellFormed(pattern)
    decreases |pattern|
  {
    if pattern == "" then text == ""
    else if pattern[0] == BACKSLASH then text != "" && text[0] == pattern[1] && Like(text[1..], pattern[2..])
    else if pattern[0] == '%' then exists n :: 0 <= n <= |text| && Like(text[n..], pattern[1..])
    else if pattern[0] == '_' then text != "" && Like(text[1..], pattern[1..])
    else text != "" && text[0] == pattern[0] && Like(text[1..], pattern[1..])
  }

  // `query` occurs in `text` as consecutive characters.
  predicate Contains(text: string, query: string) {
    exists n :: 0 <= n <= |text| && query <= text[n..]
  }

  lemma AnythingMatches(text: string)
    ensures WellFormed("%") && Like(text, "%")
  {
    assert "%"[1..] == "";
    assert text[|text|..] == "";
    assert Like(text[|text|..], "");
  }

  lemma {:induction false} EscapedWellFormed(query: string)
    ensures WellFormed(Escaped(query) + "%")
  {
    var rest := Escaped(query) + "%";
    if query == "" {
      assert rest == "%" && rest[1..] == "";
    } else {
      EscapedWellFormed(query[1..]);
      if IsSpecial(query[0]) {
        assert rest[0] == BACKSLASH && rest[1] == query[0] && rest[2..] == Escaped(query[1..]) + "%";
      } else {
        assert rest[0] == query[0] && rest[1..] == Escaped(query[1..]) + "%";
      }
    }
  }

  /** Escaping takes the meaning out of every character: what matches are the texts that start with the query. */
  lemma {:induction false} EscapedMatchesPrefix(text: string, query: string)
    requires WellFormed(Escaped(query) + "%")
    ensures Like(text, Escaped(query) + "%") <==> query <= text
  {
    var rest := Escaped(query) + "%";
    if query == "" {
      assert rest == "%";
      AnythingMatches(text);
    } else {
      EscapedWellFormed(query[1..]);
      if IsSpecial(query[0]) {
        assert rest[0] == BACKSLASH && rest[1] == query[0] && rest[2..] == Escaped(query[1..]) + "%";
      } else {
        assert rest[0] == query[0] && rest[1..] == Escaped(query[1..]) + "%";
      }
      if text != "" {
        EscapedMatchesPrefix(text[1..], query[1..]);
        assert query <= text <==> query[0] == text[0] && query[1..] <= text[1..];
      }
    }
  }

  /** The title search is exact: the pattern matches if and only if the query is a contiguous part of the title. */
  lemma TitlePatternIsExact(title: string, query: string)
    ensures WellFormed(TitlePattern(query))
    ensures Like(title, TitlePattern(query)) <==> Contains(title, query)
  {
    var pattern := TitlePattern(query);
    EscapedWellFormed(query);
    assert pattern[0] == '%' && pattern[1..] == Escaped(query) + "%";
    forall n | 0 <= n <= |title|
      ensures Like(title[n..], pattern[1..]) <==> query <= title[n..]
    {
      EscapedMatchesPrefix(title[n..], query);
    }
  }
}
