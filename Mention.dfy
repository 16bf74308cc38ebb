/** The user-text extraction of api/slack.js: the event text with its first
    user mention removed and the rest trimmed: the text's `replace` with the
    regular expression `<@[^>]+>\s*` and the empty string, then `trim()`.

    The pattern is not anchored and has no `g` flag, so only the leftmost match
    is removed. A match starting at `i` needs "<@" at `i` and a '>' at some
    `j > i + 2` with no '>' in between (`[^>]+` cannot step over a '>'), so the
    '>' is the first one after the "<@"; the greedy `\s*` then takes the whole
    run of white space after it. */
module Mention {

  import opened Js
  import opened JsString

  /** A mention opens with "<@" at `i` and closes with the first '>' after it,
      at `j`, with at least one character in between. */
  ghost predicate Bracketed(s: string, i: int, j: int) {
    0 <= i && i + 2 < j < |s| && s[i] == '<' && s[i + 1] == '@' && s[j] == '>' &&
    forall k :: i + 2 <= k < j ==> s[k] != '>'
  }

  /** A match of the pattern: the span `s[start..end]`, whose mention closes
      at `close`, followed by all the white space after it. */
  datatype Match = Match(start: nat, close: nat, end: nat)

  ghost predicate IsMatch(s: string, m: Match) {
    Bracketed(s, m.start, m.close) && m.close < m.end <= |s| &&
    (forall k :: m.close < k < m.end ==> IsSpace(s[k])) &&
    (m.end == |s| || !IsSpace(s[m.end]))
  }

  /** The match the regular expression engine reports: no mention opens before it. */
  ghost predicate IsLeftmost(s: string, m: Match) {
    IsMatch(s, m) && forall i, j :: 0 <= i < m.start ==> !Bracketed(s, i, j)
  }

  /** The first '>' at or after `k`. */
  function CloseFrom(s: string, k: nat): (r: Option<nat>)
    requires k <= |s|
    ensures r.Some? ==> k <= r.value < |s| && s[r.value] == '>'
    ensures forall m :: k <= m < (if r.Some? then r.value else |s|) ==> s[m] != '>'
    decreases |s| - k
  {
    if k == |s| then None
    else if s[k] == '>' then Some(k)
    else CloseFrom(s, k + 1)
  }

  /** The match of the pattern that starts exactly at `i`, if there is one. */
  function MatchAt(s: string, i: nat): (r: Option<Match>)
    requires i <= |s|
    ensures r.Some? ==> r.value.start == i && IsMatch(s, r.value)
    ensures r.None? ==> forall j :: !Bracketed(s, i, j)
  {
    if i + 1 < |s| && s[i] == '<' && s[i + 1] == '@' then
      match CloseFrom(s, i + 2)
      case None => None
      case Some(j) =>
        if j == i + 2 then None else Some(Match(i, j, SkipSpaces(s, j + 1)))
    else None
  }

  /** The leftmost match starting at or after `from`. */
  function FindFrom(s: string, from: nat): (r: Option<Match>)
    requires from <= |s|
    ensures r.Some? ==> from <= r.value.start && IsMatch(s, r.value)
    ensures forall i, j :: from <= i < (if r.Some? then r.value.start else |s|) ==> !Bracketed(s, i, j)
    decreases |s| - from
  {
    if from == |s| then None
    else
      var here := MatchAt(s, from);
      if here.Some? then here else FindFrom(s, from + 1)
  }

  /** The `replace` call: the leftmost match removed, if there is one. */
  function StripMention(s: string): string {
    match FindFrom(s, 0)
    case None => s
    case Some(m) => s[..m.start] + s[m.end..]
  }

  /** `replace` leaves text without a mention as it is, and otherwise removes
      exactly the match the regular expression engine reports. */
  lemma StripMentionLeftmost(s: string)
    ensures (forall i, j :: !Bracketed(s, i, j)) ==> StripMention(s) == s
    ensures (exists i, j :: Bracketed(s, i, j)) ==>
      exists m :: IsLeftmost(s, m) && StripMention(s) == s[..m.start] + s[m.end..]
  {
    match FindFrom(s, 0)
    case None =>
    case Some(m) =>
      assert IsLeftmost(s, m);
  }

  /** The user's text: the event text without its first mention, trimmed. */
  function UserText(text: string): string {
    Trim(StripMention(text))
  }

  /** Text without any mention is only trimmed. */
  lemma UserTextWithoutMention(text: string)
    requires forall i, j :: !Bracketed(text, i, j)
    ensures UserText(text) == Trim(text)
  {
    StripMentionLeftmost(text);
  }

  /** The mention and the blank after it are removed; later mentions stay. */
  lemma MentionRemovedOnce()
    ensures UserText("<@U1> hi <@U2>") == "hi <@U2>"
  {
    var s := "<@U1> hi <@U2>";
    assert CloseFrom(s, 4) == Some(4);
    assert CloseFrom(s, 2) == Some(4);
    assert SkipSpaces(s, 6) == 6;
    assert SkipSpaces(s, 5) == 6;
    assert MatchAt(s, 0) == Some(Match(0, 4, 6));
    assert StripMention(s) == s[..0] + s[6..];
    var t := "hi <@U2>";
    assert s[6..] == t;
    TrimOfTrimmed(t);
  }

  /** The leftmost match is the only one the engine could report: two leftmost
      matches coincide. */
  lemma LeftmostUnique(s: string, m1: Match, m2: Match)
    requires IsLeftmost(s, m1) && IsLeftmost(s, m2)
    ensures m1 == m2
  {
  }
}
