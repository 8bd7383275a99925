/** `generate_full_system_prompt` (prompts/__init__.py:10-63): the user's
    prompt, with any `<SUPPORTED CONNECTIONS>` block taken out of it and
    spliced into the Pica prompt, followed by a fixed banner, the current time
    and the Pica prompt, the whole stripped of outer whitespace. The current
    time is a parameter. */
module Prompts {
  import opened Wrappers
  import opened Text

  // ---------------------------------------------------------------------------
  // The current time

  /** A UTC instant, as `datetime` holds it. */
  datatype Instant = Instant(year: nat, month: nat, day: nat, hour: nat, minute: nat, second: nat) {
    predicate Valid() {
      1000 <= year <= 9999 && 1 <= month <= 12 && 1 <= day <= 31
      && hour < 24 && minute < 60 && second < 60
    }
  }

  /** A two-digit field of `strftime`, zero-padded. */
  function Two(n: nat): (r: string)
    requires n < 100
    ensures |r| == 2 && '0' <= r[0] <= '9' && '0' <= r[1] <= '9'
    ensures DigitsValue(r) == n
  {
    var r := [DigitChar(n / 10), DigitChar(n % 10)];
    assert r[..1] == [DigitChar(n / 10)] && r[..1][..0] == [];
    assert DigitsValue(r[..1]) == n / 10;
    assert DigitsValue(r) == 10 * (n / 10) + n % 10;
    r
  }

  lemma FourDigits(n: nat)
    requires 1000 <= n <= 9999
    ensures |NatToString(n)| == 4
  {
    assert |NatToString(n / 10 / 10 / 10)| == 1;
    assert |NatToString(n / 10 / 10)| == 2;
    assert |NatToString(n / 10)| == 3;
  }

  predicate AllDigits(s: string) {
    forall i :: 0 <= i < |s| ==> '0' <= s[i] <= '9'
  }

  /** Where the fields sit in `Y-m-d H:M:S`. */
  lemma TimeLayout(y: string, mo: string, d: string, h: string, mi: string, se: string)
    requires |y| == 4 && |mo| == 2 && |d| == 2 && |h| == 2 && |mi| == 2 && |se| == 2
    ensures var r := y + "-" + mo + "-" + d + " " + h + ":" + mi + ":" + se;
            |r| == 19 && r[4] == '-' && r[7] == '-' && r[10] == ' ' && r[13] == ':' && r[16] == ':'
            && r[..4] == y && r[5..7] == mo && r[8..10] == d && r[11..13] == h && r[14..16] == mi && r[17..] == se
  {
    var r := y + "-" + mo + "-" + d + " " + h + ":" + mi + ":" + se;
    assert r[..4] == y;
    assert r[5..7] == mo && r[8..10] == d;
    assert r[11..13] == h && r[14..16] == mi && r[17..] == se;
  }

  /** `now.strftime('%Y-%m-%d %H:%M:%S')`. */
  function FormatTime(t: Instant): (r: string)
    requires t.Valid()
    ensures |r| == 19
    ensures r[4] == '-' && r[7] == '-' && r[10] == ' ' && r[13] == ':' && r[16] == ':'
    ensures AllDigits(r[..4]) && AllDigits(r[5..7]) && AllDigits(r[8..10])
    ensures AllDigits(r[11..13]) && AllDigits(r[14..16]) && AllDigits(r[17..])
    ensures DigitsValue(r[..4]) == t.year && DigitsValue(r[5..7]) == t.month && DigitsValue(r[8..10]) == t.day
    ensures DigitsValue(r[11..13]) == t.hour && DigitsValue(r[14..16]) == t.minute && DigitsValue(r[17..]) == t.second
  {
    var y := Year(t.year);
    var mo, d, h, mi, se := Two(t.month), Two(t.day), Two(t.hour), Two(t.minute), Two(t.second);
    JoinTime(y, mo, d, h, mi, se)
  }

  /** `%Y` for a four-digit year. */
  function Year(year: nat): (y: string)
    requires 1000 <= year <= 9999
    ensures |y| == 4 && AllDigits(y) && DigitsValue(y) == year
  {
    FourDigits(year);
    NatToStringRoundTrip(year);
    NatToString(year)
  }

  /** The joined fields, read back: each slice is its field. */
  function JoinTime(y: string, mo: string, d: string, h: string, mi: string, se: string): (r: string)
    requires |y| == 4 && |mo| == 2 && |d| == 2 && |h| == 2 && |mi| == 2 && |se| == 2
    ensures |r| == 19 && r[4] == '-' && r[7] == '-' && r[10] == ' ' && r[13] == ':' && r[16] == ':'
    ensures r[..4] == y && r[5..7] == mo && r[8..10] == d && r[11..13] == h && r[14..16] == mi && r[17..] == se
  {
    TimeLayout(y, mo, d, h, mi, se);
    y + "-" + mo + "-" + d + " " + h + ":" + mi + ":" + se
  }

  // ---------------------------------------------------------------------------
  // The supported-connections block of the user prompt

  const OpenTag := "<SUPPORTED CONNECTIONS>"
  const CloseTag := "</SUPPORTED CONNECTIONS>"

  /** The first `open … close` block of `u`, as the positions of its two
      tags: the first opening tag, closed by the first closing tag after it
      (the lazy `.*?`, across lines). With no closing tag after the first
      opening tag there is no block at all. */
  function FirstBlockAt(u: string, open: string, close: string): (r: Option<(nat, nat)>)
    ensures r.Some? ==> r.value.0 + |open| <= r.value.1 && r.value.1 + |close| <= |u|
  {
    match Find(u, open, 0)
    case None => None
    case Some(i) =>
      match Find(u, close, i + |open|)
      case None => None
      case Some(j) => Some((i, j))
  }

  /** `re.sub` of every block by the empty string. The pattern has no anchor,
      so the scan after a match reads only the text that follows it. */
  function RemoveBlocks(u: string, open: string, close: string): (r: string)
    requires |close| > 0
    ensures |r| <= |u|
    decreases |u|
  {
    match FirstBlockAt(u, open, close)
    case None => u
    case Some((i, j)) => u[..i] + RemoveBlocks(u[j + |close|..], open, close)
  }

  /** The user prompt after extraction and the supported connections found:
      nothing happens to an absent or empty prompt or to one without a block;
      otherwise the first block's contents, stripped, are taken, and every
      block is removed from the prompt, which is then stripped
      (prompts/__init__.py:26-42). */
  function Extract(user: Option<string>): (r: (Option<string>, Option<string>))
    ensures user.None? || user.value == "" || FirstBlockAt(user.value, OpenTag, CloseTag).None? ==> r == (user, None)
    ensures r.1.Some? ==> r.0.Some? && r.0.value == Strip(r.0.value)
  {
    if user.None? || user.value == "" then (user, None)
    else ExtractWith(user.value, OpenTag, CloseTag)
  }

  /** Extraction from a non-empty prompt, for any pair of tags. */
  function ExtractWith(u: string, open: string, close: string): (r: (Option<string>, Option<string>))
    requires |close| > 0
    ensures FirstBlockAt(u, open, close).None? ==> r == (Some(u), None)
    ensures r.1.Some? ==> r.0.Some? && r.0.value == Strip(r.0.value)
  {
    match FirstBlockAt(u, open, close)
    case None => (Some(u), None)
    case Some((i, j)) =>
      var removed := RemoveBlocks(u, open, close);
      StripIdempotent(removed);
      (Some(Strip(removed)), Some(Strip(u[i + |open|..j])))
  }

  // ---------------------------------------------------------------------------
  // Injection into the Pica prompt

  const Lead := "IMPORTANT: When the user asks about \"supported connections\" or \"available connections\""
  const Tail := "DO NOT list all possible platforms if they're not in the active connections list."

  /** No line break in `s[from..to]`. */
  predicate OneLine(s: string, from: nat, to: nat)
    requires from <= to <= |s|
  {
    forall k :: from <= k < to ==> s[k] != '\n'
  }

  /** The first attempt of the scan for `lead.*?tail` (`.` stops at a line
      break): `None` when `lead` does not occur; otherwise the position of the
      first `lead`, whether a match starts there, and where the scan resumes:
      after the first `tail` that follows on the same line, or at the next
      character when there is none. */
  function NextSentence(s: string, lead: string, tail: string): (r: Option<(nat, bool, nat)>)
    requires |lead| > 0
    ensures r.Some? ==> r.value.0 < r.value.2 <= |s|
    ensures r.Some? && !r.value.1 ==> r.value.2 == r.value.0 + 1
  {
    match Find(s, lead, 0)
    case None => None
    case Some(i) =>
      var from := i + |lead|;
      var next := Find(s, tail, from);
      if next.Some? && OneLine(s, from, next.value) then Some((i, true, next.value + |tail|))
      else Some((i, false, i + 1))
  }

  /** `re.sub` of every `lead.*?tail` by itself followed by a blank line and
      `sc`: the text is kept, with insertions only. */
  function InjectAll(s: string, sc: string, lead: string, tail: string): (r: string)
    requires |lead| > 0
    ensures |r| >= |s|
    decreases |s|
  {
    match NextSentence(s, lead, tail)
    case None => s
    case Some((_, matched, e)) =>
      s[..e] + (if matched then "\n\n" + sc else "") + InjectAll(s[e..], sc, lead, tail)
  }

  /** Injection happens only for non-empty supported connections
      (prompts/__init__.py:45-51). */
  function Inject(systemPrompt: string, supported: Option<string>): (r: string)
    ensures supported.None? || supported.value == "" ==> r == systemPrompt
  {
    if supported.Some? && supported.value != "" then InjectAll(systemPrompt, supported.value, Lead, Tail)
    else systemPrompt
  }

  // ---------------------------------------------------------------------------
  // The composed prompt

  const Banner := "=== PICA: INTEGRATION ASSISTANT ==="
  const Description := "Everything below is for Pica (picaos.com), your integration assistant that can instantly connect your AI agents to 100+ APIs."
  const ToolsHeading := "--- Tools Information ---"

  /** The fixed lines between the user text and the Pica prompt. */
  function Middle(time: string): (m: string)
    ensures |m| > 0 && m[0] == '=' && m[|m| - 1] == '-'
  {
    var m := Banner + "\n" + Description + "\n\nCurrent Time: " + time + " (UTC)\n\n" + ToolsHeading;
    assert m[0] == Banner[0];
    assert m[|m| - 1] == ToolsHeading[|ToolsHeading| - 1];
    m
  }

  /** The f-string of prompts/__init__.py:53-61, stripped (line 62). Stripping
      only touches the user text before the banner and the Pica prompt after
      it, and leaves no whitespace at either end. */
  function Compose(user: string, time: string, systemPrompt: string): (r: string)
    ensures r == LStrip(user + "\n") + Middle(time) + RStrip("\n" + systemPrompt + "\n")
    ensures |r| > 0 && !IsSpace(r[0]) && !IsSpace(r[|r| - 1])
  {
    var m := Middle(time);
    StripLines(user, m, systemPrompt);
    Strip(user + "\n" + m + "\n" + systemPrompt + "\n")
  }

  /** Stripping `x`, a line break, `m`, a line break, `y` and a line break,
      where `m` has non-space characters at both ends. */
  lemma StripLines(x: string, m: string, y: string)
    requires |m| > 0 && !IsSpace(m[0]) && !IsSpace(m[|m| - 1])
    ensures Strip(x + "\n" + m + "\n" + y + "\n") == LStrip(x + "\n") + m + RStrip("\n" + y + "\n")
    ensures |Strip(x + "\n" + m + "\n" + y + "\n")| > 0
  {
    assert x + "\n" + m + "\n" + y + "\n" == (x + "\n") + m + ("\n" + y + "\n");
    StripAround(x + "\n", m, "\n" + y + "\n");
  }

  /** `generate_full_system_prompt(system_prompt, user_system_prompt)` at time
      `now`: the fixed lines with the current time always appear, and the
      prompt has no whitespace at either end. */
  function FullSystemPrompt(systemPrompt: string, user: Option<string>, now: Instant): (r: string)
    requires now.Valid()
    ensures |r| > 0 && !IsSpace(r[0]) && !IsSpace(r[|r| - 1])
    ensures Contains(r, Middle(FormatTime(now)))
  {
    var ex := Extract(user);
    var r := Compose(ex.0.GetOr(""), FormatTime(now), Inject(systemPrompt, ex.1));
    ComposeHasMiddle(ex.0.GetOr(""), FormatTime(now), Inject(systemPrompt, ex.1));
    r
  }

  /** The fixed lines survive composition intact. */
  lemma ComposeHasMiddle(user: string, time: string, systemPrompt: string)
    ensures Contains(Compose(user, time, systemPrompt), Middle(time))
  {
    var r, m := Compose(user, time, systemPrompt), Middle(time);
    var a, b := LStrip(user + "\n"), RStrip("\n" + systemPrompt + "\n");
    assert r == a + m + b;
    assert r[|a|..|a| + |m|] == m;
    assert OccursAt(r, m, |a|);
  }

  // ---------------------------------------------------------------------------
  // Properties

  /** A text `x open m close y` whose first block is the one shown: the scan
      finds it, and removing blocks leaves `x` followed by `y` with its own
      blocks removed. */
  lemma FirstBlock(u: string, x: string, m: string, y: string, open: string, close: string)
    requires |close| > 0
    requires u == x + open + m + close + y
    requires forall k: nat :: k < |x| ==> !OccursAt(u, open, k)
    requires forall k: nat :: |x| + |open| <= k < |x| + |open| + |m| ==> !OccursAt(u, close, k)
    ensures FirstBlockAt(u, open, close) == Some((|x|, |x| + |open| + |m|))
    ensures u[|x| + |open|..|x| + |open| + |m|] == m
    ensures RemoveBlocks(u, open, close) == x + RemoveBlocks(y, open, close)
  {
    var i := |x|;
    var j := |x| + |open| + |m|;
    assert u[i..i + |open|] == open;
    assert OccursAt(u, open, i);
    assert u[j..j + |close|] == close;
    assert OccursAt(u, close, j);
    assert FirstBlockAt(u, open, close) == Some((i, j));
    assert u[..i] == x;
    assert u[j + |close|..] == y;
  }

  /** A prompt `x open m close y` whose first block is the one shown: the
      supported connections are `m` stripped, and the user text is `x`
      followed by `y` with its own blocks removed, stripped. */
  lemma ExtractWithFirstBlock(u: string, x: string, m: string, y: string, open: string, close: string)
    requires |close| > 0
    requires u == x + open + m + close + y
    requires forall k: nat :: k < |x| ==> !OccursAt(u, open, k)
    requires forall k: nat :: |x| + |open| <= k < |x| + |open| + |m| ==> !OccursAt(u, close, k)
    ensures ExtractWith(u, open, close) == (Some(Strip(x + RemoveBlocks(y, open, close))), Some(Strip(m)))
  {
    FirstBlock(u, x, m, y, open, close);
    ExtractWithFound(u, x, m, y, |x|, |x| + |open| + |m|, open, close);
  }

  /** The found-block case of extraction, once the block and what removal
      leaves are known. */
  lemma ExtractWithFound(u: string, x: string, m: string, y: string, i: nat, j: nat, open: string, close: string)
    requires |close| > 0
    requires FirstBlockAt(u, open, close) == Some((i, j))
    requires i + |open| <= j <= |u| && u[i + |open|..j] == m
    requires RemoveBlocks(u, open, close) == x + RemoveBlocks(y, open, close)
    ensures ExtractWith(u, open, close) == (Some(Strip(x + RemoveBlocks(y, open, close))), Some(Strip(m)))
  {
  }

  /** A user prompt `x <SUPPORTED CONNECTIONS>m</SUPPORTED CONNECTIONS> y`
      whose first block is the one shown: the supported connections are `m`
      stripped, and the user text is `x` followed by `y` with its own blocks
      removed, stripped. */
  lemma ExtractFirstBlock(u: string, x: string, m: string, y: string)
    requires u == x + OpenTag + m + CloseTag + y
    requires forall k: nat :: k < |x| ==> !OccursAt(u, OpenTag, k)
    requires forall k: nat :: |x| + |OpenTag| <= k < |x| + |OpenTag| + |m| ==> !OccursAt(u, CloseTag, k)
    ensures Extract(Some(u)) == (Some(Strip(x + RemoveBlocks(y, OpenTag, CloseTag))), Some(Strip(m)))
  {
    ExtractWithFirstBlock(u, x, m, y, OpenTag, CloseTag);
    assert |u| > 0;
  }

  /** In a text `x lead m tail y` whose first `lead` is the one shown and
      whose first `tail` after it ends the same line, the scan matches that
      sentence and resumes right after `tail`. */
  lemma SentenceFound(s: string, x: string, m: string, y: string, lead: string, tail: string)
    requires |lead| > 0
    requires s == x + lead + m + tail + y
    requires forall k: nat :: k < |x| ==> !OccursAt(s, lead, k)
    requires forall k: nat :: |x| + |lead| <= k < |x| + |lead| + |m| ==> !OccursAt(s, tail, k)
    requires '\n' !in m
    ensures NextSentence(s, lead, tail) == Some((|x|, true, |x| + |lead| + |m| + |tail|))
  {
    var i := |x|;
    var from := i + |lead|;
    var j := from + |m|;
    assert s[i..i + |lead|] == lead;
    assert OccursAt(s, lead, i);
    assert s[j..j + |tail|] == tail;
    assert OccursAt(s, tail, j);
    assert forall k :: from <= k < j ==> s[k] == m[k - from];
  }

  /** A text `x lead m tail y` as above: `sc` goes right after that `tail`,
      after a blank line, and the scan goes on in `y`. */
  lemma InjectAfter(s: string, x: string, m: string, y: string, sc: string, lead: string, tail: string)
    requires |lead| > 0
    requires s == x + lead + m + tail + y
    requires forall k: nat :: k < |x| ==> !OccursAt(s, lead, k)
    requires forall k: nat :: |x| + |lead| <= k < |x| + |lead| + |m| ==> !OccursAt(s, tail, k)
    requires '\n' !in m
    ensures InjectAll(s, sc, lead, tail) == x + lead + m + tail + "\n\n" + sc + InjectAll(y, sc, lead, tail)
  {
    SentenceFound(s, x, m, y, lead, tail);
    var p := x + lead + m + tail;
    var e := |p|;
    assert s == p + y;
    assert s[..e] == p && s[e..] == y;
    var rest := InjectAll(y, sc, lead, tail);
    assert InjectAll(s, sc, lead, tail) == p + ("\n\n" + sc) + rest;
    assert p + ("\n\n" + sc) + rest == p + "\n\n" + sc + rest;
  }

  /** The supported connections go right after the first IMPORTANT
      "supported connections" sentence, after a blank line. */
  lemma InjectAfterSentence(s: string, x: string, m: string, y: string, sc: string)
    requires sc != ""
    requires s == x + Lead + m + Tail + y
    requires forall k: nat :: k < |x| ==> !OccursAt(s, Lead, k)
    requires forall k: nat :: |x| + |Lead| <= k < |x| + |Lead| + |m| ==> !OccursAt(s, Tail, k)
    requires '\n' !in m
    ensures Inject(s, Some(sc)) == x + Lead + m + Tail + "\n\n" + sc + InjectAll(y, sc, Lead, Tail)
  {
    InjectAfter(s, x, m, y, sc, Lead, Tail);
  }

  /** No `lead` is followed on its own line by a `tail`: the pattern
      `lead.*?tail` matches nowhere in `s`. */
  ghost predicate NoSentence(s: string, lead: string, tail: string) {
    forall i: nat, j: nat :: OccursAt(s, lead, i) && OccursAt(s, tail, j) && i + |lead| <= j ==>
      !OneLine(s, i + |lead|, j)
  }

  /** A pattern that matches nowhere in `s` matches nowhere in a suffix of it. */
  lemma NoSentenceSuffix(s: string, lead: string, tail: string, d: nat)
    requires d <= |s| && NoSentence(s, lead, tail)
    ensures NoSentence(s[d..], lead, tail)
  {
    var t := s[d..];
    forall a: nat, b: nat | OccursAt(t, lead, a) && OccursAt(t, tail, b) && a + |lead| <= b
      ensures !OneLine(t, a + |lead|, b)
    {
      assert s[a + d..a + d + |lead|] == t[a..a + |lead|];
      assert s[b + d..b + d + |tail|] == t[b..b + |tail|];
      assert OccursAt(s, lead, a + d) && OccursAt(s, tail, b + d);
      var k :| a + d + |lead| <= k < b + d && s[k] == '\n';
      assert t[k - d] == '\n';
    }
  }

  /** Where the pattern matches nowhere, the scan changes nothing. */
  lemma {:induction false} NoSentenceAll(s: string, sc: string, lead: string, tail: string)
    requires |lead| > 0
    requires NoSentence(s, lead, tail)
    ensures InjectAll(s, sc, lead, tail) == s
    decreases |s|
  {
    var f := Find(s, lead, 0);
    if f.Some? {
      var i := f.value;
      var from := i + |lead|;
      var next := Find(s, tail, from);
      assert !(next.Some? && OneLine(s, from, next.value));
      assert NextSentence(s, lead, tail) == Some((i, false, i + 1));
      var t := s[i + 1..];
      NoSentenceSuffix(s, lead, tail, i + 1);
      NoSentenceAll(t, sc, lead, tail);
      assert s[..i + 1] + t == s;
    }
  }

  /** A Pica prompt in which no IMPORTANT sentence opening is followed on the
      same line by the sentence's closing words is left as it is; in
      particular one without the opening at all. */
  lemma NoSentenceUnchanged(s: string, sc: Option<string>)
    requires NoSentence(s, Lead, Tail)
    ensures Inject(s, sc) == s
  {
    if sc.Some? && sc.value != "" {
      NoSentenceAll(s, sc.value, Lead, Tail);
    }
  }

  /** Without a block in the user prompt, the Pica prompt is embedded
      unchanged and the user prompt is used as given. */
  lemma NoBlockUnchanged(systemPrompt: string, user: Option<string>, now: Instant)
    requires now.Valid()
    requires user.None? || FirstBlockAt(user.value, OpenTag, CloseTag).None?
    ensures FullSystemPrompt(systemPrompt, user, now) == Compose(user.GetOr(""), FormatTime(now), systemPrompt)
  {
  }

  /** With a block in the user prompt, the block leaves the user text and its
      stripped contents go after the first IMPORTANT "supported connections"
      sentence of the Pica prompt, after a blank line. */
  lemma BlockMovedIntoSentence(systemPrompt: string, user: string, now: Instant,
                               x: string, m: string, y: string, a: string, s: string, b: string)
    requires now.Valid()
    requires user == x + OpenTag + m + CloseTag + y
    requires forall k: nat :: k < |x| ==> !OccursAt(user, OpenTag, k)
    requires forall k: nat :: |x| + |OpenTag| <= k < |x| + |OpenTag| + |m| ==> !OccursAt(user, CloseTag, k)
    requires Strip(m) != ""
    requires systemPrompt == a + Lead + s + Tail + b
    requires forall k: nat :: k < |a| ==> !OccursAt(systemPrompt, Lead, k)
    requires forall k: nat :: |a| + |Lead| <= k < |a| + |Lead| + |s| ==> !OccursAt(systemPrompt, Tail, k)
    requires '\n' !in s
    ensures FullSystemPrompt(systemPrompt, Some(user), now)
            == Compose(Strip(x + RemoveBlocks(y, OpenTag, CloseTag)), FormatTime(now),
                       a + Lead + s + Tail + "\n\n" + Strip(m) + InjectAll(b, Strip(m), Lead, Tail))
  {
    ExtractFirstBlock(user, x, m, y);
    InjectAfterSentence(systemPrompt, a, s, b, Strip(m));
  }

  /** A block with nothing but whitespace inside is still removed from the user
      text, and the Pica prompt is used as given. */
  lemma BlankBlockRemoved(systemPrompt: string, user: string, now: Instant, x: string, m: string, y: string)
    requires now.Valid()
    requires user == x + OpenTag + m + CloseTag + y
    requires forall k: nat :: k < |x| ==> !OccursAt(user, OpenTag, k)
    requires forall k: nat :: |x| + |OpenTag| <= k < |x| + |OpenTag| + |m| ==> !OccursAt(user, CloseTag, k)
    requires Strip(m) == ""
    ensures FullSystemPrompt(systemPrompt, Some(user), now)
            == Compose(Strip(x + RemoveBlocks(y, OpenTag, CloseTag)), FormatTime(now), systemPrompt)
  {
    ExtractFirstBlock(user, x, m, y);
  }

  /** Whitespace after a part that ends in a non-space character is all that
      `rstrip` removes. */
  lemma RStripSpaces(c: string, w: string)
    requires |c| > 0 && !IsSpace(c[|c| - 1]) && AllSpace(w)
    ensures RStrip(c + w) == c
  {
    RStripThrough(c, w);
  }

  /** Whitespace before a part that starts with a non-space character is all
      that `lstrip` removes. */
  lemma LStripSpaces(w: string, c: string)
    requires |c| > 0 && !IsSpace(c[0]) && AllSpace(w)
    ensures LStrip(w + c) == c
  {
    LStripThrough(w, c);
  }

  /** The user text before the banner loses its leading whitespace only. */
  lemma UserPartLayout(user: string)
    requires LStrip(user) != ""
    ensures LStrip(user + "\n") == LStrip(user) + "\n"
  {
    LStripAppend(user, "\n");
  }

  /** The Pica prompt after the banner loses its trailing whitespace only. */
  lemma SystemPartLayout(systemPrompt: string)
    requires RStrip(systemPrompt) != ""
    ensures RStrip("\n" + systemPrompt + "\n") == "\n" + RStrip(systemPrompt)
  {
    var s := systemPrompt + "\n";
    assert s[..|s| - 1] == systemPrompt;
    assert RStrip(s) == RStrip(systemPrompt);
    assert "\n" + systemPrompt + "\n" == "\n" + s;
    RStripPrepend("\n", s);
  }

  /** With some text in each, the composed prompt is the user text without
      leading whitespace, a line break, the fixed lines, a line break, and the
      Pica prompt without trailing whitespace. */
  lemma ComposeLayout(user: string, time: string, systemPrompt: string)
    requires LStrip(user) != "" && RStrip(systemPrompt) != ""
    ensures Compose(user, time, systemPrompt) == LStrip(user) + "\n" + Middle(time) + "\n" + RStrip(systemPrompt)
  {
    StripLinesLayout(user, Middle(time), systemPrompt);
  }

  /** `StripLines` when both outer parts hold some non-space text. */
  lemma StripLinesLayout(x: string, m: string, y: string)
    requires |m| > 0 && !IsSpace(m[0]) && !IsSpace(m[|m| - 1])
    requires LStrip(x) != "" && RStrip(y) != ""
    ensures Strip(x + "\n" + m + "\n" + y + "\n") == LStrip(x) + "\n" + m + "\n" + RStrip(y)
  {
    var a, b := LStrip(x), RStrip(y);
    var a1, b1 := LStrip(x + "\n"), RStrip("\n" + y + "\n");
    StripLines(x, m, y);
    UserPartLayout(x);
    SystemPartLayout(y);
    assert a1 == a + "\n" && b1 == "\n" + b;
    assert Strip(x + "\n" + m + "\n" + y + "\n") == a1 + m + b1;
    assert (a + "\n") + m + ("\n" + b) == a + "\n" + m + "\n" + b;
  }
}
