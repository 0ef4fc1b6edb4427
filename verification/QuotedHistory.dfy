/** What a reply wrote, without the history it quotes (backend/apps/email_channel/content.py:114-268). */
module QuotedHistory {
  import opened Text
  import opened Rows
  import opened MailText

  const REPLY_MARKER := "-- Reply above this line --"
  const MAX_MATCHED_LINE := 300
  const HEADER_LINES: nat := 8
  const FROM_NAMES: set<string> := {"from", "de"}
  const SENT_NAMES: set<string> := {"sent", "envoy\U{00E9}", "date"}
  const TO_NAMES: set<string> := {"to", "\U{00E0}", "subject", "objet"}

  /** The regular expressions, each as what it matches of a line: a header line has a name. */
  datatype Patterns = Patterns(
    attributionStart: string -> bool,
    attribution: string -> bool,
    header: string -> Option<string>,
    aboveHeaders: string -> bool,
    forwarded: string -> bool)

  /** An attribution ends in ":", and a blank line is none of these. */
  ghost predicate Sensible(p: Patterns) {
    && (forall line :: !p.attribution(line + " "))
    && !p.attributionStart("") && p.header("").None? && !p.forwarded("")
  }

  // Lines as matched

  function NbspToSpace(s: string): string {
    if s == "" then "" else [if s[0] == '\U{00A0}' then ' ' else s[0]] + NbspToSpace(s[1..])
  }

  function Matched(line: string): string {
    var text := NbspToSpace(Strip(line));
    if |text| <= MAX_MATCHED_LINE then text else text[..MAX_MATCHED_LINE]
  }

  function AllMatched(lines: seq<string>): (r: seq<string>)
    ensures |r| == |lines|
    ensures forall k :: 0 <= k < |lines| ==> r[k] == Matched(lines[k])
  {
    seq(|lines|, k requires 0 <= k < |lines| => Matched(lines[k]))
  }

  predicate Contains(s: string, part: string) {
    |part| <= |s| && (s[..|part|] == part || (s != "" && Contains(s[1..], part)))
  }

  // Where the history starts

  predicate IsAttribution(p: Patterns, line: string, following: string) {
    p.attributionStart(line) && (p.attribution(line) || p.attribution(line + " " + following))
  }

  /** The names of the header lines from `index` on, at most `n`, up to a line that isn't one. */
  function HeaderNames(p: Patterns, lines: seq<string>, index: nat, n: nat): set<string>
    decreases n
  {
    if n == 0 || index >= |lines| || p.header(lines[index]).None? then {}
    else {p.header(lines[index]).value} + HeaderNames(p, lines, index + 1, n - 1)
  }

  /** Three names or more, of each of the groups. */
  predicate Complete(names: set<string>) {
    |names| >= 3 && names * FROM_NAMES != {} && names * SENT_NAMES != {} && names * TO_NAMES != {}
  }

  /** Outlook's block: From first, then Sent, To. */
  predicate IsHeaderBlock(p: Patterns, lines: seq<string>, index: nat)
    requires index < |lines|
  {
    && p.header(lines[index]).Some? && p.header(lines[index]).value in FROM_NAMES
    && Complete(HeaderNames(p, lines, index, HEADER_LINES))
  }

  predicate IsQuoteLine(p: Patterns, lines: seq<string>, index: nat)
    requires index < |lines|
  {
    || Contains(lines[index], REPLY_MARKER)
    || IsAttribution(p, lines[index], if index + 1 < |lines| then lines[index + 1] else "")
  }

  predicate StartsHistory(p: Patterns, lines: seq<string>, index: nat)
    requires index < |lines|
  {
    IsQuoteLine(p, lines, index) || IsHeaderBlock(p, lines, index)
  }

  /** Up past the blank lines and separators above a header block. */
  function Above(p: Patterns, lines: seq<string>, index: nat): (r: nat)
    requires index <= |lines|
    ensures r <= index
  {
    if index > 0 && (lines[index - 1] == "" || p.aboveHeaders(lines[index - 1])) then Above(p, lines, index - 1)
    else index
  }

  function HistoryFrom(p: Patterns, lines: seq<string>, index: nat): (r: Option<nat>)
    requires index <= |lines|
    ensures r.Some? ==> r.value < |lines|
    decreases |lines| - index
  {
    if index == |lines| then None
    else if IsQuoteLine(p, lines, index) then Some(index)
    else if IsHeaderBlock(p, lines, index) then Some(Above(p, lines, index))
    else HistoryFrom(p, lines, index + 1)
  }

  predicate IsQuoted(line: string) {
    line == "" || line[0] == '>'
  }

  function WithoutTrailingQuote(lines: seq<string>): seq<string> {
    if lines != [] && IsQuoted(lines[|lines| - 1]) then WithoutTrailingQuote(lines[..|lines| - 1]) else lines
  }

  /** The first line from `index` on that marks a forward, or the end. */
  function ForwardFrom(p: Patterns, matched: seq<string>, index: nat): (r: nat)
    requires index <= |matched|
    ensures index <= r <= |matched|
    decreases |matched| - index
  {
    if index == |matched| || p.forwarded(matched[index]) then index else ForwardFrom(p, matched, index + 1)
  }

  function Forward(p: Patterns, lines: seq<string>): (r: nat)
    ensures r <= |lines|
  {
    ForwardFrom(p, AllMatched(lines), 0)
  }

  function Start(p: Patterns, lines: seq<string>): (r: Option<nat>)
    ensures r.Some? ==> r.value < Forward(p, lines)
  {
    HistoryFrom(p, AllMatched(lines)[..Forward(p, lines)], 0)
  }

  /** Where the reply's own lines end: at the history, or else at what it forwards. */
  function OwnEnd(p: Patterns, lines: seq<string>): (r: nat)
    ensures r <= Forward(p, lines)
  {
    var start := Start(p, lines);
    if start.Some? then start.value else Forward(p, lines)
  }

  /** The reply's own lines, without the quote they end with. */
  function Own(p: Patterns, lines: seq<string>): seq<string> {
    WithoutTrailingQuote(lines[..OwnEnd(p, lines)])
  }

  /** Something is forwarded, and no history quoted before it. */
  predicate Forwards(p: Patterns, lines: seq<string>) {
    Start(p, lines).None? && Forward(p, lines) < |lines|
  }

  /** What is kept: a forward is no history. */
  function Kept(p: Patterns, lines: seq<string>): seq<string> {
    Own(p, lines) + if Forwards(p, lines) then [""] + lines[Forward(p, lines)..] else []
  }

  function StripHistory(p: Patterns, t: string): string {
    var text := CleanText(t);
    var kept := CleanText(Join(Kept(p, Split(text))));
    if kept == "" then text else kept
  }

  // The loops

  method GoAbove(p: Patterns, lines: seq<string>, index: nat) returns (above: nat)
    requires index <= |lines|
    ensures above == Above(p, lines, index)
  {
    above := index;
    while above > 0 && (lines[above - 1] == "" || p.aboveHeaders(lines[above - 1]))
      invariant above <= index
      invariant Above(p, lines, above) == Above(p, lines, index)
    {
      above := above - 1;
    }
  }

  method FindHistoryStart(p: Patterns, lines: seq<string>) returns (start: Option<nat>)
    ensures start == HistoryFrom(p, lines, 0)
  {
    var index := 0;
    while index < |lines|
      invariant index <= |lines|
      invariant HistoryFrom(p, lines, index) == HistoryFrom(p, lines, 0)
    {
      if IsQuoteLine(p, lines, index) {
        return Some(index);
      }
      var block := HasHeaderBlock(p, lines, index);
      if block {
        var above := GoAbove(p, lines, index);
        return Some(above);
      }
      index := index + 1;
    }
    return None;
  }

  method HasHeaderBlock(p: Patterns, lines: seq<string>, index: nat) returns (block: bool)
    requires index < |lines|
    ensures block <==> IsHeaderBlock(p, lines, index)
  {
    if p.header(lines[index]).None? || p.header(lines[index]).value !in FROM_NAMES {
      return false;
    }
    var names: set<string> := {};
    var k := 0;
    while k < HEADER_LINES && index + k < |lines| && p.header(lines[index + k]).Some?
      invariant k <= HEADER_LINES
      invariant names + HeaderNames(p, lines, index + k, HEADER_LINES - k) == HeaderNames(p, lines, index, HEADER_LINES)
    {
      names := names + {p.header(lines[index + k]).value};
      k := k + 1;
    }
    return Complete(names);
  }

  method DropTrailingQuote(lines: seq<string>) returns (kept: seq<string>)
    ensures kept == WithoutTrailingQuote(lines)
  {
    var end := |lines|;
    assert lines[..end] == lines;
    while end > 0 && IsQuoted(lines[end - 1])
      invariant end <= |lines|
      invariant WithoutTrailingQuote(lines[..end]) == WithoutTrailingQuote(lines)
    {
      assert lines[..end][..end - 1] == lines[..end - 1];
      end := end - 1;
    }
    return lines[..end];
  }

  method FindForward(p: Patterns, matched: seq<string>) returns (forward: nat)
    ensures forward == ForwardFrom(p, matched, 0)
  {
    forward := 0;
    while forward < |matched| && !p.forwarded(matched[forward])
      invariant forward <= |matched|
      invariant ForwardFrom(p, matched, forward) == ForwardFrom(p, matched, 0)
    {
      forward := forward + 1;
    }
  }

  /** `strip_history`. */
  method ReplyText(p: Patterns, t: string) returns (reply: string)
    ensures reply == StripHistory(p, t)
  {
    var text := CleanText(t);
    var lines := Split(text);
    var matched := AllMatched(lines);
    var forward := FindForward(p, matched);
    var start := FindHistoryStart(p, matched[..forward]);
    var end := if start.None? then forward else start.value;
    var kept := DropTrailingQuote(lines[..end]);
    if start.None? && forward < |lines| {
      kept := kept + ([""] + lines[forward..]);
    } else {
      assert kept + [] == kept;
    }
    reply := CleanText(Join(kept));
    if reply == "" {
      reply := text;
    }
  }
}
