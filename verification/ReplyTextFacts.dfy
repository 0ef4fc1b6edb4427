/**
 What a stripped mail shows, by its lines and the patterns alone: where its history
 starts, and what goes with it (backend/apps/email_channel/content.py:149-269).
 */
module ReplyTextFacts {
  import opened Text
  import opened Rows
  import opened MailText
  import opened QuotedHistory
  import opened ReplyTextLaws

  // A line as the patterns see it

  /** Trimmed, its non-breaking spaces plain ones, and no longer than 300 characters. */
  predicate IsSeen(line: string, seen: string) {
    && |seen| == (if |Strip(line)| <= 300 then |Strip(line)| else 300)
    && forall i :: 0 <= i < |seen| ==> seen[i] == (if Strip(line)[i] == '\U{00A0}' then ' ' else Strip(line)[i])
  }

  lemma {:induction false} NbspAt(s: string)
    ensures |NbspToSpace(s)| == |s|
    ensures forall i :: 0 <= i < |s| ==> NbspToSpace(s)[i] == (if s[i] == '\U{00A0}' then ' ' else s[i])
  {
    if s != "" {
      NbspAt(s[1..]);
    }
  }

  lemma LinesAreSeen(lines: seq<string>)
    ensures |AllMatched(lines)| == |lines|
    ensures forall k :: 0 <= k < |lines| ==> IsSeen(lines[k], AllMatched(lines)[k])
  {
    forall k | 0 <= k < |lines| ensures IsSeen(lines[k], AllMatched(lines)[k]) {
      NbspAt(Strip(lines[k]));
    }
  }

  // What starts a history

  predicate IsAt(line: string, part: string, i: nat) {
    i + |part| <= |line| && line[i..i + |part|] == part
  }

  predicate Has(line: string, part: string) {
    exists i :: 0 <= i <= |line| && IsAt(line, part, i)
  }

  lemma AtLater(line: string, part: string, i: nat)
    requires line != ""
    ensures IsAt(line[1..], part, i) == IsAt(line, part, i + 1)
  {
    if i + |part| <= |line[1..]| {
      assert line[1..][i..i + |part|] == line[i + 1..i + 1 + |part|];
    }
  }

  lemma {:induction false} ContainsIs(line: string, part: string)
    ensures Contains(line, part) <==> Has(line, part)
  {
    if |part| <= |line| {
      if line[..|part|] == part {
        assert IsAt(line, part, 0);
      } else if line != "" {
        ContainsIs(line[1..], part);
        if i :| 0 <= i <= |line| && IsAt(line, part, i) {
          assert i > 0;
          AtLater(line, part, i - 1);
        }
        if i :| 0 <= i <= |line[1..]| && IsAt(line[1..], part, i) {
          AtLater(line, part, i);
        }
      }
    }
  }

  /** Our own marker, or who wrote what follows and when, on one line or two. */
  predicate IsQuoting(p: Patterns, seen: seq<string>, i: nat)
    requires i < |seen|
  {
    var following := if i + 1 < |seen| then seen[i + 1] else "";
    || Has(seen[i], "-- Reply above this line --")
    || (p.attributionStart(seen[i]) && (p.attribution(seen[i]) || p.attribution(seen[i] + " " + following)))
  }

  /** The line, and those between it and line `i`, are header lines. */
  predicate IsHeaderOf(p: Patterns, seen: seq<string>, i: nat, k: nat) {
    i <= k < |seen| && forall j :: i <= j <= k ==> p.header(seen[j]).Some?
  }

  /** The names of the headers on the lines from `i` on, at most `n`. */
  function NamesFrom(p: Patterns, seen: seq<string>, i: nat, n: nat): set<string> {
    set k: nat | i <= k < |seen| && k < i + n && IsHeaderOf(p, seen, i, k) :: p.header(seen[k]).value
  }

  lemma FirstOrLater(p: Patterns, seen: seq<string>, i: nat, n: nat, name: string)
    requires 0 < n && name in NamesFrom(p, seen, i, n)
    ensures i < |seen| && p.header(seen[i]).Some?
    ensures name == p.header(seen[i]).value || name in NamesFrom(p, seen, i + 1, n - 1)
  {
    var k: nat :| i <= k < |seen| && k < i + n && IsHeaderOf(p, seen, i, k) && p.header(seen[k]).value == name;
    if i < k {
      assert IsHeaderOf(p, seen, i + 1, k);
    }
  }

  lemma LaterIsNamed(p: Patterns, seen: seq<string>, i: nat, n: nat, name: string)
    requires 0 < n && i < |seen| && p.header(seen[i]).Some?
    requires name in NamesFrom(p, seen, i + 1, n - 1)
    ensures name in NamesFrom(p, seen, i, n)
  {
    var k: nat :| i + 1 <= k < |seen| && k < i + n && IsHeaderOf(p, seen, i + 1, k) && p.header(seen[k]).value == name;
    assert IsHeaderOf(p, seen, i, k);
  }

  lemma FirstIsNamed(p: Patterns, seen: seq<string>, i: nat, n: nat)
    requires 0 < n && i < |seen| && p.header(seen[i]).Some?
    ensures NamesFrom(p, seen, i, n) == {p.header(seen[i]).value} + NamesFrom(p, seen, i + 1, n - 1)
  {
    var first, later := p.header(seen[i]).value, NamesFrom(p, seen, i + 1, n - 1);
    assert IsHeaderOf(p, seen, i, i);
    forall name | name in NamesFrom(p, seen, i, n) ensures name in {first} + later {
      FirstOrLater(p, seen, i, n, name);
    }
    forall name | name in later ensures name in NamesFrom(p, seen, i, n) {
      LaterIsNamed(p, seen, i, n, name);
    }
  }

  lemma NoneIsNamed(p: Patterns, seen: seq<string>, i: nat, n: nat)
    requires n == 0 || i >= |seen| || p.header(seen[i]).None?
    ensures NamesFrom(p, seen, i, n) == {}
  {
    if n > 0 {
      if name :| name in NamesFrom(p, seen, i, n) {
        FirstOrLater(p, seen, i, n, name);
      }
    }
  }

  lemma {:induction false} NamesAre(p: Patterns, seen: seq<string>, i: nat, n: nat)
    ensures HeaderNames(p, seen, i, n) == NamesFrom(p, seen, i, n)
    decreases n
  {
    if n > 0 && i < |seen| && p.header(seen[i]).Some? {
      NamesAre(p, seen, i + 1, n - 1);
      FirstIsNamed(p, seen, i, n);
    } else {
      NoneIsNamed(p, seen, i, n);
    }
  }

  /** A header block: From first, three names or more in eight lines, of when it was sent and to whom or about what. */
  predicate IsHeading(p: Patterns, seen: seq<string>, i: nat)
    requires i < |seen|
  {
    var names := NamesFrom(p, seen, i, 8);
    && p.header(seen[i]).Some? && p.header(seen[i]).value in {"from", "de"}
    && |names| >= 3
    && ("sent" in names || "envoy\U{00E9}" in names || "date" in names)
    && ("to" in names || "\U{00E0}" in names || "subject" in names || "objet" in names)
  }

  lemma SameStarts(p: Patterns, seen: seq<string>, i: nat)
    requires i < |seen|
    ensures IsQuoteLine(p, seen, i) == IsQuoting(p, seen, i)
    ensures IsHeaderBlock(p, seen, i) == IsHeading(p, seen, i)
  {
    ContainsIs(seen[i], "-- Reply above this line --");
    NamesAre(p, seen, i, 8);
    var names := NamesFrom(p, seen, i, 8);
    if p.header(seen[i]).Some? {
      assert IsHeaderOf(p, seen, i, i) && p.header(seen[i]).value in names;
    }
    assert names * SENT_NAMES != {} <==> "sent" in names || "envoy\U{00E9}" in names || "date" in names by {
      if name :| name in names * SENT_NAMES {
        assert name in names;
      }
      assert forall name :: name in names && name in SENT_NAMES ==> name in names * SENT_NAMES;
    }
    assert names * TO_NAMES != {} <==> "to" in names || "\U{00E0}" in names || "subject" in names || "objet" in names by {
      if name :| name in names * TO_NAMES {
        assert name in names;
      }
      assert forall name :: name in names && name in TO_NAMES ==> name in names * TO_NAMES;
    }
    if p.header(seen[i]).Some? && p.header(seen[i]).value in FROM_NAMES {
      assert p.header(seen[i]).value in names * FROM_NAMES;
    }
  }

  // Where it starts, and what is shown

  predicate IsStart(p: Patterns, seen: seq<string>, i: nat)
    requires i < |seen|
  {
    IsQuoting(p, seen, i) || IsHeading(p, seen, i)
  }

  /** The first line that marks a forward, or the end. */
  predicate IsForward(p: Patterns, seen: seq<string>, f: nat) {
    f <= |seen| && (f < |seen| ==> p.forwarded(seen[f])) && forall k :: 0 <= k < f ==> !p.forwarded(seen[k])
  }

  predicate IsFirstStart(p: Patterns, seen: seq<string>, i: nat) {
    i < |seen| && IsStart(p, seen, i) && forall k :: 0 <= k < i ==> !IsStart(p, seen, k)
  }

  predicate HasNoStart(p: Patterns, seen: seq<string>) {
    forall k :: 0 <= k < |seen| ==> !IsStart(p, seen, k)
  }

  predicate IsAbove(p: Patterns, line: string) {
    line == "" || p.aboveHeaders(line)
  }

  /** Where the mail is cut: at that line, or above the blank lines and separators over a header block. */
  predicate IsCut(p: Patterns, seen: seq<string>, i: nat, cut: nat)
    requires i < |seen|
  {
    if IsQuoting(p, seen, i) then cut == i
    else
      && cut <= i && (forall k :: cut <= k < i ==> IsAbove(p, seen[k]))
      && (cut > 0 ==> !IsAbove(p, seen[cut - 1]))
  }

  predicate IsQuotedLine(line: string) {
    line == "" || line[0] == '>'
  }

  /** Where what is left ends, once the blank and quoted lines at its end are gone. */
  predicate IsEnd(lines: seq<string>, cut: nat, end: nat)
    requires cut <= |lines|
  {
    && end <= cut && (forall k :: end <= k < cut ==> IsQuotedLine(lines[k]))
    && (end > 0 ==> !IsQuotedLine(lines[end - 1]))
  }

  lemma {:induction false} ForwardFromIs(p: Patterns, seen: seq<string>, k: nat, f: nat)
    requires IsForward(p, seen, f) && k <= f
    ensures ForwardFrom(p, seen, k) == f
    decreases f - k
  {
    if k < f {
      ForwardFromIs(p, seen, k + 1, f);
    }
  }

  lemma {:induction false} AboveIs(p: Patterns, seen: seq<string>, i: nat, cut: nat)
    requires i <= |seen| && cut <= i && (forall k :: cut <= k < i ==> IsAbove(p, seen[k]))
    requires cut > 0 ==> !IsAbove(p, seen[cut - 1])
    ensures Above(p, seen, i) == cut
  {
    if i > cut {
      assert IsAbove(p, seen[i - 1]);
      AboveIs(p, seen, i - 1, cut);
    }
  }

  lemma HistoryStep(p: Patterns, seen: seq<string>, k: nat)
    requires k < |seen|
    ensures !IsStart(p, seen, k) ==> HistoryFrom(p, seen, k) == HistoryFrom(p, seen, k + 1)
    ensures IsStart(p, seen, k) ==>
      HistoryFrom(p, seen, k) == Some(if IsQuoting(p, seen, k) then k else Above(p, seen, k))
  {
    SameStarts(p, seen, k);
  }

  lemma {:induction false} Skips(p: Patterns, seen: seq<string>, k: nat, i: nat)
    requires k <= i <= |seen| && forall j :: k <= j < i ==> !IsStart(p, seen, j)
    ensures HistoryFrom(p, seen, k) == HistoryFrom(p, seen, i)
    decreases i - k
  {
    if k < i {
      assert !IsStart(p, seen, k);
      HistoryStep(p, seen, k);
      Skips(p, seen, k + 1, i);
    }
  }

  lemma HistoryIs(p: Patterns, seen: seq<string>, i: nat, cut: nat)
    requires IsFirstStart(p, seen, i) && IsCut(p, seen, i, cut)
    ensures HistoryFrom(p, seen, 0) == Some(cut)
  {
    Skips(p, seen, 0, i);
    HistoryStep(p, seen, i);
    if !IsQuoting(p, seen, i) {
      AboveIs(p, seen, i, cut);
    }
  }

  lemma NoHistoryIs(p: Patterns, seen: seq<string>)
    requires HasNoStart(p, seen)
    ensures HistoryFrom(p, seen, 0) == None
  {
    Skips(p, seen, 0, |seen|);
  }

  lemma {:induction false} EndIs(lines: seq<string>, cut: nat, end: nat)
    requires cut <= |lines| && IsEnd(lines, cut, end)
    ensures WithoutTrailingQuote(lines[..cut]) == lines[..end]
  {
    if end < cut {
      assert IsQuotedLine(lines[cut - 1]);
      assert lines[..cut][..cut - 1] == lines[..cut - 1];
      EndIs(lines, cut - 1, end);
    }
  }

  /** The text, its lines, and the first of them that marks a forward. */
  predicate IsRead(p: Patterns, t: string, lines: seq<string>, f: nat) {
    lines == Split(CleanText(t)) && IsForward(p, AllMatched(lines), f)
  }

  lemma OwnIsCut(p: Patterns, lines: seq<string>, f: nat, start: Option<nat>, end: nat)
    requires f == Forward(p, lines) && start == Start(p, lines)
    requires var cut := if start.Some? then start.value else f; cut <= |lines| && IsEnd(lines, cut, end)
    ensures Own(p, lines) == lines[..end]
  {
    EndIs(lines, if start.Some? then start.value else f, end);
  }

  /**
   With a history before any forward, all from it on goes, and the blank and quoted lines
   above it. If nothing is left, the whole text stays.
   */
  lemma HistoryGoes(p: Patterns, t: string, lines: seq<string>, f: nat, i: nat, cut: nat, end: nat)
    requires Sensible(p) && IsRead(p, t, lines, f)
    requires IsFirstStart(p, AllMatched(lines)[..f], i) && IsCut(p, AllMatched(lines)[..f], i, cut)
    requires cut <= |lines| && IsEnd(lines, cut, end)
    ensures StripHistory(p, t) == if end == 0 then CleanText(t) else Join(lines[..end])
  {
    ShownIs(p, t);
    JoinSplit(CleanText(t));
    ForwardFromIs(p, AllMatched(lines), 0, f);
    HistoryIs(p, AllMatched(lines)[..f], i, cut);
    OwnIsCut(p, lines, f, Some(cut), end);
  }

  /** Without a history or a forward, only the blank and quoted lines at its end go, unless there is nothing else. */
  lemma TrailingQuoteGoes(p: Patterns, t: string, lines: seq<string>, end: nat)
    requires Sensible(p) && IsRead(p, t, lines, |lines|) && HasNoStart(p, AllMatched(lines))
    requires IsEnd(lines, |lines|, end)
    ensures StripHistory(p, t) == if end == 0 then CleanText(t) else Join(lines[..end])
  {
    ShownIs(p, t);
    JoinSplit(CleanText(t));
    assert AllMatched(lines)[..|lines|] == AllMatched(lines);
    ForwardFromIs(p, AllMatched(lines), 0, |lines|);
    NoHistoryIs(p, AllMatched(lines));
    OwnIsCut(p, lines, |lines|, None, end);
  }

  /** And what is forwarded stays, below what is left above it, or alone and without the indent of its first line. */
  lemma ForwardStays(p: Patterns, t: string, lines: seq<string>, f: nat, end: nat)
    requires Sensible(p) && IsRead(p, t, lines, f) && f < |lines| && HasNoStart(p, AllMatched(lines)[..f])
    requires IsEnd(lines, f, end)
    ensures StripHistory(p, t)
         == Join(if end == 0 then [LStrip(lines[f])] + lines[f + 1..] else lines[..end] + ([""] + lines[f..]))
  {
    ShownIs(p, t);
    ForwardFromIs(p, AllMatched(lines), 0, f);
    NoHistoryIs(p, AllMatched(lines)[..f]);
    OwnIsCut(p, lines, f, None, end);
  }
}
