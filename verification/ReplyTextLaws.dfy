/** That stripping quoted history loses no reply, adds nothing, and is done once (backend/apps/email_channel/content.py:244-268). */
module ReplyTextLaws {
  import opened Text
  import opened Rows
  import opened MailText
  import opened QuotedHistory

  // Joined lines

  predicate OneLines(lines: seq<string>) {
    forall k :: 0 <= k < |lines| ==> OneLine(lines[k])
  }

  lemma {:induction false} JoinEnds(lines: seq<string>)
    requires lines != [] && lines[|lines| - 1] != ""
    ensures var s := Join(lines);
      s != "" && s[|s| - 1] == lines[|lines| - 1][|lines[|lines| - 1]| - 1]
  {
    if |lines| > 1 {
      JoinEnds(lines[1..]);
    }
  }

  lemma JoinBegins(lines: seq<string>)
    requires lines != [] && lines[0] != ""
    ensures Join(lines) != "" && Join(lines)[0] == lines[0][0]
  {}

  /** The text up to a line that isn't blank is clean, if all of it is. */
  lemma TopIsClean(lines: seq<string>, k: nat)
    requires OneLines(lines) && IsClean(Join(lines)) && 0 < k <= |lines| && lines[k - 1] != ""
    ensures IsClean(Join(lines[..k]))
    ensures var top := Join(lines[..k]); top != "" && !IsSpace(top[|top| - 1])
  {
    var s, top := Join(lines), Join(lines[..k]);
    JoinEnds(lines[..k]);
    if k < |lines| {
      assert lines == lines[..k] + lines[k..];
      JoinConcat(lines[..k], lines[k..]);
      assert s == top + "\n" + Join(lines[k..]);
      assert top == s[0..|top|];
      PartsKeep(s, 0, |top|);
      assert OneLine(lines[..k][k - 1]);
      assert !SpaceEndsLine(s, |top| - 1);
      assert s[0] == top[0];
    } else {
      assert lines[..k] == lines;
    }
  }

  /** And so is the text from one that isn't, but for what its first line starts with. */
  lemma BottomIsClean(lines: seq<string>, k: nat)
    requires OneLines(lines) && IsClean(Join(lines)) && k < |lines| && lines[k] != ""
    ensures var bottom := Join(lines[k..]);
      && Printable(bottom) && NoSpaceBeforeNewline(bottom) && NoThreeNewlines(bottom)
      && bottom != "" && bottom[0] == lines[k][0] && !IsSpace(bottom[|bottom| - 1])
  {
    var s, bottom := Join(lines), Join(lines[k..]);
    JoinBegins(lines[k..]);
    if k > 0 {
      assert lines == lines[..k] + lines[k..];
      JoinConcat(lines[..k], lines[k..]);
      assert bottom == s[|s| - |bottom|..|s|];
      PartsKeep(s, |s| - |bottom|, |s|);
    } else {
      assert lines[0..] == lines;
    }
  }

  /** A text, a blank line and another make a clean text. */
  lemma BlankBetweenIsClean(top: string, bottom: string)
    requires IsClean(top) && top != ""
    requires Printable(bottom) && NoSpaceBeforeNewline(bottom) && NoThreeNewlines(bottom)
    requires bottom != "" && bottom[0] != '\n' && !IsSpace(bottom[|bottom| - 1])
    ensures IsClean(top + "\n\n" + bottom)
  {
    var s := top + "\n\n" + bottom;
    assert !IsSpace(top[|top| - 1]) && IsSpace('\n');
    forall i ensures !SpaceEndsLine(s, i) && !ThreeNewlines(s, i) {
      assert !SpaceEndsLine(top, i) && !ThreeNewlines(top, i);
      assert !SpaceEndsLine(bottom, i - |top| - 2) && !ThreeNewlines(bottom, i - |top| - 2);
    }
  }

  lemma {:induction false} LStripFirstLine(line: string, rest: string)
    requires LStrip(line) != ""
    ensures LStrip(line + rest) == LStrip(line) + rest
  {
    if line != "" {
      assert (line + rest)[1..] == line[1..] + rest;
      if IsSpace(line[0]) {
        LStripFirstLine(line[1..], rest);
      }
    }
  }

  lemma BlankAboveText(s: string)
    requires Printable(s) && NoSpaceBeforeNewline(s) && NoThreeNewlines(s)
    requires s != "" && s[0] != '\n' && !IsSpace(s[|s| - 1])
    ensures CleanText("\n" + s) == LStrip(s)
  {
    var below := "\n" + s;
    forall i ensures !SpaceEndsLine(below, i) && !ThreeNewlines(below, i) {
      assert !SpaceEndsLine(s, i - 1) && !ThreeNewlines(s, i - 1);
    }
    CleaningOnlyStrips(below);
    assert below[1..] == s;
    assert LStrip(below) == LStrip(s);
    LStripShape(s);
  }

  lemma JoinCons(line: string, rest: seq<string>)
    requires rest != []
    ensures Join([line] + rest) == line + "\n" + Join(rest)
  {}

  /** What follows the first line. */
  function Below(rest: seq<string>): string {
    if rest == [] then "" else "\n" + Join(rest)
  }

  lemma JoinBelow(line: string, rest: seq<string>)
    ensures Join([line] + rest) == line + Below(rest)
  {}

  /** A leading blank line goes, and the spaces that start the next one. */
  lemma BlankAboveIsStripped(line: string, rest: seq<string>)
    requires LStrip(line) != ""
    requires var s := Join([line] + rest);
      && Printable(s) && NoSpaceBeforeNewline(s) && NoThreeNewlines(s)
      && s != "" && s[0] != '\n' && !IsSpace(s[|s| - 1])
    ensures CleanText(Join([""] + ([line] + rest))) == Join([LStrip(line)] + rest)
  {
    BlankAboveText(Join([line] + rest));
    JoinCons("", [line] + rest);
    assert "" + "\n" + Join([line] + rest) == "\n" + Join([line] + rest);
    JoinBelow(line, rest);
    JoinBelow(LStrip(line), rest);
    LStripFirstLine(line, Below(rest));
  }

  // Where the history starts, in what was kept

  lemma {:induction false} QuoteDropped(lines: seq<string>)
    ensures var kept := WithoutTrailingQuote(lines);
      && |kept| <= |lines| && kept == lines[..|kept|]
      && (kept != [] ==> !IsQuoted(kept[|kept| - 1]))
  {
    if lines != [] && IsQuoted(lines[|lines| - 1]) {
      var init := lines[..|lines| - 1];
      QuoteDropped(init);
      assert init[..|WithoutTrailingQuote(init)|] == lines[..|WithoutTrailingQuote(init)|];
    }
  }

  lemma {:induction false} HistoryIsFirst(p: Patterns, lines: seq<string>, index: nat)
    requires index <= |lines|
    ensures var r := HistoryFrom(p, lines, index);
      forall i :: index <= i < |lines| && (r.Some? ==> i < r.value) ==> !StartsHistory(p, lines, i)
    decreases |lines| - index
  {
    if index < |lines| && !StartsHistory(p, lines, index) {
      HistoryIsFirst(p, lines, index + 1);
    }
  }

  lemma {:induction false} NoHistory(p: Patterns, lines: seq<string>, index: nat)
    requires index <= |lines| && forall i :: index <= i < |lines| ==> !StartsHistory(p, lines, i)
    ensures HistoryFrom(p, lines, index).None?
    decreases |lines| - index
  {
    if index < |lines| {
      assert !StartsHistory(p, lines, index);
      NoHistory(p, lines, index + 1);
    }
  }

  lemma {:induction false} ForwardIsFirst(p: Patterns, matched: seq<string>, index: nat)
    requires index <= |matched|
    ensures var r := ForwardFrom(p, matched, index);
      && (forall i :: index <= i < r ==> !p.forwarded(matched[i]))
      && (r < |matched| ==> p.forwarded(matched[r]))
    decreases |matched| - index
  {
    if index < |matched| && !p.forwarded(matched[index]) {
      ForwardIsFirst(p, matched, index + 1);
    }
  }

  lemma {:induction false} ForwardIs(p: Patterns, matched: seq<string>, index: nat, r: nat)
    requires index <= r <= |matched| && (forall i :: index <= i < r ==> !p.forwarded(matched[i]))
    requires r < |matched| ==> p.forwarded(matched[r])
    ensures ForwardFrom(p, matched, index) == r
    decreases r - index
  {
    if index < r {
      ForwardIs(p, matched, index + 1, r);
    }
  }

  /** The lines above `k` are the same, and a blank line or the end follows. */
  predicate CutAt(lines: seq<string>, cut: seq<string>, k: nat) {
    && k <= |lines| && k <= |cut| && cut[..k] == lines[..k]
    && (k < |cut| ==> cut[k] == "")
  }

  lemma {:induction false} CutHasFewerNames(
    p: Patterns, lines: seq<string>, cut: seq<string>, k: nat, index: nat, n: nat)
    requires Sensible(p) && CutAt(lines, cut, k) && index <= k
    ensures HeaderNames(p, cut, index, n) <= HeaderNames(p, lines, index, n)
    decreases n
  {
    if n > 0 && index < k {
      assert cut[index] == cut[..k][index] == lines[..k][index];
      CutHasFewerNames(p, lines, cut, k, index + 1, n - 1);
    }
  }

  lemma FewerIsNoMoreComplete(names: set<string>, more: set<string>)
    requires names <= more && Complete(names)
    ensures Complete(more)
  {
    assert more == names + (more - names);
  }

  /** Cutting below a line makes no history of it. */
  lemma CuttingMakesNoHistory(p: Patterns, lines: seq<string>, cut: seq<string>, k: nat, i: nat)
    requires Sensible(p) && CutAt(lines, cut, k) && i < k
    requires !StartsHistory(p, lines, i)
    ensures !StartsHistory(p, cut, i)
  {
    assert cut[i] == cut[..k][i] == lines[..k][i];
    if i + 1 < k {
      assert cut[i + 1] == cut[..k][i + 1] == lines[..k][i + 1];
    } else {
      assert cut[i] + " " + "" == cut[i] + " ";
    }
    CutHasFewerNames(p, lines, cut, k, i, HEADER_LINES);
    if IsHeaderBlock(p, cut, i) {
      FewerIsNoMoreComplete(HeaderNames(p, cut, i, HEADER_LINES), HeaderNames(p, lines, i, HEADER_LINES));
    }
  }

  lemma BlankIsNoHistory(p: Patterns, lines: seq<string>, i: nat)
    requires Sensible(p) && i < |lines| && lines[i] == ""
    ensures !StartsHistory(p, lines, i)
  {}

  // What is kept, and what comes of it

  /** The reply's own lines are the first ones, none of which starts a history or a forward. */
  predicate OwnIs(p: Patterns, lines: seq<string>, k: nat) {
    && k <= Forward(p, lines) && Own(p, lines) == lines[..k]
    && (k > 0 ==> !IsQuoted(lines[k - 1]))
  }

  lemma TopOfTop(lines: seq<string>, end: nat, k: nat)
    requires k <= end <= |lines|
    ensures lines[..end][..k] == lines[..k]
  {}

  lemma QuoteDroppedBelow(lines: seq<string>, end: nat)
    requires end <= |lines|
    ensures var k := |WithoutTrailingQuote(lines[..end])|;
      k <= end && WithoutTrailingQuote(lines[..end]) == lines[..k] && (k > 0 ==> !IsQuoted(lines[k - 1]))
  {
    QuoteDropped(lines[..end]);
    TopOfTop(lines, end, |WithoutTrailingQuote(lines[..end])|);
  }

  lemma OwnIsPrefix(p: Patterns, lines: seq<string>)
    ensures OwnIs(p, lines, |Own(p, lines)|) && |Own(p, lines)| <= OwnEnd(p, lines)
  {
    QuoteDroppedBelow(lines, OwnEnd(p, lines));
  }

  /** No line above it starts a history, or a forward. */
  lemma NothingStartsAbove(p: Patterns, lines: seq<string>, i: nat)
    requires i < OwnEnd(p, lines)
    ensures !StartsHistory(p, AllMatched(lines)[..Forward(p, lines)], i) && !p.forwarded(AllMatched(lines)[i])
  {
    HistoryIsFirst(p, AllMatched(lines)[..Forward(p, lines)], 0);
    ForwardIsFirst(p, AllMatched(lines), 0);
  }

  lemma OwnIsTop(p: Patterns, lines: seq<string>)
    ensures OwnIs(p, lines, |Own(p, lines)|)
    ensures forall i :: 0 <= i < |Own(p, lines)| ==>
      && !StartsHistory(p, AllMatched(lines)[..Forward(p, lines)], i)
      && !p.forwarded(AllMatched(lines)[i])
  {
    OwnIsPrefix(p, lines);
    forall i | 0 <= i < |Own(p, lines)|
      ensures !StartsHistory(p, AllMatched(lines)[..Forward(p, lines)], i) && !p.forwarded(AllMatched(lines)[i])
    {
      NothingStartsAbove(p, lines, i);
    }
  }

  lemma TopHasNoHistory(p: Patterns, matched: seq<string>, top: seq<string>, k: nat)
    requires Sensible(p) && CutAt(matched, top, k) && |top| <= k + 1
    requires forall i :: 0 <= i < k ==> !StartsHistory(p, matched, i)
    ensures HistoryFrom(p, top, 0).None?
  {
    forall i | 0 <= i < |top| ensures !StartsHistory(p, top, i) {
      if i < k {
        CuttingMakesNoHistory(p, matched, top, k, i);
      } else {
        BlankIsNoHistory(p, top, i);
      }
    }
    NoHistory(p, top, 0);
  }

  lemma BlankMatchesBlank()
    ensures Matched("") == ""
  {}

  lemma SameTopMatches(lines: seq<string>, cut: seq<string>, k: nat)
    requires k <= |lines| && k <= |cut| && cut[..k] == lines[..k]
    ensures AllMatched(cut)[..k] == AllMatched(lines)[..k]
  {}

  /** Of a cut, only what is above it is left, and there is no history in it. */
  lemma CutHasNoHistory(p: Patterns, lines: seq<string>, cut: seq<string>, k: nat, forward: nat)
    requires Sensible(p) && k == |Own(p, lines)| && k <= |lines|
    requires k <= forward <= |cut| && forward <= k + 1
    requires cut[..k] == lines[..k] && (forward == k + 1 ==> cut[k] == "")
    ensures HistoryFrom(p, AllMatched(cut)[..forward], 0).None?
  {
    OwnIsTop(p, lines);
    BlankMatchesBlank();
    SameTopMatches(lines, cut, k);
    var matched, top := AllMatched(lines)[..Forward(p, lines)], AllMatched(cut)[..forward];
    assert top[..k] == AllMatched(cut)[..k] && matched[..k] == AllMatched(lines)[..k];
    TopHasNoHistory(p, matched, top, k);
  }

  lemma LStripTwice(s: string)
    ensures LStrip(LStrip(s)) == LStrip(s)
  {}

  /** A line that marks a forward isn't blank, indented or not. */
  lemma ForwardIsNotBlank(p: Patterns, line: string)
    requires Sensible(p) && p.forwarded(Matched(line))
    ensures LStrip(line) != ""
  {}

  lemma IndentDoesNotMatter(line: string)
    ensures Matched(LStrip(line)) == Matched(line)
  {}

  /**
   The lines of what is shown: the reply's own, then what it forwards after a blank
   line. A text of which neither is left is shown whole, and a forward with nothing above
   it starts at its first line, unindented.
   */
  function Shown(p: Patterns, lines: seq<string>): seq<string> {
    var own, forward := Own(p, lines), Forward(p, lines);
    if Forwards(p, lines) then
      if own == [] then [LStrip(lines[forward])] + lines[forward + 1..] else own + ([""] + lines[forward..])
    else if own == [] then lines
    else own
  }

  lemma ForwardLine(p: Patterns, lines: seq<string>)
    requires Sensible(p) && Forwards(p, lines)
    ensures var line := lines[Forward(p, lines)];
      p.forwarded(Matched(line)) && line != "" && LStrip(line) != ""
  {
    ForwardIsFirst(p, AllMatched(lines), 0);
    ForwardIsNotBlank(p, lines[Forward(p, lines)]);
  }

  lemma OnlyForwardParts(p: Patterns, lines: seq<string>, line: string, rest: seq<string>)
    requires Forwards(p, lines) && Own(p, lines) == []
    requires line == lines[Forward(p, lines)] && rest == lines[Forward(p, lines) + 1..]
    ensures lines[Forward(p, lines)..] == [line] + rest
    ensures Kept(p, lines) == [""] + ([line] + rest)
    ensures Shown(p, lines) == [LStrip(line)] + rest
  {}

  /** A text that is all forward, unindented. */
  lemma OnlyForwardShown(p: Patterns, lines: seq<string>)
    requires Sensible(p) && OneLines(lines) && IsClean(Join(lines)) && Forwards(p, lines) && Own(p, lines) == []
    ensures CleanText(Join(Kept(p, lines))) == Join(Shown(p, lines)) && Join(Shown(p, lines)) != ""
  {
    var f := Forward(p, lines);
    var line, rest := lines[f], lines[f + 1..];
    OnlyForwardParts(p, lines, line, rest);
    ForwardLine(p, lines);
    BottomIsClean(lines, f);
    assert OneLine(line);
    BlankAboveIsStripped(line, rest);
    JoinBelow(LStrip(line), rest);
  }

  lemma JoinAround(top: seq<string>, bottom: seq<string>)
    requires top != [] && bottom != []
    ensures Join(top + ([""] + bottom)) == Join(top) + "\n\n" + Join(bottom)
  {
    JoinConcat(top, [""] + bottom);
    JoinCons("", bottom);
    assert "" + "\n" + Join(bottom) == "\n" + Join(bottom);
    assert "\n" + ("\n" + Join(bottom)) == "\n\n" + Join(bottom);
  }

  lemma ReplyAndForwardShown(p: Patterns, lines: seq<string>)
    requires Sensible(p) && OneLines(lines) && IsClean(Join(lines)) && Forwards(p, lines) && Own(p, lines) != []
    ensures IsClean(Join(Shown(p, lines))) && Join(Shown(p, lines)) != ""
  {
    var own, f := Own(p, lines), Forward(p, lines);
    OwnIsTop(p, lines);
    TopIsClean(lines, |own|);
    ForwardLine(p, lines);
    BottomIsClean(lines, f);
    assert OneLine(lines[f]);
    BlankBetweenIsClean(Join(own), Join(lines[f..]));
    JoinAround(own, lines[f..]);
  }

  lemma OwnShown(p: Patterns, lines: seq<string>)
    requires OneLines(lines) && IsClean(Join(lines)) && !Forwards(p, lines)
    ensures CleanText(Join(Kept(p, lines))) == if Own(p, lines) == [] then "" else Join(Shown(p, lines))
    ensures Own(p, lines) != [] ==> Join(Shown(p, lines)) != ""
  {
    var own := Own(p, lines);
    assert Kept(p, lines) == own;
    if own == [] {
      assert Strip("") == "";
      CleanStays("");
    } else {
      OwnIsTop(p, lines);
      TopIsClean(lines, |own|);
      CleanStays(Join(own));
    }
  }

  lemma KeptIsShown(p: Patterns, lines: seq<string>)
    requires Sensible(p) && OneLines(lines) && IsClean(Join(lines))
    ensures var kept := CleanText(Join(Kept(p, lines)));
      (if kept == "" then Join(lines) else kept) == Join(Shown(p, lines))
  {
    if !Forwards(p, lines) {
      OwnShown(p, lines);
    } else if Own(p, lines) == [] {
      OnlyForwardShown(p, lines);
    } else {
      ReplyAndForwardShown(p, lines);
      CleanStays(Join(Shown(p, lines)));
    }
  }

  /** `strip_history` shows those lines, and no other text. */
  lemma ShownIs(p: Patterns, t: string)
    requires Sensible(p)
    ensures StripHistory(p, t) == Join(Shown(p, Split(CleanText(t)))) && IsClean(StripHistory(p, t))
  {
    var lines := Split(CleanText(t));
    CleanTextIsClean(t);
    CleanTextIsClean(Join(Kept(p, lines)));
    JoinSplit(CleanText(t));
    KeptIsShown(p, lines);
  }

  /** A mail with any text shows some. */
  lemma NothingTurnsBlank(p: Patterns, t: string)
    ensures CleanText(t) != "" ==> StripHistory(p, t) != ""
  {}

  // Once is enough

  lemma KeptOwnIsOwn(lines: seq<string>)
    requires lines != [] && !IsQuoted(lines[|lines| - 1])
    ensures WithoutTrailingQuote(lines) == lines
    ensures WithoutTrailingQuote(lines + [""]) == lines
  {}

  lemma OwnShownAgain(p: Patterns, lines: seq<string>)
    requires Sensible(p) && !Forwards(p, lines) && Own(p, lines) != []
    ensures Shown(p, Own(p, lines)) == Own(p, lines)
  {
    var own := Own(p, lines);
    var k := |own|;
    OwnIsTop(p, lines);
    assert own[..k] == own;
    forall i | 0 <= i < k ensures !p.forwarded(AllMatched(own)[i]) {
      assert own[i] == lines[..k][i] == lines[i];
    }
    ForwardIs(p, AllMatched(own), 0, k);
    CutHasNoHistory(p, lines, own, k, k);
    KeptOwnIsOwn(own);
  }

  /** What a reply and a forward show has the forward where it was put. */
  lemma ForwardStays(p: Patterns, lines: seq<string>, own: seq<string>, bottom: seq<string>)
    requires Sensible(p) && OwnIs(p, lines, |own|) && own == Own(p, lines)
    requires bottom != [] && p.forwarded(Matched(bottom[0]))
    ensures Forward(p, own + ([""] + bottom)) == |own| + 1
  {
    var shown := own + ([""] + bottom);
    OwnIsTop(p, lines);
    BlankMatchesBlank();
    forall i | 0 <= i < |own| + 1 ensures !p.forwarded(AllMatched(shown)[i]) {
      if i < |own| {
        assert shown[i] == own[i] == lines[..|own|][i] == lines[i];
        assert !p.forwarded(AllMatched(lines)[i]);
      }
    }
    ForwardIs(p, AllMatched(shown), 0, |own| + 1);
  }

  lemma StartStays(p: Patterns, lines: seq<string>, own: seq<string>, bottom: seq<string>)
    requires Sensible(p) && own == Own(p, lines) && own != []
    requires bottom != [] && p.forwarded(Matched(bottom[0]))
    ensures var shown := own + ([""] + bottom); Forward(p, shown) == |own| + 1 && Start(p, shown).None?
  {
    var shown := own + ([""] + bottom);
    OwnIsTop(p, lines);
    ForwardStays(p, lines, own, bottom);
    assert shown[..|own|] == own == lines[..|own|] && shown[|own|] == "";
    CutHasNoHistory(p, lines, shown, |own|, |own| + 1);
  }

  lemma OwnStays(p: Patterns, lines: seq<string>, own: seq<string>, bottom: seq<string>)
    requires own == Own(p, lines) && own != []
    requires var shown := own + ([""] + bottom); Forward(p, shown) == |own| + 1 && Start(p, shown).None?
    ensures Own(p, own + ([""] + bottom)) == own
  {
    OwnIsTop(p, lines);
    assert (own + ([""] + bottom))[..|own| + 1] == own + [""];
    KeptOwnIsOwn(own);
  }

  lemma ReplyAndForwardShownAgain(p: Patterns, lines: seq<string>, own: seq<string>, bottom: seq<string>)
    requires Sensible(p) && own == Own(p, lines) && own != []
    requires bottom != [] && p.forwarded(Matched(bottom[0]))
    ensures var shown := own + ([""] + bottom); Shown(p, shown) == shown
  {
    var shown := own + ([""] + bottom);
    StartStays(p, lines, own, bottom);
    OwnStays(p, lines, own, bottom);
    assert shown[|own| + 1..] == bottom;
  }

  lemma OnlyForwardShownAgain(p: Patterns, lines: seq<string>, shown: seq<string>)
    requires Sensible(p) && Forwards(p, lines) && Own(p, lines) == [] && shown == Shown(p, lines)
    ensures Shown(p, shown) == shown
  {
    var f := Forward(p, lines);
    ForwardLine(p, lines);
    IndentDoesNotMatter(lines[f]);
    LStripTwice(lines[f]);
    ForwardIs(p, AllMatched(shown), 0, 0);
    assert AllMatched(shown)[..0] == [];
    assert shown[..0] == [];
    assert [LStrip(shown[0])] + shown[1..] == shown;
  }

  lemma ShownAgain(p: Patterns, lines: seq<string>)
    requires Sensible(p)
    ensures Shown(p, Shown(p, lines)) == Shown(p, lines)
  {
    if Forwards(p, lines) {
      if Own(p, lines) == [] {
        OnlyForwardShownAgain(p, lines, Shown(p, lines));
      } else {
        ForwardLine(p, lines);
        ReplyAndForwardShownAgain(p, lines, Own(p, lines), lines[Forward(p, lines)..]);
      }
    } else if Own(p, lines) != [] {
      OwnShownAgain(p, lines);
    }
  }

  lemma {:induction false} LStripOneLine(line: string)
    requires OneLine(line)
    ensures OneLine(LStrip(line))
  {
    LStripShape(line);
  }

  lemma OnlyForwardHasLines(p: Patterns, lines: seq<string>)
    requires OneLines(lines) && Forwards(p, lines) && Own(p, lines) == []
    ensures OneLines(Shown(p, lines))
  {
    var f := Forward(p, lines);
    OnlyForwardParts(p, lines, lines[f], lines[f + 1..]);
    LStripOneLine(lines[f]);
  }

  lemma ShownHasLines(p: Patterns, lines: seq<string>)
    requires lines != [] && OneLines(lines)
    ensures Shown(p, lines) != [] && OneLines(Shown(p, lines))
  {
    OwnIsTop(p, lines);
    if Forwards(p, lines) && Own(p, lines) == [] {
      OnlyForwardHasLines(p, lines);
    }
  }

  /** Stripping what was stripped changes nothing. */
  lemma StripHistoryIdempotent(p: Patterns, t: string)
    requires Sensible(p)
    ensures StripHistory(p, StripHistory(p, t)) == StripHistory(p, t)
  {
    var lines := Split(CleanText(t));
    var once := StripHistory(p, t);
    JoinSplit(CleanText(t));
    ShownIs(p, t);
    ShownIs(p, once);
    CleanStays(once);
    ShownHasLines(p, lines);
    SplitJoin(Shown(p, lines));
    ShownAgain(p, lines);
  }

  // Only lines are dropped

  predicate Within(part: seq<string>, whole: seq<string>) {
    || part == []
    || (whole != [] && ((part[0] == whole[0] && Within(part[1..], whole[1..])) || Within(part, whole[1..])))
  }

  lemma {:induction false} WithinSelf(lines: seq<string>)
    ensures Within(lines, lines)
  {
    if lines != [] {
      WithinSelf(lines[1..]);
    }
  }

  lemma {:induction false} WithinBelow(part: seq<string>, above: seq<string>, whole: seq<string>)
    requires Within(part, whole)
    ensures Within(part, above + whole)
  {
    if above == [] {
      assert above + whole == whole;
    } else {
      assert (above + whole)[1..] == above[1..] + whole;
      WithinBelow(part, above[1..], whole);
    }
  }

  lemma {:induction false} WithinAbove(above: seq<string>, part: seq<string>, whole: seq<string>)
    requires Within(part, whole)
    ensures Within(above + part, above + whole)
  {
    if above == [] {
      assert above + part == part && above + whole == whole;
    } else {
      assert (above + part)[1..] == above[1..] + part && (above + whole)[1..] == above[1..] + whole;
      WithinAbove(above[1..], part, whole);
    }
  }

  lemma {:induction false} WithinIsShorter(part: seq<string>, whole: seq<string>)
    requires Within(part, whole)
    ensures |part| <= |whole|
  {
    if part != [] {
      if part[0] == whole[0] && Within(part[1..], whole[1..]) {
        WithinIsShorter(part[1..], whole[1..]);
      } else {
        WithinIsShorter(part, whole[1..]);
      }
    }
  }

  lemma {:induction false} WithinSkips(part: seq<string>, above: seq<string>, whole: seq<string>)
    requires part != [] && Within(part, above + whole) && part[0] !in above
    ensures Within(part, whole)
  {
    if above == [] {
      assert above + whole == whole;
    } else {
      assert (above + whole)[1..] == above[1..] + whole;
      assert (above + whole)[0] == above[0];
      WithinSkips(part, above[1..], whole);
    }
  }

  /** The mail's lines, with one blank line where what is forwarded begins. */
  function WithBlank(p: Patterns, lines: seq<string>): seq<string> {
    if Forwards(p, lines) then lines[..Forward(p, lines)] + ([""] + lines[Forward(p, lines)..]) else lines
  }

  /** What is forwarded starts indented, and nothing is shown above it. */
  predicate StartsIndented(p: Patterns, lines: seq<string>) {
    && Forwards(p, lines) && Own(p, lines) == []
    && LStrip(lines[Forward(p, lines)]) != lines[Forward(p, lines)]
  }

  lemma SuffixWithin(lines: seq<string>, f: nat, rest: seq<string>)
    requires f <= |lines|
    ensures Within(rest, lines[..f] + ([""] + rest))
  {
    WithinSelf(rest);
    WithinBelow(rest, lines[..f] + [""], rest);
    assert lines[..f] + [""] + rest == lines[..f] + ([""] + rest);
  }

  lemma PrefixWithin(lines: seq<string>, k: nat, f: nat, rest: seq<string>)
    requires k <= f <= |lines|
    ensures Within(lines[..k] + rest, lines[..f] + rest)
  {
    WithinSelf(rest);
    WithinBelow(rest, lines[k..f], rest);
    WithinAbove(lines[..k], rest, lines[k..f] + rest);
    assert lines[..k] + (lines[k..f] + rest) == lines[..f] + rest;
  }

  lemma OwnDropsLines(p: Patterns, lines: seq<string>)
    requires !Forwards(p, lines)
    ensures Within(Shown(p, lines), lines)
  {
    var own := Own(p, lines);
    OwnIsTop(p, lines);
    WithinSelf(lines);
    PrefixWithin(lines, |own|, |lines|, []);
    assert lines[..|own|] + [] == own && lines[..|lines|] + [] == lines;
  }

  lemma DropsLines(p: Patterns, lines: seq<string>)
    requires !StartsIndented(p, lines)
    ensures Within(Shown(p, lines), WithBlank(p, lines))
  {
    if !Forwards(p, lines) {
      OwnDropsLines(p, lines);
    } else {
      var own, f := Own(p, lines), Forward(p, lines);
      OwnIsTop(p, lines);
      if own == [] {
        assert Shown(p, lines) == lines[f..];
        SuffixWithin(lines, f, lines[f..]);
      } else {
        PrefixWithin(lines, |own|, f, [""] + lines[f..]);
      }
    }
  }

  lemma NewFirstLine(line: string, above: seq<string>, rest: seq<string>)
    requires line !in above
    ensures !Within([line] + rest, above + rest)
  {
    if Within([line] + rest, above + rest) {
      WithinSkips([line] + rest, above, rest);
      WithinIsShorter([line] + rest, rest);
    }
  }

  lemma NoneAboveForwards(p: Patterns, lines: seq<string>, k: nat)
    requires Forwards(p, lines) && k < Forward(p, lines)
    ensures lines[k] != LStrip(lines[Forward(p, lines)])
  {
    ForwardIsFirst(p, AllMatched(lines), 0);
    IndentDoesNotMatter(lines[Forward(p, lines)]);
  }

  lemma BlankThenLine(top: seq<string>, line: string, rest: seq<string>)
    ensures top + ([""] + ([line] + rest)) == top + ["", line] + rest
  {}

  lemma UnindentedIsNew(p: Patterns, lines: seq<string>)
    requires Sensible(p) && StartsIndented(p, lines)
    ensures !Within(Shown(p, lines), WithBlank(p, lines))
  {
    var f := Forward(p, lines);
    var line, rest := lines[f], lines[f + 1..];
    OnlyForwardParts(p, lines, line, rest);
    ForwardLine(p, lines);
    forall k | 0 <= k < f ensures lines[..f][k] != LStrip(line) {
      NoneAboveForwards(p, lines, k);
    }
    BlankThenLine(lines[..f], line, rest);
    NewFirstLine(LStrip(line), lines[..f] + ["", line], rest);
  }

  /**
   The lines shown are the mail's own, in order, some dropped and at most a blank one
   added before a forward, unless the forward starts indented with nothing above it.
   */
  lemma OnlyLinesAreDropped(p: Patterns, t: string)
    requires Sensible(p)
    ensures var lines := Split(CleanText(t));
      Within(Split(StripHistory(p, t)), WithBlank(p, lines)) <==> !StartsIndented(p, lines)
  {
    var lines := Split(CleanText(t));
    JoinSplit(CleanText(t));
    ShownIs(p, t);
    ShownHasLines(p, lines);
    SplitJoin(Shown(p, lines));
    if StartsIndented(p, lines) {
      UnindentedIsNew(p, lines);
    } else {
      DropsLines(p, lines);
    }
  }

  /** A plain line that marks a forward, below a bare quote that is no history. */
  ghost predicate IsMark(p: Patterns, mark: string) {
    && 0 < |mark| <= MAX_MATCHED_LINE && Stripped(mark) && Printable(mark)
    && OneLine(mark) && '\U{00A0}' !in mark
    && p.forwarded(mark)
    && !p.forwarded(">") && !p.attributionStart(">") && p.header(">").None?
  }

  function QuoteThen(mark: string): seq<string> {
    [">", " " + mark]
  }

  lemma QuoteThenMarkIsClean(p: Patterns, mark: string)
    requires IsMark(p, mark)
    ensures CleanText(">\n " + mark) == ">\n " + mark
  {
    var t := ">\n " + mark;
    assert forall i :: 3 <= i < |t| ==> t[i] == mark[i - 3] && t[i] in mark;
    forall i ensures !SpaceEndsLine(t, i) && !ThreeNewlines(t, i) {}
    CleanStays(t);
  }

  lemma QuoteThenMarkSplits(p: Patterns, mark: string)
    requires IsMark(p, mark)
    ensures Split(">\n " + mark) == QuoteThen(mark)
  {
    var line := " " + mark;
    JoinCons(">", [line]);
    assert OneLine(line);
    SplitJoin(QuoteThen(mark));
    assert ">" + "\n" + line == ">\n " + mark;
  }

  lemma {:induction false} NoNbspStays(s: string)
    requires '\U{00A0}' !in s
    ensures NbspToSpace(s) == s
  {
    if s != "" {
      assert forall c :: c in s[1..] ==> c in s;
      NoNbspStays(s[1..]);
    }
  }

  lemma MarkUnindented(p: Patterns, mark: string)
    requires IsMark(p, mark)
    ensures LStrip(" " + mark) == mark != " " + mark
  {
    assert (" " + mark)[1..] == mark;
    assert |mark| != |" " + mark|;
  }

  lemma MarkMatches(p: Patterns, mark: string)
    requires IsMark(p, mark)
    ensures AllMatched(QuoteThen(mark)) == [">", mark]
  {
    StripStripped(">");
    assert Matched(">") == ">";
    StripStripped(mark);
    NoNbspStays(mark);
    MarkUnindented(p, mark);
    IndentDoesNotMatter(" " + mark);
  }

  lemma MarkIsForwarded(p: Patterns, mark: string)
    requires IsMark(p, mark)
    ensures Forward(p, QuoteThen(mark)) == 1 && Start(p, QuoteThen(mark)).None?
  {
    MarkMatches(p, mark);
    var matched := [">", mark];
    assert matched[0] == ">" && matched[1] == mark;
    assert ForwardFrom(p, matched, 1) == 1;
    assert ForwardFrom(p, matched, 0) == 1;
    var above := [">"];
    assert matched[..1] == above;
    assert !IsQuoteLine(p, above, 0) && !IsHeaderBlock(p, above, 0);
    assert HistoryFrom(p, above, 1).None?;
  }

  /** A quote, then an indented forward: what is shown is its mark, and that line is none of the mail's. */
  lemma AnIndentedForwardLosesItsIndent(p: Patterns, mark: string)
    requires Sensible(p) && IsMark(p, mark)
    ensures var lines := Split(CleanText(">\n " + mark));
      && StartsIndented(p, lines) && Shown(p, lines) == [mark] && mark !in lines
    ensures StripHistory(p, ">\n " + mark) == mark
  {
    var lines := QuoteThen(mark);
    QuoteThenMarkIsClean(p, mark);
    QuoteThenMarkSplits(p, mark);
    MarkUnindented(p, mark);
    MarkIsForwarded(p, mark);
    assert lines[..1] == [">"] && [">"][..0] == [];
    OnlyForwardParts(p, lines, " " + mark, []);
    ShownIs(p, ">\n " + mark);
  }

  /** The mark Apple Mail writes above what it forwards. */
  const APPLE_MARK := "Begin forwarded message:"

  const APPLE_PATTERNS :=
    Patterns(line => false, line => false, line => None, line => false, line => line == APPLE_MARK)

  predicate Plain(s: string) {
    forall i :: 0 <= i < |s| ==> ' ' <= s[i] <= '~'
  }

  lemma PlainIsMark(p: Patterns, mark: string)
    requires Plain(mark) && 0 < |mark| <= MAX_MATCHED_LINE && Stripped(mark) && p.forwarded(mark)
    requires !p.forwarded(">") && !p.attributionStart(">") && p.header(">").None?
    ensures IsMark(p, mark)
  {}

  lemma AppleMarkIsOne()
    ensures Sensible(APPLE_PATTERNS) && IsMark(APPLE_PATTERNS, APPLE_MARK)
  {
    var mark := APPLE_MARK;
    assert Plain(mark) && mark[0] == 'B' && mark[|mark| - 1] == ':';
    assert mark != "" && mark != ">";
    PlainIsMark(APPLE_PATTERNS, mark);
  }
}
