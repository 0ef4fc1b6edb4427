/** A mail's text, cleaned of what isn't text (`_clean_text`, backend/apps/email_channel/content.py:29-32). */
module MailText {
  import opened Text

  // Lines

  function Split(s: string): (r: seq<string>)
    ensures |r| >= 1
  {
    if s == "" then [""]
    else
      var rest := Split(s[1..]);
      if s[0] == '\n' then [""] + rest else [[s[0]] + rest[0]] + rest[1..]
  }

  function Join(lines: seq<string>): string {
    if lines == [] then ""
    else if |lines| == 1 then lines[0]
    else lines[0] + "\n" + Join(lines[1..])
  }

  predicate OneLine(s: string) {
    '\n' !in s
  }

  lemma {:induction false} JoinSplit(s: string)
    ensures Join(Split(s)) == s
    ensures forall k :: 0 <= k < |Split(s)| ==> OneLine(Split(s)[k])
  {
    if s != "" {
      JoinSplit(s[1..]);
      var rest := Split(s[1..]);
      if s[0] == '\n' {
        assert ([""] + rest)[1..] == rest;
      } else if |rest| > 1 {
        assert ([[s[0]] + rest[0]] + rest[1..])[1..] == rest[1..];
      }
    }
  }

  lemma {:induction false} SplitLine(s: string)
    requires OneLine(s)
    ensures Split(s) == [s]
  {
    if s != "" {
      SplitLine(s[1..]);
      assert [s[0]] + s[1..] == s;
    }
  }

  lemma {:induction false} SplitAfterLine(s: string, t: string)
    requires OneLine(s)
    ensures Split(s + "\n" + t) == [s] + Split(t)
  {
    if s == "" {
      assert (s + "\n" + t)[1..] == t;
    } else {
      SplitAfterLine(s[1..], t);
      assert (s + "\n" + t)[1..] == s[1..] + "\n" + t;
      assert [s[0]] + s[1..] == s;
      assert ([s[1..]] + Split(t))[1..] == Split(t);
    }
  }

  lemma {:induction false} SplitJoin(lines: seq<string>)
    requires lines != [] && forall k :: 0 <= k < |lines| ==> OneLine(lines[k])
    ensures Split(Join(lines)) == lines
  {
    if |lines| == 1 {
      SplitLine(lines[0]);
    } else {
      SplitJoin(lines[1..]);
      SplitAfterLine(lines[0], Join(lines[1..]));
    }
  }

  lemma {:induction false} JoinConcat(a: seq<string>, b: seq<string>)
    requires a != [] && b != []
    ensures Join(a + b) == Join(a) + "\n" + Join(b)
  {
    if |a| == 1 {
      assert (a + b)[1..] == b;
    } else {
      assert (a + b)[1..] == a[1..] + b;
      JoinConcat(a[1..], b);
    }
  }

  // The cleaning, a step at a time

  function WithoutCrLf(s: string): string {
    if s == "" then ""
    else if |s| >= 2 && s[0] == '\r' && s[1] == '\n' then "\n" + WithoutCrLf(s[2..])
    else [s[0]] + WithoutCrLf(s[1..])
  }

  function WithoutCr(s: string): string {
    if s == "" then "" else [if s[0] == '\r' then '\n' else s[0]] + WithoutCr(s[1..])
  }

  predicate IsControl(c: char) {
    c <= '\U{0008}' || '\U{000B}' <= c <= '\U{001F}' || c == '\U{007F}'
  }

  function WithoutControls(s: string): string {
    if s == "" then "" else (if IsControl(s[0]) then "" else [s[0]]) + WithoutControls(s[1..])
  }

  function RStripAll(lines: seq<string>): seq<string> {
    seq(|lines|, k requires 0 <= k < |lines| => RStrip(lines[k]))
  }

  /** Newlines in a row beyond the second, `run` of them already written. */
  function Collapsed(s: string, run: nat): string {
    if s == "" then ""
    else if s[0] != '\n' then [s[0]] + Collapsed(s[1..], 0)
    else if run >= 2 then Collapsed(s[1..], run)
    else [s[0]] + Collapsed(s[1..], run + 1)
  }

  function CleanText(s: string): string {
    Strip(Collapsed(Join(RStripAll(Split(WithoutControls(WithoutCr(WithoutCrLf(s)))))), 0))
  }

  // What is clean

  predicate Printable(s: string) {
    forall i :: 0 <= i < |s| ==> !IsControl(s[i])
  }

  predicate SpaceEndsLine(s: string, i: int) {
    0 <= i < |s| - 1 && s[i + 1] == '\n' && s[i] != '\n' && IsSpace(s[i])
  }

  predicate ThreeNewlines(s: string, i: int) {
    0 <= i < |s| - 2 && s[i] == '\n' && s[i + 1] == '\n' && s[i + 2] == '\n'
  }

  /** No line ends with a space, but maybe the last. */
  ghost predicate NoSpaceBeforeNewline(s: string) {
    forall i :: !SpaceEndsLine(s, i)
  }

  predicate NoSpaceAtEnd(s: string) {
    s != "" && s[|s| - 1] != '\n' ==> !IsSpace(s[|s| - 1])
  }

  ghost predicate NoThreeNewlines(s: string) {
    forall i :: !ThreeNewlines(s, i)
  }

  /** Being local, both hold of any part of a text they hold of. */
  lemma PartsKeep(s: string, from: nat, upTo: nat)
    requires from <= upTo <= |s|
    ensures NoSpaceBeforeNewline(s) ==> NoSpaceBeforeNewline(s[from..upTo])
    ensures NoThreeNewlines(s) ==> NoThreeNewlines(s[from..upTo])
    ensures Printable(s) ==> Printable(s[from..upTo])
  {
    var part := s[from..upTo];
    forall i | SpaceEndsLine(part, i) ensures SpaceEndsLine(s, from + i) {}
    forall i | ThreeNewlines(part, i) ensures ThreeNewlines(s, from + i) {}
  }

  ghost predicate IsClean(s: string) {
    Printable(s) && NoSpaceBeforeNewline(s) && NoThreeNewlines(s) && Stripped(s)
  }

  // Cleaning cleans

  lemma {:induction false} ControlsGo(s: string)
    ensures Printable(WithoutControls(s))
    ensures Printable(s) ==> WithoutControls(s) == s
  {
    if s != "" {
      ControlsGo(s[1..]);
    }
  }

  lemma {:induction false} PrintableHasNoCr(s: string)
    requires Printable(s)
    ensures WithoutCrLf(s) == s && WithoutCr(s) == s
  {
    if s != "" {
      PrintableHasNoCr(s[1..]);
    }
  }

  /** The lines stripped at their right, from the left. */
  function RStripLines(s: string): string {
    if s == "" then ""
    else
      var rest := RStripLines(s[1..]);
      if s[0] != '\n' && IsSpace(s[0]) && (rest == "" || rest[0] == '\n') then rest else [s[0]] + rest
  }

  lemma {:induction false} RStripCons(c: char, s: string)
    ensures RStrip([c] + s) == if RStrip(s) == "" && IsSpace(c) then "" else [c] + RStrip(s)
  {
    if s != "" {
      var init := s[..|s| - 1];
      assert ([c] + s)[..|s|] == [c] + init;
      if IsSpace(s[|s| - 1]) {
        RStripCons(c, init);
      }
    } else {
      assert ([c] + s)[..0] == "";
    }
  }

  lemma JoinStartsBlank(lines: seq<string>)
    requires lines != [] && OneLine(lines[0])
    ensures (Join(lines) == "" || Join(lines)[0] == '\n') <==> lines[0] == ""
  {}

  lemma JoinFirst(c: char, lines: seq<string>)
    requires lines != []
    ensures Join([[c] + lines[0]] + lines[1..]) == [c] + Join(lines)
  {
    assert ([[c] + lines[0]] + lines[1..])[1..] == lines[1..];
  }

  lemma RStripAllCons(line: string, rest: seq<string>)
    ensures RStripAll([line] + rest) == [RStrip(line)] + RStripAll(rest)
  {}

  /** A character before the first line: a blank line's space is stripped with it. */
  lemma RStripFirst(c: char, rest: seq<string>)
    requires rest != [] && OneLine(rest[0]) && c != '\n'
    ensures var stripped := RStripAll(rest);
      Join(RStripAll([[c] + rest[0]] + rest[1..]))
      == if IsSpace(c) && (Join(stripped) == "" || Join(stripped)[0] == '\n') then Join(stripped) else [c] + Join(stripped)
  {
    var stripped := RStripAll(rest);
    RStripAllCons([c] + rest[0], rest[1..]);
    RStripAllCons(rest[0], rest[1..]);
    assert [rest[0]] + rest[1..] == rest;
    RStripCons(c, rest[0]);
    RStripShape(rest[0]);
    JoinStartsBlank(stripped);
    JoinFirst(c, stripped);
    assert stripped[0] == "" ==> [""] + stripped[1..] == stripped;
  }

  /** It is the same as splitting into lines, stripping each and joining them again. */
  lemma {:induction false} RStripLinesIs(s: string)
    ensures RStripLines(s) == Join(RStripAll(Split(s)))
  {
    if s != "" {
      RStripLinesIs(s[1..]);
      JoinSplit(s[1..]);
      var rest := Split(s[1..]);
      if s[0] == '\n' {
        RStripAllCons("", rest);
        assert ([""] + RStripAll(rest))[1..] == RStripAll(rest);
      } else {
        assert OneLine(rest[0]);
        RStripFirst(s[0], rest);
      }
    }
  }

  lemma ConsKeepsLines(c: char, s: string)
    requires NoSpaceBeforeNewline(s) && NoSpaceAtEnd(s)
    requires c == '\n' || !IsSpace(c) || (s != "" && s[0] != '\n')
    ensures NoSpaceBeforeNewline([c] + s) && NoSpaceAtEnd([c] + s)
  {
    forall i ensures !SpaceEndsLine([c] + s, i) {
      assert !SpaceEndsLine(s, i - 1);
    }
  }

  lemma {:induction false} RStripLinesStrips(s: string)
    ensures NoSpaceBeforeNewline(RStripLines(s)) && NoSpaceAtEnd(RStripLines(s))
  {
    if s != "" {
      RStripLinesStrips(s[1..]);
      var rest := RStripLines(s[1..]);
      if RStripLines(s) != rest {
        ConsKeepsLines(s[0], rest);
      }
    }
  }

  lemma {:induction false} RStripLinesPrints(s: string)
    requires Printable(s)
    ensures Printable(RStripLines(s))
  {
    if s != "" {
      RStripLinesPrints(s[1..]);
    }
  }

  lemma {:induction false} StrippedLinesStay(s: string)
    requires NoSpaceBeforeNewline(s) && NoSpaceAtEnd(s)
    ensures RStripLines(s) == s
  {
    if s != "" {
      PartsKeep(s, 1, |s|);
      assert s[1..|s|] == s[1..];
      StrippedLinesStay(s[1..]);
      assert !SpaceEndsLine(s, 0);
    }
  }

  lemma {:induction false} CollapsedPrints(s: string, run: nat)
    requires Printable(s)
    ensures Printable(Collapsed(s, run))
  {
    if s != "" {
      CollapsedPrints(s[1..], 0);
      CollapsedPrints(s[1..], run);
      CollapsedPrints(s[1..], run + 1);
    }
  }

  /** It starts as the text does, past what is dropped: with at most as many newlines as are left to write. */
  lemma {:induction false} CollapsedStart(s: string, run: nat)
    ensures var r := Collapsed(s, run);
      && (s != "" && s[0] != '\n' ==> r != "" && r[0] == s[0])
      && (run >= 2 && r != "" ==> r[0] != '\n')
      && (run == 1 && |r| >= 2 ==> !(r[0] == r[1] == '\n'))
  {
    if s != "" && s[0] == '\n' {
      CollapsedStart(s[1..], run);
      CollapsedStart(s[1..], run + 1);
    }
  }

  lemma {:induction false} CollapsedLeavesTwo(s: string, run: nat)
    ensures NoThreeNewlines(Collapsed(s, run))
  {
    if s != "" {
      CollapsedLeavesTwo(s[1..], 0);
      CollapsedLeavesTwo(s[1..], run);
      CollapsedLeavesTwo(s[1..], run + 1);
      CollapsedStart(s[1..], run + 1);
      var r := Collapsed(s, run);
      if s[0] != '\n' || run < 2 {
        var rest := Collapsed(s[1..], if s[0] != '\n' then 0 else run + 1);
        assert r == [s[0]] + rest;
        forall i ensures !ThreeNewlines(r, i) {
          assert !ThreeNewlines(rest, i - 1);
        }
      }
    }
  }

  lemma {:induction false} CollapsedKeepsLines(s: string, run: nat)
    requires NoSpaceBeforeNewline(s) && NoSpaceAtEnd(s)
    ensures NoSpaceBeforeNewline(Collapsed(s, run)) && NoSpaceAtEnd(Collapsed(s, run))
  {
    if s != "" {
      PartsKeep(s, 1, |s|);
      assert s[1..|s|] == s[1..];
      CollapsedKeepsLines(s[1..], 0);
      CollapsedKeepsLines(s[1..], run);
      CollapsedKeepsLines(s[1..], run + 1);
      if s[0] != '\n' {
        assert !SpaceEndsLine(s, 0);
        CollapsedStart(s[1..], 0);
        ConsKeepsLines(s[0], Collapsed(s[1..], 0));
      } else if run < 2 {
        ConsKeepsLines(s[0], Collapsed(s[1..], run + 1));
      }
    }
  }

  lemma {:induction false} CollapsedIdentity(s: string, run: nat)
    requires NoThreeNewlines(s)
    requires run >= 1 ==> !(|s| >= 2 && s[0] == s[1] == '\n')
    requires run >= 2 ==> s == "" || s[0] != '\n'
    ensures Collapsed(s, run) == s
  {
    if s != "" {
      PartsKeep(s, 1, |s|);
      assert s[1..|s|] == s[1..];
      assert !ThreeNewlines(s, 0);
      if s[0] == '\n' {
        CollapsedIdentity(s[1..], run + 1);
      } else {
        CollapsedIdentity(s[1..], 0);
      }
    }
  }

  lemma StripKeeps(s: string)
    requires Printable(s) && NoSpaceBeforeNewline(s) && NoThreeNewlines(s)
    ensures IsClean(Strip(s))
  {
    var left := LStrip(s);
    LStripShape(s);
    assert left == s[|s| - |left|..|s|];
    PartsKeep(s, |s| - |left|, |s|);
    RStripShape(left);
    assert Strip(s) == left[0..|Strip(s)|];
    PartsKeep(left, 0, |Strip(s)|);
    StripStripped(s);
  }

  /** What comes out is clean. */
  lemma CleanTextIsClean(t: string)
    ensures IsClean(CleanText(t))
  {
    var s := WithoutControls(WithoutCr(WithoutCrLf(t)));
    ControlsGo(WithoutCr(WithoutCrLf(t)));
    RStripLinesIs(s);
    RStripLinesStrips(s);
    RStripLinesPrints(s);
    CollapsedPrints(RStripLines(s), 0);
    CollapsedLeavesTwo(RStripLines(s), 0);
    CollapsedKeepsLines(RStripLines(s), 0);
    StripKeeps(Collapsed(RStripLines(s), 0));
  }

  /** And of what is printable and stripped by line, only the ends are stripped. */
  lemma CleaningOnlyStrips(s: string)
    requires Printable(s) && NoSpaceBeforeNewline(s) && NoSpaceAtEnd(s) && NoThreeNewlines(s)
    ensures CleanText(s) == Strip(s)
  {
    PrintableHasNoCr(s);
    ControlsGo(s);
    RStripLinesIs(s);
    StrippedLinesStay(s);
    CollapsedIdentity(s, 0);
  }

  lemma CleanStays(s: string)
    requires IsClean(s)
    ensures CleanText(s) == s
  {
    CleaningOnlyStrips(s);
    StripStripped(s);
  }

  lemma CleanTextIdempotent(t: string)
    ensures CleanText(CleanText(t)) == CleanText(t)
  {
    CleanTextIsClean(t);
    CleanStays(CleanText(t));
  }
}
