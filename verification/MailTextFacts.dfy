/** Which texts are clean, and what cleaning makes of line ends and control characters (backend/apps/email_channel/content.py:29-32). */
module MailTextFacts {
  import opened Text
  import opened MailText

  /** Newlines, tabs and printable characters, no space before a newline or at an end, no three newlines in a row. */
  predicate IsTidy(s: string) {
    && (forall i :: 0 <= i < |s| ==> s[i] == '\n' || s[i] == '\t' || (s[i] >= '\U{0020}' && s[i] != '\U{007F}'))
    && (forall i :: 0 <= i < |s| - 1 && s[i + 1] == '\n' ==> s[i] == '\n' || !IsSpace(s[i]))
    && (forall i :: 0 <= i < |s| - 2 && s[i] == '\n' && s[i + 1] == '\n' ==> s[i + 2] != '\n')
    && (s != "" ==> !IsSpace(s[0]) && !IsSpace(s[|s| - 1]))
  }

  lemma TidyIsClean(s: string)
    ensures IsTidy(s) <==> IsClean(s)
  {
    if IsTidy(s) {
      forall i ensures !SpaceEndsLine(s, i) && !ThreeNewlines(s, i) {}
      StripStripped(s);
    }
    if IsClean(s) {
      forall i | 0 <= i < |s| ensures !IsControl(s[i]) {}
      forall i | 0 <= i < |s| - 1 && s[i + 1] == '\n' ensures s[i] == '\n' || !IsSpace(s[i]) {
        assert !SpaceEndsLine(s, i);
      }
      forall i | 0 <= i < |s| - 2 && s[i] == '\n' && s[i + 1] == '\n' ensures s[i + 2] != '\n' {
        assert !ThreeNewlines(s, i);
      }
    }
  }

  /** Cleaning gives such a text, and leaves exactly those as they are. */
  lemma CleanExactly(s: string)
    ensures IsTidy(CleanText(s))
    ensures CleanText(s) == s <==> IsTidy(s)
  {
    CleanTextIsClean(s);
    TidyIsClean(CleanText(s));
    TidyIsClean(s);
    if IsTidy(s) {
      CleanStays(s);
    }
  }

  // Line ends

  /** The text with another end of its lines. */
  function Ended(s: string, end: string): string {
    if s == "" then "" else (if s[0] == '\n' then end else [s[0]]) + Ended(s[1..], end)
  }

  lemma {:induction false} NoCrStays(s: string)
    requires '\r' !in s
    ensures WithoutCrLf(s) == s && WithoutCr(s) == s
  {
    if s != "" {
      NoCrStays(s[1..]);
    }
  }

  lemma {:induction false} CrLfIsRead(s: string)
    requires '\r' !in s
    ensures WithoutCrLf(Ended(s, "\r\n")) == s
  {
    if s != "" {
      CrLfIsRead(s[1..]);
      var rest := Ended(s[1..], "\r\n");
      if s[0] == '\n' {
        assert Ended(s, "\r\n")[2..] == rest;
      } else {
        assert Ended(s, "\r\n")[1..] == rest;
      }
    }
  }

  lemma {:induction false} CrIsRead(s: string)
    requires '\r' !in s
    ensures '\n' !in Ended(s, "\r") && WithoutCrLf(Ended(s, "\r")) == Ended(s, "\r") && WithoutCr(Ended(s, "\r")) == s
  {
    if s != "" {
      CrIsRead(s[1..]);
      assert Ended(s, "\r")[1..] == Ended(s[1..], "\r");
    }
  }

  /** However its lines end, the text is cleaned alike. */
  lemma LineEndsAgree(s: string)
    requires '\r' !in s
    ensures CleanText(Ended(s, "\r\n")) == CleanText(s) && CleanText(Ended(s, "\r")) == CleanText(s)
  {
    NoCrStays(s);
    CrLfIsRead(s);
    CrIsRead(s);
  }

  lemma {:induction false} WithoutControlsConcat(a: string, b: string)
    ensures WithoutControls(a + b) == WithoutControls(a) + WithoutControls(b)
  {
    if a == "" {
      assert a + b == b;
    } else {
      assert (a + b)[1..] == a[1..] + b;
      WithoutControlsConcat(a[1..], b);
    }
  }

  /** A control character, but a tab, a newline or a return, is as if it were not there. */
  lemma ControlGoes(a: string, c: char, b: string)
    requires '\r' !in a && '\r' !in b
    requires (c < ' ' && c != '\t' && c != '\n' && c != '\r') || c == '\U{007F}'
    ensures CleanText(a + [c] + b) == CleanText(a + b)
  {
    NoCrStays(a + [c] + b);
    NoCrStays(a + b);
    WithoutControlsConcat(a + [c], b);
    WithoutControlsConcat(a, [c]);
    WithoutControlsConcat(a, b);
    assert WithoutControls([c]) == "";
    assert WithoutControls(a) + "" == WithoutControls(a);
  }
}
