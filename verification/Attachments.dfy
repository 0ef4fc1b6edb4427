/**
 The files a reply mail attaches, within a budget of bytes as encoded
 (backend/apps/email_channel/outbound.py:156-207). The encoding is base64 in lines of
 76 characters, section 6.8 of RFC 2045.
 */
module Attachments {
  import opened Rows

  // The encoding

  type Byte = b: int | 0 <= b < 256
  type Digit = d: int | 0 <= d < 64

  datatype Symbol = Of(digit: Digit) | Pad | Cr | Lf

  const LINE: nat := 76

  /** Three bytes as four digits. */
  function Quad(a: Byte, b: Byte, c: Byte): seq<Symbol> {
    [Of(a / 4), Of(a % 4 * 16 + b / 16), Of(b % 16 * 4 + c / 64), Of(c % 64)]
  }

  function Base64(content: seq<Byte>): seq<Symbol> {
    if |content| == 0 then []
    else if |content| == 1 then [Of(content[0] / 4), Of(content[0] % 4 * 16), Pad, Pad]
    else if |content| == 2 then
      [Of(content[0] / 4), Of(content[0] % 4 * 16 + content[1] / 16), Of(content[1] % 16 * 4), Pad]
    else Quad(content[0], content[1], content[2]) + Base64(content[3..])
  }

  /** Each line of 76 symbols, and what is left, ends in CRLF. */
  function Lines(symbols: seq<Symbol>): seq<Symbol> {
    if |symbols| == 0 then []
    else if |symbols| <= LINE then symbols + [Cr, Lf]
    else symbols[..LINE] + [Cr, Lf] + Lines(symbols[LINE..])
  }

  function Encoded(content: seq<Byte>): seq<Symbol> {
    Lines(Base64(content))
  }

  // Read back, which shows that it is an encoding

  function WithoutBreaks(symbols: seq<Symbol>): seq<Symbol> {
    if symbols == [] then []
    else if symbols[0].Cr? || symbols[0].Lf? then WithoutBreaks(symbols[1..])
    else [symbols[0]] + WithoutBreaks(symbols[1..])
  }

  function Unquad(x: Digit, y: Digit, z: Digit, w: Digit): seq<Byte> {
    [x * 4 + y / 16, y % 16 * 16 + z / 4, z % 4 * 64 + w]
  }

  function Decoded64(symbols: seq<Symbol>): seq<Byte> {
    if |symbols| < 4 || !symbols[0].Of? || !symbols[1].Of? then []
    else if !symbols[2].Of? then [symbols[0].digit * 4 + symbols[1].digit / 16]
    else if !symbols[3].Of? then
      [symbols[0].digit * 4 + symbols[1].digit / 16, symbols[1].digit % 16 * 16 + symbols[2].digit / 4]
    else Unquad(symbols[0].digit, symbols[1].digit, symbols[2].digit, symbols[3].digit) + Decoded64(symbols[4..])
  }

  lemma QuadReads(a: Byte, b: Byte, c: Byte)
    ensures var q := Quad(a, b, c); Unquad(q[0].digit, q[1].digit, q[2].digit, q[3].digit) == [a, b, c]
  {}

  lemma {:induction false} Base64Reads(content: seq<Byte>)
    ensures Decoded64(Base64(content)) == content
  {
    if |content| >= 3 {
      var a, b, c := content[0], content[1], content[2];
      Base64Reads(content[3..]);
      QuadReads(a, b, c);
      assert (Quad(a, b, c) + Base64(content[3..]))[4..] == Base64(content[3..]);
      assert content == [a, b, c] + content[3..];
    }
  }

  predicate NoBreaks(symbols: seq<Symbol>) {
    forall k :: 0 <= k < |symbols| ==> !symbols[k].Cr? && !symbols[k].Lf?
  }

  lemma {:induction false} Base64HasNoBreaks(content: seq<Byte>)
    ensures NoBreaks(Base64(content))
  {
    if |content| >= 3 {
      Base64HasNoBreaks(content[3..]);
    }
  }

  lemma {:induction false} WithoutBreaksConcat(a: seq<Symbol>, b: seq<Symbol>)
    ensures WithoutBreaks(a + b) == WithoutBreaks(a) + WithoutBreaks(b)
  {
    if a == [] {
      assert a + b == b;
    } else {
      assert (a + b)[1..] == a[1..] + b;
      WithoutBreaksConcat(a[1..], b);
    }
  }

  lemma {:induction false} NoBreaksStay(symbols: seq<Symbol>)
    requires NoBreaks(symbols)
    ensures WithoutBreaks(symbols) == symbols && WithoutBreaks(symbols + [Cr, Lf]) == symbols
  {
    WithoutBreaksConcat(symbols, [Cr, Lf]);
    assert [Cr, Lf][1..] == [Lf] && [Lf][1..] == [];
    if symbols != [] {
      NoBreaksStay(symbols[1..]);
    }
  }

  lemma {:induction false} LinesRead(symbols: seq<Symbol>)
    requires NoBreaks(symbols)
    ensures WithoutBreaks(Lines(symbols)) == symbols
  {
    if |symbols| > LINE {
      LinesRead(symbols[LINE..]);
      NoBreaksStay(symbols[..LINE]);
      WithoutBreaksConcat(symbols[..LINE] + [Cr, Lf], Lines(symbols[LINE..]));
    } else {
      NoBreaksStay(symbols);
    }
  }

  /** What is attached reads back as it was stored. */
  lemma EncodedReads(content: seq<Byte>)
    ensures Decoded64(WithoutBreaks(Encoded(content))) == content
  {
    Base64HasNoBreaks(content);
    LinesRead(Base64(content));
    Base64Reads(content);
  }

  // Its size, computed

  /** `-(-a // b)`, the quotient rounded up. */
  function CeilDiv(a: int, b: int): int
    requires b > 0
  {
    -((-a) / b)
  }

  function EncodedSize(size: nat): (r: nat)
    ensures size <= r
  {
    var encoded := 4 * CeilDiv(size, 3);
    encoded + 2 * CeilDiv(encoded, LINE)
  }

  lemma {:induction false} Base64Size(content: seq<Byte>)
    ensures |Base64(content)| == 4 * CeilDiv(|content|, 3)
  {
    if |content| >= 3 {
      Base64Size(content[3..]);
    }
  }

  lemma {:induction false} LinesSize(symbols: seq<Symbol>)
    ensures |Lines(symbols)| == |symbols| + 2 * CeilDiv(|symbols|, LINE)
  {
    if |symbols| > LINE {
      LinesSize(symbols[LINE..]);
    }
  }

  /** The computed size is that of the encoding, to the byte. */
  lemma EncodedSizeIs(content: seq<Byte>)
    ensures EncodedSize(|content|) == |Encoded(content)|
  {
    Base64Size(content);
    LinesSize(Base64(content));
  }

  lemma EncodedSizeMonotone(a: nat, b: nat)
    requires a <= b
    ensures EncodedSize(a) <= EncodedSize(b)
  {}

  /** Bytes enough to tell a file that doesn't fit. */
  function Readable(budget: nat): nat {
    budget * 3 / 4 + 1
  }

  lemma ReadableIsTooMuch(budget: nat)
    ensures EncodedSize(Readable(budget)) > budget
  {}

  // What a mail attaches

  /** A file of a reply: what its row says of it, and what storage has, if anything and if it can be read. */
  datatype File = File(key: Id, named: bool, recordedSize: nat, stored: Option<seq<Byte>>)

  datatype FileStatus = Attached | TooLarge | Unavailable

  predicate Fits(size: nat, budget: int) {
    EncodedSize(size) <= budget
  }

  /** What becomes of a file, with that much of the budget left. */
  function Fate(f: File, budget: int): FileStatus {
    if !f.named then Unavailable
    else if !Fits(f.recordedSize, budget) then TooLarge
    else if f.stored.None? then Unavailable
    else if !Fits(|f.stored.value|, budget) then TooLarge
    else Attached
  }

  /** What is left after it. */
  function Left(f: File, budget: int): int {
    if Fate(f, budget).Attached? then budget - EncodedSize(|f.stored.value|) else budget
  }

  /** And after all of them, in order. */
  function LeftAfter(files: seq<File>, budget: int): int {
    if files == [] then budget else Left(files[|files| - 1], LeftAfter(files[..|files| - 1], budget))
  }

  function FateAt(files: seq<File>, k: nat, budget: int): FileStatus
    requires k < |files|
  {
    Fate(files[k], LeftAfter(files[..k], budget))
  }

  /** The files attached, whole. */
  function Carried(files: seq<File>, budget: int): seq<seq<Byte>> {
    if files == [] then []
    else
      var last := files[|files| - 1];
      Carried(files[..|files| - 1], budget)
      + if Fate(last, LeftAfter(files[..|files| - 1], budget)).Attached? then [last.stored.value] else []
  }

  function TotalEncoded(contents: seq<seq<Byte>>): nat {
    if contents == [] then 0
    else TotalEncoded(contents[..|contents| - 1]) + |Encoded(contents[|contents| - 1])|
  }

  predicate DistinctKeys(files: seq<File>) {
    forall i, j :: 0 <= i < j < |files| ==> files[i].key != files[j].key
  }

  /** A file that is read short of its end doesn't fit. */
  lemma ReadShortDoesNotFit(stored: seq<Byte>, budget: nat)
    requires |stored| > Readable(budget)
    ensures !Fits(|stored[..Readable(budget)]|, budget) && !Fits(|stored|, budget)
  {}

  /** `stored.read(readable)`. */
  function Read(stored: seq<Byte>, n: nat): seq<Byte> {
    if n < |stored| then stored[..n] else stored
  }

  /** One file of `mail_attachments`: read no further than tells whether it fits, and never cut short. */
  method AttachOne(f: File, budget: int) returns (status: FileStatus, content: seq<Byte>)
    ensures status == Fate(f, budget)
    ensures status.Attached? ==> content == f.stored.value && |Encoded(content)| <= budget
  {
    content := [];
    if !f.named {
      return Unavailable, [];
    }
    if !Fits(f.recordedSize, budget) {
      return TooLarge, [];
    }
    if f.stored.None? {
      return Unavailable, [];
    }
    content := Read(f.stored.value, Readable(budget));
    if |content| < |f.stored.value| {
      ReadShortDoesNotFit(f.stored.value, budget);
    }
    EncodedSizeIs(content);
    status := if Fits(|content|, budget) then Attached else TooLarge;
  }

  lemma OneMore(files: seq<File>, k: nat, limit: int)
    requires k < |files|
    ensures LeftAfter(files[..k + 1], limit) == Left(files[k], LeftAfter(files[..k], limit))
    ensures Carried(files[..k + 1], limit)
         == Carried(files[..k], limit) + if FateAt(files, k, limit).Attached? then [files[k].stored.value] else []
  {
    assert files[..k + 1][..k] == files[..k];
  }

  lemma TotalOneMore(contents: seq<seq<Byte>>, content: seq<Byte>)
    ensures TotalEncoded(contents + [content]) == TotalEncoded(contents) + |Encoded(content)|
  {}

  /** The statuses of the first files, by key, and of no other. */
  ghost predicate Told(files: seq<File>, k: nat, limit: int, statuses: map<Id, FileStatus>)
    requires k <= |files|
  {
    && (forall i :: 0 <= i < k ==> files[i].key in statuses && statuses[files[i].key] == FateAt(files, i, limit))
    && OnlyOf(files, k, statuses)
  }

  ghost predicate OnlyOf(files: seq<File>, k: nat, statuses: map<Id, FileStatus>)
    requires k <= |files|
  {
    forall key :: key in statuses ==> exists i :: 0 <= i < k && files[i].key == key
  }

  lemma OnlyOfOneMore(files: seq<File>, k: nat, statuses: map<Id, FileStatus>, status: FileStatus)
    requires k < |files| && OnlyOf(files, k, statuses)
    ensures OnlyOf(files, k + 1, statuses[files[k].key := status])
  {
    var next := statuses[files[k].key := status];
    forall key | key in next
      ensures exists i :: 0 <= i < k + 1 && files[i].key == key
    {
      if key != files[k].key {
        assert key in statuses;
      }
    }
  }

  lemma ToldOneMore(files: seq<File>, k: nat, limit: int, statuses: map<Id, FileStatus>)
    requires k < |files| && DistinctKeys(files) && Told(files, k, limit, statuses)
    ensures Told(files, k + 1, limit, statuses[files[k].key := FateAt(files, k, limit)])
  {
    OnlyOfOneMore(files, k, statuses, FateAt(files, k, limit));
  }

  /** Where the loop is after `k` files. */
  ghost predicate Reached(
    files: seq<File>, k: nat, limit: int, attached: seq<seq<Byte>>, statuses: map<Id, FileStatus>, budget: int)
    requires k <= |files|
  {
    && budget == LeftAfter(files[..k], limit)
    && attached == Carried(files[..k], limit)
    && Told(files, k, limit, statuses)
    && TotalEncoded(attached) == limit - budget
    && (attached == [] || budget >= 0)
  }

  lemma NoneReached(files: seq<File>, limit: int)
    ensures Reached(files, 0, limit, [], map[], limit)
  {
    assert files[..0] == [];
  }

  lemma AttachedOne(
    files: seq<File>, k: nat, limit: int, attached: seq<seq<Byte>>, statuses: map<Id, FileStatus>, budget: int,
    content: seq<Byte>)
    requires k < |files| && DistinctKeys(files) && Reached(files, k, limit, attached, statuses, budget)
    requires Fate(files[k], budget).Attached? && content == files[k].stored.value && |Encoded(content)| <= budget
    ensures Reached(files, k + 1, limit, attached + [content], statuses[files[k].key := Attached],
                    budget - EncodedSize(|content|))
  {
    OneMore(files, k, limit);
    ToldOneMore(files, k, limit, statuses);
    TotalOneMore(attached, content);
    EncodedSizeIs(content);
  }

  lemma LeftOutOne(
    files: seq<File>, k: nat, limit: int, attached: seq<seq<Byte>>, statuses: map<Id, FileStatus>, budget: int,
    status: FileStatus)
    requires k < |files| && DistinctKeys(files) && Reached(files, k, limit, attached, statuses, budget)
    requires status == Fate(files[k], budget) && !status.Attached?
    ensures Reached(files, k + 1, limit, attached, statuses[files[k].key := status], budget)
  {
    OneMore(files, k, limit);
    ToldOneMore(files, k, limit, statuses);
    assert Carried(files[..k], limit) + [] == Carried(files[..k], limit);
  }

  method NextFile(
    files: seq<File>, k: nat, ghost limit: int, attached: seq<seq<Byte>>, statuses: map<Id, FileStatus>, budget: int)
    returns (attached1: seq<seq<Byte>>, statuses1: map<Id, FileStatus>, left: int)
    requires k < |files| && DistinctKeys(files) && Reached(files, k, limit, attached, statuses, budget)
    ensures Reached(files, k + 1, limit, attached1, statuses1, left)
  {
    var status, content := AttachOne(files[k], budget);
    attached1, statuses1, left := attached, statuses[files[k].key := status], budget;
    if status.Attached? {
      AttachedOne(files, k, limit, attached, statuses, budget, content);
      left := budget - EncodedSize(|content|);
      attached1 := attached + [content];
    } else {
      LeftOutOne(files, k, limit, attached, statuses, budget, status);
    }
  }

  lemma AllReached(files: seq<File>, limit: int, attached: seq<seq<Byte>>, statuses: map<Id, FileStatus>, budget: int)
    requires Reached(files, |files|, limit, attached, statuses, budget)
    ensures Told(files, |files|, limit, statuses) && attached == Carried(files, limit)
    ensures attached == [] || TotalEncoded(attached) <= limit
  {
    assert files[..|files|] == files;
  }

  /** `mail_attachments`: a status for each file and no other, and those that fit attached whole, within the limit. */
  method MailAttachments(files: seq<File>, limit: int) returns (attached: seq<seq<Byte>>, statuses: map<Id, FileStatus>)
    requires forall i, j :: 0 <= i < j < |files| ==> files[i].key != files[j].key
    ensures Told(files, |files|, limit, statuses)
    ensures attached == Carried(files, limit)
    ensures attached == [] || TotalEncoded(attached) <= limit
  {
    var budget := limit;
    attached, statuses := [], map[];
    var k := 0;
    NoneReached(files, limit);
    while k < |files|
      invariant k <= |files| && Reached(files, k, limit, attached, statuses, budget)
    {
      attached, statuses, budget := NextFile(files, k, limit, attached, statuses, budget);
      k := k + 1;
    }
    AllReached(files, limit, attached, statuses, budget);
  }

  /** Over a limit that nothing fits in, no file is attached, not even an empty one. */
  lemma {:induction false} NothingFitsBelowZero(files: seq<File>, limit: int)
    requires limit < 0
    ensures LeftAfter(files, limit) == limit && Carried(files, limit) == []
  {
    if files != [] {
      NothingFitsBelowZero(files[..|files| - 1], limit);
    }
  }

  /** A readable file, whose recorded size doesn't exceed its own once encoded. */
  predicate RecordedRight(f: File) {
    f.named && f.stored.Some? && EncodedSize(f.recordedSize) <= EncodedSize(|f.stored.value|)
  }

  /** Within any budget a readable file fits in it is attached, exactly if it is so recorded. */
  lemma FittingIsAttached(f: File)
    requires f.named && f.stored.Some?
    ensures (forall budget: int :: Fits(|f.stored.value|, budget) ==> Fate(f, budget).Attached?) <==> RecordedRight(f)
  {
    if !RecordedRight(f) {
      var budget := EncodedSize(|f.stored.value|);
      assert Fits(|f.stored.value|, budget) && !Fate(f, budget).Attached?;
    }
  }

  /** And within a given budget, exactly unless it fits by its size and not by the one recorded. */
  lemma FittingIsAttachedWithin(f: File, budget: int)
    requires f.named && f.stored.Some?
    ensures (Fits(|f.stored.value|, budget) ==> Fate(f, budget).Attached?)
      <==> !(Fits(|f.stored.value|, budget) && !Fits(f.recordedSize, budget))
  {}

  /**
   A readable file left for its size would have taken the mail over its limit, if it is
   recorded right. If it would not have, its recorded size alone did not fit.
   */
  lemma {:induction false} LeftOutWouldNotFit(files: seq<File>, k: nat, limit: int)
    requires k < |files| && FateAt(files, k, limit).TooLarge? && files[k].stored.Some?
    ensures RecordedRight(files[k]) ==>
      TotalEncoded(Carried(files[..k], limit)) + |Encoded(files[k].stored.value)| > limit
    ensures TotalEncoded(Carried(files[..k], limit)) + |Encoded(files[k].stored.value)| > limit
      <==> !Fits(|files[k].stored.value|, LeftAfter(files[..k], limit))
    ensures TotalEncoded(Carried(files[..k], limit)) + |Encoded(files[k].stored.value)| <= limit ==>
      !Fits(files[k].recordedSize, LeftAfter(files[..k], limit))
  {
    LeftIsTheRest(files[..k], limit);
    EncodedSizeIs(files[k].stored.value);
  }

  lemma {:induction false} LeftIsTheRest(files: seq<File>, limit: int)
    ensures TotalEncoded(Carried(files, limit)) == limit - LeftAfter(files, limit)
  {
    if files != [] {
      var init, last := files[..|files| - 1], files[|files| - 1];
      LeftIsTheRest(init, limit);
      if Fate(last, LeftAfter(init, limit)).Attached? {
        TotalOneMore(Carried(init, limit), last.stored.value);
        EncodedSizeIs(last.stored.value);
      } else {
        assert Carried(init, limit) + [] == Carried(init, limit);
      }
    }
  }

  /** The size recorded counts too: an empty file recorded as large is left out, though it fits. */
  lemma ARecordedSizeLeavesAFileOut(key: Id, limit: nat)
    ensures var f := File(key, true, limit + 1, Some([]));
      FateAt([f], 0, limit).TooLarge? && |Encoded(f.stored.value)| <= limit && !RecordedRight(f)
  {
    var f := File(key, true, limit + 1, Some([]));
    assert [f][..0] == [];
    EncodedSizeMonotone(0, 0);
  }
}
