/**
 What a mail carries of its files, in bytes: the size of an encoding, its lines, and the
 status of each file by the room the others left
 (backend/apps/email_channel/outbound.py:156-207).
 */
module AttachmentFacts {
  import opened Attachments

  lemma CeilIs(n: nat)
    ensures CeilDiv(n, 3) == (n + 2) / 3 && CeilDiv(n, 76) == (n + 75) / 76
  {}

  /** Four symbols for each three bytes begun, and two more for each line of 76 begun. */
  lemma SizeIs(n: nat)
    ensures var symbols := (n + 2) / 3 * 4; EncodedSize(n) == symbols + (symbols + 75) / 76 * 2
  {
    CeilIs(n);
    CeilIs(4 * CeilDiv(n, 3));
  }

  /** The encoding's symbols in lines of 76, each ended by CRLF, the last one too. */
  predicate IsInLines(symbols: seq<Symbol>, lines: seq<Symbol>) {
    if symbols == [] then lines == []
    else if |symbols| <= 76 then lines == symbols + [Cr, Lf]
    else |lines| >= 78 && lines[..76] == symbols[..76] && lines[76..78] == [Cr, Lf] && IsInLines(symbols[76..], lines[78..])
  }

  lemma {:induction false} LinesAre(symbols: seq<Symbol>)
    ensures IsInLines(symbols, Lines(symbols))
  {
    if |symbols| > 76 {
      LinesAre(symbols[76..]);
      assert Lines(symbols)[78..] == Lines(symbols[76..]);
    }
  }

  /** The bits of the last digit that stand for no byte are zero. */
  predicate IsPadded(symbols: seq<Symbol>) {
    var n := |symbols|;
    && n % 4 == 0
    && (n > 0 && symbols[n - 1].Pad? ==>
          if symbols[n - 2].Pad? then symbols[n - 3].Of? && symbols[n - 3].digit % 16 == 0
          else symbols[n - 2].Of? && symbols[n - 2].digit % 4 == 0)
  }

  lemma AfterQuadIsPadded(quad: seq<Symbol>, rest: seq<Symbol>)
    requires |quad| == 4 && quad[3].Of? && IsPadded(rest)
    ensures IsPadded(quad + rest)
  {
    var n := |rest|;
    if n > 0 {
      assert n >= 4;
      assert (quad + rest)[n + 3] == rest[n - 1] && (quad + rest)[n + 2] == rest[n - 2] && (quad + rest)[n + 1] == rest[n - 3];
    }
  }

  lemma BitsLeft(x: Byte)
    ensures x % 4 * 16 % 16 == 0 && x % 16 * 4 % 4 == 0
  {}

  lemma {:induction false} Base64IsPadded(content: seq<Byte>)
    ensures IsPadded(Base64(content))
  {
    if |content| >= 3 {
      Base64IsPadded(content[3..]);
      AfterQuadIsPadded(Quad(content[0], content[1], content[2]), Base64(content[3..]));
    } else if |content| > 0 {
      BitsLeft(content[|content| - 1]);
    }
  }

  /** No more is read of a file than three quarters of the room, and a byte. */
  lemma ReadsNoFurther(stored: seq<Byte>, budget: nat)
    ensures var content := Read(stored, Readable(budget));
      && content == (if |stored| <= budget * 3 / 4 then stored else stored[..|content|])
      && |content| <= budget * 3 / 4 + 1
  {}

  /** What the files before it leave of the limit, as encoded. */
  function RoomAt(files: seq<File>, k: nat, limit: int): int
    requires k < |files|
  {
    limit - TotalEncoded(Carried(files[..k], limit))
  }

  /**
   A file is attached if its name, its bytes, its recorded size and the room allow it. One
   without a file, or that cannot be read, is unavailable, unless it was recorded larger
   than the room; one that doesn't fit is too large.
   */
  lemma StatusIs(files: seq<File>, k: nat, limit: int)
    requires k < |files|
    ensures var f, room, status := files[k], RoomAt(files, k, limit), FateAt(files, k, limit);
      && (status.Attached? <==>
            && f.named && f.stored.Some? && |Encoded(f.stored.value)| <= room && EncodedSize(f.recordedSize) <= room)
      && (status.Unavailable? <==> !f.named || (f.stored.None? && EncodedSize(f.recordedSize) <= room))
      && (status.TooLarge? <==>
            && f.named
            && (EncodedSize(f.recordedSize) > room || (f.stored.Some? && |Encoded(f.stored.value)| > room)))
  {
    LeftIsTheRest(files[..k], limit);
    if files[k].stored.Some? {
      EncodedSizeIs(files[k].stored.value);
    }
  }

  /** The files attached are those so told, whole and in order. */
  lemma AttachedAre(files: seq<File>, k: nat, limit: int)
    requires k < |files|
    ensures Carried(files[..k + 1], limit)
         == Carried(files[..k], limit)
            + if FateAt(files, k, limit).Attached? && files[k].stored.Some? then [files[k].stored.value] else []
    ensures Carried(files[..0], limit) == []
  {
    OneMore(files, k, limit);
  }
}
