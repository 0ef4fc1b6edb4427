/**
 Signed reply addresses and Message-IDs, and reading a ticket back from them
 (backend/apps/email_channel/tokens.py). A Message-ID is a `msg-id` of section 3.6.4
 of RFC 5322.
 */
module Tokens {
  import opened Text
  import opened Rows

  const MAX_STAMP: nat := 64
  const SIGNATURE: nat := 16
  const ID_HEX: nat := 32

  // Characters

  predicate IsHex(c: char) {
    '0' <= c <= '9' || 'a' <= c <= 'f'
  }

  predicate IsStampChar(c: char) {
    '0' <= c <= '9' || 'a' <= c <= 'z'
  }

  predicate IsDomainChar(c: char) {
    c != '<' && c != '>' && c != '@' && !IsSpace(c)
  }

  predicate AllHex(s: string) {
    forall i :: 0 <= i < |s| ==> IsHex(s[i])
  }

  /** A ticket's id, as its 32 hexadecimal digits. */
  predicate IsId(id: string) {
    |id| == ID_HEX && AllHex(id)
  }

  predicate IsStamp(s: string) {
    0 < |s| <= MAX_STAMP && forall i :: 0 <= i < |s| ==> IsStampChar(s[i])
  }

  predicate IsDomain(s: string) {
    s != "" && forall i :: 0 <= i < |s| ==> IsDomainChar(s[i])
  }

  /**
   The instance: a signature of a message under a key, the start of a keyed hash; the
   current key and those rotated out; how an id is read; and the domains.
   */
  datatype Instance = Instance(
    sign: (string, string) -> string,
    keys: set<string>,
    readId: string -> Option<string>,
    inboundDomain: string,
    outboundDomain: string)

  ghost predicate Sensible(o: Instance) {
    && (forall key, message :: |o.sign(key, message)| == SIGNATURE && AllHex(o.sign(key, message)))
    && (forall id :: IsId(id) ==> o.readId(id) == Some(id))
  }

  // Parts of a text

  function IndexOf(s: string, c: char): (r: nat)
    ensures r <= |s| && c !in s[..r] && (r < |s| ==> s[r] == c)
  {
    if s == "" || s[0] == c then 0
    else
      var r := 1 + IndexOf(s[1..], c);
      assert s[..r] == [s[0]] + s[1..][..r - 1];
      r
  }

  /** `partition`: what is before the first `c`, and after it. */
  function Before(s: string, c: char): string {
    s[..IndexOf(s, c)]
  }

  function Past(s: string, c: char): string {
    var i := IndexOf(s, c);
    if i < |s| then s[i + 1..] else ""
  }

  lemma {:induction false} IndexIs(a: string, c: char, b: string)
    requires c !in a
    ensures IndexOf(a + [c] + b, c) == |a|
  {
    if a != "" {
      assert (a + [c] + b)[1..] == a[1..] + [c] + b;
      IndexIs(a[1..], c, b);
    }
  }

  lemma PartitionIs(a: string, c: char, b: string)
    requires c !in a
    ensures Before(a + [c] + b, c) == a && Past(a + [c] + b, c) == b
  {
    IndexIs(a, c, b);
  }

  // Reply addresses

  function ReplySignature(o: Instance, key: string, hex: string): string {
    o.sign(key, "reply:" + hex)
  }

  function ReplyAddress(o: Instance, key: string, id: string): string {
    "reply+" + id + "." + ReplySignature(o, key, id) + "@" + o.inboundDomain
  }

  predicate SignedReply(o: Instance, hex: string, signature: string) {
    exists key :: key in o.keys && signature == ReplySignature(o, key, hex)
  }

  function ReadReplyAddress(o: Instance, address: string): Option<string> {
    var text := Lower(Strip(address));
    var local, domain := Before(text, '@'), Past(text, '@');
    var inbound := Lower(o.inboundDomain);
    if inbound == "" || domain != inbound || !StartsWith(local, "reply+") then None
    else
      var rest := local[|"reply+"|..];
      var hex, signature := Before(rest, '.'), Past(rest, '.');
      if SignedReply(o, hex, signature) then o.readId(hex) else None
  }

  lemma LowerConcat(a: string, b: string)
    ensures Lower(a + b) == Lower(a) + Lower(b)
  {
    LowerAt(a);
    LowerAt(b);
    LowerAt(a + b);
  }

  lemma HexIsLower(s: string)
    requires AllHex(s)
    ensures Lower(s) == s && '@' !in s && '.' !in s && '-' !in s
  {}

  predicate NoSpaceAtEnd(s: string) {
    s != "" && !IsSpace(s[|s| - 1])
  }

  /** The local part of a reply address, and what it reads as. */
  lemma LocalPartReads(o: Instance, key: string, id: string)
    requires Sensible(o) && IsId(id)
    ensures var local := "reply+" + id + "." + ReplySignature(o, key, id);
      && Lower(local) == local && '@' !in local && StartsWith(local, "reply+")
      && Before(local[|"reply+"|..], '.') == id
      && Past(local[|"reply+"|..], '.') == ReplySignature(o, key, id)
  {
    var signature := ReplySignature(o, key, id);
    var local := "reply+" + id + "." + signature;
    HexIsLower(id);
    HexIsLower(signature);
    LowerAt(local);
    LowerAt(id);
    LowerAt(signature);
    assert local == "reply+" + (id + ['.'] + signature);
    assert local[|"reply+"|..] == id + ['.'] + signature;
    PartitionIs(id, '.', signature);
    forall i | 0 <= i < |local| ensures local[i] != '@' && Lower(local)[i] == local[i] {
      assert i < 6 ==> local[i] == "reply+"[i];
      assert 6 <= i < 6 + |id| ==> local[i] == id[i - 6];
      assert i == 6 + |id| ==> local[i] == '.';
      assert i > 6 + |id| ==> local[i] == signature[i - 7 - |id|];
    }
  }

  lemma {:induction false} RStripConcat(a: string, b: string)
    requires NoSpaceAtEnd(a)
    ensures RStrip(a + b) == a + RStrip(b)
  {
    if b == "" {
      assert a + b == a;
    } else {
      assert (a + b)[..|a + b| - 1] == a + b[..|b| - 1];
      RStripConcat(a, b[..|b| - 1]);
      assert (a + b)[|a + b| - 1] == b[|b| - 1];
    }
  }

  lemma ReplyAddressStripped(o: Instance, key: string, id: string)
    requires Sensible(o) && IsId(id)
    ensures var local := "reply+" + id + "." + ReplySignature(o, key, id);
      Lower(Strip(ReplyAddress(o, key, id))) == local + ['@'] + Lower(RStrip(o.inboundDomain))
  {
    var local := "reply+" + id + "." + ReplySignature(o, key, id);
    var domain := RStrip(o.inboundDomain);
    LocalPartReads(o, key, id);
    assert ReplyAddress(o, key, id) == (local + "@") + o.inboundDomain;
    RStripConcat(local + "@", o.inboundDomain);
    assert (local + "@" + o.inboundDomain)[0] == 'r';
    LowerConcat(local + "@", domain);
    LowerConcat(local, "@");
    LowerAt("@");
    assert Lower("@") == "@";
    assert local + "@" + Lower(domain) == local + ['@'] + Lower(domain);
  }

  lemma SameDomain(domain: string)
    ensures Lower(RStrip(domain)) == Lower(domain) <==> (domain == "" || NoSpaceAtEnd(domain))
  {
    RStripShape(domain);
    LowerAt(domain);
    LowerAt(RStrip(domain));
    assert NoSpaceAtEnd(domain) ==> |RStrip(domain)| == |domain|;
  }

  /**
   A ticket's reply address reads as that ticket, whichever of the keys signed it,
   exactly when the inbound domain is set and doesn't end with a space.
   */
  lemma ReplyAddressReads(o: Instance, key: string, id: string)
    requires Sensible(o) && IsId(id) && key in o.keys
    ensures ReadReplyAddress(o, ReplyAddress(o, key, id)) == if NoSpaceAtEnd(o.inboundDomain) then Some(id) else None
  {
    var local := "reply+" + id + "." + ReplySignature(o, key, id);
    LocalPartReads(o, key, id);
    ReplyAddressStripped(o, key, id);
    PartitionIs(local, '@', Lower(RStrip(o.inboundDomain)));
    SameDomain(o.inboundDomain);
    LowerAt(o.inboundDomain);
  }

  lemma Parts(s: string, c: char)
    requires Past(s, c) != ""
    ensures s == Before(s, c) + [c] + Past(s, c)
  {}

  /** The text is a reply address signed under that key. */
  predicate IsSignedReply(o: Instance, text: string, key: string, hex: string) {
    text == "reply+" + hex + "." + ReplySignature(o, key, hex) + "@" + Lower(o.inboundDomain)
  }

  /** What reads as a ticket is a reply address, signed under one of the keys for the very id it reads. */
  lemma ReadReplyIsSigned(o: Instance, address: string)
    requires Sensible(o) && ReadReplyAddress(o, address).Some?
    ensures exists key, hex ::
      && key in o.keys && o.readId(hex) == ReadReplyAddress(o, address)
      && IsSignedReply(o, Lower(Strip(address)), key, hex)
  {
    var text := Lower(Strip(address));
    var local := Before(text, '@');
    var rest := local[|"reply+"|..];
    var hex := Before(rest, '.');
    var key :| key in o.keys && Past(rest, '.') == ReplySignature(o, key, hex);
    Parts(text, '@');
    Parts(rest, '.');
    assert local == "reply+" + rest;
    assert text == "reply+" + (hex + ['.'] + ReplySignature(o, key, hex)) + ['@'] + Lower(o.inboundDomain);
    assert IsSignedReply(o, text, key, hex);
  }

  /** Two tickets never share a reply address, under the same key or not: each has its id in the same place. */
  lemma ReplyAddressesDiffer(o: Instance, key: string, id: string, key2: string, id2: string)
    requires IsId(id) && IsId(id2) && id != id2
    ensures ReplyAddress(o, key, id) != ReplyAddress(o, key2, id2)
  {
    ReplyAddressHolds(o, key, id);
    ReplyAddressHolds(o, key2, id2);
  }

  lemma ReplyAddressHolds(o: Instance, key: string, id: string)
    requires IsId(id)
    ensures var at := |"reply+"|; |ReplyAddress(o, key, id)| > at + ID_HEX && ReplyAddress(o, key, id)[at..at + ID_HEX] == id
  {
    assert ReplyAddress(o, key, id) == "reply+" + (id + ("." + ReplySignature(o, key, id) + "@" + o.inboundDomain));
  }

  // Message-IDs

  datatype Kind = Resolved | Link

  function Name(kind: Kind): string {
    if kind.Resolved? then "resolved" else "link"
  }

  /** An id as it is printed: in groups of 8, 4, 4, 4 and 12 digits. */
  function Dashed(id: string): string
    requires |id| == ID_HEX
  {
    id[..8] + "-" + id[8..12] + "-" + id[12..16] + "-" + id[16..20] + "-" + id[20..]
  }

  const DASHED: nat := 36

  datatype MailId = MailId(kind: Kind, id: string, stamp: string, signature: string, domain: string)

  /** What the pattern of our Message-IDs matches. */
  predicate WellFormed(m: MailId) {
    && IsId(m.id) && IsStamp(m.stamp) && IsDomain(m.domain)
    && |m.signature| == SIGNATURE && AllHex(m.signature)
  }

  function Local(m: MailId): string
    requires |m.id| == ID_HEX
  {
    Name(m.kind) + "-" + (Dashed(m.id) + "-" + (m.stamp + ['-'] + m.signature))
  }

  function Printed(m: MailId): string
    requires |m.id| == ID_HEX
  {
    "<" + (Local(m) + ['@'] + m.domain) + ">"
  }

  function Undashed(dashed: string): string
    requires |dashed| == DASHED
  {
    dashed[..8] + dashed[9..13] + dashed[14..18] + dashed[19..23] + dashed[24..]
  }

  /** The parts by their place, whatever is between them. */
  function Candidate(local: string, domain: string): Option<MailId> {
    var kind := if StartsWith(local, "resolved-") then Resolved else Link;
    if |local| < |Name(kind)| + 1 + DASHED + 1 then None
    else
      var rest := local[|Name(kind)| + 1..];
      var tail := rest[DASHED + 1..];
      Some(MailId(kind, Undashed(rest[..DASHED]), Before(tail, '-'), Past(tail, '-'), domain))
  }

  /** The groups of the pattern, if it matches all of the text. */
  function Groups(text: string): (r: Option<MailId>)
    ensures r.Some? ==> WellFormed(r.value) && text == Printed(r.value)
  {
    if |text| < 2 then None
    else
      var inner := text[1..|text| - 1];
      match Candidate(Before(inner, '@'), Past(inner, '@'))
      case Some(m) => if WellFormed(m) && text == Printed(m) then Some(m) else None
      case None => None
  }

  lemma DashedParts(id: string)
    requires |id| == ID_HEX
    ensures |Dashed(id)| == DASHED && Undashed(Dashed(id)) == id
  {
    var d := Dashed(id);
    assert d[..8] == id[..8] && d[9..13] == id[8..12] && d[14..18] == id[12..16];
    assert d[19..23] == id[16..20] && d[24..] == id[20..];
  }

  lemma DropPrefix(a: string, b: string)
    ensures (a + b)[|a|..] == b && StartsWith(a + b, a)
  {}

  lemma NameIsRead(kind: Kind, rest: string)
    ensures StartsWith(Name(kind) + "-" + rest, "resolved-") <==> kind.Resolved?
    ensures (Name(kind) + "-" + rest)[|Name(kind)| + 1..] == rest
  {
    DropPrefix(Name(kind) + "-", rest);
    if kind.Link? {
      assert ("link" + "-" + rest)[0] == 'l' && "resolved-"[0] == 'r';
    } else {
      assert "resolved" + "-" == "resolved-";
    }
  }

  predicate PlainStamp(stamp: string) {
    forall i :: 0 <= i < |stamp| ==> IsStampChar(stamp[i]) || stamp[i] == '-'
  }

  lemma LocalHasNoAt(m: MailId)
    requires IsId(m.id) && PlainStamp(m.stamp) && AllHex(m.signature)
    ensures '@' !in Local(m) && Lower(Local(m)) == Local(m)
  {
    var local := Local(m);
    LowerAt(local);
    assert forall c :: c in Name(m.kind) ==> c != '@' && LowerChar(c) == c;
    assert forall c :: c in Dashed(m.id) ==> c in m.id || c == '-';
    forall i | 0 <= i < |local| ensures local[i] != '@' && LowerChar(local[i]) == local[i] {
      var c := local[i];
      assert c in Name(m.kind) || c == '-' || c in Dashed(m.id) || c in m.stamp || c in m.signature;
    }
  }

  lemma CandidateOf(kind: Kind, dashed: string, tail: string, domain: string)
    requires |dashed| == DASHED
    ensures Candidate(Name(kind) + "-" + (dashed + "-" + tail), domain)
         == Some(MailId(kind, Undashed(dashed), Before(tail, '-'), Past(tail, '-'), domain))
  {
    var rest := dashed + "-" + tail;
    assert rest[..DASHED] == dashed && rest[DASHED + 1..] == tail;
    NameIsRead(kind, rest);
  }

  /** The parts by their place are those printed, but for a dash in the stamp. */
  lemma CandidateIs(m: MailId)
    requires |m.id| == ID_HEX
    ensures var tail := m.stamp + ['-'] + m.signature;
      Candidate(Local(m), m.domain) == Some(m.(stamp := Before(tail, '-'), signature := Past(tail, '-')))
  {
    var tail := m.stamp + ['-'] + m.signature;
    DashedParts(m.id);
    CandidateOf(m.kind, Dashed(m.id), tail, m.domain);
    assert Local(m) == Name(m.kind) + "-" + (Dashed(m.id) + "-" + tail);
  }

  lemma InnerIs(m: MailId)
    requires IsId(m.id) && PlainStamp(m.stamp) && AllHex(m.signature)
    ensures var inner := Printed(m)[1..|Printed(m)| - 1]; Before(inner, '@') == Local(m) && Past(inner, '@') == m.domain
  {
    LocalHasNoAt(m);
    assert Printed(m)[1..|Printed(m)| - 1] == Local(m) + ['@'] + m.domain;
    PartitionIs(Local(m), '@', m.domain);
  }

  /** The pattern matches what is printed of well-formed parts, and nothing of others, and gives them back. */
  lemma GroupsRead(m: MailId)
    requires IsId(m.id) && PlainStamp(m.stamp) && AllHex(m.signature) && '-' !in m.stamp
    ensures Groups(Printed(m)) == if WellFormed(m) then Some(m) else None
  {
    InnerIs(m);
    CandidateIs(m);
    PartitionIs(m.stamp, '-', m.signature);
  }

  /** So a text has one reading at most. */
  lemma PrintedOnce(m: MailId, m2: MailId)
    requires WellFormed(m) && WellFormed(m2) && Printed(m) == Printed(m2)
    ensures m == m2
  {
    GroupsRead(m);
    GroupsRead(m2);
  }

  function MailSignature(o: Instance, key: string, kind: Kind, id: string, stamp: string): string
    requires |id| == ID_HEX
  {
    o.sign(key, "mail:" + Name(kind) + ":" + Dashed(id) + ":" + stamp)
  }

  function Minted(o: Instance, key: string, kind: Kind, id: string, stamp: string): MailId
    requires |id| == ID_HEX
  {
    MailId(kind, id, stamp, MailSignature(o, key, kind, id, stamp), o.outboundDomain)
  }

  function TicketMailId(o: Instance, key: string, kind: Kind, id: string, stamp: string): string
    requires |id| == ID_HEX
  {
    Printed(Minted(o, key, kind, id, stamp))
  }

  predicate SignedMail(o: Instance, m: MailId)
    requires |m.id| == ID_HEX
  {
    exists key :: key in o.keys && m.signature == MailSignature(o, key, m.kind, m.id, m.stamp)
  }

  function ReadMessageId(o: Instance, messageId: string): Option<string> {
    match Groups(Lower(Strip(messageId)))
    case Some(m) => if m.domain == Lower(o.outboundDomain) && SignedMail(o, m) then Some(m.id) else None
    case None => None
  }

  lemma LowerDomain(domain: string)
    ensures IsDomain(Lower(domain)) <==> IsDomain(domain)
  {
    LowerAt(domain);
    assert forall c: char :: IsDomainChar(LowerChar(c)) == IsDomainChar(c);
    if IsDomain(Lower(domain)) {
      forall i | 0 <= i < |domain| ensures IsDomainChar(domain[i]) {
        assert IsDomainChar(Lower(domain)[i]);
      }
    }
  }

  lemma PrintedLower(m: MailId)
    requires IsId(m.id) && PlainStamp(m.stamp) && AllHex(m.signature)
    ensures Lower(Strip(Printed(m))) == Printed(m.(domain := Lower(m.domain)))
  {
    var text := Printed(m);
    assert text[0] == '<' && text[|text| - 1] == '>';
    StripStripped(text);
    LocalHasNoAt(m);
    LowerConcat("<" + (Local(m) + ['@'] + m.domain), ">");
    LowerConcat("<", Local(m) + ['@'] + m.domain);
    LowerConcat(Local(m) + ['@'], m.domain);
    LowerConcat(Local(m), ['@']);
    assert Lower("<") == "<" && Lower(">") == ">" && Lower(['@']) == ['@'];
  }

  /** A Message-ID of ours reads as its ticket, whichever of the keys signed it, if its domain is one. */
  lemma MessageIdReads(o: Instance, key: string, kind: Kind, id: string, stamp: string)
    requires Sensible(o) && IsId(id) && key in o.keys && PlainStamp(stamp) && '-' !in stamp
    ensures ReadMessageId(o, TicketMailId(o, key, kind, id, stamp))
         == if IsStamp(stamp) && IsDomain(o.outboundDomain) then Some(id) else None
  {
    var m := Minted(o, key, kind, id, stamp);
    var lower := m.(domain := Lower(o.outboundDomain));
    PrintedLower(m);
    LowerDomain(o.outboundDomain);
    GroupsRead(lower);
    if WellFormed(lower) {
      assert SignedMail(o, lower);
    }
  }

  /** One with a stamp that starts with a dash, as a negative number does, reads as none. */
  lemma DashedStampIsRefused(o: Instance, key: string, kind: Kind, id: string, stamp: string)
    requires Sensible(o) && IsId(id) && PlainStamp(stamp) && stamp != "" && stamp[0] == '-'
    ensures ReadMessageId(o, TicketMailId(o, key, kind, id, stamp)).None?
  {
    var m := Minted(o, key, kind, id, stamp);
    var lower := m.(domain := Lower(o.outboundDomain));
    PrintedLower(m);
    InnerIs(lower);
    CandidateIs(lower);
    assert (stamp + ['-'] + m.signature)[0] == '-';
  }

  // Stamps

  function Decimal(n: int): string
    decreases if n < 0 then -n + 1 else n
  {
    if n < 0 then "-" + Decimal(-n)
    else if n < 10 then [('0' as int + n) as char]
    else Decimal(n / 10) + [('0' as int + n % 10) as char]
  }

  lemma {:induction false} DecimalIsPlain(n: int)
    ensures Decimal(n) != "" && PlainStamp(Decimal(n))
    ensures n >= 0 ==> '-' !in Decimal(n)
    ensures n >= 0 && |Decimal(n)| <= MAX_STAMP ==> IsStamp(Decimal(n))
    ensures n < 0 ==> Decimal(n)[0] == '-'
    decreases if n < 0 then -n + 1 else n
  {
    if n < 0 {
      DecimalIsPlain(-n);
    } else if n >= 10 {
      DecimalIsPlain(n / 10);
    }
  }

  /** A resolution's Message-ID reads as its ticket exactly when it dates from 1970 on. */
  lemma ResolutionReads(o: Instance, key: string, id: string, at: int)
    requires Sensible(o) && IsId(id) && key in o.keys && IsDomain(o.outboundDomain)
    requires |Decimal(at)| <= MAX_STAMP
    ensures ReadMessageId(o, TicketMailId(o, key, Resolved, id, Decimal(at))) == if at >= 0 then Some(id) else None
  {
    DecimalIsPlain(at);
    if at >= 0 {
      MessageIdReads(o, key, Resolved, id, Decimal(at));
    } else {
      DashedStampIsRefused(o, key, Resolved, id, Decimal(at));
    }
  }

  function OnlyStampChars(s: string): string {
    if s == "" then "" else (if IsStampChar(s[0]) then [s[0]] else "") + OnlyStampChars(s[1..])
  }

  /** What a link's key is printed as: what a stamp can hold of it, or else a new id. */
  function LinkStamp(key: string, newId: string): string {
    var text := OnlyStampChars(Lower(key));
    var cut := if |text| <= MAX_STAMP then text else text[..MAX_STAMP];
    if cut == "" then newId else cut
  }

  lemma {:induction false} OnlyStampCharsIsPlain(s: string)
    ensures forall i :: 0 <= i < |OnlyStampChars(s)| ==> IsStampChar(OnlyStampChars(s)[i])
  {
    if s != "" {
      OnlyStampCharsIsPlain(s[1..]);
    }
  }

  /** Whatever its key, a link's Message-ID reads as its ticket. */
  lemma LinkReads(o: Instance, key: string, id: string, linkKey: string, newId: string)
    requires Sensible(o) && IsId(id) && key in o.keys && IsDomain(o.outboundDomain) && IsId(newId)
    ensures ReadMessageId(o, TicketMailId(o, key, Link, id, LinkStamp(linkKey, newId))) == Some(id)
  {
    OnlyStampCharsIsPlain(Lower(linkKey));
    MessageIdReads(o, key, Link, id, LinkStamp(linkKey, newId));
  }

  /** What reads as a ticket is a Message-ID signed, under one of the keys, for that ticket and stamp. */
  lemma ReadMessageIdIsSigned(o: Instance, messageId: string)
    requires ReadMessageId(o, messageId).Some?
    ensures exists m, key ::
      && WellFormed(m) && key in o.keys
      && Lower(Strip(messageId)) == Printed(m) && m.signature == MailSignature(o, key, m.kind, m.id, m.stamp)
      && m.domain == Lower(o.outboundDomain) && Some(m.id) == ReadMessageId(o, messageId)
  {
    var m := Groups(Lower(Strip(messageId))).value;
    var key :| key in o.keys && m.signature == MailSignature(o, key, m.kind, m.id, m.stamp);
    assert WellFormed(m) && Lower(Strip(messageId)) == Printed(m);
  }

  /** Two mails about tickets never share a Message-ID, unless both the ticket and the stamp are the same. */
  lemma MessageIdsDiffer(
    o: Instance, key: string, kind: Kind, id: string, stamp: string, key2: string, kind2: Kind, id2: string, stamp2: string)
    requires Sensible(o) && IsId(id) && IsId(id2) && IsStamp(stamp) && IsStamp(stamp2) && IsDomain(o.outboundDomain)
    requires TicketMailId(o, key, kind, id, stamp) == TicketMailId(o, key2, kind2, id2, stamp2)
    ensures kind == kind2 && id == id2 && stamp == stamp2
  {
    PrintedOnce(Minted(o, key, kind, id, stamp), Minted(o, key2, kind2, id2, stamp2));
  }
}
