/**
 What the signed addresses and Message-IDs are, letter by letter, and what of a link's
 key or of a date they hold (backend/apps/email_channel/tokens.py).
 */
module TokenFacts {
  import opened Text
  import opened Tokens

  // The texts

  /** `reply+<id>.<signature>@<inbound domain>`, the id being what is signed. */
  lemma ReplyAddressIs(o: Instance, key: string, id: string)
    ensures ReplyAddress(o, key, id) == "reply+" + id + "." + o.sign(key, "reply:" + id) + "@" + o.inboundDomain
  {}

  /** An id's 32 digits, in groups of 8, 4, 4, 4 and 12. */
  predicate IsDashed(dashed: string, id: string) {
    && |id| == 32 && |dashed| == 36
    && dashed[8] == dashed[13] == dashed[18] == dashed[23] == '-'
    && dashed[..8] == id[..8] && dashed[9..13] == id[8..12] && dashed[14..18] == id[12..16]
    && dashed[19..23] == id[16..20] && dashed[24..] == id[20..]
  }

  lemma DashedIs(id: string)
    requires |id| == 32
    ensures IsDashed(Dashed(id), id)
  {
    DashedParts(id);
  }

  lemma PrefixIs(kind: Kind)
    ensures "mail:" + Name(kind) + ":" == if kind == Resolved then "mail:resolved:" else "mail:link:"
    ensures "<" + Name(kind) + "-" == if kind == Resolved then "<resolved-" else "<link-"
  {}

  lemma SignedIs(kind: Kind, dashed: string, stamp: string)
    ensures "mail:" + Name(kind) + ":" + dashed + ":" + stamp
         == (if kind == Resolved then "mail:resolved:" else "mail:link:") + dashed + ":" + stamp
  {
    PrefixIs(kind);
  }

  lemma Regrouped(open: string, name: string, dash: string, id: string, stamp: string, signature: string, at: string,
                  domain: string, close: string)
    ensures open + ((name + dash + (id + dash + (stamp + dash + signature))) + at + domain) + close
         == (open + name + dash) + id + dash + stamp + dash + signature + at + domain + close
  {
    assert id + dash + (stamp + dash + signature) == id + dash + stamp + dash + signature;
    var rest := id + dash + stamp + dash + signature;
    assert (name + dash + rest) + at + domain == name + dash + (rest + at + domain);
    assert open + (name + dash + (rest + at + domain)) == open + name + dash + (rest + at + domain);
    assert open + name + dash + (rest + at + domain) + close == open + name + dash + rest + at + domain + close;
    assert open + name + dash + rest == open + name + dash + id + dash + stamp + dash + signature;
  }

  /** `<kind-id-stamp-signature@outbound domain>`: the signature is of all three, and of what it is for. */
  lemma MessageIdIs(o: Instance, key: string, kind: Kind, id: string, stamp: string)
    requires |id| == 32
    ensures var dashed := Dashed(id);
      && IsDashed(dashed, id)
      && var signature := o.sign(key, (if kind == Resolved then "mail:resolved:" else "mail:link:") + dashed + ":" + stamp);
         TicketMailId(o, key, kind, id, stamp)
         == (if kind == Resolved then "<resolved-" else "<link-") + dashed + "-" + stamp + "-" + signature
            + "@" + o.outboundDomain + ">"
  {
    DashedIs(id);
    SignedIs(kind, Dashed(id), stamp);
    PrefixIs(kind);
    Regrouped("<", Name(kind), "-", Dashed(id), stamp, MailSignature(o, key, kind, id, stamp), "@", o.outboundDomain, ">");
  }

  /** A stamp has from 1 to 64 small letters and digits. */
  lemma StampIs(s: string)
    ensures IsStamp(s) <==> 1 <= |s| <= 64 && forall i :: 0 <= i < |s| ==> '0' <= s[i] <= '9' || 'a' <= s[i] <= 'z'
  {}

  predicate IsHexDigits(s: string, n: nat) {
    |s| == n && forall i :: 0 <= i < n ==> '0' <= s[i] <= '9' || 'a' <= s[i] <= 'f'
  }

  /** Of the parts of a Message-ID: an id of 32 digits, a stamp, a signature of 16, and a domain. */
  lemma WellFormedIs(m: MailId)
    ensures WellFormed(m) <==>
      && IsHexDigits(m.id, 32) && IsHexDigits(m.signature, 16)
      && 1 <= |m.stamp| <= 64 && (forall i :: 0 <= i < |m.stamp| ==> '0' <= m.stamp[i] <= '9' || 'a' <= m.stamp[i] <= 'z')
      && m.domain != ""
      && (forall i :: 0 <= i < |m.domain| ==> m.domain[i] !in {'<', '>', '@'} && !IsSpace(m.domain[i]))
  {
    StampIs(m.stamp);
  }

  // What they hold

  /** `text` with what isn't a small letter or a digit left out. */
  predicate IsSieved(text: string, sieved: string) {
    if text == "" then sieved == ""
    else if '0' <= text[0] <= '9' || 'a' <= text[0] <= 'z' then
      sieved != "" && sieved[0] == text[0] && IsSieved(text[1..], sieved[1..])
    else IsSieved(text[1..], sieved)
  }

  lemma {:induction false} OnlyStampCharsIsSieved(s: string)
    ensures IsSieved(s, OnlyStampChars(s))
  {
    if s != "" {
      OnlyStampCharsIsSieved(s[1..]);
      if IsStampChar(s[0]) {
        assert OnlyStampChars(s)[1..] == OnlyStampChars(s[1..]);
      } else {
        assert OnlyStampChars(s) == OnlyStampChars(s[1..]);
      }
    }
  }

  /** A link's key, in lower case and sieved, up to 64 letters; a new id only where nothing is left of it. */
  lemma LinkStampIs(key: string, newId: string)
    ensures exists text ::
      && IsSieved(Lower(key), text)
      && LinkStamp(key, newId) == if text == "" then newId else if |text| <= 64 then text else text[..64]
  {
    OnlyStampCharsIsSieved(Lower(key));
  }

  /** So the same key gives the same Message-ID, however often it is mailed, unless nothing is left of it. */
  lemma SameLinkSameId(o: Instance, key: string, id: string, linkKey: string, i: nat, newId: string, newId2: string)
    requires |id| == 32 && i < |linkKey| && IsStampChar(LowerChar(linkKey[i]))
    ensures TicketMailId(o, key, Link, id, LinkStamp(linkKey, newId)) == TicketMailId(o, key, Link, id, LinkStamp(linkKey, newId2))
  {
    LowerAt(linkKey);
    SomeIsLeft(Lower(linkKey), i);
  }

  lemma {:induction false} SomeIsLeft(s: string, i: nat)
    requires i < |s| && IsStampChar(s[i])
    ensures OnlyStampChars(s) != ""
  {
    if i > 0 {
      SomeIsLeft(s[1..], i - 1);
    }
  }

  /** The number a text of digits is. */
  function Number(s: string): int {
    if s == "" then 0 else Number(s[..|s| - 1]) * 10 + (s[|s| - 1] as int - '0' as int)
  }

  predicate AllDigits(s: string) {
    forall i :: 0 <= i < |s| ==> '0' <= s[i] <= '9'
  }

  lemma {:induction false} DigitsRead(n: nat)
    ensures AllDigits(Decimal(n)) && Number(Decimal(n)) == n
  {
    if n < 10 {
      assert Decimal(n)[..0] == "";
    } else {
      DigitsRead(n / 10);
      assert Decimal(n)[..|Decimal(n)| - 1] == Decimal(n / 10);
    }
  }

  /** A date is printed as its number. */
  lemma DecimalReads(n: int)
    ensures if n >= 0 then AllDigits(Decimal(n)) && Number(Decimal(n)) == n
      else |Decimal(n)| > 1 && Decimal(n)[0] == '-' && AllDigits(Decimal(n)[1..]) && Number(Decimal(n)[1..]) == -n
  {
    if n >= 0 {
      DigitsRead(n);
    } else {
      DigitsRead(-n);
      assert Decimal(n)[1..] == Decimal(-n);
    }
  }
}
