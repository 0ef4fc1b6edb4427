/**
 Who sees a ticket, where its replies go and who may answer on it, by the fields of the
 rows alone (backend/apps/tickets/access.py:26-79, backend/apps/tickets/models.py:150-201).
 */
module ReplyFacts {
  import opened Text
  import opened Rows
  import opened Access
  import opened Anonymization
  import opened Replies
  import opened Tokens

  // The session's contact

  predicate IsLive(db: Db, cid: Option<Id>) {
    cid.Some? && cid.value in db.contacts && !db.contacts[cid.value].anonymized
  }

  /** The contact is its user's, or, of an anonymous session, holds the very address it proved. */
  predicate Knows(s: Session, c: Contact) {
    || (s.externalId != "" && c.externalId == s.externalId)
    || (&& s.externalId == "" && s.verifiedAt != None && Normalized(s.email) != ""
        && s.verifiedFor == Normalized(s.email) && Normalized(s.email) == Normalized(c.email))
  }

  predicate SeesItsHistory(db: Db, s: Session) {
    IsLive(db, s.contact) && Knows(s, db.contacts[s.contact.value])
  }

  lemma HistoryOpensWhen(db: Db, s: Session)
    ensures ContactHistoryOpens(db, s) <==> SeesItsHistory(db, s)
  {}

  /** A session sees the tickets of its organization that are its own, its user's, or of a contact it knows. */
  lemma SeesWhen(db: Db, sid: Id, tid: Id)
    requires sid in db.sessions && tid in db.tickets
    ensures var s, t := db.sessions[sid], db.tickets[tid];
      Sees(db, sid, tid) <==>
        && t.org == s.org
        && (|| t.session == Some(sid)
            || (t.externalId == s.externalId && t.externalId != "")
            || (t.contact == s.contact && SeesItsHistory(db, s)))
  {
    HistoryOpensWhen(db, db.sessions[sid]);
  }

  // Where replies go

  /** Marked with the session a login moved it from. */
  predicate IsMoved(t: Ticket) {
    t.metadata.Dict? && "pre_login_anonymous" in t.metadata.entries
  }

  predicate HasNoCapital(s: string) {
    forall i :: 0 <= i < |s| ==> !('A' <= s[i] <= 'Z')
  }

  lemma LowerStays(s: string)
    requires HasNoCapital(s)
    ensures Lower(s) == s
  {
    LowerAt(s);
    assert forall i :: 0 <= i < |s| ==> LowerChar(s[i]) == s[i];
  }

  lemma DomainIsLower(domain: string)
    requires domain == ANONYMIZED_DOMAIN
    ensures Lower(domain) == domain
  {
    assert HasNoCapital(ANONYMIZED_DOMAIN);
    LowerStays(domain);
  }

  predicate IsErasedAddress(email: string) {
    EndsWith(Lower(email), "@example.invalid")
  }

  lemma ErasedAddressIs(email: string, domain: string)
    requires domain == ANONYMIZED_DOMAIN
    ensures EndsWith(Lower(email), Lower(domain)) == IsErasedAddress(email)
  {
    DomainIsLower(domain);
  }

  lemma OwnAddressGoes(db: Db, t: Ticket)
    requires t.requesterEmail != "" && (t.contact.None? || t.contact.value !in db.contacts)
    ensures ReplyAddressOf(db, t) == if IsErasedAddress(t.requesterEmail) then "" else t.requesterEmail
  {
    ErasedAddressIs(t.requesterEmail, ANONYMIZED_DOMAIN);
  }

  /**
   To the address on the ticket, unless its contact is erased, or it has none and the
   address is an erased one's. Without one, to its contact's, or else to the one it
   declared, unless a login moved the ticket or the contact is erased.
   */
  lemma RepliesGoTo(db: Db, t: Ticket)
    ensures t.requesterEmail != "" && IsLive(db, t.contact) ==> ReplyAddressOf(db, t) == t.requesterEmail
    ensures t.requesterEmail != "" && (t.contact.None? || t.contact.value !in db.contacts) ==>
      ReplyAddressOf(db, t) == if IsErasedAddress(t.requesterEmail) then "" else t.requesterEmail
    ensures t.requesterEmail == "" && IsLive(db, t.contact) && !IsMoved(t) ==>
      var c := db.contacts[t.contact.value]; ReplyAddressOf(db, t) == if c.email != "" then c.email else c.declared
    ensures t.requesterEmail == "" && (IsMoved(t) || !IsLive(db, t.contact)) ==> ReplyAddressOf(db, t) == ""
    ensures t.contact.Some? && t.contact.value in db.contacts && db.contacts[t.contact.value].anonymized ==>
      ReplyAddressOf(db, t) == ""
  {
    if t.requesterEmail != "" && (t.contact.None? || t.contact.value !in db.contacts) {
      OwnAddressGoes(db, t);
    }
  }

  // Who may answer

  /** The replies of the contact's ticket go to the address the contact holds. */
  predicate RepliesToContact(t: Ticket, c: Contact) {
    if t.requesterEmail != "" then Normalized(t.requesterEmail) == Normalized(c.email)
    else if IsMoved(t) then Normalized(c.email) == ""
    else c.email != "" || Normalized(c.declared) == ""
  }

  predicate MayAnswerMail(db: Db, s: Session, t: Ticket) {
    && t.source == Email && t.contact == s.contact && SeesItsHistory(db, s)
    && RepliesToContact(t, db.contacts[s.contact.value])
  }

  predicate MayAnswerOthers(db: Db, s: Session, opener: Session, t: Ticket) {
    || (opener.externalId == s.externalId && s.externalId != "")
    || (t.contact == opener.contact && SeesItsHistory(db, opener))
  }

  lemma RepliesToItsContact(db: Db, t: Ticket)
    requires IsLive(db, t.contact)
    ensures var c := db.contacts[t.contact.value];
      Normalized(ReplyAddressOf(db, t)) == Normalized(c.email) <==> RepliesToContact(t, c)
  {
    RepliesGoTo(db, t);
    assert Normalized("") == "";
  }

  /**
   A session may write on its own ticket; on a mail's of its contact, whose history it
   sees and whose address the replies go to; and on the ticket of another session of the
   same user, or of one that sees the history of the ticket's contact. On no other.
   */
  lemma MayWriteWhen(db: Db, sid: Id, tid: Id)
    requires sid in db.sessions && tid in db.tickets
    ensures var s, t := db.sessions[sid], db.tickets[tid];
      && (t.session == Some(sid) ==> WritableFrom(db, sid, tid))
      && (t.session == None ==> (WritableFrom(db, sid, tid) <==> MayAnswerMail(db, s, t)))
      && (t.session.Some? && t.session.value != sid ==>
            (WritableFrom(db, sid, tid) <==>
             t.session.value in db.sessions && MayAnswerOthers(db, s, db.sessions[t.session.value], t)))
  {
    var s, t := db.sessions[sid], db.tickets[tid];
    HistoryOpensWhen(db, s);
    if t.session == None {
      if t.contact == s.contact && IsLive(db, t.contact) {
        RepliesToItsContact(db, t);
      }
    } else if t.session.value in db.sessions {
      HistoryOpensWhen(db, db.sessions[t.session.value]);
    }
  }

  /** A link is given to whoever writes to the address a live contact holds, on a ticket no login moved. */
  lemma LinkIsGivenWhen(db: Db, t: Ticket, address: string)
    ensures GivesLink(db, t, address) <==>
      && IsLive(db, t.contact) && !IsMoved(t)
      && var c := db.contacts[t.contact.value]; c.email != "" && Normalized(address) == Normalized(c.email)
  {}

  /** A token is read if it is a signed claim under a key still known, and no older than allowed. */
  lemma TokenIsRead(o: Instance, seal: Seal, token: string, now: Time, maxAge: nat)
    ensures ReadToken(o, seal, token, now, maxAge)
         == match seal.read(token)
            case None => None
            case Some((key, claim, at)) => if key in o.keys && at >= now - maxAge then Some(claim) else None
  {}

  /** A claim opens its ticket while that is on its contact, no login moved it, and the hash is of the contact's address. */
  lemma ClaimOpensWhen(o: Instance, db: Db, claim: Claimed)
    ensures OpensTicket(o, db, claim) <==>
      && claim.ticket in db.tickets && db.tickets[claim.ticket].contact == Some(claim.contact)
      && !IsMoved(db.tickets[claim.ticket]) && IsLive(db, Some(claim.contact))
      && var email := db.contacts[claim.contact].email;
         Strip(email) != "" && exists key :: key in o.keys && o.sign(key, "email:" + Normalized(email)) == claim.hash
  {
    if claim.contact in db.contacts {
      var email := db.contacts[claim.contact].email;
      assert forall key :: AddressHash(o, key, email) == o.sign(key, "email:" + Normalized(email));
    }
  }
}
