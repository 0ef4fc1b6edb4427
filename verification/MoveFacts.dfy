/**
 What a login makes of the rows it moves, which session a message is written on, and
 whose ticket has a verified sender, by the fields of the rows
 (backend/apps/tickets/views.py:453-516, messages.py:51-87, models.py:430-500).
 */
module MoveFacts {
  import opened Text
  import opened Rows
  import opened Senders
  import opened LoginMove

  // The move

  predicate WasOn(l: Login, t: Ticket) {
    t.session == Some(l.anonymous) && t.org == l.org
  }

  function EntriesOf(metadata: Attributes): map<string, Json> {
    if metadata.Dict? then metadata.entries else map[]
  }

  /** On the session of the login, its user's, on that session's contact if it has one, and marked. */
  predicate IsMovedTicket(l: Login, t: Ticket, t1: Ticket) {
    && t1 == t.(session := Some(l.identified), externalId := l.externalId, contact := t1.contact, metadata := t1.metadata)
    && t1.contact == (if l.contact != None then l.contact else t.contact)
    && t1.metadata == Dict(EntriesOf(t.metadata)["pre_login_anonymous" := JTrue]["pre_login_session_hash" := JString(l.digest)])
  }

  /** Its key and dates, and nothing of its user. */
  predicate IsLeftSession(s: Session, s1: Session, now: Time) {
    && s1.name == "" && s1.email == "" && s1.userAgent == "" && s1.contact == None
    && s1.verifiedAt == None && s1.verifiedFor == "" && s1.proofSource == NoProof && s1.updatedAt == now
    && s1 == s.(name := "", email := "", userAgent := "", contact := None, verifiedAt := None, verifiedFor := "",
                proofSource := NoProof, updatedAt := now)
  }

  /** A login moves the anonymous session's tickets and their messages, blanks that session, and writes nothing else. */
  lemma MovedRowsAre(db: Db, l: Login, now: Time)
    requires l.anonymous in db.sessions
    ensures var after := Moved(db, l, now);
      && after == db.(sessions := after.sessions, tickets := after.tickets, messages := after.messages)
      && after.tickets.Keys == db.tickets.Keys && after.messages.Keys == db.messages.Keys
      && after.sessions.Keys == db.sessions.Keys
      && (forall k :: k in db.tickets ==>
            if WasOn(l, db.tickets[k]) then IsMovedTicket(l, db.tickets[k], after.tickets[k])
            else after.tickets[k] == db.tickets[k])
      && IsLeftSession(db.sessions[l.anonymous], after.sessions[l.anonymous], now)
      && (forall k :: k in db.sessions && k != l.anonymous ==> after.sessions[k] == db.sessions[k])
  {}

  lemma MovedMessagesAre(db: Db, l: Login, now: Time, k: Id)
    requires l.anonymous in db.sessions && k in db.messages
    ensures var m, after := db.messages[k], Moved(db, l, now).messages;
      && k in after
      && after[k] == if m.session == Some(l.anonymous) && m.ticket in db.tickets && db.tickets[m.ticket].org == l.org
                     then m.(session := Some(l.identified)) else m
  {}

  // The session of a message

  /** The session is on the contact of the ticket, which has one. */
  predicate IsOfItsContact(db: Db, sid: Option<Id>, t: Ticket) {
    sid.Some? && sid.value in db.sessions && t.contact.Some? && db.sessions[sid.value].contact == t.contact
  }

  /** The writer's, if the request didn't find the ticket on it, and else the ticket's as it is now. */
  function WritesOn(d: Draft, t: Ticket): Option<Id> {
    if d.writer != None && d.foundOn != d.writer then d.writer else t.session
  }

  /**
   A message is written as it came, on that session, unless it may only be one of the
   contact's and isn't: it is on none then. An erased contact's ticket takes none.
   */
  lemma MessageIs(db: Db, d: Draft, newId: Id, now: Time)
    requires d.ticket in db.tickets
    ensures var t := db.tickets[d.ticket];
      Posted(db, d, newId, now)
      == if t.contact.Some? && t.contact.value in db.contacts && db.contacts[t.contact.value].anonymized then db
         else db.(messages := db.messages[newId := Message(
           d.ticket, if d.onlyContacts && !IsOfItsContact(db, WritesOn(d, t), t) then None else WritesOn(d, t),
           FromUser, None, d.body, d.isText, "", "", now)])
  {}

  lemma NoMessageWithoutTicket(db: Db, d: Draft, newId: Id, now: Time)
    requires d.ticket !in db.tickets
    ensures Posted(db, d, newId, now) == db
  {}

  // The sender of a ticket

  /** Written from outside: by the widget or by mail, with a session, an address or an account to it. */
  predicate IsFromOutside(t: Ticket) {
    && (t.source == Widget || t.source == Email)
    && !(t.session == None && t.requesterEmail == "" && t.requester == None)
  }

  predicate IsMarked(t: Ticket) {
    t.metadata.Dict? && "pre_login_anonymous" in t.metadata.entries && t.metadata.entries["pre_login_anonymous"] == JTrue
  }

  /** The session is a user's, or proved, before the ticket was written, the address it has and the contact too. */
  predicate KnewThen(s: Session, c: Contact, t: Ticket) {
    || s.externalId != ""
    || (&& s.verifiedAt.Some? && s.verifiedAt.value <= t.createdAt
        && Normalized(s.email) != "" && s.verifiedFor == Normalized(s.email)
        && Normalized(s.email) == Normalized(c.email))
  }

  predicate WasVerified(db: Db, t: Ticket) {
    && !IsMarked(t) && t.session.Some? && t.session.value in db.sessions
    && t.contact.Some? && t.contact.value in db.contacts
    && db.sessions[t.session.value].contact == t.contact
    && KnewThen(db.sessions[t.session.value], db.contacts[t.contact.value], t)
  }

  /** A sender from outside is verified exactly if its session was on the ticket's contact, and proven, and no login moved it. */
  lemma SenderIs(db: Db, t: Ticket)
    ensures SenderVerified(db, t) == if IsFromOutside(t) then Some(WasVerified(db, t)) else None
  {}
}
