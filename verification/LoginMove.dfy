/**
 The move of an anonymous session's conversations to the session of a login
 (backend/apps/tickets/views.py:453-516), and a message written meanwhile
 (backend/apps/tickets/messages.py:17-87).
 */
module LoginMove {
  import opened Rows
  import opened Senders

  /** A login: the session it leaves, with the digest of its key, and the one it opens, as read. */
  datatype Login = Login(org: Id, anonymous: Id, digest: string, identified: Id, externalId: string, contact: Option<Id>)

  predicate IsLeft(l: Login, t: Ticket) {
    t.org == l.org && t.session == Some(l.anonymous)
  }

  function MovedTicket(l: Login, t: Ticket): Ticket {
    t.(session := Some(l.identified),
       externalId := l.externalId,
       contact := if l.contact.Some? then l.contact else t.contact,
       metadata := Dict(Entries(t.metadata)[PRE_LOGIN_ANONYMOUS := JTrue][PRE_LOGIN_SESSION_HASH := JString(l.digest)]))
  }

  predicate LeavesMessage(db: Db, l: Login, m: Message) {
    m.session == Some(l.anonymous) && m.ticket in db.tickets && db.tickets[m.ticket].org == l.org
  }

  function LeftSession(s: Session, now: Time): Session {
    s.(name := "", email := "", userAgent := "", verifiedAt := None, verifiedFor := "", proofSource := NoProof,
       contact := None, updatedAt := now)
  }

  /** The rows after the move. A session that is gone fails it, and nothing is written. */
  function Moved(db: Db, l: Login, now: Time): Db {
    if l.anonymous !in db.sessions then db
    else db.(
      sessions := db.sessions[l.anonymous := LeftSession(db.sessions[l.anonymous], now)],
      tickets := map k | k in db.tickets ::
        if IsLeft(l, db.tickets[k]) then MovedTicket(l, db.tickets[k]) else db.tickets[k],
      messages := map k | k in db.messages ::
        if LeavesMessage(db, l, db.messages[k])
        then db.messages[k].(session := Some(l.identified)) else db.messages[k])
  }

  /** The contacts a move may leave with nothing. */
  function LeftContacts(db: Db, l: Login): set<Id> {
    if l.anonymous !in db.sessions then {}
    else
      (set k | k in db.tickets && IsLeft(l, db.tickets[k]) && db.tickets[k].contact.Some? ::
         db.tickets[k].contact.value)
      + (if db.sessions[l.anonymous].contact.Some? then {db.sessions[l.anonymous].contact.value} else {})
      - (if l.contact.Some? then {l.contact.value} else {})
  }

  /** A message of the requester, from `ticket` as the request found it. */
  datatype Draft = Draft(
    ticket: Id, foundOn: Option<Id>, writer: Option<Id>, onlyContacts: bool, body: string, isText: bool)

  /** The session the message is written on, once the ticket is locked. */
  function MessageSession(db: Db, d: Draft): Option<Id>
    requires d.ticket in db.tickets
  {
    var t := db.tickets[d.ticket];
    var on := if d.writer.Some? && d.foundOn != d.writer then d.writer else t.session;
    var itsContacts := && on.Some? && on.value in db.sessions && t.contact.Some?
                       && db.sessions[on.value].contact == t.contact;
    if d.onlyContacts && !itsContacts then None else on
  }

  predicate Refused(db: Db, d: Draft) {
    || d.ticket !in db.tickets
    || (var contact := db.tickets[d.ticket].contact;
        contact.Some? && contact.value in db.contacts && db.contacts[contact.value].anonymized)
  }

  /** `create_user_message`. */
  function Posted(db: Db, d: Draft, newId: Id, now: Time): Db {
    if Refused(db, d) then db
    else db.(messages := db.messages[newId :=
      Message(d.ticket, MessageSession(db, d), FromUser, None, d.body, d.isText, "", "", now)])
  }

  // What a move keeps

  /**
   Every ticket and message is kept, those of the anonymous session are on the
   identified one, nothing else is re-pointed, and the anonymous session is blank.
   */
  lemma MovingConserves(db: Db, l: Login, now: Time)
    requires l.anonymous in db.sessions && l.anonymous != l.identified
    ensures var db1 := Moved(db, l, now);
      && db1.tickets.Keys == db.tickets.Keys && db1.messages.Keys == db.messages.Keys
      && db1.sessions.Keys == db.sessions.Keys && db1.contacts == db.contacts
      && (forall k :: k in db.tickets ==> !IsLeft(l, db1.tickets[k]))
      && (forall k :: k in db.tickets && IsLeft(l, db.tickets[k]) ==>
            && db1.tickets[k].session == Some(l.identified)
            && db1.tickets[k].externalId == l.externalId
            && (l.contact.Some? ==> db1.tickets[k].contact == l.contact)
            && (l.contact.None? ==> db1.tickets[k].contact == db.tickets[k].contact)
            && db1.tickets[k].metadata.Dict?
            && (forall key :: key in Entries(db.tickets[k].metadata).Keys - {PRE_LOGIN_ANONYMOUS, PRE_LOGIN_SESSION_HASH} ==>
                  && key in Entries(db1.tickets[k].metadata)
                  && Entries(db1.tickets[k].metadata)[key] == Entries(db.tickets[k].metadata)[key])
            && db1.tickets[k] == db.tickets[k].(session := db1.tickets[k].session,
                 externalId := db1.tickets[k].externalId, contact := db1.tickets[k].contact,
                 metadata := db1.tickets[k].metadata))
      && (forall k :: k in db.tickets && !IsLeft(l, db.tickets[k]) ==> db1.tickets[k] == db.tickets[k])
      && (forall k :: k in db.messages ==> !LeavesMessage(db1, l, db1.messages[k]))
      && (forall k :: k in db.messages ==>
            db1.messages[k] == db.messages[k].(session :=
              if LeavesMessage(db, l, db.messages[k]) then Some(l.identified) else db.messages[k].session))
      && db1.sessions[l.anonymous].contact.None? && !HasProof(db1.sessions[l.anonymous])
      && (forall k :: k in db.sessions && k != l.anonymous ==> db1.sessions[k] == db.sessions[k])
  {}

  /** A moved ticket's sender is unverified, unless it has no outside sender to verify. */
  lemma MovedSenderIsUnverified(db: Db, l: Login, now: Time, k: Id)
    requires l.anonymous in db.sessions && k in db.tickets && IsLeft(l, db.tickets[k])
    ensures var db1 := Moved(db, l, now);
      SenderVerified(db1, db1.tickets[k]) == if db.tickets[k].source in {Widget, Email} then Some(false) else None
  {}

  /** Ticket 7, on the anonymous session 1, is moved to session 2 of user "u", and its source has no outside sender. */
  lemma AMovedTicketMayHaveNoSender(source: Source, now: Time)
    requires source.Agent? || source.Api?
    ensures var sessions := map[1 := Session(0, "", "", "", "", None, None, "", NoProof, 0, 0, 0),
                                2 := Session(0, "u", "", "", "", None, None, "", NoProof, 0, 0, 0)];
      var t := Ticket(0, source, None, Some(1), "", None, "", "", "", "", "", "", Dict(map[]), 0, 0);
      var db := Db(map[], sessions, map[7 := t], map[], map[], map[], map[], map[], map[], map[]);
      var l := Login(0, 1, "", 2, "u", None);
      var db1 := Moved(db, l, now);
      && IsLeft(l, t) && 7 in db1.tickets && WrittenBeforeLogin(db1.tickets[7])
      && SenderVerified(db1, db1.tickets[7]) == None
  {}

  /** Repeated, a move finds nothing left to do: it only dates the anonymous session. */
  lemma MovingTwice(db: Db, l: Login, now: Time, later: Time)
    requires l.anonymous != l.identified && l.anonymous in db.sessions
    ensures var db1 := Moved(db, l, now);
      var db2 := Moved(db1, l, later);
      && db2.tickets == db1.tickets && db2.messages == db1.messages
      && db2.sessions == db1.sessions[l.anonymous := db1.sessions[l.anonymous].(updatedAt := later)]
  {}

  // A message written meanwhile

  /** A writer's message on its own session's ticket. */
  predicate OnOwnTicket(db: Db, l: Login, d: Draft) {
    && d.ticket in db.tickets && IsLeft(l, db.tickets[d.ticket])
    && d.foundOn == Some(l.anonymous) && d.writer == Some(l.anonymous) && !d.onlyContacts
  }

  /** The message, if it was taken, is on the session its ticket is on. */
  predicate OnTicketsSession(db: Db, id: Id, session: Id, body: string) {
    id in db.messages ==>
      && db.messages[id].ticket in db.tickets && db.messages[id].body == body
      && db.tickets[db.messages[id].ticket].session == Some(session)
      && db.messages[id].session == Some(session)
  }

  /** A message found on its writer's ticket, or on one since moved, is on the ticket's session. */
  lemma PostedOn(db: Db, d: Draft, newId: Id, now: Time, session: Id)
    requires d.ticket in db.tickets && db.tickets[d.ticket].session == Some(session)
    requires newId !in db.messages && d.foundOn == d.writer && !d.onlyContacts
    ensures OnTicketsSession(Posted(db, d, newId, now), newId, session, d.body)
    ensures newId in Posted(db, d, newId, now).messages ==>
      Posted(db, d, newId, now).messages[newId].ticket == d.ticket
    ensures Posted(db, d, newId, now).tickets == db.tickets && Posted(db, d, newId, now).sessions == db.sessions
  {}

  lemma MovedAlong(db: Db, l: Login, id: Id, now: Time, body: string)
    requires l.anonymous in db.sessions && OnTicketsSession(db, id, l.anonymous, body)
    requires id in db.messages ==> db.tickets[db.messages[id].ticket].org == l.org
    ensures OnTicketsSession(Moved(db, l, now), id, l.identified, body)
  {}

  /** Once the move committed, the message follows the ticket it locks. */
  lemma MessageAfterMove(db: Db, l: Login, d: Draft, newId: Id, now: Time, later: Time)
    requires l.anonymous in db.sessions && l.anonymous != l.identified
    requires OnOwnTicket(db, l, d) && newId !in db.messages
    ensures OnTicketsSession(Posted(Moved(db, l, now), d, newId, later), newId, l.identified, d.body)
  {}

  /** Before it, the move takes the message along. */
  lemma MessageBeforeMove(db: Db, l: Login, d: Draft, newId: Id, now: Time, later: Time)
    requires l.anonymous in db.sessions && l.anonymous != l.identified
    requires OnOwnTicket(db, l, d) && newId !in db.messages
    ensures OnTicketsSession(Moved(Posted(db, d, newId, now), l, later), newId, l.identified, d.body)
  {
    PostedOn(db, d, newId, now, l.anonymous);
    MovedAlong(Posted(db, d, newId, now), l, newId, later, d.body);
  }

  /** And but for dates, both orders end in the same rows when none refuses the message. */
  lemma OrdersAgree(db: Db, l: Login, d: Draft, newId: Id, now: Time)
    requires l.anonymous in db.sessions && l.anonymous != l.identified
    requires OnOwnTicket(db, l, d) && newId !in db.messages
    requires !Refused(db, d) && !Refused(Moved(db, l, now), d)
    ensures Posted(Moved(db, l, now), d, newId, now) == Moved(Posted(db, d, newId, now), l, now)
  {
    var moveFirst := Posted(Moved(db, l, now), d, newId, now);
    var messageFirst := Moved(Posted(db, d, newId, now), l, now);
    assert moveFirst.messages.Keys == messageFirst.messages.Keys;
    assert moveFirst.messages == messageFirst.messages;
    assert moveFirst.tickets == messageFirst.tickets;
  }
}
