/**
 The one case where two contacts become one: an identified contact with no email
 proves the address of an email-only one (backend/apps/contacts/services.py:419-456).
 */
module Absorption {
  import opened Text
  import opened Rows
  import opened Resolution
  import opened Uniqueness
  import opened Senders

  /** The database once `id`, drafted as `c`, absorbed `other` and is saved. */
  function Reunited(db: Db, id: Id, c: Contact, other: Id): Db
    requires other in db.contacts
  {
    var db1 := AbsorbedInto(db, id, other);
    db1.(contacts := db1.contacts[id := Absorbing(c, db.contacts[other])])
  }

  // Conservation

  /** A row on `other` moves to `id`, and no other link changes. */
  predicate Follows(before: Option<Id>, after: Option<Id>, id: Id, other: Id) {
    after == if before == Some(other) then Some(id) else before
  }

  /** Every session, ticket and note of `other` ends on `id`, and nothing else moves or is lost. */
  lemma ReunionConserves(db: Db, id: Id, c: Contact, other: Id)
    requires other in db.contacts && id in db.contacts && id != other
    ensures var db1 := Reunited(db, id, c, other);
      && db1.contacts.Keys == db.contacts.Keys - {other}
      && db1.sessions.Keys == db.sessions.Keys
      && db1.tickets.Keys == db.tickets.Keys
      && db1.notes.Keys == db.notes.Keys
      && db1.messages == db.messages && db1.companies == db.companies
      && (forall k :: k in db.contacts && k != id && k != other ==> db1.contacts[k] == db.contacts[k])
      && (forall k :: k in db.sessions ==>
            && Follows(db.sessions[k].contact, db1.sessions[k].contact, id, other)
            && db1.sessions[k] == db.sessions[k].(contact := db1.sessions[k].contact))
      && (forall k :: k in db.tickets ==>
            && Follows(db.tickets[k].contact, db1.tickets[k].contact, id, other)
            && db1.tickets[k] == db.tickets[k].(contact := db1.tickets[k].contact))
      && (forall k :: k in db.notes ==>
            && db1.notes[k].body == db.notes[k].body
            && db1.notes[k].contact == (if db.notes[k].contact == other then id else db.notes[k].contact))
      && (forall k :: k in db1.sessions ==> db1.sessions[k].contact != Some(other))
      && (forall k :: k in db1.tickets ==> db1.tickets[k].contact != Some(other))
      && (forall k :: k in db1.notes ==> db1.notes[k].contact != other)
  {
    var db1 := Reunited(db, id, c, other);
    assert db1.contacts.Keys == db.contacts.Keys - {other};
  }

  predicate Fills(own: string, other: string, result: string) {
    (own != "" ==> result == own) && (own == "" ==> result == other)
  }

  predicate IsEarliest(a: Option<Time>, b: Option<Time>, r: Option<Time>) {
    && (r == a || r == b)
    && (r.None? ==> a.None? && b.None?)
    && (a.Some? ==> r.Some? && r.value <= a.value)
    && (b.Some? ==> r.Some? && r.value <= b.value)
  }

  predicate IsLatest(a: Option<Time>, b: Option<Time>, r: Option<Time>) {
    && (r == a || r == b)
    && (r.None? ==> a.None? && b.None?)
    && (a.Some? ==> r.Some? && r.value >= a.value)
    && (b.Some? ==> r.Some? && r.value >= b.value)
  }

  /**
   The contact's own values win and the other's fill its blanks, an unsubscription is
   kept, the dates are the extremes, and nothing it takes is verified.
   */
  lemma ReunionKeepsValues(c: Contact, other: Contact)
    ensures var r := Absorbing(c, other);
      && r.email == other.email && r.verifiedAt.None?
      && r.org == c.org && r.externalId == c.externalId && r.anonymized == c.anonymized && r.declared == c.declared
      && Fills(c.profile.name, other.profile.name, r.profile.name)
      && Fills(c.profile.phone, other.profile.phone, r.profile.phone)
      && Fills(c.profile.avatarUrl, other.profile.avatarUrl, r.profile.avatarUrl)
      && Fills(c.profile.jobTitle, other.profile.jobTitle, r.profile.jobTitle)
      && Fills(c.profile.locale, other.profile.locale, r.profile.locale)
      && Fills(c.profile.timezone, other.profile.timezone, r.profile.timezone)
      && (r.company.None? ==> c.company.None? && other.company.None?)
      && (c.company.Some? ==> r.company == c.company)
      && (c.company.None? ==> r.company == other.company)
      && (c.attributes.Dict? ==>
            && r.attributes.Dict?
            && r.attributes.entries.Keys == c.attributes.entries.Keys + Entries(other.attributes).Keys
            && (forall key :: key in c.attributes.entries ==>
                  r.attributes.entries[key] == c.attributes.entries[key])
            && (forall key :: key in Entries(other.attributes) && key !in c.attributes.entries ==>
                  r.attributes.entries[key] == Entries(other.attributes)[key]))
      && (c.attributes.NotDict? ==> r.attributes == c.attributes)
      && (r.unsubscribed <==> c.unsubscribed || other.unsubscribed)
      && IsEarliest(c.firstSeen, other.firstSeen, r.firstSeen)
      && IsLatest(c.lastSeen, other.lastSeen, r.lastSeen)
      && IsLatest(c.lastContacted, other.lastContacted, r.lastContacted)
  {}

  // Senders

  predicate OnEither(contact: Option<Id>, id: Id, other: Id) {
    contact == Some(id) || contact == Some(other)
  }

  /**
   The reunion brings a ticket and its session together on the absorbing contact, as an
   agent put one of them on the other contact: or they were together on the absorbing
   one, which now takes the address the session proved before the ticket was written.
   */
  predicate Gains(db: Db, id: Id, other: Id, t: Ticket)
    requires other in db.contacts
  {
    && HasOutsideSender(t) && !WrittenBeforeLogin(t)
    && OnEither(t.contact, id, other)
    && t.session.Some? && t.session.value in db.sessions
    && var s := db.sessions[t.session.value];
       && OnEither(s.contact, id, other)
       && !(t.contact == Some(other) && s.contact == Some(other))
       && if s.externalId != "" then s.contact != t.contact
          else ProofHolds(s, db.contacts[other]) && t.createdAt >= s.verifiedAt.value
  }

  /** Nobody proved a blank address. */
  lemma BlankIsUnproven(s: Session, c: Contact)
    requires c.email == ""
    ensures !ProofHolds(s, c)
  {
    assert Normalized("") == "";
  }

  /** The session after the reunion, moved with its contact, and, if anonymous, with the same proof. */
  predicate SameSender(s: Session, s1: Session, id: Id, other: Id) {
    && s1.contact == (if s.contact == Some(other) then Some(id) else s.contact) && s1.externalId == s.externalId
    && (s.externalId == "" ==> s1 == s.(contact := s1.contact))
  }

  /** What of the reunion a ticket's sender can tell. */
  ghost predicate IsReunion(db: Db, db1: Db, id: Id, other: Id, t: Ticket, t1: Ticket)
    requires other in db.contacts
  {
    && t1 == t.(contact := if t.contact == Some(other) then Some(id) else t.contact)
    && db1.sessions.Keys == db.sessions.Keys
    && (t.session.Some? && t.session.value in db.sessions ==>
          SameSender(db.sessions[t.session.value], db1.sessions[t.session.value], id, other))
    && id in db1.contacts && db1.contacts[id].email == db.contacts[other].email && other !in db1.contacts
    && (forall o :: o in db.contacts && o != id && o != other ==> o in db1.contacts && db1.contacts[o] == db.contacts[o])
    && (forall o :: o in db1.contacts ==> o in db.contacts)
  }

  lemma SendersAfter(db: Db, db1: Db, id: Id, other: Id, t: Ticket, t1: Ticket)
    requires other in db.contacts && id in db.contacts && id != other && db.contacts[id].email == ""
    requires IsReunion(db, db1, id, other, t, t1)
    ensures SenderVerified(db1, t1) == if Gains(db, id, other, t) then Some(true) else SenderVerified(db, t)
    ensures Gains(db, id, other, t) ==> SenderVerified(db, t) == Some(false)
  {
    if t.session.Some? && t.session.value in db.sessions {
      BlankIsUnproven(db.sessions[t.session.value], db.contacts[id]);
    }
  }

  lemma ReunionIs(db: Db, id: Id, c: Contact, other: Id, k: Id)
    requires other in db.contacts && id in db.contacts && id != other && k in db.tickets
    ensures var db1 := Reunited(db, id, c, other);
      k in db1.tickets && IsReunion(db, db1, id, other, db.tickets[k], db1.tickets[k])
  {}

  /**
   Any ticket's `sender_verified` is the same before and after, but of one that gains by
   it: its sender becomes verified. The absorbing contact has no email, or it would
   absorb nobody.
   */
  lemma ReunionVerifiesNobodyElse(db: Db, id: Id, c: Contact, other: Id, k: Id)
    requires other in db.contacts && id in db.contacts && id != other && db.contacts[id].email == ""
    requires k in db.tickets
    ensures var db1 := Reunited(db, id, c, other);
      SenderVerified(db1, db1.tickets[k])
      == if Gains(db, id, other, db.tickets[k]) then Some(true) else SenderVerified(db, db.tickets[k])
    ensures Gains(db, id, other, db.tickets[k]) ==> SenderVerified(db, db.tickets[k]) == Some(false)
  {
    ReunionIs(db, id, c, other, k);
    SendersAfter(db, Reunited(db, id, c, other), id, other, db.tickets[k], Reunited(db, id, c, other).tickets[k]);
  }

  /** For a ticket whose session moved with it, it is always kept. */
  lemma ReunionKeepsSenderOfMovedSession(db: Db, id: Id, c: Contact, other: Id, k: Id)
    requires other in db.contacts && id in db.contacts && id != other
    requires k in db.tickets && db.tickets[k].contact == Some(other)
    requires db.tickets[k].session.Some? && db.tickets[k].session.value in db.sessions
    requires db.sessions[db.tickets[k].session.value].contact == Some(other)
    ensures var db1 := Reunited(db, id, c, other);
      SenderVerified(db1, db1.tickets[k]) == SenderVerified(db, db.tickets[k])
  {
    var t := db.tickets[k];
    var db1 := Reunited(db, id, c, other);
    assert db1.tickets[k] == t.(contact := Some(id));
    assert db1.sessions[t.session.value] == db.sessions[t.session.value].(contact := Some(id));
  }

  // The pass that reunites

  /**
   A pass of an identified session, whichever contact it is on, that finds contact `id` of
   its external id, which has no email, and proves the address of the email-only `other`.
   */
  ghost predicate Reunites(db: Db, sid: Id, k: Claims, p: Payload, id: Id, other: Id) {
    && sid in db.sessions && db.sessions[sid].externalId != ""
    && k.identified && k.externalId != "" && k.email != "" && p.verified
    && ByExternalId(db.contacts, k.org, k.externalId) == Some(id) && db.contacts[id].email == ""
    && !db.contacts[id].anonymized
    && EmailOnlyHolder(db.contacts, k.org, k.email) == Some(other)
  }

  lemma SettlingReunites(env: Env, db: Db, f: Lookup, k: Claims, p: Payload, now: Time, newId: Id, other: Id)
    requires f.Found? && f.contacts == db.contacts && f.id in db.contacts && f.draft == db.contacts[f.id]
    requires k.identified && k.email != "" && p.verified && f.draft.email == "" && f.draft.org == k.org
    requires EmailOnlyHolder(db.contacts, k.org, k.email) == Some(other)
    ensures var settled := Settle(env, db, f, k, p, now, newId);
      var absorbed := AbsorbedInto(db, f.id, other);
      && settled.db == absorbed.(contacts := absorbed.contacts[f.id := settled.contact], companies := settled.db.companies)
      && settled.contact.email == db.contacts[other].email
  {
    var (db1, c1) := Identified(db, f.id, f.draft, k, p, now);
    assert db.(contacts := f.contacts) == db;
    CompanyKeepsIdentity(env, db1.companies, c1, k, p, now, newId);
    var (companies, c2) := WithCompany(env, db1.companies, c1, k, p, now, newId);
    FinishingKeepsIdentity(env, companies, f.loaded, c2, k, p, f.created, now);
  }

  /** The database once the pass's session is on the contact, if it did not read that it is. */
  function LinkedFirst(db: Db, sid: Id, s: Session, id: Id): Db
    requires sid in db.sessions
  {
    if s.contact == Some(id) then db else db.(sessions := db.sessions[sid := db.sessions[sid].(contact := Some(id))])
  }

  /** At most the session's link and its proof are saved. */
  lemma SavingKeepsSender(
    db: Db, sid: Id, s: Session, id: Id, proven: bool, email: string, source: ProofSource, now: Time)
    requires sid in db.sessions
    ensures var after := SessionSaved(db, sid, s, id, proven, email, source, now).0;
      && after == db.(sessions := db.sessions[sid := after.sessions[sid]])
      && after.sessions[sid].contact == (if s.contact == Some(id) then db.sessions[sid].contact else Some(id))
      && after.sessions[sid].externalId == db.sessions[sid].externalId
  {}

  /** A ticket's sender is the same before and after, but one that gains, which becomes verified. */
  ghost predicate OnlyGainsVerify(db: Db, after: Db, id: Id, other: Id, tid: Id)
    requires tid in db.tickets && other in db.contacts
  {
    && tid in after.tickets
    && SenderVerified(after, after.tickets[tid])
       == (if Gains(db, id, other, db.tickets[tid]) then Some(true) else SenderVerified(db, db.tickets[tid]))
    && (Gains(db, id, other, db.tickets[tid]) ==> SenderVerified(db, db.tickets[tid]) == Some(false))
  }

  /** Over the whole pass too, which is the link of its session and then the reunion. */
  lemma PassVerifiesNobodyElse(
    env: Env, db: Db, sid: Id, s: Session, k: Claims, p: Payload, now: Time, ids: NewIds, id: Id, other: Id, tid: Id)
    requires Reunites(db, sid, k, p, id, other) && tid in db.tickets
    ensures OnlyGainsVerify(LinkedFirst(db, sid, s, id), Resolve(env, db, sid, s, k, p, now, ids).db, id, other, tid)
  {
    var f := LookedUp(db.contacts, k, p, now, ids.contact);
    assert f == Found(db.contacts, id, false, db.contacts[id], db.contacts[id]);
    var settled := Settle(env, db, f, k, p, now, ids.company);
    SettlingReunites(env, db, f, k, p, now, ids.company, other);
    SavingKeepsSender(settled.db, sid, s, id, settled.proven, k.email, p.source, now);
    var after := SessionSaved(settled.db, sid, s, id, settled.proven, k.email, p.source, now).0;
    assert Resolve(env, db, sid, s, k, p, now, ids).db == after;
    PassIsReunion(db, sid, s, id, other, settled, after, tid);
    SendersAfter(LinkedFirst(db, sid, s, id), after, id, other, db.tickets[tid], after.tickets[tid]);
  }

  /** For a ticket of another session, or if the session was on the contact, only the reunion. */
  lemma LinkLeavesOtherSenders(db: Db, sid: Id, s: Session, id: Id, other: Id, t: Ticket)
    requires sid in db.sessions && other in db.contacts && (s.contact == Some(id) || t.session != Some(sid))
    ensures var linked := LinkedFirst(db, sid, s, id);
      SenderVerified(linked, t) == SenderVerified(db, t) && Gains(linked, id, other, t) == Gains(db, id, other, t)
  {}

  lemma PassIsReunion(db: Db, sid: Id, s: Session, id: Id, other: Id, settled: Settled, after: Db, tid: Id)
    requires id in db.contacts && other in db.contacts && id != other && tid in db.tickets
    requires sid in db.sessions && db.sessions[sid].externalId != ""
    requires var absorbed := AbsorbedInto(db, id, other);
      && settled.db == absorbed.(contacts := absorbed.contacts[id := settled.contact], companies := settled.db.companies)
      && settled.contact.email == db.contacts[other].email
    requires sid in settled.db.sessions && sid in after.sessions
    requires after == settled.db.(sessions := settled.db.sessions[sid := after.sessions[sid]])
    requires after.sessions[sid].contact == (if s.contact == Some(id) then settled.db.sessions[sid].contact else Some(id))
    requires after.sessions[sid].externalId == settled.db.sessions[sid].externalId
    ensures tid in after.tickets
    ensures IsReunion(LinkedFirst(db, sid, s, id), after, id, other, db.tickets[tid], after.tickets[tid])
  {
    MovedSessionsAre(
      db.sessions, LinkedFirst(db, sid, s, id).sessions, AbsorbedInto(db, id, other).sessions, sid, id, other, after.sessions);
    MovedContactsAre(db.contacts, id, other, settled.contact, after.contacts);
  }

  lemma MovedContactsAre(contacts: Contacts, id: Id, other: Id, c: Contact, after: Contacts)
    requires id in contacts && other in contacts && id != other && after == (contacts - {other})[id := c]
    ensures id in after && after[id] == c && other !in after
    ensures forall o :: o in contacts && o != id && o != other ==> o in after && after[o] == contacts[o]
    ensures forall o :: o in after ==> o in contacts
  {}

  lemma MovedSessionsAre(
    sessions: map<Id, Session>, linked: map<Id, Session>, moved: map<Id, Session>, sid: Id, id: Id, other: Id,
    after: map<Id, Session>)
    requires moved == map k | k in sessions ::
      if sessions[k].contact == Some(other) then sessions[k].(contact := Some(id)) else sessions[k]
    requires sid in sessions && sid in after && after == moved[sid := after[sid]] && id != other
    requires sessions[sid].externalId != "" && after[sid].externalId == sessions[sid].externalId
    requires || (linked == sessions && after[sid].contact == moved[sid].contact)
             || (linked == sessions[sid := sessions[sid].(contact := Some(id))] && after[sid].contact == Some(id))
    ensures after.Keys == linked.Keys
    ensures forall k :: k in linked ==> SameSender(linked[k], after[k], id, other)
  {}

  // Two databases where a sender does become verified

  const ANYTHING: Env := Env(text => true, text => true, text => true, text => true)

  /** A user's session, with that email, on the contact of its external id. */
  function UsersSession(email: string): Session {
    Session(0, "u", "", email, "", Some(1), None, "", NoProof, 0, 0, 0)
  }

  /** Contact 1 is user "u", with no email. Contact 2 is email-only. */
  function TwoContacts(sessions: map<Id, Session>, t: Ticket): Db {
    Db(map[1 := NewContact(0, "", "u", "", 0), 2 := NewContact(0, "a@b", "", "", 0)], sessions, map[7 := t],
       map[], map[], map[], map[], map[], map[], map[])
  }

  function WidgetTicket(contact: Id, session: Id, createdAt: Time): Ticket {
    Ticket(0, Widget, Some(contact), Some(session), "", None, "", "", "", "", "", "", Dict(map[]), createdAt, createdAt)
  }

  /** Ticket 7 was opened by the user's session 3, and put on the email-only contact by an agent. */
  function PutOnTheOther(): Db {
    TwoContacts(map[3 := UsersSession("a@b")], WidgetTicket(2, 3, 0))
  }

  /** Ticket 7 was opened by session 4, which had proved contact 2's address, and put on contact 1 by an agent. */
  function PutOnTheUser(): Db {
    TwoContacts(
      map[3 := UsersSession("a@b"),
          4 := Session(0, "", "", "a@b", "", Some(2), Some(5), "a@b", Code, 0, 0, 0)],
      WidgetTicket(1, 4, 10))
  }

  const SIGNED_EMAIL: Payload := Payload(true, Signed, map[], None, false)

  lemma ShortTextIsClean()
    ensures Normalized("a@b") == "a@b" && CleanEmail(ANYTHING, "a@b") == "a@b" && UsableExternalId(ANYTHING, "u") == "u"
  {
    StripStripped("a@b");
    StripStripped("u");
  }

  lemma TheyReunite(db: Db)
    requires 7 in db.tickets && db == TwoContacts(db.sessions, db.tickets[7])
    requires 3 in db.sessions && db.sessions[3] == UsersSession("a@b")
    ensures Reunites(db, 3, ClaimsOf(ANYTHING, db.sessions[3]), SIGNED_EMAIL, 1, 2)
  {
    ShortTextIsClean();
    assert HoldsExternalId(db.contacts, 0, "u", 1) && HoldsEmailOnly(db.contacts, 0, "a@b", 2);
  }

  /** "No sender becomes verified" fails in both, once session 3 signs the address: a pass verifies ticket 7's sender. */
  lemma ASenderBecomesVerified(db: Db, now: Time, ids: NewIds)
    requires db == PutOnTheOther() || db == PutOnTheUser()
    ensures var after := ResolveOnce(ANYTHING, db, 3, db.sessions[3], SIGNED_EMAIL, now, ids).db;
      && 7 in after.tickets
      && SenderVerified(db, db.tickets[7]) == Some(false) && SenderVerified(after, after.tickets[7]) == Some(true)
  {
    ShortTextIsClean();
    TheyReunite(db);
    assert Gains(db, 1, 2, db.tickets[7]);
    PassVerifiesNobodyElse(
      ANYTHING, db, 3, db.sessions[3], ClaimsOf(ANYTHING, db.sessions[3]), SIGNED_EMAIL, now, ids, 1, 2, 7);
  }

  // The only case

  lemma FoundAbsorbsOnlyEmailOnly(
    env: Env, db: Db, sid: Id, s: Session, k: Claims, p: Payload, now: Time, ids: NewIds, f: Lookup, gone: Id)
    requires f == LookedUp(db.contacts, k, p, now, ids.contact) && f.Found? && !f.draft.anonymized
    requires f.id in f.contacts && f.contacts[f.id].email == f.draft.email && f.draft.org == k.org
    requires gone in f.contacts && gone !in Resolve(env, db, sid, s, k, p, now, ids).db.contacts
    ensures k.identified && p.verified && f.draft.email == "" && HoldsEmailOnly(f.contacts, k.org, k.email, gone)
  {}

  /** A pass that loses a contact is one of an identified session, proving that contact's only claim. */
  lemma PassAbsorbsOnlyEmailOnly(
    env: Env, db: Db, sid: Id, s: Session, k: Claims, p: Payload, now: Time, ids: NewIds, f: Lookup, gone: Id)
    requires ids.contact !in db.contacts && f == LookedUp(db.contacts, k, p, now, ids.contact)
    requires gone in db.contacts && gone !in Resolve(env, db, sid, s, k, p, now, ids).db.contacts
    ensures f.Found? && f.draft.email == ""
    ensures k.identified && p.verified && HoldsEmailOnly(f.contacts, k.org, k.email, gone)
  {
    if f.Nobody? || f.draft.anonymized {
      NobodyUnlinks(env, db, sid, s, k, p, now, ids, f);
      assert false;
    } else {
      LookupFinds(db.contacts, k, p, now, ids.contact);
      FoundAbsorbsOnlyEmailOnly(env, db, sid, s, k, p, now, ids, f, gone);
    }
  }
}
