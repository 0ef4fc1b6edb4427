/** What a pass of the identity service cannot reach: all but a ticket's contact, and no message, mail or code. */
module Reach {
  import opened Rows
  import opened Resolution

  /** Only the contact of a ticket may differ. */
  ghost predicate TicketsKept(before: map<Id, Ticket>, after: map<Id, Ticket>) {
    && after.Keys == before.Keys
    && forall k :: k in before ==> TicketKept(before[k], after[k])
  }

  predicate TicketKept(before: Ticket, after: Ticket) {
    after == before.(contact := after.contact)
  }

  ghost predicate RestKept(db: Db, db1: Db) {
    && db1.messages == db.messages && db1.uploads == db.uploads && db1.mails == db.mails
    && db1.codes == db.codes && db1.users == db.users
    && TicketsKept(db.tickets, db1.tickets)
  }

  lemma AbsorbingKeepsRest(db: Db, id: Id, other: Id)
    ensures RestKept(db, AbsorbedInto(db, id, other))
  {}

  lemma RecordingKeepsRest(db: Db, id: Id, c: Contact, email: string, verified: bool)
    ensures RestKept(db, RecordedEmail(db, id, c, email, verified).0)
  {
    var other := EmailOnlyHolder(db.contacts, c.org, email);
    if verified && c.email == "" && other.Some? {
      AbsorbingKeepsRest(db, id, other.value);
    } else {
      assert RecordedEmail(db, id, c, email, verified).0 == db;
    }
  }

  lemma IdentifyingKeepsRest(db: Db, id: Id, c: Contact, k: Claims, p: Payload, now: Time)
    ensures RestKept(db, Identified(db, id, c, k, p, now).0)
  {
    RecordingKeepsRest(db, id, c, k.email, p.verified);
  }

  lemma SettlingKeepsRest(env: Env, db: Db, f: Lookup, k: Claims, p: Payload, now: Time, newId: Id)
    requires f.Found?
    ensures RestKept(db, Settle(env, db, f, k, p, now, newId).db)
  {
    IdentifyingKeepsRest(db.(contacts := f.contacts), f.id, f.draft, k, p, now);
  }

  lemma SessionSavingKeepsRest(
    db: Db, sid: Id, s: Session, id: Id, proven: bool, email: string, source: ProofSource, now: Time)
    ensures var db1 := SessionSaved(db, sid, s, id, proven, email, source, now).0;
      db1 == db.(sessions := db1.sessions)
  {}

  lemma UnlinkingKeepsRest(db: Db, sid: Id, s: Session, contact: Option<Id>, now: Time)
    ensures var db1 := LinkedTo(db, sid, s, contact, now);
      db1 == db.(sessions := db1.sessions)
  {}

  lemma FoundKeepsRest(
    env: Env, db: Db, sid: Id, s: Session, k: Claims, p: Payload, now: Time, ids: NewIds, f: Lookup)
    requires f == LookedUp(db.contacts, k, p, now, ids.contact) && f.Found? && !f.draft.anonymized
    ensures RestKept(db, Resolve(env, db, sid, s, k, p, now, ids).db)
  {
    var settled := Settle(env, db, f, k, p, now, ids.company);
    SettlingKeepsRest(env, db, f, k, p, now, ids.company);
    SessionSavingKeepsRest(settled.db, sid, s, f.id, settled.proven, k.email, p.source, now);
  }

  lemma NobodyKeepsRest(
    env: Env, db: Db, sid: Id, s: Session, k: Claims, p: Payload, now: Time, ids: NewIds, f: Lookup)
    requires f == LookedUp(db.contacts, k, p, now, ids.contact) && (f.Nobody? || f.draft.anonymized)
    ensures RestKept(db, Resolve(env, db, sid, s, k, p, now, ids).db)
  {}

  lemma PassKeepsRest(env: Env, db: Db, sid: Id, s: Session, k: Claims, p: Payload, now: Time, ids: NewIds)
    ensures RestKept(db, Resolve(env, db, sid, s, k, p, now, ids).db)
  {
    var f := LookedUp(db.contacts, k, p, now, ids.contact);
    if f.Nobody? || f.draft.anonymized {
      NobodyKeepsRest(env, db, sid, s, k, p, now, ids, f);
    } else {
      FoundKeepsRest(env, db, sid, s, k, p, now, ids, f);
    }
  }

  /** A link, after the pass, writes on tickets alone. */
  lemma TicketsOnly(o: Outcome, sid: Id, s: Session)
    ensures WithTickets(o, sid, s).db == o.db.(tickets := WithTickets(o, sid, s).db.tickets)
  {}

  lemma TicketsLinkedKept(db: Db, org: Id, sid: Id, contact: Option<Id>)
    ensures RestKept(db, TicketsLinked(db, org, sid, contact))
  {}

  lemma KeptTwice(a: Db, b: Db, c: Db)
    requires RestKept(a, b) && RestKept(b, c)
    ensures RestKept(a, c)
  {}

  lemma LinkingKeepsRest(env: Env, db: Db, sid: Id, s: Session, p: Payload, now: Time, ids: NewIds)
    ensures RestKept(db, LinkSession(env, db, sid, s, p, now, ids).db)
  {
    var o := ResolveOnce(env, db, sid, s, p, now, ids);
    PassKeepsRest(env, db, sid, s, ClaimsOf(env, s), p, now, ids);
    TicketsLinkedKept(o.db, s.org, sid, o.contact);
    KeptTwice(db, o.db, TicketsLinked(o.db, s.org, sid, o.contact));
  }
}
