/**
 Whether proving its email would show a session conversations it cannot see
 (`email_proof_would_open`, backend/apps/tickets/access.py:119-150), and what the pass
 that proves it shows (backend/apps/contacts/services.py:459-551).
 */
module EmailProof {
  import opened Text
  import opened Rows
  import opened Resolution
  import opened Uniqueness
  import opened Access
  import opened Safety

  /** The contact an identified session's claim is of, if it has one. */
  ghost function Own(env: Env, db: Db, s: Session): Option<Id> {
    ByExternalId(db.contacts, s.org, UsableExternalId(env, s.externalId))
  }

  /** The proof would take the session to the contact holding the address, or that one's conversations to its own. */
  ghost predicate Reaches(env: Env, db: Db, s: Session, holder: Id)
    requires holder in db.contacts
  {
    s.externalId != "" ==>
      && UsableExternalId(env, s.externalId) != ""
      && var own := Own(env, db, s);
         || own == Some(holder)
         || (&& db.contacts[holder].externalId == ""
             && (own.None? || (own.value in db.contacts && db.contacts[own.value].email == "")))
  }

  predicate IsNewTo(db: Db, sid: Id, contact: Id, tid: Id)
    requires sid in db.sessions
  {
    && tid in db.tickets && db.tickets[tid].org == db.sessions[sid].org && db.tickets[tid].contact == Some(contact)
    && !Sees(db, sid, tid)
  }

  /** `email_proof_would_open`, where mail is received. */
  ghost predicate WouldOpen(env: Env, db: Db, sid: Id, email: string)
    requires sid in db.sessions
  {
    exists holder, tid ::
      && HoldsEmail(db.contacts, db.sessions[sid].org, email, holder) && !db.contacts[holder].anonymized
      && Reaches(env, db, db.sessions[sid], holder)
      && IsNewTo(db, sid, holder, tid)
  }

  /** A ticket the session sees afterwards, and did not before. */
  ghost predicate Opens(db: Db, after: Db, sid: Id) {
    exists tid :: tid in db.tickets && Sees(after, sid, tid) && !Sees(db, sid, tid)
  }

  // What the pass makes of the session and its tickets

  /** The email-only contact that the one found absorbs. */
  ghost function Taken(f: Lookup, k: Claims, p: Payload): Option<Id>
    requires f.Found?
  {
    if k.identified && k.email != "" && p.verified && f.draft.email == ""
    then EmailOnlyHolder(f.contacts, f.draft.org, k.email) else None
  }

  function MovedTo(contact: Option<Id>, other: Option<Id>, id: Id): Option<Id> {
    if contact.Some? && contact == other then Some(id) else contact
  }

  lemma IdentifiedRows(db: Db, id: Id, c: Contact, k: Claims, p: Payload, now: Time)
    ensures Identified(db, id, c, k, p, now).0
         == if k.identified && k.email != "" && p.verified && c.email == ""
               && EmailOnlyHolder(db.contacts, c.org, k.email).Some?
            then AbsorbedInto(db, id, EmailOnlyHolder(db.contacts, c.org, k.email).value) else db
  {}

  /** Tickets and sessions alike, those of the one absorbed on the other. */
  ghost predicate RowsMoved(db: Db, after: Db, other: Option<Id>, id: Id) {
    && after.tickets.Keys == db.tickets.Keys && after.sessions.Keys == db.sessions.Keys
    && (forall t :: t in db.tickets ==>
          after.tickets[t] == db.tickets[t].(contact := MovedTo(db.tickets[t].contact, other, id)))
    && (forall t :: t in db.sessions ==>
          after.sessions[t] == db.sessions[t].(contact := MovedTo(db.sessions[t].contact, other, id)))
  }

  lemma AbsorbingMovesRows(db: Db, id: Id, other: Id)
    ensures RowsMoved(db, AbsorbedInto(db, id, other), Some(other), id)
  {}

  lemma NothingMoves(db: Db, id: Id)
    ensures RowsMoved(db, db, None, id)
  {}

  lemma IdentifyingMovesRows(db: Db, f: Lookup, k: Claims, p: Payload, now: Time)
    requires f.Found? && db.contacts == f.contacts
    ensures RowsMoved(db, Identified(db, f.id, f.draft, k, p, now).0, Taken(f, k, p), f.id)
  {
    IdentifiedRows(db, f.id, f.draft, k, p, now);
    if Taken(f, k, p).Some? {
      AbsorbingMovesRows(db, f.id, Taken(f, k, p).value);
    } else {
      NothingMoves(db, f.id);
    }
  }

  lemma SettlingOnlySaves(env: Env, db: Db, f: Lookup, k: Claims, p: Payload, now: Time, newId: Id)
    requires f.Found?
    ensures var settled := Settle(env, db, f, k, p, now, newId).db;
      var db1 := Identified(db.(contacts := f.contacts), f.id, f.draft, k, p, now).0;
      settled.tickets == db1.tickets && settled.sessions == db1.sessions
  {}

  lemma SettlingMovesRows(env: Env, db: Db, f: Lookup, k: Claims, p: Payload, now: Time, newId: Id)
    requires f.Found?
    ensures RowsMoved(db, Settle(env, db, f, k, p, now, newId).db, Taken(f, k, p), f.id)
  {
    IdentifyingMovesRows(db.(contacts := f.contacts), f, k, p, now);
    SettlingOnlySaves(env, db, f, k, p, now, newId);
  }

  lemma SettledIsProven(env: Env, db: Db, f: Lookup, k: Claims, p: Payload, now: Time, newId: Id)
    requires f.Found? && !k.identified && p.verified && k.email != "" && f.draft.email == k.email
    ensures Settle(env, db, f, k, p, now, newId).proven
  {}

  /** The session is on contact `id`, whose history opens to it, and that took the tickets of `other`. */
  ghost predicate Lands(db: Db, after: Db, sid: Id, id: Id, other: Option<Id>)
    requires sid in db.sessions
  {
    && sid in after.sessions && after.sessions[sid].contact == Some(id)
    && after.sessions[sid].org == db.sessions[sid].org && after.sessions[sid].externalId == db.sessions[sid].externalId
    && ContactHistoryOpens(after, after.sessions[sid])
    && after.tickets.Keys == db.tickets.Keys
    && forall t :: t in db.tickets ==>
         || after.tickets[t] == db.tickets[t].(contact := MovedTo(db.tickets[t].contact, other, id))
         || (db.tickets[t].session == Some(sid) && after.tickets[t] == db.tickets[t].(contact := Some(id)))
  }

  /** The conversations a pass opens, of the contact found and of the one absorbed. */
  ghost predicate SomeNew(db: Db, sid: Id, id: Id, other: Option<Id>)
    requires sid in db.sessions
  {
    exists tid :: IsNewTo(db, sid, id, tid) || (other.Some? && IsNewTo(db, sid, other.value, tid))
  }

  /** Then it opens exactly the tickets of the two that it did not see. */
  lemma LandingOpens(db: Db, after: Db, sid: Id, id: Id, other: Option<Id>)
    requires sid in db.sessions && Lands(db, after, sid, id, other)
    ensures Opens(db, after, sid) <==> SomeNew(db, sid, id, other)
  {
    if Opens(db, after, sid) {
      var tid :| tid in db.tickets && Sees(after, sid, tid) && !Sees(db, sid, tid);
      assert IsNewTo(db, sid, id, tid) || (other.Some? && IsNewTo(db, sid, other.value, tid));
    }
    if tid :| IsNewTo(db, sid, id, tid) || (other.Some? && IsNewTo(db, sid, other.value, tid)) {
      assert Sees(after, sid, tid);
    }
  }

  /** A session, and what is known of it when its address is proven. */
  ghost predicate Provable(env: Env, db: Db, sid: Id, email: string) {
    && sid in db.sessions
    && var s := db.sessions[sid];
       // Its address is one the service uses, in canonical form but for its case.
       && email != "" && CleanEmail(env, s.email) == email && Lower(s.email) == email
       // A proof has an address and a date.
       && (s.verifiedAt.None? ==> s.verifiedFor == "")
       // Identified, it is on its own contact by the pass of its init.
       && (s.externalId != "" && Own(env, db, s).Some? && UsableExternalId(env, s.externalId) != "" ==>
             s.contact == Own(env, db, s) && !db.contacts[s.contact.value].anonymized)
  }

  /** Nothing names the key of a contact that is yet to be. */
  predicate Unnamed(db: Db, id: Id) {
    id !in db.contacts && forall t :: t in db.tickets ==> db.tickets[t].contact != Some(id)
  }

  lemma AddressIs(env: Env, s: Session, email: string)
    requires email != "" && CleanEmail(env, s.email) == email
    ensures Normalized(s.email) == email && Normalized(email) == email
  {
    CleanEmailIsNormal(env, s.email);
  }

  lemma SavedSessionIs(row: Session, s: Session, id: Id, proven: bool, email: string, source: ProofSource, now: Time)
    requires row == s.(contact := row.contact) && (s.contact == Some(id) ==> row.contact == Some(id))
    requires email != "" && Lower(s.email) == email == Normalized(s.email) && (s.verifiedAt.None? ==> s.verifiedFor == "")
    ensures var saved := SavedRow(row, s, id, proven, email, source, now);
      && saved.contact == Some(id) && saved.org == s.org && saved.externalId == s.externalId && saved.email == s.email
      && (proven ==> HasProof(saved))
  {}

  lemma DraftIs(contacts: Contacts, k: Claims, p: Payload, now: Time, newId: Id, f: Lookup)
    requires f == LookedUp(contacts, k, p, now, newId) && f.Found?
    ensures f.draft.org == k.org
    ensures if k.identified then f.draft.externalId == k.externalId != "" else f.draft.email == k.email != ""
  {}

  /** The contact found, as it is settled, and the session saved on it. */
  ghost predicate OpensTo(db1: Db, id: Id, s: Session, email: string) {
    && id in db1.contacts && !db1.contacts[id].anonymized
    && (if s.externalId != "" then db1.contacts[id].externalId == s.externalId else db1.contacts[id].email == email)
  }

  lemma SettledOpens(env: Env, db: Db, s: Session, p: Payload, now: Time, ids: NewIds, f: Lookup, email: string)
    requires p.verified && email != "" && CleanEmail(env, s.email) == email
    requires f == LookedUp(db.contacts, ClaimsOf(env, s), p, now, ids.contact) && f.Found? && !f.draft.anonymized
    ensures var settled := Settle(env, db, f, ClaimsOf(env, s), p, now, ids.company);
      OpensTo(settled.db, f.id, s, email) && (s.externalId == "" ==> settled.proven)
  {
    var k := ClaimsOf(env, s);
    DraftIs(db.contacts, k, p, now, ids.contact, f);
    SettlingEvolves(env, db, f, k, p, now, ids.company);
    if s.externalId == "" {
      SettledIsProven(env, db, f, k, p, now, ids.company);
    }
  }

  lemma SavedLands(db: Db, db1: Db, db2: Db, after: Db, sid: Id, id: Id, other: Option<Id>, proven: bool, email: string,
                   source: ProofSource, now: Time)
    requires sid in db.sessions && RowsMoved(db, db1, other, id) && OpensTo(db1, id, db.sessions[sid], email)
    requires email != "" && Lower(db.sessions[sid].email) == email == Normalized(db.sessions[sid].email)
    requires Normalized(email) == email && (db.sessions[sid].verifiedAt.None? ==> db.sessions[sid].verifiedFor == "")
    requires db.sessions[sid].externalId == "" ==> proven
    requires db2 == SessionSaved(db1, sid, db.sessions[sid], id, proven, email, source, now).0
    requires after == db2.(tickets := after.tickets)
    requires after.tickets == db2.tickets || after.tickets == TicketsLinked(db2, db.sessions[sid].org, sid, Some(id)).tickets
    ensures Lands(db, after, sid, id, other)
  {
    SavedSessionIs(db1.sessions[sid], db.sessions[sid], id, proven, email, source, now);
  }

  lemma LinkIs(env: Env, db: Db, sid: Id, s: Session, p: Payload, now: Time, ids: NewIds, f: Lookup)
    requires f == LookedUp(db.contacts, ClaimsOf(env, s), p, now, ids.contact) && f.Found? && !f.draft.anonymized
    ensures var k := ClaimsOf(env, s);
      var settled := Settle(env, db, f, k, p, now, ids.company);
      var db2 := SessionSaved(settled.db, sid, s, f.id, settled.proven, k.email, p.source, now).0;
      var after := LinkSession(env, db, sid, s, p, now, ids).db;
      && after == db2.(tickets := after.tickets)
      && (after.tickets == db2.tickets || after.tickets == TicketsLinked(db2, s.org, sid, Some(f.id)).tickets)
  {}

  /** A pass that finds a live contact lands on it. */
  lemma PassLands(env: Env, db: Db, sid: Id, p: Payload, now: Time, ids: NewIds, f: Lookup, email: string)
    requires Provable(env, db, sid, email) && p.verified
    requires f == LookedUp(db.contacts, ClaimsOf(env, db.sessions[sid]), p, now, ids.contact)
    requires f.Found? && !f.draft.anonymized
    ensures var s := db.sessions[sid];
      Lands(db, LinkSession(env, db, sid, s, p, now, ids).db, sid, f.id, Taken(f, ClaimsOf(env, s), p))
  {
    var s := db.sessions[sid];
    var k := ClaimsOf(env, s);
    var settled := Settle(env, db, f, k, p, now, ids.company);
    var db2 := SessionSaved(settled.db, sid, s, f.id, settled.proven, k.email, p.source, now).0;
    AddressIs(env, s, email);
    SettledOpens(env, db, s, p, now, ids, f, email);
    SettlingMovesRows(env, db, f, k, p, now, ids.company);
    LinkIs(env, db, sid, s, p, now, ids, f);
    SavedLands(db, settled.db, db2, LinkSession(env, db, sid, s, p, now, ids).db, sid, f.id, Taken(f, k, p),
               settled.proven, email, p.source, now);
  }

  // Each case

  /** A pass that finds nobody, or an anonymized contact, opens nothing. */
  lemma NobodyOpens(env: Env, db: Db, sid: Id, p: Payload, now: Time, ids: NewIds, f: Lookup)
    requires sid in db.sessions
    requires f == LookedUp(db.contacts, ClaimsOf(env, db.sessions[sid]), p, now, ids.contact)
    requires f.Nobody? || f.draft.anonymized
    ensures !Opens(db, LinkSession(env, db, sid, db.sessions[sid], p, now, ids).db, sid)
  {}

  lemma NobodyWouldOpen(env: Env, db: Db, sid: Id, p: Payload, now: Time, ids: NewIds, f: Lookup, email: string)
    requires Provable(env, db, sid, email) && UniqueContacts(db.contacts) && Unnamed(db, ids.contact)
    requires f == LookedUp(db.contacts, ClaimsOf(env, db.sessions[sid]), p, now, ids.contact)
    requires f.Nobody? || f.draft.anonymized
    ensures !WouldOpen(env, db, sid, email)
  {
    var s := db.sessions[sid];
    forall holder | HoldsEmail(db.contacts, s.org, email, holder) && !db.contacts[holder].anonymized
      ensures !Reaches(env, db, s, holder)
    {
      if s.externalId == "" {
        ByEmailIs(db.contacts, s.org, email, holder);
      }
    }
  }

  lemma WouldOpenOf(env: Env, db: Db, sid: Id, email: string, holder: Id)
    requires sid in db.sessions && UniqueContacts(db.contacts) && email != ""
    requires HoldsEmail(db.contacts, db.sessions[sid].org, email, holder) && !db.contacts[holder].anonymized
    ensures WouldOpen(env, db, sid, email)
      <==> Reaches(env, db, db.sessions[sid], holder) && exists tid :: IsNewTo(db, sid, holder, tid)
  {
    forall o | HoldsEmail(db.contacts, db.sessions[sid].org, email, o) ensures o == holder {
      assert !ContactsClash(db.contacts, o, holder);
    }
  }

  lemma NoneOnNewKey(db: Db, sid: Id, id: Id)
    requires sid in db.sessions && Unnamed(db, id)
    ensures !SomeNew(db, sid, id, None)
  {}

  /** An anonymous session is taken to whoever holds the address. */
  lemma AnonymousCase(env: Env, db: Db, sid: Id, p: Payload, now: Time, ids: NewIds, f: Lookup, email: string)
    requires Provable(env, db, sid, email) && UniqueContacts(db.contacts) && Unnamed(db, ids.contact)
    requires db.sessions[sid].externalId == ""
    requires f == LookedUp(db.contacts, ClaimsOf(env, db.sessions[sid]), p, now, ids.contact)
    requires f.Found? && !f.draft.anonymized
    ensures WouldOpen(env, db, sid, email) <==> SomeNew(db, sid, f.id, Taken(f, ClaimsOf(env, db.sessions[sid]), p))
  {
    var s := db.sessions[sid];
    if ByEmail(db.contacts, s.org, email).Some? {
      WouldOpenOf(env, db, sid, email, f.id);
    } else {
      NoneOnNewKey(db, sid, f.id);
    }
  }

  /** The user's own conversations open to its session already. */
  lemma OwnIsSeen(db: Db, sid: Id, own: Id)
    requires sid in db.sessions && db.sessions[sid].contact == Some(own) && db.sessions[sid].externalId != ""
    requires own in db.contacts && !db.contacts[own].anonymized
    requires db.contacts[own].externalId == db.sessions[sid].externalId
    ensures forall tid :: !IsNewTo(db, sid, own, tid)
  {}

  /** An identified session only ever gets those of an email-only contact, on its own that has no email. */
  lemma OwnCase(env: Env, db: Db, sid: Id, p: Payload, now: Time, ids: NewIds, f: Lookup, email: string)
    requires Provable(env, db, sid, email) && p.verified && UniqueContacts(db.contacts)
    requires db.sessions[sid].externalId != "" && UsableExternalId(env, db.sessions[sid].externalId) != ""
    requires f.Found? && Own(env, db, db.sessions[sid]) == Some(f.id)
    requires f.contacts == db.contacts && f.id in db.contacts && f.draft == db.contacts[f.id]
    ensures WouldOpen(env, db, sid, email) <==> SomeNew(db, sid, f.id, Taken(f, ClaimsOf(env, db.sessions[sid]), p))
  {
    var s := db.sessions[sid];
    OwnIsSeen(db, sid, f.id);
    var other := Taken(f, ClaimsOf(env, s), p);
    if other.Some? {
      WouldOpenOf(env, db, sid, email, other.value);
    } else {
      forall holder | HoldsEmail(db.contacts, s.org, email, holder) && !db.contacts[holder].anonymized
        ensures holder == f.id || !Reaches(env, db, s, holder)
      {
        if holder != f.id && db.contacts[holder].externalId == "" && f.draft.email == "" {
          assert HoldsEmailOnly(db.contacts, s.org, email, holder);
        }
      }
    }
  }

  /** Without a contact of its own, it becomes the email-only one, or gets a new one. */
  lemma NoOwnCase(env: Env, db: Db, sid: Id, p: Payload, now: Time, ids: NewIds, f: Lookup, email: string)
    requires Provable(env, db, sid, email) && p.verified && UniqueContacts(db.contacts) && Unnamed(db, ids.contact)
    requires db.sessions[sid].externalId != "" && Own(env, db, db.sessions[sid]).None?
    requires f == LookedUp(db.contacts, ClaimsOf(env, db.sessions[sid]), p, now, ids.contact) && f.Found?
    ensures WouldOpen(env, db, sid, email) <==> SomeNew(db, sid, f.id, Taken(f, ClaimsOf(env, db.sessions[sid]), p))
  {
    var s := db.sessions[sid];
    if EmailOnlyHolder(db.contacts, s.org, email).Some? {
      WouldOpenOf(env, db, sid, email, f.id);
    } else {
      forall o ensures !HoldsEmailOnly(f.contacts, s.org, email, o) {
        assert !HoldsEmailOnly(db.contacts, s.org, email, o);
      }
      NoneOnNewKey(db, sid, f.id);
      assert forall holder :: HoldsEmail(db.contacts, s.org, email, holder) && !db.contacts[holder].anonymized ==>
        !HoldsEmailOnly(db.contacts, s.org, email, holder);
    }
  }

  /**
   The prediction is right: the pass that proves the session's email shows it a ticket it
   could not see exactly when it says so.
   */
  lemma ProofOpensAsPredicted(env: Env, db: Db, sid: Id, p: Payload, now: Time, ids: NewIds, email: string)
    requires Provable(env, db, sid, email) && p.verified && UniqueContacts(db.contacts) && Unnamed(db, ids.contact)
    ensures Opens(db, LinkSession(env, db, sid, db.sessions[sid], p, now, ids).db, sid) <==> WouldOpen(env, db, sid, email)
  {
    var s := db.sessions[sid];
    var k := ClaimsOf(env, s);
    var f := LookedUp(db.contacts, k, p, now, ids.contact);
    if f.Nobody? || f.draft.anonymized {
      NobodyOpens(env, db, sid, p, now, ids, f);
      NobodyWouldOpen(env, db, sid, p, now, ids, f, email);
    } else {
      PassLands(env, db, sid, p, now, ids, f, email);
      LandingOpens(db, LinkSession(env, db, sid, s, p, now, ids).db, sid, f.id, Taken(f, k, p));
      if s.externalId == "" {
        AnonymousCase(env, db, sid, p, now, ids, f, email);
      } else if Own(env, db, s).Some? {
        OwnCase(env, db, sid, p, now, ids, f, email);
      } else {
        NoOwnCase(env, db, sid, p, now, ids, f, email);
      }
    }
  }
}
