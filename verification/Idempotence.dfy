/**
 A second pass over the same session and payload changes nothing but the date of the
 contact's last visit: each stage of a pass leaves its own result as it is.
 */
module Idempotence {
  import opened Rows
  import opened Resolution
  import opened Uniqueness

  // The email stage

  lemma UnprovenEmailIsStable(db: Db, id: Id, c: Contact, email: string, db2: Db, c2: Contact)
    requires c2.email == c.email && c2.declared == RecordedEmail(db, id, c, email, false).1.declared
    ensures RecordedEmail(db2, id, c2, email, false) == (db2, c2)
  {}

  /** An email somebody else kept is still theirs. */
  lemma TakenEmailStaysTaken(contacts: Contacts, id: Id, org: Id, email: string, c2: Contact)
    requires id in contacts && contacts[id].email != email && c2.email != email
    requires EmailOnlyHolder(contacts, org, email).None? && ByEmail(contacts, org, email).Some?
    ensures var later := contacts[id := c2];
      EmailOnlyHolder(later, org, email).None? && ByEmail(later, org, email).Some?
  {
    var later := contacts[id := c2];
    var holder := ByEmail(contacts, org, email).value;
    assert HoldsEmail(later, org, email, holder);
    forall o ensures !HoldsEmailOnly(later, org, email, o) {
      assert !HoldsEmailOnly(contacts, org, email, o);
    }
  }

  lemma ProvenEmailIsStable(db: Db, id: Id, c: Contact, email: string, db2: Db, c2: Contact)
    requires id in db.contacts && db.contacts[id].email == c.email && email != ""
    requires var (db1, c1) := RecordedEmail(db, id, c, email, true);
      c2.email == c1.email && c2.org == c.org && db2.contacts == db1.contacts[id := c2]
    ensures RecordedEmail(db2, id, c2, email, true) == (db2, c2)
  {
    if c.email == "" && EmailOnlyHolder(db.contacts, c.org, email).None? && ByEmail(db.contacts, c.org, email).Some? {
      TakenEmailStaysTaken(db.contacts, id, c.org, email, c2);
    }
  }

  lemma EmailIsStable(db: Db, id: Id, c: Contact, email: string, verified: bool, db2: Db, c2: Contact)
    requires id in db.contacts && db.contacts[id].email == c.email && email != ""
    requires var (db1, c1) := RecordedEmail(db, id, c, email, verified);
      && c2.email == c1.email && c2.org == c.org && db2.contacts == db1.contacts[id := c2]
      && (!verified ==> c2.declared == c1.declared)
    ensures RecordedEmail(db2, id, c2, email, verified) == (db2, c2)
  {
    if verified {
      ProvenEmailIsStable(db, id, c, email, db2, c2);
    } else {
      UnprovenEmailIsStable(db, id, c, email, db2, c2);
    }
  }

  lemma ClaimsAreStable(c: Contact, k: Claims, p: Payload, now: Time, c2: Contact, later: Time)
    requires SameIdentity(c2, Claimed(c, k, p, now))
    ensures Claimed(c2, k, p, later) == c2
  {}

  lemma ClaimsKeepEmail(c: Contact, k: Claims, p: Payload, now: Time)
    ensures var c1 := Claimed(c, k, p, now);
      c1.org == c.org && c1.email == c.email && (!p.verified ==> c1.declared == c.declared)
  {}

  lemma IdentityIsStable(
    db: Db, id: Id, c: Contact, k: Claims, p: Payload, now: Time, db2: Db, c2: Contact, later: Time)
    requires id in db.contacts && db.contacts[id].email == c.email && db.contacts[id].org == c.org
    requires var (db1, c1) := Identified(db, id, c, k, p, now);
      c1.org == c.org && SameIdentity(c2, c1) && db2.contacts == db1.contacts[id := c2]
    ensures Identified(db2, id, c2, k, p, later) == (db2, c2)
  {
    var (_, c0) := if k.identified && k.email != "" then RecordedEmail(db, id, c, k.email, p.verified) else (db, c);
    ClaimsKeepEmail(c0, k, p, now);
    ClaimsAreStable(c0, k, p, now, c2, later);
    if k.identified && k.email != "" {
      EmailIsStable(db, id, c, k.email, p.verified, db2, c2);
    }
  }

  // The company stage

  lemma SignedCompanyIsStable(
    companies: Companies, org: Id, claim: CompanyClaim, now: Time, newId: Id, later: Time, newId2: Id)
    requires UniqueCompanies(companies) && newId !in companies && claim.externalId != ""
    ensures var (companies1, id) := SignedCompany(companies, org, claim, now, newId);
      SignedCompany(companies1, org, claim, later, newId2) == (companies1, id)
  {
    var (companies1, linked) := SignedCompany(companies, org, claim, now, newId);
    var id := linked.value;
    SignedCompanyIsUnique(companies, org, claim, now, newId);
    CompanyIs(companies1, org, claim.externalId, id);
    assert companies1[id := companies1[id]] == companies1;
    if claim.domain != "" && claim.domain != companies1[id].domain {
      // Taken by another company, which the first pass left alone.
      var existing := CompanyByExternalId(companies, org, claim.externalId);
      var row := if existing.Some? then companies[id]
                 else Company(org, claim.externalId, claim.name, "", Dict(claim.traits), now);
      var others := companies[id := row];
      var holder := CompanyOnDomain(others, org, claim.domain).value;
      assert OnDomain(companies1, org, claim.domain, holder);
    }
  }

  lemma CompanyIsStable(
    env: Env, companies: Companies, c: Contact, k: Claims, p: Payload, now: Time, newId: Id,
    c2: Contact, later: Time, newId2: Id)
    requires UniqueCompanies(companies) && newId !in companies
    requires var c1 := WithCompany(env, companies, c, k, p, now, newId).1;
      c1.company.Some? ==> c2.company == c1.company
    ensures var companies1 := WithCompany(env, companies, c, k, p, now, newId).0;
      WithCompany(env, companies1, c2, k, p, later, newId2) == (companies1, c2)
  {
    if p.companyVerified && p.company.Some? && p.company.value.externalId != "" {
      SignedCompanyIsStable(companies, k.org, p.company.value, now, newId, later, newId2);
    }
  }

  // The last stage

  lemma FinishingIsStable(
    env: Env, companies: Companies, c: Contact, k: Claims, p: Payload, created: bool, now: Time,
    c2: Contact, later: Time)
    requires SameIdentity(c2, c)
    requires var c1 := Finished(env, companies, c, k, p, created, now);
      c2.company == c1.company && c2.firstSeen == c1.firstSeen
    ensures var c3 := Finished(env, companies, c2, k, p, false, later);
      c3 == c2.(lastSeen := c3.lastSeen)
  {}

  // The contact

  lemma StagesAreStable(
    env: Env, db: Db, f: Lookup, k: Claims, p: Payload, now: Time, newId: Id,
    db2: Db, c: Contact, later: Time, newId2: Id)
    requires f.Found? && Settleable(f) && UniqueCompanies(db.companies) && newId !in db.companies
    requires var first := Settle(env, db, f, k, p, now, newId);
      c == first.contact && db2.contacts == first.db.contacts && db2.companies == first.db.companies
    ensures Identified(db2, f.id, c, k, p, later) == (db2, c)
    ensures WithCompany(env, db2.companies, c, k, p, later, newId2) == (db2.companies, c)
    ensures var c2 := Finished(env, db2.companies, c, k, p, false, later);
      c2 == c.(lastSeen := c2.lastSeen)
    ensures EmailProven(k, p, c) == Settle(env, db, f, k, p, now, newId).proven
  {
    var db0 := db.(contacts := f.contacts);
    IdentityIsSavable(db0, f.id, f.draft, k, p, now);
    var (db1, c1) := Identified(db0, f.id, f.draft, k, p, now);
    var (companies, c2) := WithCompany(env, db1.companies, c1, k, p, now, newId);
    CompanyKeepsIdentity(env, db1.companies, c1, k, p, now, newId);
    FinishingKeepsIdentity(env, companies, f.loaded, c2, k, p, f.created, now);
    IdentityIsStable(db0, f.id, f.draft, k, p, now, db2, c, later);
    CompanyIsStable(env, db1.companies, c1, k, p, now, newId, c, later, newId2);
    FinishingIsStable(env, companies, c2, k, p, f.created, now, c, later);
  }

  /** Settling what was settled only dates the visit. */
  lemma SettlingIsStable(
    env: Env, db: Db, f: Lookup, k: Claims, p: Payload, now: Time, newId: Id, db2: Db, later: Time, newId2: Id)
    requires f.Found? && Settleable(f) && UniqueCompanies(db.companies) && newId !in db.companies
    requires var first := Settle(env, db, f, k, p, now, newId);
      db2.contacts == first.db.contacts && db2.companies == first.db.companies
    ensures var first := Settle(env, db, f, k, p, now, newId);
      var f2 := Found(db2.contacts, f.id, false, first.contact, first.contact);
      var second := Settle(env, db2, f2, k, p, later, newId2);
      && second.proven == first.proven
      && second.contact == first.contact.(lastSeen := second.contact.lastSeen)
      && second.db == db2.(contacts := db2.contacts[f.id := second.contact])
  {
    var c := Settle(env, db, f, k, p, now, newId).contact;
    StagesAreStable(env, db, f, k, p, now, newId, db2, c, later, newId2);
    assert db2.(contacts := db2.contacts) == db2;
  }

  lemma SettlingFindsAgain(env: Env, db: Db, f: Lookup, k: Claims, p: Payload, now: Time, newId: Id)
    requires f.Found? && Settleable(f) && UniqueCompanies(db.companies) && newId !in db.companies
    requires f.loaded.org == k.org == f.draft.org
    requires if k.identified then f.draft.externalId == k.externalId != "" else f.draft.email == k.email != ""
    ensures var first := Settle(env, db, f, k, p, now, newId);
      && f.id in first.db.contacts && first.db.contacts[f.id] == first.contact
      && first.contact.anonymized == f.draft.anonymized
      && LookedUpIs(first.db.contacts, k, f.id)
  {
    var db0 := db.(contacts := f.contacts);
    IdentityIsSavable(db0, f.id, f.draft, k, p, now);
    var (db1, c1) := Identified(db0, f.id, f.draft, k, p, now);
    var (companies, c2) := WithCompany(env, db1.companies, c1, k, p, now, newId);
    CompanyKeepsIdentity(env, db1.companies, c1, k, p, now, newId);
    FinishingKeepsIdentity(env, companies, f.loaded, c2, k, p, f.created, now);
    SettlingKeepsUnique(env, db, f, k, p, now, newId);
    var first := Settle(env, db, f, k, p, now, newId);
    if k.identified {
      ByExternalIdIs(first.db.contacts, k.org, k.externalId, f.id);
    } else {
      ByEmailIs(first.db.contacts, k.org, k.email, f.id);
    }
  }

  ghost predicate LookedUpIs(contacts: Contacts, k: Claims, id: Id) {
    if k.identified then ByExternalId(contacts, k.org, k.externalId) == Some(id)
    else ByEmail(contacts, k.org, k.email) == Some(id)
  }

  // The session

  lemma SettlingKeepsSession(env: Env, db: Db, f: Lookup, k: Claims, p: Payload, now: Time, newId: Id, sid: Id)
    requires f.Found? && sid in db.sessions
    ensures var sessions := Settle(env, db, f, k, p, now, newId).db.sessions;
      && sid in sessions
      && (sessions[sid] == db.sessions[sid] || sessions[sid] == db.sessions[sid].(contact := Some(f.id)))
  {}

  /** What makes two sessions the same claim. */
  predicate SameOwner(a: Session, b: Session) {
    a.org == b.org && a.externalId == b.externalId && a.email == b.email && a.name == b.name
  }

  lemma SavingLeavesContacts(
    db: Db, sid: Id, s: Session, id: Id, proven: bool, email: string, source: ProofSource, now: Time)
    requires sid in db.sessions && (db.sessions[sid] == s || db.sessions[sid] == s.(contact := Some(id)))
    ensures var db2 := SessionSaved(db, sid, s, id, proven, email, source, now).0;
      && db2.contacts == db.contacts && db2.companies == db.companies
      && sid in db2.sessions && SameOwner(db2.sessions[sid], s)
  {}

  // The pass

  /** What a second outcome may differ by from the database it started from. */
  ghost predicate OnlyDatesTheVisit(db: Db, contact: Option<Id>, second: Outcome) {
    && second.contact == contact
    && match contact
       case None => second.db == db
       case Some(id) =>
         && id in db.contacts && id in second.db.contacts
         && second.db == db.(contacts :=
              db.contacts[id := db.contacts[id].(lastSeen := second.db.contacts[id].lastSeen)])
  }

  lemma SessionAgain(
    settled: Settled, sid: Id, s: Session, id: Id, email: string, source: ProofSource, now: Time,
    db2: Db, again: Settled, later: Time)
    requires sid in settled.db.sessions
    requires settled.db.sessions[sid] == s || settled.db.sessions[sid] == s.(contact := Some(id))
    requires db2 == SessionSaved(settled.db, sid, s, id, settled.proven, email, source, now).0
    requires again.proven == settled.proven
    requires again.db == db2.(contacts := db2.contacts[id := again.contact])
    ensures sid in db2.sessions
    ensures SessionSaved(again.db, sid, db2.sessions[sid], id, again.proven, email, source, later).0 == again.db
  {}

  /** The second pass, from what the first one settled and saved. */
  lemma SecondPass(
    env: Env, k: Claims, p: Payload, sid: Id, f: Lookup, settled: Settled, db2: Db, later: Time, ids2: NewIds,
    again: Settled)
    requires f.Found? && sid in db2.sessions
    requires f.id in db2.contacts && db2.contacts == settled.db.contacts && db2.contacts[f.id] == settled.contact
    requires LookedUpIs(db2.contacts, k, f.id) && !settled.contact.anonymized
    requires if k.identified then k.externalId != "" else k.email != ""
    requires again == Settle(env, db2, Found(settled.db.contacts, f.id, false, settled.contact, settled.contact),
                             k, p, later, ids2.company)
    requires again.contact == settled.contact.(lastSeen := again.contact.lastSeen)
    requires SessionSaved(again.db, sid, db2.sessions[sid], f.id, again.proven, k.email, p.source, later).0
          == db2.(contacts := db2.contacts[f.id := again.contact])
    ensures OnlyDatesTheVisit(db2, Some(f.id), Resolve(env, db2, sid, db2.sessions[sid], k, p, later, ids2))
  {}

  lemma SomebodyIsStable(
    env: Env, db: Db, sid: Id, s: Session, k: Claims, p: Payload, now: Time, newId: Id, f: Lookup,
    settled: Settled, db2: Db, later: Time, ids2: NewIds)
    requires f.Found? && !f.draft.anonymized && Settleable(f)
    requires sid in settled.db.sessions
    requires settled.db.sessions[sid] == s || settled.db.sessions[sid] == s.(contact := Some(f.id))
    requires UniqueCompanies(db.companies) && newId !in db.companies
    requires f.loaded.org == k.org == f.draft.org
    requires if k.identified then f.draft.externalId == k.externalId != "" else f.draft.email == k.email != ""
    requires settled == Settle(env, db, f, k, p, now, newId)
    requires db2 == SessionSaved(settled.db, sid, s, f.id, settled.proven, k.email, p.source, now).0
    ensures sid in db2.sessions
    ensures OnlyDatesTheVisit(db2, Some(f.id), Resolve(env, db2, sid, db2.sessions[sid], k, p, later, ids2))
  {
    SavingLeavesContacts(settled.db, sid, s, f.id, settled.proven, k.email, p.source, now);
    SettlingFindsAgain(env, db, f, k, p, now, newId);
    SettlingIsStable(env, db, f, k, p, now, newId, db2, later, ids2.company);
    var f2 := Found(settled.db.contacts, f.id, false, settled.contact, settled.contact);
    var again := Settle(env, db2, f2, k, p, later, ids2.company);
    SessionAgain(settled, sid, s, f.id, k.email, p.source, now, db2, again, later);
    SecondPass(env, k, p, sid, f, settled, db2, later, ids2, again);
  }

  lemma SomebodySecondPass(
    env: Env, db: Db, sid: Id, s: Session, k: Claims, p: Payload, now: Time, ids: NewIds, f: Lookup,
    later: Time, ids2: NewIds, first: Outcome)
    requires sid in db.sessions && s == db.sessions[sid]
    requires UniqueCompanies(db.companies) && ids.company !in db.companies
    requires f == LookedUp(db.contacts, k, p, now, ids.contact)
    requires f.Found? && !f.draft.anonymized && Settleable(f)
    requires f.loaded.org == k.org == f.draft.org
    requires if k.identified then f.draft.externalId == k.externalId != "" else f.draft.email == k.email != ""
    requires first == Resolve(env, db, sid, s, k, p, now, ids)
    ensures sid in first.db.sessions
    ensures OnlyDatesTheVisit(
      first.db, first.contact, Resolve(env, first.db, sid, first.db.sessions[sid], k, p, later, ids2))
  {
    var settled := Settle(env, db, f, k, p, now, ids.company);
    SettlingKeepsSession(env, db, f, k, p, now, ids.company, sid);
    SomebodyIsStable(env, db, sid, s, k, p, now, ids.company, f, settled, first.db, later, ids2);
  }

  lemma SomebodyIsKnown(contacts: Contacts, k: Claims, p: Payload, now: Time, newId: Id, f: Lookup)
    requires newId !in contacts && f == LookedUp(contacts, k, p, now, newId) && f.Found?
    ensures f.loaded.org == k.org == f.draft.org
    ensures if k.identified then f.draft.externalId == k.externalId != "" else f.draft.email == k.email != ""
  {}

  lemma UnlinkedStaysUnlinked(db: Db, sid: Id, s: Session, now: Time, later: Time)
    requires sid in db.sessions && s == db.sessions[sid]
    ensures var db2 := LinkedTo(db, sid, s, None, now);
      && sid in db2.sessions && SameOwner(db2.sessions[sid], s) && db2.contacts == db.contacts
      && LinkedTo(db2, sid, db2.sessions[sid], None, later) == db2
  {}

  lemma NobodySecondPass(
    env: Env, db: Db, sid: Id, s: Session, k: Claims, p: Payload, now: Time, ids: NewIds, f: Lookup,
    later: Time, ids2: NewIds, db2: Db)
    requires sid in db.sessions && s == db.sessions[sid]
    requires f.Nobody? || f.draft.anonymized
    requires f == LookedUp(db.contacts, k, p, later, ids2.contact)
    requires db2 == LinkedTo(db, sid, s, None, now)
    ensures sid in db2.sessions
    ensures OnlyDatesTheVisit(db2, None, Resolve(env, db2, sid, db2.sessions[sid], k, p, later, ids2))
  {
    UnlinkedStaysUnlinked(db, sid, s, now, later);
    NobodyUnlinks(env, db2, sid, db2.sessions[sid], k, p, later, ids2, f);
  }

  lemma NobodyAgain(contacts: Contacts, k: Claims, p: Payload, now: Time, newId: Id, later: Time, newId2: Id)
    requires newId !in contacts
    requires var f := LookedUp(contacts, k, p, now, newId); f.Nobody? || f.draft.anonymized
    ensures LookedUp(contacts, k, p, later, newId2) == LookedUp(contacts, k, p, now, newId)
  {}

  lemma SecondPassOnTheSameClaims(
    env: Env, db: Db, sid: Id, s: Session, k: Claims, p: Payload, now: Time, ids: NewIds, later: Time, ids2: NewIds)
    requires Unique(db) && sid in db.sessions && s == db.sessions[sid]
    requires ids.contact !in db.contacts && ids.company !in db.companies
    ensures var first := Resolve(env, db, sid, s, k, p, now, ids);
      && sid in first.db.sessions
      && OnlyDatesTheVisit(
           first.db, first.contact, Resolve(env, first.db, sid, first.db.sessions[sid], k, p, later, ids2))
  {
    var f := LookedUp(db.contacts, k, p, now, ids.contact);
    var first := Resolve(env, db, sid, s, k, p, now, ids);
    if f.Nobody? || f.draft.anonymized {
      NobodyAgain(db.contacts, k, p, now, ids.contact, later, ids2.contact);
      NobodyUnlinks(env, db, sid, s, k, p, now, ids, f);
      NobodySecondPass(env, db, sid, s, k, p, now, ids, f, later, ids2, first.db);
    } else {
      FoundIsSettleable(db.contacts, k, p, now, ids.contact);
      SomebodyIsKnown(db.contacts, k, p, now, ids.contact, f);
      SomebodySecondPass(env, db, sid, s, k, p, now, ids, f, later, ids2, first);
    }
  }

  lemma SomebodyKeepsOwner(
    env: Env, db: Db, sid: Id, s: Session, k: Claims, p: Payload, now: Time, ids: NewIds, f: Lookup)
    requires sid in db.sessions && s == db.sessions[sid]
    requires f == LookedUp(db.contacts, k, p, now, ids.contact) && f.Found? && !f.draft.anonymized
    ensures var first := Resolve(env, db, sid, s, k, p, now, ids);
      sid in first.db.sessions && SameOwner(first.db.sessions[sid], s)
  {
    SettlingKeepsSession(env, db, f, k, p, now, ids.company, sid);
    var settled := Settle(env, db, f, k, p, now, ids.company);
    SavingLeavesContacts(settled.db, sid, s, f.id, settled.proven, k.email, p.source, now);
  }

  lemma ResolvingKeepsOwner(
    env: Env, db: Db, sid: Id, s: Session, k: Claims, p: Payload, now: Time, ids: NewIds)
    requires sid in db.sessions && s == db.sessions[sid]
    ensures var first := Resolve(env, db, sid, s, k, p, now, ids);
      sid in first.db.sessions && SameOwner(first.db.sessions[sid], s)
  {
    var f := LookedUp(db.contacts, k, p, now, ids.contact);
    if f.Nobody? || f.draft.anonymized {
      NobodyUnlinks(env, db, sid, s, k, p, now, ids, f);
      UnlinkedStaysUnlinked(db, sid, s, now, now);
    } else {
      SomebodyKeepsOwner(env, db, sid, s, k, p, now, ids, f);
    }
  }

  /**
   A second pass with the same payload finds the same contact, and writes no more than
   the date of its visit: no other field of any row, whatever the branches of the first.
   */
  lemma SecondPassOnlyDatesTheVisit(
    env: Env, db: Db, sid: Id, p: Payload, now: Time, ids: NewIds, later: Time, ids2: NewIds)
    requires Unique(db) && sid in db.sessions && ids.contact !in db.contacts && ids.company !in db.companies
    ensures var first := ResolveOnce(env, db, sid, db.sessions[sid], p, now, ids);
      && sid in first.db.sessions
      && OnlyDatesTheVisit(
           first.db, first.contact, ResolveOnce(env, first.db, sid, first.db.sessions[sid], p, later, ids2))
  {
    var s := db.sessions[sid];
    ResolvingKeepsOwner(env, db, sid, s, ClaimsOf(env, s), p, now, ids);
    SecondPassOnTheSameClaims(env, db, sid, s, ClaimsOf(env, s), p, now, ids, later, ids2);
  }
}
