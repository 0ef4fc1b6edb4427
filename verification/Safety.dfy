/** What every run of the machine keeps, and what it means for who sees a contact's history. */
module Safety {
  import opened Text
  import opened Rows
  import opened Resolution
  import opened Uniqueness
  import opened Reach
  import opened Anonymization
  import opened LoginMove
  import opened DeskWork
  import opened Machine
  import BackfillLaws

  // The invariant

  /** A session is on a live contact of its organization and, identified, on the one of its external id. */
  predicate LinkHolds(contacts: Contacts, s: Session) {
    s.contact.Some? ==>
      && s.contact.value in contacts
      && var c := contacts[s.contact.value];
         c.org == s.org && !c.anonymized && (s.externalId != "" ==> c.externalId == s.externalId)
  }

  /** What a session's row says is proven, it proved. */
  predicate SessionHonest(proofs: set<Proof>, sid: Id, s: Session) {
    && (s.externalId != "" ==> OfUser(sid, s.org, s.externalId) in proofs)
    && (s.verifiedAt.Some? ==> OfAddress(sid, s.org, s.verifiedFor) in proofs)
  }

  /** Somebody proved the address: a session of the organization, or who opened a link mailed to it. */
  ghost predicate AddressProven(host: Host, proofs: set<Proof>, cid: Id, org: Id, email: string) {
    || (exists sid :: OfAddress(sid, org, email) in proofs)
    || (exists link :: OfMailbox(cid, link) in proofs && Proves(host, link, email))
  }

  /** Nothing personal is left on the row. */
  predicate Erased(c: Contact) {
    && HasAnonymizedEmail(c) && c.verifiedAt.None? && c.declared == "" && c.externalId == ""
    && c.profile == BLANK_PROFILE.(name := ANONYMOUS_NAME) && c.company.None?
    && c.attributes == Dict(map[]) && c.lastContacted.None?
  }

  ghost predicate ContactHonest(host: Host, proofs: set<Proof>, cid: Id, c: Contact) {
    && Normalized(c.email) == c.email
    && (c.verifiedAt.Some? ==> c.email != "" && AddressProven(host, proofs, cid, c.org, c.email))
    && (c.anonymized ==> Erased(c))
  }

  ghost predicate Linked(contacts: Contacts, sessions: map<Id, Session>) {
    forall k :: k in sessions ==> LinkHolds(contacts, sessions[k])
  }

  ghost predicate SessionsHonest(proofs: set<Proof>, sessions: map<Id, Session>) {
    forall k :: k in sessions ==> SessionHonest(proofs, k, sessions[k])
  }

  ghost predicate ContactsHonest(host: Host, proofs: set<Proof>, contacts: Contacts) {
    forall k :: k in contacts ==> ContactHonest(host, proofs, k, contacts[k])
  }

  ghost predicate Sound(host: Host, proofs: set<Proof>, db: Db) {
    && Linked(db.contacts, db.sessions)
    && SessionsHonest(proofs, db.sessions)
    && ContactsHonest(host, proofs, db.contacts)
  }

  ghost predicate Invariant(host: Host, st: State) {
    && Sound(host, st.proofs, st.db)
    && Unique(st.db)
    && st.db.contacts.Keys <= st.keys
  }

  // Adding proofs takes nothing away

  lemma MoreProofs(host: Host, proofs: set<Proof>, more: set<Proof>, db: Db)
    requires Sound(host, proofs, db)
    ensures Sound(host, proofs + more, db)
  {}

  // One pass of the identity service

  /** The sessions of an absorbed contact move together, and none of them is identified. */
  predicate Repointed(contacts: Contacts, id: Id, before: Session, after: Session) {
    || after == before
    || (&& before.contact.Some? && before.contact.value in contacts && id in contacts
        && contacts[before.contact.value].externalId == ""
        && contacts[before.contact.value].org == contacts[id].org
        && after == before.(contact := Some(id)))
  }

  /** What a pass makes of the other contacts, and of the sessions on them. */
  ghost predicate OthersKept(contacts: Contacts, db: Db, id: Id, db1: Db) {
    && id in db1.contacts
    && db1.contacts.Keys <= contacts.Keys
    && db1.sessions.Keys == db.sessions.Keys
    && (forall k :: k in db1.contacts && k != id ==> db1.contacts[k] == contacts[k])
    && (forall k :: k in db.sessions ==>
          && Repointed(contacts, id, db.sessions[k], db1.sessions[k])
          && (db.sessions[k].contact.Some? && db.sessions[k].contact.value in contacts ==>
                db1.sessions[k].contact.value in db1.contacts))
  }

  lemma AbsorbingKeepsOthers(db: Db, id: Id, other: Id)
    requires id in db.contacts && other in db.contacts && id != other
    requires db.contacts[other].externalId == "" && db.contacts[other].org == db.contacts[id].org
    ensures OthersKept(db.contacts, db, id, AbsorbedInto(db, id, other))
  {}

  lemma RecordingKeepsOthers(db: Db, id: Id, c: Contact, email: string, verified: bool)
    requires id in db.contacts && db.contacts[id].email == c.email && db.contacts[id].org == c.org && email != ""
    ensures OthersKept(db.contacts, db, id, RecordedEmail(db, id, c, email, verified).0)
  {
    var other := EmailOnlyHolder(db.contacts, c.org, email);
    if verified && c.email == "" && other.Some? {
      AbsorbingKeepsOthers(db, id, other.value);
    } else {
      assert RecordedEmail(db, id, c, email, verified).0 == db;
    }
  }

  lemma IdentifyingKeepsOthers(db: Db, id: Id, c: Contact, k: Claims, p: Payload, now: Time)
    requires id in db.contacts && db.contacts[id].email == c.email && db.contacts[id].org == c.org
    ensures OthersKept(db.contacts, db, id, Identified(db, id, c, k, p, now).0)
  {
    if k.identified && k.email != "" {
      RecordingKeepsOthers(db, id, c, k.email, p.verified);
    }
  }

  lemma SettlingKeepsOthers(env: Env, db: Db, f: Lookup, k: Claims, p: Payload, now: Time, newId: Id)
    requires f.Found? && f.id in f.contacts
    requires f.contacts[f.id].email == f.draft.email && f.contacts[f.id].org == f.draft.org
    ensures OthersKept(f.contacts, db, f.id, Settle(env, db, f, k, p, now, newId).db)
  {
    IdentifyingKeepsOthers(db.(contacts := f.contacts), f.id, f.draft, k, p, now);
  }

  /** The draft's identity, through the pass: only its email may be filled, and only a proof dates it. */
  predicate Evolves(c: Contact, k: Claims, p: Payload, c1: Contact) {
    && c1.org == c.org && c1.externalId == c.externalId && c1.anonymized == c.anonymized
    && (c1.email == c.email || c1.email == k.email)
    && (c1.verifiedAt.Some? ==>
          || (p.verified && c1.email == k.email && k.email != "")
          || (c1.verifiedAt == c.verifiedAt && c1.email == c.email))
  }

  lemma IdentifyingEvolves(db: Db, id: Id, c: Contact, k: Claims, p: Payload, now: Time)
    ensures Evolves(c, k, p, Identified(db, id, c, k, p, now).1)
  {}

  lemma SettlingEvolves(env: Env, db: Db, f: Lookup, k: Claims, p: Payload, now: Time, newId: Id)
    requires f.Found?
    ensures Evolves(f.draft, k, p, Settle(env, db, f, k, p, now, newId).contact)
    ensures Settle(env, db, f, k, p, now, newId).proven ==> p.verified && k.email != ""
    ensures f.id in Settle(env, db, f, k, p, now, newId).db.contacts
    ensures Settle(env, db, f, k, p, now, newId).db.contacts[f.id] == Settle(env, db, f, k, p, now, newId).contact
  {
    var db0 := db.(contacts := f.contacts);
    IdentifyingEvolves(db0, f.id, f.draft, k, p, now);
    var (db1, c1) := Identified(db0, f.id, f.draft, k, p, now);
    CompanyKeepsIdentity(env, db1.companies, c1, k, p, now, newId);
    var (companies, c2) := WithCompany(env, db1.companies, c1, k, p, now, newId);
    FinishingKeepsIdentity(env, companies, f.loaded, c2, k, p, f.created, now);
  }

  /** What a lookup found, of contacts all of which are honest. */
  ghost predicate Trustworthy(host: Host, proofs: set<Proof>, contacts: Contacts, k: Claims, f: Lookup)
    requires f.Found?
  {
    && f.id in f.contacts && f.contacts[f.id].email == f.draft.email
    && f.contacts[f.id].org == f.draft.org == k.org
    && (k.identified ==> f.draft.externalId == k.externalId != "")
    && contacts.Keys <= f.contacts.Keys
    && (forall o :: o in f.contacts && o != f.id ==> o in contacts && f.contacts[o] == contacts[o])
    && (f.id in contacts ==>
          && contacts[f.id].org == f.draft.org && contacts[f.id].anonymized == f.draft.anonymized
          && (contacts[f.id].externalId != "" ==> f.draft.externalId == contacts[f.id].externalId))
    && ContactHonest(host, proofs, f.id, f.draft)
  }

  lemma LookupIsTrustworthy(
    host: Host, proofs: set<Proof>, contacts: Contacts, k: Claims, p: Payload, now: Time, newId: Id, f: Lookup)
    requires ContactsHonest(host, proofs, contacts) && newId !in contacts && Normalized(k.email) == k.email
    requires f == LookedUp(contacts, k, p, now, newId) && f.Found? && !f.draft.anonymized
    ensures Trustworthy(host, proofs, contacts, k, f)
  {
    LookupFinds(contacts, k, p, now, newId);
    if f.id in contacts {
      assert ContactHonest(host, proofs, f.id, contacts[f.id]);
    }
  }

  lemma LinksSurvive(
    host: Host, proofs: set<Proof>, contacts: Contacts, db: Db, k: Claims, p: Payload, f: Lookup, db1: Db)
    requires f.Found? && Trustworthy(host, proofs, contacts, k, f) && !f.draft.anonymized
    requires OthersKept(f.contacts, db, f.id, db1) && Evolves(f.draft, k, p, db1.contacts[f.id])
    requires Linked(contacts, db.sessions)
    ensures Linked(db1.contacts, db1.sessions)
  {}

  lemma ContactsStayHonest(
    host: Host, proofs: set<Proof>, contacts: Contacts, db: Db, sid: Id, k: Claims, p: Payload, f: Lookup, db1: Db)
    requires f.Found? && Trustworthy(host, proofs, contacts, k, f) && !f.draft.anonymized
    requires OthersKept(f.contacts, db, f.id, db1) && Evolves(f.draft, k, p, db1.contacts[f.id])
    requires ContactsHonest(host, proofs, contacts) && Normalized(k.email) == k.email
    requires p.verified && k.email != "" ==> OfAddress(sid, k.org, k.email) in proofs
    ensures ContactsHonest(host, proofs, db1.contacts)
  {}

  /** What a row needs to be linked to contact `id`, saved as `c`. */
  predicate Welcomes(c: Contact, s: Session) {
    c.org == s.org && !c.anonymized && (s.externalId != "" ==> c.externalId == s.externalId)
  }

  lemma RowSavingIsSound(contacts: Contacts, proofs: set<Proof>, sessions: map<Id, Session>, sid: Id, row: Session)
    requires Linked(contacts, sessions) && SessionsHonest(proofs, sessions)
    requires LinkHolds(contacts, row) && SessionHonest(proofs, sid, row)
    ensures Linked(contacts, sessions[sid := row]) && SessionsHonest(proofs, sessions[sid := row])
  {}

  /** A row read by the pass is welcome on the contact the pass found. */
  predicate ReadFits(k: Claims, row: Session, s: Session) {
    && row.org == k.org
    && (row.externalId != "" ==> k.identified && (k.externalId == "" || k.externalId == row.externalId))
  }

  /** The tables after the settling of the contact found, and before the session is saved. */
  lemma SettlementIsSound(
    env: Env, host: Host, proofs: set<Proof>, db: Db, sid: Id, s: Session, k: Claims, p: Payload, now: Time,
    ids: NewIds, f: Lookup, settled: Settled)
    requires sid in db.sessions && ids.contact !in db.contacts
    requires Linked(db.contacts, db.sessions) && SessionsHonest(proofs, db.sessions)
    requires ContactsHonest(host, proofs, db.contacts) && Normalized(k.email) == k.email
    requires ReadFits(k, db.sessions[sid], s)
    requires p.verified && k.email != "" ==> OfAddress(sid, k.org, k.email) in proofs
    requires f == LookedUp(db.contacts, k, p, now, ids.contact) && f.Found? && !f.draft.anonymized
    requires settled == Settle(env, db, f, k, p, now, ids.company)
    ensures Linked(settled.db.contacts, settled.db.sessions) && SessionsHonest(proofs, settled.db.sessions)
    ensures ContactsHonest(host, proofs, settled.db.contacts)
    ensures sid in settled.db.sessions && f.id in settled.db.contacts
    ensures Welcomes(settled.db.contacts[f.id], settled.db.sessions[sid])
    ensures settled.proven ==> OfAddress(sid, settled.db.sessions[sid].org, k.email) in proofs
  {
    LookupIsTrustworthy(host, proofs, db.contacts, k, p, now, ids.contact, f);
    SettlingKeepsOthers(env, db, f, k, p, now, ids.company);
    SettlingEvolves(env, db, f, k, p, now, ids.company);
    LinksSurvive(host, proofs, db.contacts, db, k, p, f, settled.db);
    ContactsStayHonest(host, proofs, db.contacts, db, sid, k, p, f, settled.db);
    HonestySurvives(proofs, f.contacts, db, f.id, settled.db);
  }

  /** The tables a pass leaves, when it found a contact to settle. */
  lemma FoundIsSound(
    env: Env, host: Host, proofs: set<Proof>, db: Db, sid: Id, s: Session, k: Claims, p: Payload, now: Time,
    ids: NewIds, f: Lookup)
    requires sid in db.sessions && ids.contact !in db.contacts
    requires Linked(db.contacts, db.sessions) && SessionsHonest(proofs, db.sessions)
    requires ContactsHonest(host, proofs, db.contacts) && Normalized(k.email) == k.email
    requires ReadFits(k, db.sessions[sid], s)
    requires p.verified && k.email != "" ==> OfAddress(sid, k.org, k.email) in proofs
    requires f == LookedUp(db.contacts, k, p, now, ids.contact) && f.Found? && !f.draft.anonymized
    ensures Sound(host, proofs, Resolve(env, db, sid, s, k, p, now, ids).db)
  {
    var settled := Settle(env, db, f, k, p, now, ids.company);
    SettlementIsSound(env, host, proofs, db, sid, s, k, p, now, ids, f, settled);
    SettledSessionIsSound(proofs, settled.db, sid, s, k, p, now, f.id, settled.proven);
  }

  lemma NobodyIsSound(
    env: Env, host: Host, proofs: set<Proof>, db: Db, sid: Id, s: Session, k: Claims, p: Payload, now: Time,
    ids: NewIds, f: Lookup)
    requires Sound(host, proofs, db)
    requires f == LookedUp(db.contacts, k, p, now, ids.contact) && (f.Nobody? || f.draft.anonymized)
    ensures Sound(host, proofs, Resolve(env, db, sid, s, k, p, now, ids).db)
  {}

  lemma PassIsSound(
    env: Env, host: Host, proofs: set<Proof>, db: Db, sid: Id, s: Session, k: Claims, p: Payload, now: Time,
    ids: NewIds)
    requires Sound(host, proofs, db) && sid in db.sessions && ids.contact !in db.contacts
    requires Normalized(k.email) == k.email && ReadFits(k, db.sessions[sid], s)
    requires p.verified && k.email != "" ==> OfAddress(sid, k.org, k.email) in proofs
    ensures Sound(host, proofs, Resolve(env, db, sid, s, k, p, now, ids).db)
  {
    var f := LookedUp(db.contacts, k, p, now, ids.contact);
    if f.Nobody? || f.draft.anonymized {
      NobodyIsSound(env, host, proofs, db, sid, s, k, p, now, ids, f);
    } else {
      FoundIsSound(env, host, proofs, db, sid, s, k, p, now, ids, f);
    }
  }

  lemma HonestySurvives(proofs: set<Proof>, contacts: Contacts, db: Db, id: Id, db1: Db)
    requires OthersKept(contacts, db, id, db1) && SessionsHonest(proofs, db.sessions)
    ensures SessionsHonest(proofs, db1.sessions)
    ensures forall k :: k in db.sessions ==>
      db1.sessions[k].org == db.sessions[k].org && db1.sessions[k].externalId == db.sessions[k].externalId
  {}

  lemma SettledSessionIsSound(
    proofs: set<Proof>, db: Db, sid: Id, s: Session, k: Claims, p: Payload, now: Time, id: Id, proven: bool)
    requires sid in db.sessions && id in db.contacts && Welcomes(db.contacts[id], db.sessions[sid])
    requires Linked(db.contacts, db.sessions) && SessionsHonest(proofs, db.sessions)
    requires proven ==> OfAddress(sid, db.sessions[sid].org, k.email) in proofs
    ensures var db1 := SessionSaved(db, sid, s, id, proven, k.email, p.source, now).0;
      && Linked(db1.contacts, db1.sessions) && SessionsHonest(proofs, db1.sessions)
      && db1.contacts == db.contacts
  {}

  // Each step

  lemma CleanEmailIsNormal(env: Env, value: string)
    ensures CleanEmail(env, value) == "" || CleanEmail(env, value) == Normalized(value)
    ensures Normalized(CleanEmail(env, value)) == CleanEmail(env, value)
  {
    NormalizedIdempotent(value);
    assert Normalized("") == "";
  }

  lemma LinkingIsSound(
    env: Env, host: Host, proofs: set<Proof>, db: Db, sid: Id, s: Session, p: Payload, now: Time, ids: NewIds)
    requires Sound(host, proofs, db) && sid in db.sessions && ids.contact !in db.contacts
    requires s.org == db.sessions[sid].org
    requires db.sessions[sid].externalId == "" || s.externalId == db.sessions[sid].externalId
    requires p.verified && Normalized(s.email) != "" ==> OfAddress(sid, s.org, Normalized(s.email)) in proofs
    ensures Sound(host, proofs, LinkSession(env, db, sid, s, p, now, ids).db)
  {
    CleanEmailIsNormal(env, s.email);
    PassIsSound(env, host, proofs, db, sid, s, ClaimsOf(env, s), p, now, ids);
    TicketsOnly(ResolveOnce(env, db, sid, s, p, now, ids), sid, s);
  }

  lemma LinkingKeepsUnique(env: Env, db: Db, sid: Id, s: Session, p: Payload, now: Time, ids: NewIds)
    requires Unique(db) && ids.contact !in db.contacts && ids.company !in db.companies
    ensures Unique(LinkSession(env, db, sid, s, p, now, ids).db)
  {
    PassKeepsUnique(env, db, sid, s, ClaimsOf(env, s), p, now, ids);
    TicketsOnly(ResolveOnce(env, db, sid, s, p, now, ids), sid, s);
  }

  lemma LinkIsSound(env: Env, host: Host, st: State, e: Event)
    requires Invariant(host, st) && e.step.Link? && Enabled(env, host, st, e.step)
    ensures Sound(host, st.proofs + Given(env, host, st, e.step), Written(env, host, st, e.step, e.at))
    ensures Unique(Written(env, host, st, e.step, e.at))
  {
    var Link(sid, s, claim, ids) := e.step;
    var proofs := st.proofs + Given(env, host, st, e.step);
    MoreProofs(host, st.proofs, Given(env, host, st, e.step), st.db);
    LinkingIsSound(env, host, proofs, st.db, sid, s, LinkPayload(host, s, claim), e.at, ids);
    LinkingKeepsUnique(env, st.db, sid, s, LinkPayload(host, s, claim), e.at, ids);
  }

  lemma SessionStepIsSound(env: Env, host: Host, st: State, e: Event)
    requires Invariant(host, st) && Enabled(env, host, st, e.step)
    requires e.step.StartAnonymous? || e.step.StartIdentified? || e.step.SaveSession? || e.step.DropProof?
    ensures Sound(host, st.proofs + Given(env, host, st, e.step), Written(env, host, st, e.step, e.at))
    ensures Unique(Written(env, host, st, e.step, e.at))
  {
    var proofs := st.proofs + Given(env, host, st, e.step);
    MoreProofs(host, st.proofs, Given(env, host, st, e.step), st.db);
    var row := Written(env, host, st, e.step, e.at).sessions[e.step.sid];
    assert e.step.sid in st.db.sessions ==> LinkHolds(st.db.contacts, st.db.sessions[e.step.sid]);
    RowSavingIsSound(st.db.contacts, proofs, st.db.sessions, e.step.sid, row);
  }

  lemma MoveIsSound(host: Host, proofs: set<Proof>, db: Db, login: Login, now: Time)
    requires Sound(host, proofs, db)
    ensures Sound(host, proofs, Moved(db, login, now))
  {}

  lemma DeletingIsSound(host: Host, proofs: set<Proof>, db: Db, id: Id)
    requires Sound(host, proofs, db)
    ensures Sound(host, proofs, Deleted(db, id))
  {}

  lemma DeletingKeepsUnique(db: Db, id: Id)
    requires Unique(db)
    ensures Unique(Deleted(db, id))
  {
    forall a, b ensures !ContactsClash(db.contacts - {id}, a, b) {
      assert !ContactsClash(db.contacts, a, b);
    }
  }

  lemma DeletingCompanyIsSound(host: Host, proofs: set<Proof>, db: Db, id: Id)
    requires Sound(host, proofs, db) && Unique(db)
    ensures Sound(host, proofs, WithoutCompany(db, id)) && Unique(WithoutCompany(db, id))
  {
    var after := WithoutCompany(db, id);
    forall k | k in after.contacts ensures ContactHonest(host, proofs, k, after.contacts[k]) {
      assert ContactHonest(host, proofs, k, db.contacts[k]);
    }
    forall k | k in after.sessions ensures LinkHolds(after.contacts, after.sessions[k]) {
      assert LinkHolds(db.contacts, db.sessions[k]);
    }
    DeletingCompanyKeepsUnique(db, id);
  }

  lemma DeletingCompanyKeepsUnique(db: Db, id: Id)
    requires Unique(db)
    ensures Unique(WithoutCompany(db, id))
  {
    var after := WithoutCompany(db, id);
    forall a, b ensures !ContactsClash(after.contacts, a, b) {
      assert !ContactsClash(db.contacts, a, b);
    }
    forall a, b ensures !CompaniesClash(after.companies, a, b) {
      assert !CompaniesClash(db.companies, a, b);
    }
  }

  /** A contact's row written over: its sessions stay its own, and only itself answers for it. */
  lemma ContactSavingIsSound(host: Host, proofs: set<Proof>, db: Db, id: Id, c: Contact)
    requires Sound(host, proofs, db) && ContactHonest(host, proofs, id, c)
    requires id in db.contacts ==>
      && c.org == db.contacts[id].org && c.externalId == db.contacts[id].externalId
      && c.anonymized == db.contacts[id].anonymized
    ensures Sound(host, proofs, db.(contacts := db.contacts[id := c]))
  {}

  lemma EmailSavingKeepsUnique(contacts: Contacts, id: Id, c: Contact)
    requires UniqueContacts(contacts) && id in contacts
    requires c.org == contacts[id].org && (c.externalId == "" || c.externalId == contacts[id].externalId)
    requires EmailFree(contacts, c.org, c.email, id) || c.email == contacts[id].email
    ensures UniqueContacts(contacts[id := c])
  {
    RowIsSavable(contacts, id);
    if c.email != "" && c.email != contacts[id].email {
      assert forall o :: !HoldsEmail(contacts, c.org, c.email, o);
    }
    FreeIsSavable(contacts, id, contacts[id], c);
    SavingKeepsUnique(contacts, id, c);
  }

  /** A contact with a missing company linked, and dated if so. */
  predicate OnlyCompany(c: Contact, c1: Contact) {
    c1.(company := c.company, updatedAt := c.updatedAt) == c
  }

  lemma FillingLinksCompany(env: Env, companies: Companies, c: Contact, now: Time)
    ensures OnlyCompany(c, CompanyFilled(env, companies, c, now))
  {}

  lemma CompanySavingIsSound(host: Host, proofs: set<Proof>, db: Db, id: Id, c: Contact)
    requires Sound(host, proofs, db) && Unique(db) && id in db.contacts && OnlyCompany(db.contacts[id], c)
    requires !c.anonymized
    ensures Sound(host, proofs, db.(contacts := db.contacts[id := c]))
    ensures Unique(db.(contacts := db.contacts[id := c]))
  {
    assert ContactHonest(host, proofs, id, db.contacts[id]);
    EmailSavingKeepsUnique(db.contacts, id, c);
    ContactSavingIsSound(host, proofs, db, id, c);
  }

  lemma NewSavingIsSound(host: Host, proofs: set<Proof>, db: Db, id: Id, c: Contact)
    requires Sound(host, proofs, db) && Unique(db) && id !in db.contacts
    requires c.email == "" || ByEmail(db.contacts, c.org, c.email).None?
    requires c.externalId == "" && c.verifiedAt.None? && !c.anonymized && Normalized(c.email) == c.email
    ensures Sound(host, proofs, db.(contacts := db.contacts[id := c]))
    ensures Unique(db.(contacts := db.contacts[id := c]))
  {
    ContactSavingIsSound(host, proofs, db, id, c);
    NewIsSavable(db.contacts, id, c);
  }

  lemma ReceivedFrom(env: Env, db: Db, org: Id, email: string, name: string, now: Time, newId: Id, f: Lookup, c: Contact)
    requires newId !in db.contacts && f == FindOrCreateByEmail(db.contacts, org, email, CleanName(env, name), now, newId)
    requires c == CompanyFilled(env, db.companies, f.draft, now)
    ensures Received(env, db, org, email, name, now, newId)
         == if f.draft.anonymized then db else db.(contacts := db.contacts[f.id := c])
    ensures if ByEmail(db.contacts, org, email).Some? then f.id in db.contacts && f.draft == db.contacts[f.id]
            else f.id == newId && f.draft == NewContact(org, email, "", CleanName(env, name), now)
  {
    assert f.contacts[f.id := c] == db.contacts[f.id := c];
  }

  lemma ReceivingIsSound(env: Env, host: Host, proofs: set<Proof>, db: Db, org: Id, email: string, name: string,
                         now: Time, newId: Id)
    requires Sound(host, proofs, db) && Unique(db) && newId !in db.contacts
    requires email != "" && Normalized(email) == email
    ensures Sound(host, proofs, Received(env, db, org, email, name, now, newId))
    ensures Unique(Received(env, db, org, email, name, now, newId))
  {
    var f := FindOrCreateByEmail(db.contacts, org, email, CleanName(env, name), now, newId);
    var c := CompanyFilled(env, db.companies, f.draft, now);
    ReceivedFrom(env, db, org, email, name, now, newId, f, c);
    FillingLinksCompany(env, db.companies, f.draft, now);
    if !f.draft.anonymized {
      if ByEmail(db.contacts, org, email).Some? {
        CompanySavingIsSound(host, proofs, db, f.id, c);
      } else {
        NewSavingIsSound(host, proofs, db, f.id, c);
      }
    }
  }

  lemma OpeningIsSound(host: Host, proofs: set<Proof>, db: Db, id: Id, link: string, now: Time)
    requires Sound(host, proofs, db) && Unique(db) && id in db.contacts
    requires Proves(host, link, db.contacts[id].email) ==> OfMailbox(id, link) in proofs
    ensures var db1 := db.(contacts := db.contacts[id := EmailProvenByLink(host, db.contacts[id], link, now)]);
      Sound(host, proofs, db1) && Unique(db1)
  {
    var c := EmailProvenByLink(host, db.contacts[id], link, now);
    assert ContactHonest(host, proofs, id, db.contacts[id]);
    ContactSavingIsSound(host, proofs, db, id, c);
    EmailSavingKeepsUnique(db.contacts, id, c);
  }

  lemma CreatingIsSound(host: Host, proofs: set<Proof>, db: Db, newId: Id, org: Id, email: string, profile: Profile,
                        now: Time)
    requires Sound(host, proofs, db) && Unique(db) && newId !in db.contacts
    requires EmailFree(db.contacts, org, Normalized(email), newId)
    ensures var c := NewContact(org, Normalized(email), "", "", now).(profile := profile);
      var db1 := db.(contacts := db.contacts[newId := c]);
      Sound(host, proofs, db1) && Unique(db1)
  {
    var c := NewContact(org, Normalized(email), "", "", now).(profile := profile);
    NormalizedIdempotent(email);
    assert c.email != "" ==> forall o :: !HoldsEmail(db.contacts, org, c.email, o);
    ContactSavingIsSound(host, proofs, db, newId, c);
    NewIsSavable(db.contacts, newId, c);
  }

  lemma EditingIsSound(host: Host, proofs: set<Proof>, db: Db, id: Id, edit: Edit, now: Time)
    requires Sound(host, proofs, db) && Unique(db) && id in db.contacts && !db.contacts[id].anonymized
    requires edit.email.Some? ==> EmailFree(db.contacts, db.contacts[id].org, Normalized(edit.email.value), id)
    ensures var db1 := db.(contacts := db.contacts[id := Edited(db.contacts[id], edit, now)]);
      Sound(host, proofs, db1) && Unique(db1)
  {
    var c := Edited(db.contacts[id], edit, now);
    assert ContactHonest(host, proofs, id, db.contacts[id]);
    if edit.email.Some? {
      NormalizedIdempotent(edit.email.value);
    }
    ContactSavingIsSound(host, proofs, db, id, c);
    EmailSavingKeepsUnique(db.contacts, id, c);
  }

  lemma ErasingIsSound(env: Env, host: Host, proofs: set<Proof>, db: Db, id: Id, address: string, now: Time)
    requires Sound(host, proofs, db) && Unique(db) && id in db.contacts
    requires EndsWith(address, ANONYMIZED_DOMAIN) && Normalized(address) == address
    requires EmailFree(db.contacts, db.contacts[id].org, address, id)
    ensures Sound(host, proofs, Anonymized(env, db, id, address, now))
    ensures Unique(Anonymized(env, db, id, address, now))
  {
    var db1 := Anonymized(env, db, id, address, now);
    var c := ScrubbedContact(db.contacts[id], address, now);
    EmailSavingKeepsUnique(db.contacts, id, c);
    forall k | k in db1.contacts ensures ContactHonest(host, proofs, k, db1.contacts[k]) {
      assert k in db.contacts && ContactHonest(host, proofs, k, db.contacts[k]);
    }
    forall k | k in db1.sessions
      ensures LinkHolds(db1.contacts, db1.sessions[k]) && SessionHonest(proofs, k, db1.sessions[k])
    {
      assert LinkHolds(db.contacts, db.sessions[k]) && SessionHonest(proofs, k, db.sessions[k]);
    }
  }

  lemma ContactStepIsSound(env: Env, host: Host, st: State, e: Event)
    requires Invariant(host, st) && Enabled(env, host, st, e.step)
    requires e.step.ReceiveFrom? || e.step.OpenLink? || e.step.AgentCreates? || e.step.AgentEdits? || e.step.Anonymize?
    ensures Sound(host, st.proofs + Given(env, host, st, e.step), Written(env, host, st, e.step, e.at))
    ensures Unique(Written(env, host, st, e.step, e.at))
  {
    var proofs := st.proofs + Given(env, host, st, e.step);
    MoreProofs(host, st.proofs, Given(env, host, st, e.step), st.db);
    match e.step
    case ReceiveFrom(org, email, name, newId) =>
      CleanEmailIsNormal(env, email);
      ReceivingIsSound(env, host, proofs, st.db, org, CleanEmail(env, email), name, e.at, newId);
    case OpenLink(id, link) => OpeningIsSound(host, proofs, st.db, id, link, e.at);
    case AgentCreates(newId, org, email, profile) =>
      CreatingIsSound(host, proofs, st.db, newId, org, email, profile, e.at);
    case AgentEdits(id, edit) => EditingIsSound(host, proofs, st.db, id, edit, e.at);
    case Anonymize(id, address) => ErasingIsSound(env, host, proofs, st.db, id, address, e.at);
    case _ =>
  }

  lemma BackfillIsReady(host: Host, st: State, r: Backfill.Reading)
    requires Invariant(host, st) && NewKeys(st, r)
    ensures BackfillLaws.Ready(st.db, r)
  {
    forall k | k in st.db.sessions && st.db.sessions[k].contact.Some?
      ensures st.db.sessions[k].contact.value in st.db.contacts
    {
      assert LinkHolds(st.db.contacts, st.db.sessions[k]);
    }
  }

  lemma FilledSessionIsHonest(proofs: set<Proof>, k: Id, s: Session, filled: Session)
    requires SessionHonest(proofs, k, s) && BackfillLaws.SessionFilled(s, filled)
    ensures SessionHonest(proofs, k, filled)
  {}

  lemma LinkStillHolds(contacts: Contacts, after: Contacts, s: Session)
    requires LinkHolds(contacts, s) && forall k :: k in contacts ==> k in after && after[k] == contacts[k]
    ensures LinkHolds(after, s)
  {}

  lemma BackfilledSessionIsSound(
    env: Env, proofs: set<Proof>, db: Db, r: Backfill.Reading, now: Time, k: Id)
    requires BackfillLaws.Ready(db, r) && k in db.sessions
    requires LinkHolds(db.contacts, db.sessions[k]) && SessionHonest(proofs, k, db.sessions[k])
    ensures var db1 := Backfill.Backfilled(env, db, r, now);
      k in db1.sessions && LinkHolds(db1.contacts, db1.sessions[k]) && SessionHonest(proofs, k, db1.sessions[k])
  {
    var db1 := Backfill.Backfilled(env, db, r, now);
    BackfillLaws.BackfillOnlyFillsIn(env, db, r, now);
    FilledSessionIsHonest(proofs, k, db.sessions[k], db1.sessions[k]);
    if db.sessions[k].contact.None? {
      BackfillLaws.LinkedWhereItBelongs(env, db, r, now, k);
    } else {
      LinkStillHolds(db.contacts, db1.contacts, db.sessions[k]);
    }
  }

  lemma BackfilledContactIsSound(
    env: Env, host: Host, proofs: set<Proof>, db: Db, r: Backfill.Reading, now: Time, k: Id)
    requires BackfillLaws.Ready(db, r) && ContactsHonest(host, proofs, db.contacts)
    requires k in Backfill.Backfilled(env, db, r, now).contacts
    ensures ContactHonest(host, proofs, k, Backfill.Backfilled(env, db, r, now).contacts[k])
  {
    if k in db.contacts {
      BackfillLaws.BackfillOnlyFillsIn(env, db, r, now);
    } else {
      BackfillLaws.NewAreUnproven(env, db, r, now, k);
    }
  }

  /** The back-fill links sessions where they belong, and proves nothing. */
  lemma BackfillIsSound(env: Env, host: Host, proofs: set<Proof>, db: Db, r: Backfill.Reading, now: Time)
    requires Sound(host, proofs, db) && Unique(db) && BackfillLaws.Ready(db, r)
    ensures Sound(host, proofs, Backfill.Backfilled(env, db, r, now))
    ensures Unique(Backfill.Backfilled(env, db, r, now))
  {
    var db1 := Backfill.Backfilled(env, db, r, now);
    BackfillLaws.BackfillOnlyFillsIn(env, db, r, now);
    BackfillLaws.BackfillKeepsUnique(env, db, r, now);
    forall k | k in db1.sessions
      ensures LinkHolds(db1.contacts, db1.sessions[k]) && SessionHonest(proofs, k, db1.sessions[k])
    {
      assert LinkHolds(db.contacts, db.sessions[k]) && SessionHonest(proofs, k, db.sessions[k]);
      BackfilledSessionIsSound(env, proofs, db, r, now, k);
    }
    forall k | k in db1.contacts ensures ContactHonest(host, proofs, k, db1.contacts[k]) {
      BackfilledContactIsSound(env, host, proofs, db, r, now, k);
    }
  }

  lemma BackfillStepIsSound(env: Env, host: Host, st: State, e: Event)
    requires Invariant(host, st) && e.step.BackfillContacts? && Enabled(env, host, st, e.step)
    ensures Sound(host, st.proofs + Given(env, host, st, e.step), Written(env, host, st, e.step, e.at))
    ensures Unique(Written(env, host, st, e.step, e.at))
  {
    MoreProofs(host, st.proofs, Given(env, host, st, e.step), st.db);
    BackfillIsReady(host, st, e.step.reading);
    BackfillIsSound(env, host, st.proofs + Given(env, host, st, e.step), st.db, e.step.reading, e.at);
  }

  lemma OtherStepIsSound(env: Env, host: Host, st: State, e: Event)
    requires Invariant(host, st) && Enabled(env, host, st, e.step)
    requires || e.step.MailCode? || e.step.RedeemCode? || e.step.Handle? || e.step.DeleteCompany?
             || e.step.Move? || e.step.DeleteIfEmpty? || e.step.AdminDeletes?
    ensures Sound(host, st.proofs + Given(env, host, st, e.step), Written(env, host, st, e.step, e.at))
    ensures Unique(Written(env, host, st, e.step, e.at))
  {
    var proofs := st.proofs + Given(env, host, st, e.step);
    MoreProofs(host, st.proofs, Given(env, host, st, e.step), st.db);
    match e.step
    case Move(login) => MoveIsSound(host, proofs, st.db, login, e.at);
    case DeleteIfEmpty(id) => DeletingIsSound(host, proofs, st.db, id); DeletingKeepsUnique(st.db, id);
    case AdminDeletes(id) => DeletingIsSound(host, proofs, st.db, id); DeletingKeepsUnique(st.db, id);
    case DeleteCompany(id) => DeletingCompanyIsSound(host, proofs, st.db, id);
    case Handle(work) =>
      WorkLeavesPeople(st.db, st.ticketKeys, work, e.at);
      WorkKeepsUnique(st.db, st.ticketKeys, work, e.at);
    case _ =>
  }

  lemma StepKeepsInvariant(env: Env, host: Host, st: State, e: Event)
    requires Invariant(host, st)
    ensures Invariant(host, Apply(env, host, st, e))
  {
    if Enabled(env, host, st, e.step) {
      StepIsSound(env, host, st, e);
    }
  }

  lemma StepIsSound(env: Env, host: Host, st: State, e: Event)
    requires Invariant(host, st) && Enabled(env, host, st, e.step)
    ensures Sound(host, st.proofs + Given(env, host, st, e.step), Written(env, host, st, e.step, e.at))
    ensures Unique(Written(env, host, st, e.step, e.at))
  {
    if e.step.Link? {
      LinkIsSound(env, host, st, e);
    } else if e.step.StartAnonymous? || e.step.StartIdentified? || e.step.SaveSession? || e.step.DropProof? {
      SessionStepIsSound(env, host, st, e);
    } else if e.step.BackfillContacts? {
      BackfillStepIsSound(env, host, st, e);
    } else if || e.step.ReceiveFrom? || e.step.OpenLink? || e.step.AgentCreates? || e.step.AgentEdits?
              || e.step.Anonymize? {
      ContactStepIsSound(env, host, st, e);
    } else {
      OtherStepIsSound(env, host, st, e);
    }
  }

  lemma {:induction false} RunKeepsInvariant(env: Env, host: Host, st: State, events: seq<Event>)
    requires Invariant(host, st)
    ensures Invariant(host, Run(env, host, st, events))
    decreases |events|
  {
    if events != [] {
      StepKeepsInvariant(env, host, st, events[0]);
      RunKeepsInvariant(env, host, Apply(env, host, st, events[0]), events[1..]);
    }
  }
}
