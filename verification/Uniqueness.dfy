/**
 No write of a pass breaks a unique constraint, so that only another transaction's
 write can make one fail: the service's retry is for races alone.
 */
module Uniqueness {
  import opened Rows
  import opened Resolution

  /** Row `id` may become `c`: nobody else in its organization has its email or external id. */
  ghost predicate Savable(contacts: Contacts, id: Id, c: Contact) {
    id in contacts && Alone(contacts[id := c], id)
  }

  ghost predicate Alone(contacts: Contacts, id: Id) {
    forall o :: !ContactsClash(contacts, id, o)
  }

  lemma SavingKeepsUnique(contacts: Contacts, id: Id, c: Contact)
    requires UniqueContacts(contacts) && Savable(contacts, id, c)
    ensures UniqueContacts(contacts[id := c])
  {
    var saved := contacts[id := c];
    forall a, b ensures !ContactsClash(saved, a, b) {
      assert !ContactsClash(contacts, a, b);
      assert !ContactsClash(saved, id, a) && !ContactsClash(saved, id, b);
    }
  }

  lemma RowIsSavable(contacts: Contacts, id: Id)
    requires UniqueContacts(contacts) && id in contacts
    ensures Savable(contacts, id, contacts[id])
  {
    assert contacts[id := contacts[id]] == contacts;
  }

  lemma ByEmailIs(contacts: Contacts, org: Id, email: string, id: Id)
    requires UniqueContacts(contacts) && HoldsEmail(contacts, org, email, id) && email != ""
    ensures ByEmail(contacts, org, email) == Some(id)
  {
    forall o | HoldsEmail(contacts, org, email, o) ensures o == id {
      assert !ContactsClash(contacts, o, id);
    }
  }

  lemma ByExternalIdIs(contacts: Contacts, org: Id, externalId: string, id: Id)
    requires UniqueContacts(contacts) && HoldsExternalId(contacts, org, externalId, id) && externalId != ""
    ensures ByExternalId(contacts, org, externalId) == Some(id)
  {
    forall o | HoldsExternalId(contacts, org, externalId, o) ensures o == id {
      assert !ContactsClash(contacts, o, id);
    }
  }

  lemma CompanyIs(companies: Companies, org: Id, externalId: string, id: Id)
    requires UniqueCompanies(companies) && IsCompany(companies, org, externalId, id) && externalId != ""
    ensures CompanyByExternalId(companies, org, externalId) == Some(id)
  {
    forall o | IsCompany(companies, org, externalId, o) ensures o == id {
      assert !CompaniesClash(companies, o, id);
    }
  }

  /** A contact may become another that only takes values no lookup finds. */
  lemma FreeIsSavable(contacts: Contacts, id: Id, c: Contact, c1: Contact)
    requires Savable(contacts, id, c) && c1.org == c.org
    requires c1.email == "" || c1.email == c.email || ByEmail(contacts, c.org, c1.email).None?
    requires c1.externalId == "" || c1.externalId == c.externalId || ByExternalId(contacts, c.org, c1.externalId).None?
    ensures Savable(contacts, id, c1)
  {
    var saved := contacts[id := c1];
    forall o ensures !ContactsClash(saved, id, o) {
      assert !ContactsClash(contacts[id := c], id, o);
      if o in contacts && o != id && contacts[o].org == c.org {
        assert c1.email != "" && c1.email != c.email ==> !HoldsEmail(contacts, c.org, c1.email, o);
        assert c1.externalId != "" && c1.externalId != c.externalId ==> !HoldsExternalId(contacts, c.org, c1.externalId, o);
      }
    }
  }

  lemma NewIsSavable(contacts: Contacts, id: Id, c: Contact)
    requires UniqueContacts(contacts) && id !in contacts
    requires c.email == "" || ByEmail(contacts, c.org, c.email).None?
    requires c.externalId == "" || ByExternalId(contacts, c.org, c.externalId).None?
    ensures UniqueContacts(contacts[id := c]) && Savable(contacts[id := c], id, c)
  {
    var saved := contacts[id := c];
    forall o ensures !ContactsClash(saved, id, o) {
      assert c.email != "" ==> !HoldsEmail(contacts, c.org, c.email, o);
      assert c.externalId != "" ==> !HoldsExternalId(contacts, c.org, c.externalId, o);
    }
    forall a, b ensures !ContactsClash(saved, a, b) {
      assert !ContactsClash(contacts, a, b);
      assert !ContactsClash(saved, id, a) && !ContactsClash(saved, id, b);
    }
    assert saved[id := c] == saved;
  }

  // Lookups

  /**
   What a lookup finds: a row as it is, or with the identity it takes, or a new row
   with an email or an external id that nobody had.
   */
  ghost predicate Findable(contacts: Contacts, org: Id, email: string, externalId: string, f: Lookup)
    requires f.Found?
  {
    && f.id in f.contacts
    && f.loaded == f.contacts[f.id]
    && f.loaded.org == f.draft.org == org
    && f.loaded.email == f.draft.email
    && (if externalId != "" then f.draft.externalId == externalId else f.draft.email == email)
    && (f.id in contacts ==> f.contacts == contacts && !f.created)
    && (f.id !in contacts ==> NewlyFound(contacts, f) && (f.created <==> externalId == ""))
    && (f.draft != f.loaded ==> NewlyNamed(contacts, email, externalId, f))
  }

  ghost predicate NewlyFound(contacts: Contacts, f: Lookup)
    requires f.Found?
  {
    && f.contacts == contacts[f.id := f.draft]
    && f.draft == f.loaded
    && !f.draft.anonymized && f.draft.verifiedAt.None?
    && (f.draft.email == "" || ByEmail(contacts, f.draft.org, f.draft.email).None?)
    && (f.draft.externalId == "" || ByExternalId(contacts, f.draft.org, f.draft.externalId).None?)
  }

  ghost predicate NewlyNamed(contacts: Contacts, email: string, externalId: string, f: Lookup)
    requires f.Found?
  {
    && f.draft.email == email != ""
    && !f.draft.anonymized
    && f.draft == f.loaded.(externalId := externalId)
    && f.loaded.externalId == ""
    && ByExternalId(contacts, f.draft.org, externalId).None?
  }

  /** The external id a lookup goes by, "" if it goes by the email. */
  function KeyOf(k: Claims): string {
    if k.identified then k.externalId else ""
  }

  lemma LookupFinds(contacts: Contacts, k: Claims, p: Payload, now: Time, newId: Id)
    requires newId !in contacts
    ensures var f := LookedUp(contacts, k, p, now, newId); f.Found? ==>
      && Findable(contacts, k.org, k.email, KeyOf(k), f)
      && (!k.identified ==> k.email != "")
      && (f.draft != f.loaded ==> p.verified)
  {}

  lemma FindableIsSavable(contacts: Contacts, org: Id, email: string, externalId: string, f: Lookup)
    requires UniqueContacts(contacts) && f.Found? && Findable(contacts, org, email, externalId, f)
    ensures UniqueContacts(f.contacts) && Savable(f.contacts, f.id, f.draft)
  {
    if f.id in contacts {
      RowIsSavable(contacts, f.id);
      FreeIsSavable(contacts, f.id, f.loaded, f.draft);
    } else {
      NewIsSavable(contacts, f.id, f.draft);
    }
  }

  // Emails

  /** Absorbing frees the email it takes. */
  lemma AbsorbingIsSavable(contacts: Contacts, id: Id, c: Contact, other: Id)
    requires UniqueContacts(contacts) && Savable(contacts, id, c)
    requires other in contacts && other != id && contacts[other].org == c.org
    ensures UniqueContacts(contacts - {other})
    ensures Savable(contacts - {other}, id, Absorbing(c, contacts[other]))
  {
    var left := contacts - {other};
    var saved := left[id := Absorbing(c, contacts[other])];
    forall a, b ensures !ContactsClash(left, a, b) {
      assert !ContactsClash(contacts, a, b);
    }
    forall o ensures !ContactsClash(saved, id, o) {
      assert !ContactsClash(contacts[id := c], id, o);
      assert !ContactsClash(contacts, other, o);
    }
  }

  lemma EmailIsSavable(db: Db, id: Id, c: Contact, email: string, verified: bool)
    requires UniqueContacts(db.contacts) && Savable(db.contacts, id, c) && email != ""
    requires db.contacts[id].org == c.org && db.contacts[id].email == c.email
    ensures var (db1, c1) := RecordedEmail(db, id, c, email, verified);
      && UniqueContacts(db1.contacts) && Savable(db1.contacts, id, c1)
      && c1.org == c.org && c1.externalId == c.externalId && c1.anonymized == c.anonymized
      && db1.contacts[id] == db.contacts[id] && db1.companies == db.companies
  {
    var (_, c1) := RecordedEmail(db, id, c, email, verified);
    if verified && c.email == "" {
      if EmailOnlyHolder(db.contacts, c.org, email).Some? {
        AbsorbingIsSavable(db.contacts, id, c, EmailOnlyHolder(db.contacts, c.org, email).value);
      } else if ByEmail(db.contacts, c.org, email).None? {
        FreeIsSavable(db.contacts, id, c, c1);
      }
    } else {
      FreeIsSavable(db.contacts, id, c, c1);
    }
  }

  lemma IdentityIsSavable(db: Db, id: Id, c: Contact, k: Claims, p: Payload, now: Time)
    requires UniqueContacts(db.contacts) && Savable(db.contacts, id, c)
    requires db.contacts[id].org == c.org && db.contacts[id].email == c.email
    ensures var (db1, c1) := Identified(db, id, c, k, p, now);
      && UniqueContacts(db1.contacts) && Savable(db1.contacts, id, c1)
      && c1.org == c.org && c1.externalId == c.externalId && c1.anonymized == c.anonymized
      && db1.contacts[id] == db.contacts[id] && db1.companies == db.companies
  {
    var (db0, c0) :=
      if k.identified && k.email != "" then RecordedEmail(db, id, c, k.email, p.verified) else (db, c);
    if k.identified && k.email != "" {
      EmailIsSavable(db, id, c, k.email, p.verified);
    }
    FreeIsSavable(db0.contacts, id, c0, Identified(db, id, c, k, p, now).1);
  }

  // Companies

  lemma CompanySavingKeepsUnique(companies: Companies, id: Id, row: Company)
    requires UniqueCompanies(companies)
    requires || row.domain == "" || CompanyOnDomain(companies, row.org, row.domain).None?
             || OnDomain(companies, row.org, row.domain, id)
    requires || CompanyByExternalId(companies, row.org, row.externalId).None?
             || IsCompany(companies, row.org, row.externalId, id)
    ensures UniqueCompanies(companies[id := row])
  {
    var saved := companies[id := row];
    forall a, b ensures !CompaniesClash(saved, a, b) {
      assert !CompaniesClash(companies, a, b);
      CompanyFree(companies, id, row, a);
      CompanyFree(companies, id, row, b);
    }
  }

  lemma CompanyFree(companies: Companies, id: Id, row: Company, o: Id)
    requires UniqueCompanies(companies)
    requires || row.domain == "" || CompanyOnDomain(companies, row.org, row.domain).None?
             || OnDomain(companies, row.org, row.domain, id)
    requires || CompanyByExternalId(companies, row.org, row.externalId).None?
             || IsCompany(companies, row.org, row.externalId, id)
    ensures o != id ==> !CompaniesClash(companies[id := row], id, o)
  {
    assert !CompaniesClash(companies, id, o);
    assert !IsCompany(companies, row.org, row.externalId, o)
      || CompanyByExternalId(companies, row.org, row.externalId).Some?;
    assert !OnDomain(companies, row.org, row.domain, o) || CompanyOnDomain(companies, row.org, row.domain).Some?;
  }

  lemma SignedCompanyIsUnique(companies: Companies, org: Id, claim: CompanyClaim, now: Time, newId: Id)
    requires UniqueCompanies(companies) && newId !in companies
    ensures UniqueCompanies(SignedCompany(companies, org, claim, now, newId).0)
  {
    var saved := SignedCompany(companies, org, claim, now, newId).0;
    var existing := CompanyByExternalId(companies, org, claim.externalId);
    if existing.Some? {
      assert companies[existing.value := companies[existing.value]] == companies;
      CompanySavingKeepsUnique(companies, existing.value, saved[existing.value]);
    } else {
      var row := Company(org, claim.externalId, claim.name, "", Dict(claim.traits), now);
      CompanySavingKeepsUnique(companies, newId, row);
      var others := companies[newId := row];
      CompanySavingKeepsUnique(others, newId, saved[newId]);
      assert others[newId := saved[newId]] == saved;
    }
  }

  lemma CompanyIsUnique(env: Env, companies: Companies, c: Contact, k: Claims, p: Payload, now: Time, newId: Id)
    requires UniqueCompanies(companies) && newId !in companies
    ensures UniqueCompanies(WithCompany(env, companies, c, k, p, now, newId).0)
  {
    if p.company.Some? {
      var claim := p.company.value;
      SignedCompanyIsUnique(companies, k.org, claim, now, newId);
      if CompanyByExternalId(companies, k.org, claim.externalId).None? {
        var domain := if CompanyOnDomain(companies, k.org, claim.domain).None? then claim.domain else "";
        CompanySavingKeepsUnique(
          companies, newId, Company(k.org, claim.externalId, claim.name, domain, Dict(claim.traits), now));
        CompanySavingKeepsUnique(
          companies, newId, Company(k.org, claim.externalId, claim.name, "", Dict(claim.traits), now));
      }
    }
  }

  // The pass

  /** All but the company, the dates and the flags of a contact's reach. */
  predicate SameIdentity(a: Contact, b: Contact) {
    && a.org == b.org && a.email == b.email && a.externalId == b.externalId
    && a.anonymized == b.anonymized && a.verifiedAt == b.verifiedAt
    && a.declared == b.declared && a.profile == b.profile && a.attributes == b.attributes
  }

  lemma CompanyKeepsIdentity(env: Env, companies: Companies, c: Contact, k: Claims, p: Payload, now: Time, newId: Id)
    ensures SameIdentity(WithCompany(env, companies, c, k, p, now, newId).1, c)
  {}

  lemma FinishingKeepsIdentity(
    env: Env, companies: Companies, loaded: Contact, c: Contact, k: Claims, p: Payload, created: bool, now: Time)
    ensures var c1 := Finished(env, companies, c, k, p, created, now);
      var c2 := Saved(loaded, c1, now);
      && SameIdentity(c2, c)
      && c2.company == c1.company && c2.firstSeen == c1.firstSeen
      && (c.company.Some? ==> c2.company == c.company)
  {}

  lemma SettlingKeepsUnique(env: Env, db: Db, f: Lookup, k: Claims, p: Payload, now: Time, newId: Id)
    requires f.Found? && Settleable(f)
    requires UniqueCompanies(db.companies) && newId !in db.companies
    ensures Unique(Settle(env, db, f, k, p, now, newId).db)
  {
    var db0 := db.(contacts := f.contacts);
    IdentityIsSavable(db0, f.id, f.draft, k, p, now);
    var (db1, c1) := Identified(db0, f.id, f.draft, k, p, now);
    CompanyIsUnique(env, db1.companies, c1, k, p, now, newId);
    CompanyKeepsIdentity(env, db1.companies, c1, k, p, now, newId);
    var (companies, c2) := WithCompany(env, db1.companies, c1, k, p, now, newId);
    FinishingKeepsIdentity(env, companies, f.loaded, c2, k, p, f.created, now);
    var c3 := Settle(env, db, f, k, p, now, newId).contact;
    FreeIsSavable(db1.contacts, f.id, c1, c3);
    SavingKeepsUnique(db1.contacts, f.id, c3);
  }

  /** A contact found, that a pass may go on to settle. */
  ghost predicate Settleable(f: Lookup)
    requires f.Found?
  {
    && UniqueContacts(f.contacts)
    && Savable(f.contacts, f.id, f.draft)
    && f.contacts[f.id].org == f.draft.org
    && f.contacts[f.id].email == f.draft.email
  }

  lemma FoundIsSettleable(contacts: Contacts, k: Claims, p: Payload, now: Time, newId: Id)
    requires UniqueContacts(contacts) && newId !in contacts
    ensures var f := LookedUp(contacts, k, p, now, newId); f.Found? ==> Settleable(f)
  {
    var f := LookedUp(contacts, k, p, now, newId);
    LookupFinds(contacts, k, p, now, newId);
    if f.Found? {
      FindableIsSavable(contacts, k.org, k.email, KeyOf(k), f);
    }
  }

  lemma FoundKeepsUnique(env: Env, db: Db, sid: Id, s: Session, k: Claims, p: Payload, now: Time, ids: NewIds, f: Lookup)
    requires f.Found? && !f.draft.anonymized && f == LookedUp(db.contacts, k, p, now, ids.contact)
    requires Settleable(f) && UniqueCompanies(db.companies) && ids.company !in db.companies
    ensures Unique(Resolve(env, db, sid, s, k, p, now, ids).db)
  {
    SettlingKeepsUnique(env, db, f, k, p, now, ids.company);
  }

  /** A pass that finds nobody writes on no contact. */
  lemma NobodyUnlinks(
    env: Env, db: Db, sid: Id, s: Session, k: Claims, p: Payload, now: Time, ids: NewIds, f: Lookup)
    requires f == LookedUp(db.contacts, k, p, now, ids.contact) && (f.Nobody? || f.draft.anonymized)
    ensures Resolve(env, db, sid, s, k, p, now, ids)
         == Outcome(LinkedTo(db, sid, s, None, now), None, s.(contact := None))
  {}

  lemma NobodyKeepsUnique(env: Env, db: Db, sid: Id, s: Session, k: Claims, p: Payload, now: Time, ids: NewIds, f: Lookup)
    requires f == LookedUp(db.contacts, k, p, now, ids.contact) && (f.Nobody? || f.draft.anonymized)
    requires Unique(db)
    ensures Unique(Resolve(env, db, sid, s, k, p, now, ids).db)
  {}

  /** A pass leaves the database within its constraints. */
  lemma PassKeepsUnique(env: Env, db: Db, sid: Id, s: Session, k: Claims, p: Payload, now: Time, ids: NewIds)
    requires Unique(db) && ids.contact !in db.contacts && ids.company !in db.companies
    ensures Unique(Resolve(env, db, sid, s, k, p, now, ids).db)
  {
    var f := LookedUp(db.contacts, k, p, now, ids.contact);
    FoundIsSettleable(db.contacts, k, p, now, ids.contact);
    if f.Nobody? || f.draft.anonymized {
      NobodyKeepsUnique(env, db, sid, s, k, p, now, ids, f);
    } else {
      FoundKeepsUnique(env, db, sid, s, k, p, now, ids, f);
    }
  }
}
