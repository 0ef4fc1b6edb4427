/**
 The rules of who may write what, over one whole pass of the identity service: what an
 unproven claim, a proof and a company payload each may change
 (backend/apps/contacts/services.py:3-43).
 */
module PassRules {
  import opened Text
  import opened Rows
  import opened Resolution
  import opened Uniqueness

  // Claims without a proof

  /** Unproven, what an anonymous session says writes no row but its own. */
  lemma UnprovenClaimWritesNothing(
    env: Env, db: Db, sid: Id, s: Session, k: Claims, p: Payload, now: Time, ids: NewIds)
    requires !k.identified && !p.verified
    requires k.email != "" ==> ByEmail(db.contacts, k.org, k.email).Some?
    ensures var after := Resolve(env, db, sid, s, k, p, now, ids).db;
      after == db.(sessions := after.sessions)
  {
    var f := LookedUp(db.contacts, k, p, now, ids.contact);
    if f.Found? && !f.draft.anonymized {
      SettlingNothing(env, db, f, k, p, now, ids.company);
      SavingSessionOnly(db, sid, s, f.id, false, k.email, p.source, now);
    } else {
      NobodyUnlinks(env, db, sid, s, k, p, now, ids, f);
      UnlinkingOnly(db, sid, s, now);
    }
  }

  lemma SettlingNothing(env: Env, db: Db, f: Lookup, k: Claims, p: Payload, now: Time, newId: Id)
    requires f.Found? && f.contacts == db.contacts && f.id in f.contacts && !f.created
    requires f.loaded == f.draft == f.contacts[f.id] && !k.identified && !p.verified
    ensures Settle(env, db, f, k, p, now, newId) == Settled(db, f.draft, false)
  {
    assert db.contacts[f.id := f.draft] == db.contacts;
  }

  lemma SavingSessionOnly(
    db: Db, sid: Id, s: Session, id: Id, proven: bool, email: string, source: ProofSource, now: Time)
    ensures var after := SessionSaved(db, sid, s, id, proven, email, source, now).0;
      after == db.(sessions := after.sessions)
  {}

  lemma UnlinkingOnly(db: Db, sid: Id, s: Session, now: Time)
    ensures var after := LinkedTo(db, sid, s, None, now); after == db.(sessions := after.sessions)
  {}

  /** The contact a pass found, once settled, and every other one. */
  ghost predicate EmailKept(db: Db, f: Lookup, settled: Settled)
    requires f.Found?
  {
    && settled.contact.email == f.draft.email && settled.contact.verifiedAt == f.draft.verifiedAt
    && settled.db.contacts == f.contacts[f.id := settled.contact]
    && settled.db.sessions == db.sessions && settled.db.tickets == db.tickets && settled.db.notes == db.notes
  }

  /** An identified session's unproven email never becomes its contact's: it is declared, and nobody is absorbed. */
  lemma UnprovenEmailIsOnlyDeclared(env: Env, db: Db, f: Lookup, k: Claims, p: Payload, now: Time, newId: Id)
    requires f.Found? && k.identified && !p.verified
    ensures var settled := Settle(env, db, f, k, p, now, newId);
      && EmailKept(db, f, settled) && !settled.proven
      && settled.contact.declared ==
         (if k.email == "" then f.draft.declared else if k.email == f.draft.email then "" else k.email)
  {
    var (db1, c1) := Identified(db.(contacts := f.contacts), f.id, f.draft, k, p, now);
    CompanyKeepsIdentity(env, db1.companies, c1, k, p, now, newId);
    var (companies, c2) := WithCompany(env, db1.companies, c1, k, p, now, newId);
    FinishingKeepsIdentity(env, companies, f.loaded, c2, k, p, f.created, now);
  }

  /** A contact that has an email keeps it, whatever is proven: only a blank one is filled. */
  lemma EmailIsNeverReplaced(env: Env, db: Db, f: Lookup, k: Claims, p: Payload, now: Time, newId: Id)
    requires f.Found? && f.draft.email != ""
    ensures EmailKept(db, f, Settle(env, db, f, k, p, now, newId))
         || (Settle(env, db, f, k, p, now, newId).proven && k.email == f.draft.email)
    ensures Settle(env, db, f, k, p, now, newId).contact.email == f.draft.email
  {
    var (db1, c1) := Identified(db.(contacts := f.contacts), f.id, f.draft, k, p, now);
    CompanyKeepsIdentity(env, db1.companies, c1, k, p, now, newId);
    var (companies, c2) := WithCompany(env, db1.companies, c1, k, p, now, newId);
    FinishingKeepsIdentity(env, companies, f.loaded, c2, k, p, f.created, now);
  }

  // Companies

  /** Without a valid hash, no company changes, and at most one is added, on the proven email's domain or on none. */
  ghost predicate OnlyAdds(env: Env, companies: Companies, after: Companies, newId: Id, provenEmail: string) {
    && (forall id :: id in companies ==> id in after && after[id] == companies[id])
    && (forall id :: id in after && id !in companies ==>
          && id == newId
          && (after[id].domain == ""
              || (after[id].domain == EmailDomain(provenEmail) && !env.publicDomain(after[id].domain))))
  }

  lemma UnsignedCompanyChangesNone(
    env: Env, companies: Companies, c: Contact, k: Claims, p: Payload, now: Time, newId: Id)
    requires !p.companyVerified && newId !in companies
    ensures var (after, c1) := WithCompany(env, companies, c, k, p, now, newId);
      && OnlyAdds(env, companies, after, newId, if EmailProven(k, p, c) then k.email else "")
      && (c.company.Some? ==> c1.company == c.company)
  {}

  /** What a signed payload may change of a company: its name, its domain to one nobody has, and its date. */
  predicate Renamed(before: Company, after: Company, claim: CompanyClaim) {
    && after.org == before.org && after.externalId == before.externalId && after.attributes == before.attributes
    && after.name == claim.name && (after.domain == before.domain || after.domain == claim.domain)
  }

  /** With a valid hash, only the company of the signed id changes, but not its attributes, and takes nobody's domain. */
  lemma SignedCompanyOnlyRenames(companies: Companies, org: Id, claim: CompanyClaim, now: Time, newId: Id)
    requires UniqueCompanies(companies) && newId !in companies && claim.externalId != ""
    ensures var (after, id) := SignedCompany(companies, org, claim, now, newId);
      && id.Some? && id.value in after && IsCompany(after, org, claim.externalId, id.value)
      && (forall o :: o in companies && o != id.value ==> o in after && after[o] == companies[o])
      && (id.value in companies ==> Renamed(companies[id.value], after[id.value], claim))
      && (id.value !in companies ==> id.value == newId && after[newId].attributes == Dict(claim.traits))
      && UniqueCompanies(after)
  {
    SignedCompanyIsUnique(companies, org, claim, now, newId);
  }

  // Names and attributes

  /** A name a person entered stays: a session's only fills a blank one, and only of a contact it proved to be. */
  lemma NameIsOnlyFilled(c: Contact, k: Claims, p: Payload, now: Time)
    ensures var c1 := Claimed(c, k, p, now);
      && (c.profile.name != "" ==> c1.profile == c.profile)
      && (!k.identified && !EmailProven(k, p, c) ==> c1 == c)
      && (c1.profile.name != c.profile.name ==> c1.profile.name == k.name)
  {}
}
