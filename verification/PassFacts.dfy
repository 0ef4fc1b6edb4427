/**
 What one pass of the identity service does: the contact it finds, and what that
 contact, its company and the session hold afterwards, field by field
 (backend/apps/contacts/services.py:275-580).
 */
module PassFacts {
  import opened Text
  import opened Rows
  import opened Resolution
  import opened Reach
  import opened EmailProof

  /** A contact nobody knows anything of but what the session says. */
  function Unknown(k: Claims, now: Time): Contact {
    Contact(
      k.org, None, if k.identified then "" else k.email, None, "", if k.identified then k.externalId else "",
      Profile(if k.identified then "" else k.name, "", "", "", "", ""),
      None, None, None, false, false, Dict(map[]), now)
  }

  /** The contact before the pass: its row, or nothing known. */
  function Before(contacts: Contacts, id: Id, k: Claims, now: Time): Contact {
    if id in contacts then contacts[id] else Unknown(k, now)
  }

  /** The email-only contact that the one found takes in. */
  ghost predicate TakesIn(contacts: Contacts, k: Claims, p: Payload, before: Contact, other: Id) {
    k.identified && p.verified && before.email == "" && k.email != "" && HoldsEmailOnly(contacts, k.org, k.email, other)
  }

  // Its email

  /** The session proved the address that the contact holds afterwards. */
  predicate Proves(k: Claims, p: Payload, after: Contact) {
    p.verified && k.email != "" && after.email == k.email
  }

  /** An email of its own stays. A proven one fills a blank, if nobody else has it but an email-only contact. */
  ghost predicate IsEmailed(contacts: Contacts, k: Claims, p: Payload, before: Contact, after: Contact) {
    if !k.identified || before.email != "" then after.email == before.email
    else if && p.verified && k.email != ""
            && (|| (exists o :: HoldsEmailOnly(contacts, k.org, k.email, o))
                || !(exists o :: HoldsEmail(contacts, k.org, k.email, o))) then after.email == k.email
    else after.email == ""
  }

  /** A proof dates the address, unless it had a date already. Nothing else does. */
  predicate IsVerified(k: Claims, p: Payload, now: Time, before: Contact, after: Contact) {
    if Proves(k, p, after) then
      after.verifiedAt == (if before.email == k.email && before.verifiedAt.Some? then before.verifiedAt else Some(now))
    else after.verifiedAt == before.verifiedAt
  }

  /** An identified session's unproven address is declared, and a proven one no longer is. */
  predicate IsDeclared(k: Claims, p: Payload, before: Contact, after: Contact) {
    if Proves(k, p, after) then after.declared == (if before.declared == k.email then "" else before.declared)
    else if k.identified && k.email != "" && !p.verified then
      after.declared == (if before.email == k.email then "" else k.email)
    else after.declared == before.declared
  }

  // Its name and attributes

  predicate Trusted(k: Claims, p: Payload, after: Contact) {
    k.identified || Proves(k, p, after)
  }

  predicate FirstOf(value: string, own: string, other: string) {
    value == if own != "" then own else other
  }

  /** Its own values, those of the contact it took in where blank, and the name a trusted session gives. */
  predicate IsProfiled(k: Claims, p: Payload, before: Contact, other: Option<Contact>, after: Contact) {
    var a, b := after.profile, before.profile;
    var o := if other.Some? then other.value.profile else Profile("", "", "", "", "", "");
    && FirstOf(a.phone, b.phone, o.phone) && FirstOf(a.avatarUrl, b.avatarUrl, o.avatarUrl)
    && FirstOf(a.jobTitle, b.jobTitle, o.jobTitle) && FirstOf(a.locale, b.locale, o.locale)
    && FirstOf(a.timezone, b.timezone, o.timezone)
    && a.name == (if b.name != "" then b.name
                  else if o.name != "" then o.name
                  else if Trusted(k, p, after) then k.name else "")
  }

  /** The traits of a trusted session over its own attributes, over those of the contact it took in. */
  predicate IsAttributed(k: Claims, p: Payload, before: Contact, other: Option<Contact>, after: Contact) {
    var taken := if other.Some? && before.attributes.Dict? then Entries(other.value.attributes) else map[];
    var traits := if Trusted(k, p, after) then p.traits else map[];
    if taken == map[] && traits == map[] then after.attributes == before.attributes
    else after.attributes == Dict(taken + Entries(before.attributes) + traits)
  }

  // Its dates

  function Sooner(a: Option<Time>, b: Option<Time>): Option<Time> {
    if a.Some? && (b.None? || a.value <= b.value) then a else b
  }

  function Last(a: Option<Time>, b: Option<Time>): Option<Time> {
    if a.Some? && (b.None? || a.value >= b.value) then a else b
  }

  predicate IsDated(
    k: Claims, p: Payload, now: Time, isNew: bool, before: Contact, other: Option<Contact>, after: Contact)
  {
    var first := if other.Some? then Sooner(before.firstSeen, other.value.firstSeen) else before.firstSeen;
    var visits := Trusted(k, p, after) || isNew;
    && after.firstSeen == (if visits && first.None? then Some(now) else first)
    && after.lastSeen == (if visits then Some(now) else before.lastSeen)
    && after.lastContacted == (if other.Some? then Last(before.lastContacted, other.value.lastContacted)
                               else before.lastContacted)
    && after.unsubscribed == (before.unsubscribed || (other.Some? && other.value.unsubscribed))
  }

  // Its company

  /** The company it is on, or else that of the contact it took in. */
  function OwnCompany(before: Contact, other: Option<Contact>): Option<Id> {
    if before.company.None? && other.Some? then other.value.company else before.company
  }

  /** The payload names a company, of an identified session, and is signed or the contact has none. */
  predicate Names(k: Claims, p: Payload, own: Option<Id>) {
    && k.identified && p.company.Some? && p.company.value.externalId != "" && p.company.value.name != ""
    && (p.companyVerified || own.None?)
  }

  predicate DomainFree(companies: Companies, org: Id, domain: string, id: Id) {
    forall o :: o in companies && o != id && companies[o].org == org ==> companies[o].domain != domain
  }

  ghost predicate NoCompany(companies: Companies, org: Id, externalId: string) {
    forall o :: !IsCompany(companies, org, externalId, o)
  }

  /** A signed company: renamed, or new, and on the payload's domain if nobody else of the organization is. */
  ghost predicate IsUpserted(companies: Companies, after: Companies, org: Id, claim: CompanyClaim, now: Time, newId: Id, id: Id) {
    && id in after && after == companies[id := after[id]]
    && (id !in companies ==> id == newId && NoCompany(companies, org, claim.externalId))
    && var takes := claim.domain != "" && DomainFree(companies, org, claim.domain, id);
       if id in companies then
         && IsCompany(companies, org, claim.externalId, id)
         && after[id] == companies[id].(
              name := claim.name, domain := if takes then claim.domain else companies[id].domain,
              updatedAt := after[id].updatedAt)
         && after[id].updatedAt == (if after[id].name != companies[id].name || after[id].domain != companies[id].domain
                                    then now else companies[id].updatedAt)
       else
         after[id] == Company(org, claim.externalId, claim.name, if takes then claim.domain else "", Dict(claim.traits), now)
  }

  /** An unsigned one: untouched, or new, on the payload's domain if that is the proven address's own, and free. */
  ghost predicate IsAdded(
    env: Env, companies: Companies, after: Companies, org: Id, claim: CompanyClaim, proven: string, now: Time, newId: Id,
    id: Id)
  {
    if id in companies then after == companies && IsCompany(companies, org, claim.externalId, id)
    else
      && id == newId && NoCompany(companies, org, claim.externalId)
      && var takes := && claim.domain != "" && claim.domain == EmailDomain(proven) && !env.publicDomain(claim.domain)
                      && DomainFree(companies, org, claim.domain, id);
         after == companies[id := Company(org, claim.externalId, claim.name, if takes then claim.domain else "",
                                          Dict(claim.traits), now)]
  }

  /** The company of a contact without one: that of its address's domain, unless that is nobody's or anybody's. */
  ghost predicate IsByDomain(env: Env, companies: Companies, org: Id, email: string, company: Option<Id>) {
    if EmailDomain(email) == "" || env.publicDomain(EmailDomain(email)) then company.None?
    else if exists o :: OnDomain(companies, org, EmailDomain(email), o) then
      company.Some? && OnDomain(companies, org, EmailDomain(email), company.value)
    else company.None?
  }

  ghost predicate IsEmployed(
    env: Env, companies: Companies, afterwards: Companies, k: Claims, p: Payload, now: Time, newId: Id, isNew: bool,
    own: Option<Id>, after: Contact)
  {
    if Names(k, p, own) then
      && after.company.Some?
      && if p.companyVerified then
           IsUpserted(companies, afterwards, k.org, p.company.value, now, newId, after.company.value)
         else
           IsAdded(env, companies, afterwards, k.org, p.company.value, if Proves(k, p, after) then k.email else "", now,
                   newId, after.company.value)
    else
      && afterwards == companies
      && if own.Some? then after.company == own
         else if (isNew || (k.identified && after.verifiedAt.Some?)) && after.email != "" then
           IsByDomain(env, companies, k.org, after.email, after.company)
         else after.company.None?
  }

  /** All of it but its company. */
  ghost predicate IsSettled(
    contacts: Contacts, k: Claims, p: Payload, now: Time, isNew: bool, before: Contact, other: Option<Contact>,
    after: Contact)
  {
    && after.org == k.org && !after.anonymized
    && after.externalId == (if k.identified then k.externalId else before.externalId)
    && IsEmailed(contacts, k, p, before, after) && IsVerified(k, p, now, before, after)
    && IsDeclared(k, p, before, after)
    && IsProfiled(k, p, before, other, after) && IsAttributed(k, p, before, other, after)
    && IsDated(k, p, now, isNew, before, other, after)
  }

  // The draft, stage by stage

  /** What a stage after the first leaves of the draft. */
  predicate OnlyVisited(c: Contact, c1: Contact) {
    c1 == c.(company := c1.company, firstSeen := c1.firstSeen, lastSeen := c1.lastSeen, updatedAt := c1.updatedAt)
  }

  /** The first stage: its email, name and attributes, and what it takes in. */
  ghost predicate FirstStage(
    contacts: Contacts, k: Claims, p: Payload, now: Time, before: Contact, other: Option<Contact>, c: Contact)
  {
    && EmailStage(contacts, k, p, now, before, c) && ValueStage(k, p, before, other, c)
  }

  ghost predicate EmailStage(contacts: Contacts, k: Claims, p: Payload, now: Time, before: Contact, c: Contact) {
    IsEmailed(contacts, k, p, before, c) && IsVerified(k, p, now, before, c) && IsDeclared(k, p, before, c)
  }

  ghost predicate ValueStage(k: Claims, p: Payload, before: Contact, other: Option<Contact>, c: Contact) {
    && c.org == before.org && c.externalId == before.externalId && c.anonymized == before.anonymized
    && c.company == OwnCompany(before, other)
    && IsProfiled(k, p, before, other, c) && IsAttributed(k, p, before, other, c)
    && c.firstSeen == (if other.Some? then Sooner(before.firstSeen, other.value.firstSeen) else before.firstSeen)
    && (other.None? ==> c.lastSeen == before.lastSeen)
    && c.lastContacted == (if other.Some? then Last(before.lastContacted, other.value.lastContacted)
                           else before.lastContacted)
    && c.unsubscribed == (before.unsubscribed || (other.Some? && other.value.unsubscribed))
  }

  lemma SameSooner(a: Option<Time>, b: Option<Time>)
    ensures Earliest(a, b) == Sooner(a, b) && Latest(a, b) == Last(a, b)
  {}

  lemma AbsorbingIsFirst(contacts: Contacts, k: Claims, p: Payload, now: Time, before: Contact, other: Id)
    requires TakesIn(contacts, k, p, before, other)
    ensures FirstStage(contacts, k, p, now, before, Some(contacts[other]),
                       Claimed(Absorbing(before, contacts[other]), k, p, now))
  {
    var o := contacts[other];
    SameSooner(before.firstSeen, o.firstSeen);
    SameSooner(before.lastContacted, o.lastContacted);
  }

  /** Which contact is taken in, if any. */
  ghost predicate IsOther(contacts: Contacts, k: Claims, p: Payload, before: Contact, other: Option<Id>) {
    match other
    case Some(o) => TakesIn(contacts, k, p, before, o)
    case None => forall o :: !TakesIn(contacts, k, p, before, o)
  }

  function RowOf(contacts: Contacts, other: Option<Id>): Option<Contact> {
    if other.Some? && other.value in contacts then Some(contacts[other.value]) else None
  }

  /** The draft, where nothing is taken in. */
  ghost function Kept(contacts: Contacts, k: Claims, p: Payload, before: Contact): Contact {
    if !k.identified || k.email == "" then before
    else if !p.verified then before.(declared := if k.email == before.email then "" else k.email)
    else if before.email != "" then before
    else if ByEmail(contacts, k.org, k.email).None? then before.(email := k.email, verifiedAt := None)
    else before
  }

  lemma KeptEmails(contacts: Contacts, k: Claims, p: Payload, now: Time, before: Contact)
    requires IsOther(contacts, k, p, before, None) && (!k.identified ==> before.email == k.email)
    ensures EmailStage(contacts, k, p, now, before, Claimed(Kept(contacts, k, p, before), k, p, now))
  {
    if k.identified && p.verified && before.email == "" && k.email != "" {
      forall o ensures !HoldsEmailOnly(contacts, k.org, k.email, o) {
        assert !TakesIn(contacts, k, p, before, o);
      }
    }
  }

  lemma NothingTaken(own: Attributes, traits: map<string, Json>)
    ensures Merged(own, traits) == if traits == map[] then own else Dict(map[] + Entries(own) + traits)
  {
    assert map[] + Entries(own) == Entries(own);
  }

  predicate OnlyEmailed(before: Contact, c: Contact) {
    c == before.(email := c.email, verifiedAt := c.verifiedAt, declared := c.declared)
  }

  lemma KeptAttributes(k: Claims, p: Payload, now: Time, before: Contact, c: Contact)
    requires OnlyEmailed(before, c)
    ensures IsAttributed(k, p, before, None, Claimed(c, k, p, now))
  {
    NothingTaken(before.attributes, p.traits);
  }

  lemma KeptProfile(k: Claims, p: Payload, now: Time, before: Contact, c: Contact)
    requires OnlyEmailed(before, c)
    ensures IsProfiled(k, p, before, None, Claimed(c, k, p, now))
  {}

  lemma KeptRest(k: Claims, p: Payload, now: Time, before: Contact, c: Contact)
    requires OnlyEmailed(before, c)
    ensures var c1 := Claimed(c, k, p, now);
      c1 == before.(email := c1.email, verifiedAt := c1.verifiedAt, declared := c1.declared, profile := c1.profile,
                    attributes := c1.attributes)
  {}

  lemma KeptValues(k: Claims, p: Payload, now: Time, before: Contact, c: Contact)
    requires OnlyEmailed(before, c)
    ensures ValueStage(k, p, before, None, Claimed(c, k, p, now))
  {
    KeptAttributes(k, p, now, before, c);
    KeptProfile(k, p, now, before, c);
    KeptRest(k, p, now, before, c);
  }

  lemma IdentifiedIsKept(db: Db, id: Id, k: Claims, p: Payload, now: Time, before: Contact)
    requires UniqueContacts(db.contacts) && IsOther(db.contacts, k, p, before, None) && before.org == k.org
    ensures Identified(db, id, before, k, p, now).1 == Claimed(Kept(db.contacts, k, p, before), k, p, now)
  {
    if k.identified && p.verified && before.email == "" && k.email != "" {
      HolderIsOther(db.contacts, k, p, before, None);
    }
  }

  lemma HolderIsOther(contacts: Contacts, k: Claims, p: Payload, before: Contact, other: Option<Id>)
    requires UniqueContacts(contacts) && IsOther(contacts, k, p, before, other)
    requires k.identified && p.verified && before.email == "" && k.email != "" && before.org == k.org
    ensures EmailOnlyHolder(contacts, before.org, k.email) == other
  {
    if other.Some? {
      forall o | HoldsEmailOnly(contacts, k.org, k.email, o) ensures o == other.value {
        assert !ContactsClash(contacts, o, other.value);
      }
    } else {
      forall o ensures !HoldsEmailOnly(contacts, k.org, k.email, o) {
        assert !TakesIn(contacts, k, p, before, o);
      }
    }
  }

  lemma IdentifyingIsFirst(
    db: Db, id: Id, k: Claims, p: Payload, now: Time, before: Contact, other: Option<Id>)
    requires UniqueContacts(db.contacts) && IsOther(db.contacts, k, p, before, other) && before.org == k.org
    requires !k.identified ==> before.email == k.email
    ensures FirstStage(db.contacts, k, p, now, before, RowOf(db.contacts, other), Identified(db, id, before, k, p, now).1)
  {
    if other.Some? {
      HolderIsOther(db.contacts, k, p, before, other);
      AbsorbingIsFirst(db.contacts, k, p, now, before, other.value);
    } else {
      IdentifiedIsKept(db, id, k, p, now, before);
      KeptEmails(db.contacts, k, p, now, before);
      KeptValues(k, p, now, before, Kept(db.contacts, k, p, before));
    }
  }

  lemma CompanyOnly(env: Env, companies: Companies, c: Contact, k: Claims, p: Payload, now: Time, newId: Id)
    ensures var c1 := WithCompany(env, companies, c, k, p, now, newId).1; c1 == c.(company := c1.company)
  {}

  lemma VisitOnly(env: Env, companies: Companies, loaded: Contact, c: Contact, k: Claims, p: Payload, isNew: bool, now: Time)
    ensures var c1 := Saved(loaded, Finished(env, companies, c, k, p, isNew, now), now);
      && OnlyVisited(c, c1)
      && c1.firstSeen == (if (Trusted(k, p, c) || isNew) && c.firstSeen.None? then Some(now) else c.firstSeen)
      && c1.lastSeen == (if Trusted(k, p, c) || isNew then Some(now) else c.lastSeen)
  {}

  /** What the stages leave, put together. */
  lemma StagesSettle(
    contacts: Contacts, k: Claims, p: Payload, now: Time, isNew: bool, before: Contact, other: Option<Contact>,
    c: Contact, after: Contact)
    requires FirstStage(contacts, k, p, now, before, other, c) && OnlyVisited(c, after)
    requires other.Some? ==> k.identified
    requires after.firstSeen == (if (Trusted(k, p, c) || isNew) && c.firstSeen.None? then Some(now) else c.firstSeen)
    requires after.lastSeen == (if Trusted(k, p, c) || isNew then Some(now) else c.lastSeen)
    requires before.org == k.org && !before.anonymized && (k.identified ==> before.externalId == k.externalId)
    ensures IsSettled(contacts, k, p, now, isNew, before, other, after)
  {}

  lemma SettlingSettles(
    env: Env, db: Db, f: Lookup, k: Claims, p: Payload, now: Time, newId: Id, other: Option<Id>)
    requires f.Found? && UniqueContacts(f.contacts) && IsOther(f.contacts, k, p, f.draft, other)
    requires f.draft.org == k.org && !f.draft.anonymized && (k.identified ==> f.draft.externalId == k.externalId)
    requires !k.identified ==> f.draft.email == k.email
    ensures IsSettled(f.contacts, k, p, now, f.created, f.draft, RowOf(f.contacts, other),
                      Settle(env, db, f, k, p, now, newId).contact)
  {
    var db0 := db.(contacts := f.contacts);
    IdentifyingIsFirst(db0, f.id, k, p, now, f.draft, other);
    var (db1, c1) := Identified(db0, f.id, f.draft, k, p, now);
    CompanyOnly(env, db1.companies, c1, k, p, now, newId);
    var (companies, c2) := WithCompany(env, db1.companies, c1, k, p, now, newId);
    VisitOnly(env, companies, f.loaded, c2, k, p, f.created, now);
    StagesSettle(f.contacts, k, p, now, f.created, f.draft, RowOf(f.contacts, other), c1,
                 Saved(f.loaded, Finished(env, companies, c2, k, p, f.created, now), now));
  }

  // Its company, stage by stage

  lemma FreeIsNobodys(companies: Companies, id: Id, row: Company, org: Id, domain: string)
    requires row.domain != domain
    ensures CompanyOnDomain(companies[id := row], org, domain).None? <==> DomainFree(companies, org, domain, id)
  {
    var others := companies[id := row];
    if CompanyOnDomain(others, org, domain).None? {
      forall o | o in companies && o != id && companies[o].org == org ensures companies[o].domain != domain {
        assert !OnDomain(others, org, domain, o);
      }
    }
  }

  lemma FreeOfAll(companies: Companies, id: Id, org: Id, domain: string)
    requires id !in companies
    ensures CompanyOnDomain(companies, org, domain).None? <==> DomainFree(companies, org, domain, id)
  {
    if CompanyOnDomain(companies, org, domain).None? {
      forall o | o in companies && companies[o].org == org ensures companies[o].domain != domain {
        assert !OnDomain(companies, org, domain, o);
      }
    }
  }

  lemma UpsertingUpserts(companies: Companies, org: Id, claim: CompanyClaim, now: Time, newId: Id)
    requires newId !in companies
    ensures var (after, id) := SignedCompany(companies, org, claim, now, newId);
      id.Some? && IsUpserted(companies, after, org, claim, now, newId, id.value)
  {
    var existing := CompanyByExternalId(companies, org, claim.externalId);
    var id := if existing.Some? then existing.value else newId;
    var row := if existing.Some? then companies[id]
               else Company(org, claim.externalId, claim.name, "", Dict(claim.traits), now);
    if claim.domain != row.domain {
      FreeIsNobodys(companies, id, row, org, claim.domain);
    }
    var after := SignedCompany(companies, org, claim, now, newId).0;
    assert after == companies[id := after[id]];
  }

  lemma AddingAdds(env: Env, companies: Companies, org: Id, claim: CompanyClaim, proven: string, now: Time, newId: Id)
    requires newId !in companies
    ensures var (after, id) := UnsignedCompany(env, companies, org, claim, proven, now, newId);
      id.Some? && IsAdded(env, companies, after, org, claim, proven, now, newId, id.value)
  {
    FreeOfAll(companies, newId, org, claim.domain);
  }

  /** The second stage, and then the third. */
  lemma CompanyIsNamed(env: Env, companies: Companies, c: Contact, k: Claims, p: Payload, now: Time, newId: Id)
    requires newId !in companies && c.org == k.org
    ensures var (after, c1) := WithCompany(env, companies, c, k, p, now, newId);
      IsNamed(env, companies, after, k, p, now, newId, c, c1)
  {
    if Names(k, p, c.company) {
      var claim := p.company.value;
      if p.companyVerified {
        UpsertingUpserts(companies, k.org, claim, now, newId);
      } else {
        AddingAdds(env, companies, k.org, claim, if Proves(k, p, c) then k.email else "", now, newId);
      }
    }
  }

  lemma CompanyByDomain(env: Env, companies: Companies, loaded: Contact, c: Contact, k: Claims, p: Payload, isNew: bool, now: Time)
    requires c.org == k.org
    ensures var c1 := Saved(loaded, Finished(env, companies, c, k, p, isNew, now), now);
      if c.company.Some? then c1.company == c.company
      else if (isNew || (k.identified && c.verifiedAt.Some?)) && c.email != "" then
        IsByDomain(env, companies, k.org, c.email, c1.company)
      else c1.company.None?
  {}

  /** The company named, before the domain is looked at. */
  ghost predicate IsNamed(
    env: Env, companies: Companies, afterwards: Companies, k: Claims, p: Payload, now: Time, newId: Id, c: Contact,
    c1: Contact)
  {
    if Names(k, p, c.company) then
      && c1.company.Some?
      && if p.companyVerified then
           IsUpserted(companies, afterwards, k.org, p.company.value, now, newId, c1.company.value)
         else IsAdded(env, companies, afterwards, k.org, p.company.value, if Proves(k, p, c) then k.email else "", now,
                      newId, c1.company.value)
    else afterwards == companies && c1.company == c.company
  }

  lemma StagesEmploy(
    env: Env, companies: Companies, afterwards: Companies, k: Claims, p: Payload, now: Time, newId: Id, isNew: bool,
    c1: Contact, c2: Contact, c3: Contact)
    requires IsNamed(env, companies, afterwards, k, p, now, newId, c1, c2) && c2 == c1.(company := c2.company)
    requires OnlyVisited(c2, c3)
    requires if c2.company.Some? then c3.company == c2.company
             else if (isNew || (k.identified && c2.verifiedAt.Some?)) && c2.email != "" then
               IsByDomain(env, afterwards, k.org, c2.email, c3.company)
             else c3.company.None?
    ensures IsEmployed(env, companies, afterwards, k, p, now, newId, isNew, c1.company, c3)
  {}

  lemma SettleIs(env: Env, db: Db, f: Lookup, k: Claims, p: Payload, now: Time, newId: Id)
    requires f.Found?
    ensures var settled := Settle(env, db, f, k, p, now, newId);
      var c1 := Identified(db.(contacts := f.contacts), f.id, f.draft, k, p, now).1;
      var (companies, c2) := WithCompany(env, db.companies, c1, k, p, now, newId);
      && settled.db.companies == companies
      && settled.contact == Saved(f.loaded, Finished(env, companies, c2, k, p, f.created, now), now)
  {
    IdentifyingKeepsCompanies(db.(contacts := f.contacts), f.id, f.draft, k, p, now);
  }

  lemma IdentifyingKeepsCompanies(db: Db, id: Id, c: Contact, k: Claims, p: Payload, now: Time)
    ensures Identified(db, id, c, k, p, now).0.companies == db.companies
  {}

  lemma SettlingEmploys(env: Env, db: Db, f: Lookup, k: Claims, p: Payload, now: Time, newId: Id, other: Option<Id>)
    requires f.Found? && UniqueContacts(f.contacts) && IsOther(f.contacts, k, p, f.draft, other)
    requires f.draft.org == k.org && (!k.identified ==> f.draft.email == k.email) && newId !in db.companies
    ensures var settled := Settle(env, db, f, k, p, now, newId);
      IsEmployed(env, db.companies, settled.db.companies, k, p, now, newId, f.created,
                 OwnCompany(f.draft, RowOf(f.contacts, other)), settled.contact)
  {
    var db0 := db.(contacts := f.contacts);
    IdentifyingIsFirst(db0, f.id, k, p, now, f.draft, other);
    var c1 := Identified(db0, f.id, f.draft, k, p, now).1;
    CompanyIsNamed(env, db.companies, c1, k, p, now, newId);
    CompanyOnly(env, db.companies, c1, k, p, now, newId);
    var (companies, c2) := WithCompany(env, db.companies, c1, k, p, now, newId);
    CompanyByDomain(env, companies, f.loaded, c2, k, p, f.created, now);
    VisitOnly(env, companies, f.loaded, c2, k, p, f.created, now);
    var c3 := Saved(f.loaded, Finished(env, companies, c2, k, p, f.created, now), now);
    StagesEmploy(env, db.companies, companies, k, p, now, newId, f.created, c1, c2, c3);
    SettleIs(env, db, f, k, p, now, newId);
  }

  // The contact found

  ghost predicate Nobody(contacts: Contacts, k: Claims, p: Payload) {
    if k.identified then
      && (forall o :: !HoldsExternalId(contacts, k.org, k.externalId, o))
      && !(p.verified && k.email != "" && exists o :: HoldsEmailOnly(contacts, k.org, k.email, o))
    else forall o :: !HoldsEmail(contacts, k.org, k.email, o)
  }

  /** `o` is who the session says it is: by external id, else by the address it proved, or by a plain address. */
  ghost predicate IsWhom(contacts: Contacts, k: Claims, p: Payload, o: Id) {
    if k.identified then
      || HoldsExternalId(contacts, k.org, k.externalId, o)
      || (&& p.verified && k.email != "" && HoldsEmailOnly(contacts, k.org, k.email, o)
          && forall x :: !HoldsExternalId(contacts, k.org, k.externalId, x))
    else HoldsEmail(contacts, k.org, k.email, o)
  }

  predicate SaysWho(k: Claims) {
    if k.identified then k.externalId != "" else k.email != ""
  }

  /** The contact of the pass: who the session is, unless that is an anonymized one, or a new one. */
  ghost predicate IsFound(contacts: Contacts, k: Claims, p: Payload, newId: Id, contact: Option<Id>) {
    if !SaysWho(k) then contact.None?
    else if Nobody(contacts, k, p) then contact == Some(newId)
    else
      && (forall o :: IsWhom(contacts, k, p, o) ==> contact == (if contacts[o].anonymized then None else Some(o)))
      && exists o :: IsWhom(contacts, k, p, o)
  }

  lemma OneWhom(contacts: Contacts, k: Claims, p: Payload, o: Id, x: Id)
    requires UniqueContacts(contacts) && SaysWho(k) && IsWhom(contacts, k, p, o) && IsWhom(contacts, k, p, x)
    ensures o == x
  {
    assert !ContactsClash(contacts, o, x);
  }

  lemma LookupIsWhom(contacts: Contacts, k: Claims, p: Payload, now: Time, newId: Id, f: Lookup)
    requires UniqueContacts(contacts) && newId !in contacts && SaysWho(k) && f == LookedUp(contacts, k, p, now, newId)
    ensures f.Found?
    ensures if Nobody(contacts, k, p) then
              f.id == newId && f.contacts == contacts[newId := Unknown(k, now)]
              && f.draft == f.loaded == Unknown(k, now) && f.created == !k.identified
            else
              && IsWhom(contacts, k, p, f.id) && f.contacts == contacts && f.id in contacts && f.loaded == contacts[f.id]
              && f.draft == contacts[f.id].(externalId := if k.identified then k.externalId else contacts[f.id].externalId)
              && !f.created
  {}

  lemma PassFinds(env: Env, db: Db, sid: Id, s: Session, k: Claims, p: Payload, now: Time, ids: NewIds)
    requires UniqueContacts(db.contacts) && ids.contact !in db.contacts
    ensures IsFound(db.contacts, k, p, ids.contact, Resolve(env, db, sid, s, k, p, now, ids).contact)
  {
    if SaysWho(k) {
      var f := LookedUp(db.contacts, k, p, now, ids.contact);
      LookupIsWhom(db.contacts, k, p, now, ids.contact, f);
      if !Nobody(db.contacts, k, p) {
        forall o | IsWhom(db.contacts, k, p, o) ensures o == f.id {
          OneWhom(db.contacts, k, p, o, f.id);
        }
      }
    }
  }

  // The pass

  /** What the pass leaves of the contact it found, and of the companies. */
  ghost predicate IsPassed(
    env: Env, db: Db, after: Db, k: Claims, p: Payload, now: Time, ids: NewIds, id: Id, other: Option<Id>)
  {
    var before, taken := Before(db.contacts, id, k, now), RowOf(db.contacts, other);
    var isNew := !k.identified && id !in db.contacts;
    && id in after.contacts
    && IsSettled(db.contacts, k, p, now, isNew, before, taken, after.contacts[id])
    && IsEmployed(env, db.companies, after.companies, k, p, now, ids.company, isNew, OwnCompany(before, taken),
                  after.contacts[id])
  }

  lemma SameContactsSettle(
    contacts: Contacts, k: Claims, p: Payload, now: Time, newId: Id, other: Option<Id>, after: Contact, isNew: bool)
    requires newId !in contacts && IsOther(contacts, k, p, Unknown(k, now), other)
    ensures var more := contacts[newId := Unknown(k, now)];
      && IsOther(more, k, p, Unknown(k, now), other) && RowOf(more, other) == RowOf(contacts, other)
      && (IsSettled(more, k, p, now, isNew, Unknown(k, now), RowOf(contacts, other), after) ==>
            IsSettled(contacts, k, p, now, isNew, Unknown(k, now), RowOf(contacts, other), after))
  {
    var more := contacts[newId := Unknown(k, now)];
    if k.identified && k.email != "" {
      forall o ensures HoldsEmailOnly(more, k.org, k.email, o) == HoldsEmailOnly(contacts, k.org, k.email, o) {}
      forall o ensures HoldsEmail(more, k.org, k.email, o) == HoldsEmail(contacts, k.org, k.email, o) {}
    }
    forall o ensures TakesIn(more, k, p, Unknown(k, now), o) == TakesIn(contacts, k, p, Unknown(k, now), o) {}
  }

  /** The external id that a contact has before plays no part but for itself, where the session is identified. */
  lemma SameButNamed(
    contacts: Contacts, k: Claims, p: Payload, now: Time, before: Contact, named: Contact, other: Option<Id>,
    after: Contact, isNew: bool)
    requires named == before.(externalId := named.externalId) && (!k.identified ==> named == before)
    ensures IsOther(contacts, k, p, before, other) ==> IsOther(contacts, k, p, named, other)
    ensures IsSettled(contacts, k, p, now, isNew, named, RowOf(contacts, other), after)
      ==> IsSettled(contacts, k, p, now, isNew, before, RowOf(contacts, other), after)
  {
    forall o ensures TakesIn(contacts, k, p, named, o) == TakesIn(contacts, k, p, before, o) {}
  }

  lemma NewIsUnique(contacts: Contacts, k: Claims, p: Payload, now: Time, newId: Id)
    requires UniqueContacts(contacts) && newId !in contacts && SaysWho(k) && Nobody(contacts, k, p)
    ensures UniqueContacts(contacts[newId := Unknown(k, now)])
  {
    var more := contacts[newId := Unknown(k, now)];
    forall a ensures !ContactsClash(more, a, newId) && !ContactsClash(more, newId, a) {
      if k.identified {
        assert !HoldsExternalId(contacts, k.org, k.externalId, a);
      } else {
        assert !HoldsEmail(contacts, k.org, k.email, a);
      }
    }
    forall a, b ensures !ContactsClash(more, a, b) {
      assert !ContactsClash(contacts, a, b);
      assert !ContactsClash(more, a, newId) && !ContactsClash(more, newId, b);
    }
  }

  lemma NewSettles(env: Env, db: Db, k: Claims, p: Payload, now: Time, ids: NewIds, f: Lookup, other: Option<Id>)
    requires UniqueContacts(db.contacts) && ids.contact !in db.contacts && ids.company !in db.companies && SaysWho(k)
    requires Nobody(db.contacts, k, p) && f == LookedUp(db.contacts, k, p, now, ids.contact)
    requires f.Found? && IsOther(db.contacts, k, p, Unknown(k, now), other)
    ensures var settled := Settle(env, db, f, k, p, now, ids.company);
      IsSettled(db.contacts, k, p, now, !k.identified, Unknown(k, now), RowOf(db.contacts, other), settled.contact)
      && IsEmployed(env, db.companies, settled.db.companies, k, p, now, ids.company, !k.identified,
                    OwnCompany(Unknown(k, now), RowOf(db.contacts, other)), settled.contact)
  {
    LookupIsWhom(db.contacts, k, p, now, ids.contact, f);
    NewIsUnique(db.contacts, k, p, now, ids.contact);
    var after := Settle(env, db, f, k, p, now, ids.company).contact;
    SameContactsSettle(db.contacts, k, p, now, ids.contact, other, after, f.created);
    SettlingSettles(env, db, f, k, p, now, ids.company, other);
    SettlingEmploys(env, db, f, k, p, now, ids.company, other);
  }

  lemma KnownSettles(env: Env, db: Db, k: Claims, p: Payload, now: Time, ids: NewIds, f: Lookup, other: Option<Id>)
    requires UniqueContacts(db.contacts) && ids.contact !in db.contacts && ids.company !in db.companies && SaysWho(k)
    requires !Nobody(db.contacts, k, p) && f == LookedUp(db.contacts, k, p, now, ids.contact)
    requires f.Found? && f.id in db.contacts && !f.draft.anonymized
    requires IsOther(db.contacts, k, p, db.contacts[f.id], other)
    ensures var settled := Settle(env, db, f, k, p, now, ids.company);
      IsSettled(db.contacts, k, p, now, false, db.contacts[f.id], RowOf(db.contacts, other), settled.contact)
      && IsEmployed(env, db.companies, settled.db.companies, k, p, now, ids.company, false,
                    OwnCompany(db.contacts[f.id], RowOf(db.contacts, other)), settled.contact)
  {
    LookupIsWhom(db.contacts, k, p, now, ids.contact, f);
    var after := Settle(env, db, f, k, p, now, ids.company).contact;
    SameButNamed(db.contacts, k, p, now, db.contacts[f.id], f.draft, other, after, false);
    SettlingSettles(env, db, f, k, p, now, ids.company, other);
    SettlingEmploys(env, db, f, k, p, now, ids.company, other);
  }

  /** The rows of contacts that the pass leaves: no other is changed, and only the one taken in goes. */
  ghost predicate OthersStay(contacts: Contacts, after: Contacts, id: Id, other: Option<Id>) {
    id in after && after == (if other.Some? then contacts - {other.value} else contacts)[id := after[id]]
  }

  lemma SettlingKeepsOthers(
    env: Env, db: Db, f: Lookup, k: Claims, p: Payload, now: Time, newId: Id, other: Option<Id>)
    requires f.Found? && UniqueContacts(f.contacts) && IsOther(f.contacts, k, p, f.draft, other) && f.draft.org == k.org
    ensures var settled := Settle(env, db, f, k, p, now, newId);
      f.id in settled.db.contacts && settled.db.contacts[f.id] == settled.contact
      && settled.db.contacts == (if other.Some? then f.contacts - {other.value} else f.contacts)[f.id := settled.contact]
  {
    if k.identified && p.verified && f.draft.email == "" && k.email != "" {
      HolderIsOther(f.contacts, k, p, f.draft, other);
    }
  }

  /** What the settling leaves is what the pass does. */
  lemma NewPasses(env: Env, db: Db, k: Claims, p: Payload, now: Time, ids: NewIds, f: Lookup, other: Option<Id>)
    requires UniqueContacts(db.contacts) && ids.contact !in db.contacts && ids.company !in db.companies && SaysWho(k)
    requires Nobody(db.contacts, k, p) && f == LookedUp(db.contacts, k, p, now, ids.contact)
    requires f.Found? && f.id == ids.contact && IsOther(db.contacts, k, p, Unknown(k, now), other)
    ensures var after := Settle(env, db, f, k, p, now, ids.company).db;
      IsPassed(env, db, after, k, p, now, ids, f.id, other) && OthersStay(db.contacts, after.contacts, f.id, other)
  {
    LookupIsWhom(db.contacts, k, p, now, ids.contact, f);
    NewIsUnique(db.contacts, k, p, now, ids.contact);
    SameContactsSettle(db.contacts, k, p, now, ids.contact, other, Unknown(k, now), false);
    NewSettles(env, db, k, p, now, ids, f, other);
    SettlingKeepsOthers(env, db, f, k, p, now, ids.company, other);
  }

  lemma KnownPasses(env: Env, db: Db, k: Claims, p: Payload, now: Time, ids: NewIds, f: Lookup, other: Option<Id>)
    requires UniqueContacts(db.contacts) && ids.contact !in db.contacts && ids.company !in db.companies && SaysWho(k)
    requires !Nobody(db.contacts, k, p) && f == LookedUp(db.contacts, k, p, now, ids.contact)
    requires f.Found? && f.id in db.contacts && !f.draft.anonymized
    requires IsOther(db.contacts, k, p, db.contacts[f.id], other)
    ensures var after := Settle(env, db, f, k, p, now, ids.company).db;
      IsPassed(env, db, after, k, p, now, ids, f.id, other) && OthersStay(db.contacts, after.contacts, f.id, other)
  {
    LookupIsWhom(db.contacts, k, p, now, ids.contact, f);
    SameButNamed(db.contacts, k, p, now, db.contacts[f.id], f.draft, other, db.contacts[f.id], false);
    KnownSettles(env, db, k, p, now, ids, f, other);
    SettlingKeepsOthers(env, db, f, k, p, now, ids.company, other);
  }

  /**
   A pass that finds a contact: which, and all that it, its company and the other
   contacts hold afterwards, of what they held and the session says.
   */
  lemma PassDoes(
    env: Env, db: Db, sid: Id, s: Session, k: Claims, p: Payload, now: Time, ids: NewIds, id: Id, other: Option<Id>)
    requires UniqueContacts(db.contacts) && ids.contact !in db.contacts && ids.company !in db.companies
    requires Resolve(env, db, sid, s, k, p, now, ids).contact == Some(id)
    requires IsOther(db.contacts, k, p, Before(db.contacts, id, k, now), other)
    ensures var after := Resolve(env, db, sid, s, k, p, now, ids).db;
      && IsFound(db.contacts, k, p, ids.contact, Some(id))
      && IsPassed(env, db, after, k, p, now, ids, id, other)
      && OthersStay(db.contacts, after.contacts, id, other)
  {
    PassFinds(env, db, sid, s, k, p, now, ids);
    var f := LookedUp(db.contacts, k, p, now, ids.contact);
    LookupIsWhom(db.contacts, k, p, now, ids.contact, f);
    SavedIs(env, db, sid, s, k, p, now, ids, f);
    if Nobody(db.contacts, k, p) {
      NewPasses(env, db, k, p, now, ids, f, other);
    } else {
      KnownPasses(env, db, k, p, now, ids, f, other);
    }
  }

  lemma SavedIs(env: Env, db: Db, sid: Id, s: Session, k: Claims, p: Payload, now: Time, ids: NewIds, f: Lookup)
    requires f == LookedUp(db.contacts, k, p, now, ids.contact) && f.Found? && !f.draft.anonymized
    ensures var settled := Settle(env, db, f, k, p, now, ids.company);
      var o := Resolve(env, db, sid, s, k, p, now, ids);
      && o.db.contacts == settled.db.contacts && o.db.companies == settled.db.companies && o.contact == Some(f.id)
      && (o.db.sessions, o.session)
         == var (db1, s1) := SessionSaved(settled.db, sid, s, f.id, settled.proven, k.email, p.source, now); (db1.sessions, s1)
  {}

  /** A contact is dated now if anything but its visits changed. */
  lemma PassDates(env: Env, db: Db, sid: Id, s: Session, k: Claims, p: Payload, now: Time, ids: NewIds, id: Id)
    requires UniqueContacts(db.contacts) && ids.contact !in db.contacts
    requires Resolve(env, db, sid, s, k, p, now, ids).contact == Some(id)
    ensures var after := Resolve(env, db, sid, s, k, p, now, ids).db.contacts;
      var before := Before(db.contacts, id, k, now);
      && id in after
      && after[id].updatedAt
         == (if after[id].(firstSeen := before.firstSeen, lastSeen := before.lastSeen, updatedAt := before.updatedAt) == before
             then before.updatedAt else now)
  {
    PassFinds(env, db, sid, s, k, p, now, ids);
    var f := LookedUp(db.contacts, k, p, now, ids.contact);
    LookupIsWhom(db.contacts, k, p, now, ids.contact, f);
    SavedIs(env, db, sid, s, k, p, now, ids, f);
    SettlingDates(env, db, f, k, p, now, ids.company);
  }

  lemma SettlingDates(env: Env, db: Db, f: Lookup, k: Claims, p: Payload, now: Time, newId: Id)
    requires f.Found? && f.draft.updatedAt == f.loaded.updatedAt
    ensures var settled := Settle(env, db, f, k, p, now, newId);
      f.id in settled.db.contacts && settled.db.contacts[f.id] == settled.contact
      && settled.contact.updatedAt
         == (if settled.contact.(firstSeen := f.loaded.firstSeen, lastSeen := f.loaded.lastSeen,
                                 updatedAt := f.loaded.updatedAt) == f.loaded
             then f.loaded.updatedAt else now)
  {
    SettleIs(env, db, f, k, p, now, newId);
    var c1 := Identified(db.(contacts := f.contacts), f.id, f.draft, k, p, now).1;
    IdentifyingDatesNothing(db.(contacts := f.contacts), f.id, f.draft, k, p, now);
    var (companies, c2) := WithCompany(env, db.companies, c1, k, p, now, newId);
    CompanyOnly(env, db.companies, c1, k, p, now, newId);
    SavingDates(f.loaded, Finished(env, companies, c2, k, p, f.created, now), now);
  }

  lemma IdentifyingDatesNothing(db: Db, id: Id, c: Contact, k: Claims, p: Payload, now: Time)
    ensures Identified(db, id, c, k, p, now).1.updatedAt == c.updatedAt
  {}

  lemma SavingDates(loaded: Contact, c: Contact, now: Time)
    requires c.updatedAt == loaded.updatedAt
    ensures var saved := Saved(loaded, c, now);
      saved.updatedAt
      == (if saved.(firstSeen := loaded.firstSeen, lastSeen := loaded.lastSeen, updatedAt := loaded.updatedAt) == loaded
          then loaded.updatedAt else now)
  {}

  // The session

  /** The row of the pass's session: on that contact, and proven for the address if it still is the session's. */
  predicate IsSaved(
    row: Session, s: Session, contact: Option<Id>, other: Option<Id>, proven: bool, email: string, source: ProofSource,
    now: Time, after: Session)
  {
    && after == row.(contact := after.contact, verifiedAt := after.verifiedAt, verifiedFor := after.verifiedFor,
                     proofSource := after.proofSource, updatedAt := after.updatedAt)
    && after.contact == (if s.contact != contact then contact
                         else if row.contact.Some? && row.contact == other then contact else row.contact)
    && var records := IsNews(s, proven, email, source) && Lower(row.email) == email;
       var signs := records && source.Signed? && !row.proofSource.Signed?;
       && (if records && row.verifiedFor != email then
             after.verifiedFor == email && after.verifiedAt == Some(now) && after.proofSource == source
           else
             && after.verifiedFor == row.verifiedFor && after.verifiedAt == row.verifiedAt
             && after.proofSource == (if signs then Signed else row.proofSource))
       && after.updatedAt
          == (if s.contact != contact || (records && row.verifiedFor != email) || signs then now else row.updatedAt)
  }

  /** A proof that the session, as the pass read it, doesn't have, or only of a code. */
  predicate IsNews(s: Session, proven: bool, email: string, source: ProofSource) {
    proven && (s.verifiedFor != email || (source.Signed? && !s.proofSource.Signed?))
  }

  /** What the pass returns of the session it read: on the contact, with the proof its row then has. */
  predicate IsReturned(s: Session, sessions: map<Id, Session>, sid: Id, id: Id, news: bool, s1: Session) {
    if sid in sessions && news then
      var row := sessions[sid];
      s1 == s.(contact := Some(id), verifiedAt := row.verifiedAt, verifiedFor := row.verifiedFor,
               proofSource := row.proofSource)
    else s1 == s.(contact := Some(id))
  }

  /** Each session afterwards: the pass's own saved, those of the contact taken in moved along, and no other. */
  predicate SessionsSaved(
    sessions: map<Id, Session>, after: map<Id, Session>, sid: Id, s: Session, id: Id, other: Option<Id>, proven: bool,
    email: string, source: ProofSource, now: Time)
  {
    && after.Keys == sessions.Keys
    && (forall o :: o in sessions && o != sid ==>
          after[o] == sessions[o].(contact := MovedTo(sessions[o].contact, other, id)))
    && (sid in sessions ==> IsSaved(sessions[sid], s, Some(id), other, proven, email, source, now, after[sid]))
  }

  lemma SavingSavesSessions(
    db: Db, db1: Db, sid: Id, s: Session, id: Id, other: Option<Id>, proven: bool, email: string, source: ProofSource,
    now: Time)
    requires RowsMoved(db, db1, other, id)
    ensures var (db2, s1) := SessionSaved(db1, sid, s, id, proven, email, source, now);
      && SessionsSaved(db.sessions, db2.sessions, sid, s, id, other, proven, email, source, now)
      && IsReturned(s, db2.sessions, sid, id, IsNews(s, proven, email, source), s1)
  {
    if sid in db.sessions {
      RowIsSaved(db.sessions[sid], db1.sessions[sid], s, id, other, proven, email, source, now);
    }
  }

  lemma PassSavesSessions(
    env: Env, db: Db, sid: Id, s: Session, k: Claims, p: Payload, now: Time, ids: NewIds, id: Id, other: Option<Id>)
    requires UniqueContacts(db.contacts) && ids.contact !in db.contacts && ids.company !in db.companies
    requires Resolve(env, db, sid, s, k, p, now, ids).contact == Some(id)
    requires IsOther(db.contacts, k, p, Before(db.contacts, id, k, now), other)
    ensures var o := Resolve(env, db, sid, s, k, p, now, ids);
      && id in o.db.contacts
      && var proves := Proves(k, p, o.db.contacts[id]);
         && SessionsSaved(db.sessions, o.db.sessions, sid, s, id, other, proves, k.email, p.source, now)
         && IsReturned(s, o.db.sessions, sid, id, IsNews(s, proves, k.email, p.source), o.session)
  {
    PassFinds(env, db, sid, s, k, p, now, ids);
    var f := LookedUp(db.contacts, k, p, now, ids.contact);
    LookupIsWhom(db.contacts, k, p, now, ids.contact, f);
    SavedIs(env, db, sid, s, k, p, now, ids, f);
    TakenIs(db.contacts, k, p, now, ids.contact, f, other);
    SettlingMovesRows(env, db, f, k, p, now, ids.company);
    SettledProves(env, db, f, k, p, now, ids.company);
    var settled := Settle(env, db, f, k, p, now, ids.company);
    SavingSavesSessions(db, settled.db, sid, s, id, other, settled.proven, k.email, p.source, now);
  }

  lemma RowIsSaved(
    row: Session, moved: Session, s: Session, id: Id, other: Option<Id>, proven: bool, email: string, source: ProofSource,
    now: Time)
    requires moved == row.(contact := MovedTo(row.contact, other, id))
    ensures IsSaved(row, s, Some(id), other, proven, email, source, now, SavedRow(moved, s, id, proven, email, source, now))
  {}

  lemma TakenIs(contacts: Contacts, k: Claims, p: Payload, now: Time, newId: Id, f: Lookup, other: Option<Id>)
    requires UniqueContacts(contacts) && newId !in contacts && SaysWho(k) && f == LookedUp(contacts, k, p, now, newId)
    requires f.Found? && IsOther(contacts, k, p, Before(contacts, f.id, k, now), other)
    ensures Taken(f, k, p) == other
  {
    LookupIsWhom(contacts, k, p, now, newId, f);
    if Nobody(contacts, k, p) {
      NewIsUnique(contacts, k, p, now, newId);
      SameContactsSettle(contacts, k, p, now, newId, other, Unknown(k, now), false);
    } else {
      SameButNamed(contacts, k, p, now, contacts[f.id], f.draft, other, contacts[f.id], false);
    }
    if k.identified && p.verified && f.draft.email == "" && k.email != "" {
      HolderIsOther(f.contacts, k, p, f.draft, other);
    }
  }

  lemma SettledProves(env: Env, db: Db, f: Lookup, k: Claims, p: Payload, now: Time, newId: Id)
    requires f.Found?
    ensures var settled := Settle(env, db, f, k, p, now, newId); settled.proven == Proves(k, p, settled.contact)
    ensures var settled := Settle(env, db, f, k, p, now, newId);
      f.id in settled.db.contacts && settled.db.contacts[f.id] == settled.contact
  {
    SettleIs(env, db, f, k, p, now, newId);
    var c1 := Identified(db.(contacts := f.contacts), f.id, f.draft, k, p, now).1;
    CompanyOnly(env, db.companies, c1, k, p, now, newId);
    var (companies, c2) := WithCompany(env, db.companies, c1, k, p, now, newId);
    VisitOnly(env, companies, f.loaded, c2, k, p, f.created, now);
  }

  /** A pass that finds nobody takes the session off its contact, if it read one, and writes nothing else. */
  lemma NobodyUnlinks(env: Env, db: Db, sid: Id, s: Session, k: Claims, p: Payload, now: Time, ids: NewIds)
    requires Resolve(env, db, sid, s, k, p, now, ids).contact.None?
    ensures var o := Resolve(env, db, sid, s, k, p, now, ids);
      && o.session == s.(contact := None)
      && o.db == if s.contact.Some? && sid in db.sessions
                 then db.(sessions := db.sessions[sid := db.sessions[sid].(contact := None, updatedAt := now)]) else db
  {}

  // What a session says

  /** A text that can be stored, without the spaces around it. */
  predicate IsStorable(env: Env, text: string) {
    text != "" && env.storable(text)
  }

  /**
   What the service uses of a session: an address or an external id only within its
   length, the former valid, the latter as it is and not of a reserved form, and the
   start of a name.
   */
  lemma ClaimsAre(env: Env, s: Session)
    ensures var k := ClaimsOf(env, s);
      && k.org == s.org && (k.identified <==> s.externalId != "")
      && k.externalId == (if && IsStorable(env, s.externalId) && Strip(s.externalId) == s.externalId
                             && |s.externalId| <= 255
                             && !StartsWith(s.externalId, "email:") && !StartsWith(s.externalId, "company\n")
                          then s.externalId else "")
      && k.email == (if && IsStorable(env, Strip(s.email)) && |Strip(s.email)| <= 254 && env.validEmail(Normalized(s.email))
                     then Normalized(s.email) else "")
      && k.name == (if !IsStorable(env, Strip(s.name)) then ""
                    else if |Strip(s.name)| <= 255 then Strip(s.name) else Strip(s.name)[..255])
  {
    LowerAt(Strip(s.email));
    assert Strip("") == "" && Lower("") == "";
  }

  /** The domain of an address with one "@", trimmed and in lower case. */
  lemma {:induction false} DomainIsAfterAt(local: string, domain: string)
    requires '@' !in domain
    ensures EmailDomain(local + "@" + domain) == Normalized(domain)
  {
    LastAt(local, domain);
    assert (local + "@" + domain)[|local|] == '@';
  }

  lemma {:induction false} LastAt(local: string, domain: string)
    requires '@' !in domain
    ensures AfterLastAt(local + "@" + domain) == domain
  {
    var s := local + "@" + domain;
    if domain == "" {
      assert s[|s| - 1] == '@';
    } else {
      var front := domain[..|domain| - 1];
      assert s[..|s| - 1] == local + "@" + front;
      assert s[|s| - 1] == domain[|domain| - 1] && domain[|domain| - 1] in domain;
      assert forall c :: c in front ==> c in domain;
      LastAt(local, front);
    }
  }

  // Its tickets

  function TicketContact(t: Ticket, sid: Id, s: Session, id: Id, other: Option<Id>): Option<Id> {
    if t.contact.Some? then MovedTo(t.contact, other, id)
    else if t.session == Some(sid) && t.org == s.org && s.contact != Some(id) then Some(id)
    else None
  }

  predicate TicketsMoved(
    tickets: map<Id, Ticket>, after: map<Id, Ticket>, sid: Id, s: Session, id: Id, other: Option<Id>)
  {
    && after.Keys == tickets.Keys
    && forall t :: t in tickets ==> after[t] == tickets[t].(contact := TicketContact(tickets[t], sid, s, id, other))
  }

  /**
   Each ticket after the pass and the link: with the contact taken in, or, opened by a
   session that gets another contact, on that one if it had none.
   */
  lemma LinkMovesTickets(
    env: Env, db: Db, sid: Id, s: Session, p: Payload, now: Time, ids: NewIds, id: Id, other: Option<Id>)
    requires UniqueContacts(db.contacts) && ids.contact !in db.contacts && ids.company !in db.companies
    requires LinkSession(env, db, sid, s, p, now, ids).contact == Some(id)
    requires IsOther(db.contacts, ClaimsOf(env, s), p, Before(db.contacts, id, ClaimsOf(env, s), now), other)
    ensures TicketsMoved(db.tickets, LinkSession(env, db, sid, s, p, now, ids).db.tickets, sid, s, id, other)
  {
    var k := ClaimsOf(env, s);
    PassFinds(env, db, sid, s, k, p, now, ids);
    var f := LookedUp(db.contacts, k, p, now, ids.contact);
    LookupIsWhom(db.contacts, k, p, now, ids.contact, f);
    SavedIs(env, db, sid, s, k, p, now, ids, f);
    TakenIs(db.contacts, k, p, now, ids.contact, f, other);
    SettlingMovesRows(env, db, f, k, p, now, ids.company);
    SessionSavingKeepsRest(Settle(env, db, f, k, p, now, ids.company).db, sid, s, f.id,
                           Settle(env, db, f, k, p, now, ids.company).proven, k.email, p.source, now);
    LinkTickets(Resolve(env, db, sid, s, k, p, now, ids), db, sid, s, id, other);
  }

  lemma LinkTickets(o: Outcome, db: Db, sid: Id, s: Session, id: Id, other: Option<Id>)
    requires o.contact == Some(id) && o.db.tickets.Keys == db.tickets.Keys
    requires forall t :: t in db.tickets ==>
      o.db.tickets[t] == db.tickets[t].(contact := MovedTo(db.tickets[t].contact, other, id))
    ensures TicketsMoved(db.tickets, WithTickets(o, sid, s).db.tickets, sid, s, id, other)
  {
    var after := WithTickets(o, sid, s).db.tickets;
    assert after.Keys == db.tickets.Keys;
    forall t | t in db.tickets
      ensures after[t] == db.tickets[t].(contact := TicketContact(db.tickets[t], sid, s, id, other))
    {
      assert o.db.tickets[t] == db.tickets[t].(contact := MovedTo(db.tickets[t].contact, other, id));
    }
  }
}
