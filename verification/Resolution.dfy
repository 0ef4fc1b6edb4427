/**
 One pass of the identity service over a widget session: what
 `_resolve_session_once` makes of the database, as a function of it
 (backend/apps/contacts/services.py).

 The session is the object the request holds, which may be older than its row. The
 contact of a pass is a draft, written at its end, as the service writes it.
 */
module Resolution {
  import opened Text
  import opened Rows

  const EMAIL_MAX := 254
  const NAME_MAX := 255
  const EXTERNAL_ID_MAX := 255

  /** A company as a payload gives it, its values cleaned: "" where unusable. */
  datatype CompanyClaim = CompanyClaim(
    externalId: string, name: string, domain: string, traits: map<string, Json>)

  /**
   What a session claims, as the service would use it: an external id, an email and a
   name are "" where unusable. One that claims an external id is identified, usable or not.
   */
  datatype Claims = Claims(org: Id, identified: bool, externalId: string, email: string, name: string)

  /** What the caller passes along with the session. The traits are cleaned. */
  datatype Payload = Payload(
    verified: bool,
    source: ProofSource,
    traits: map<string, Json>,
    company: Option<CompanyClaim>,
    companyVerified: bool)

  /** The primary keys the database would give a new contact and a new company. */
  datatype NewIds = NewIds(contact: Id, company: Id)

  datatype Lookup = Nobody | Found(contacts: Contacts, id: Id, created: bool, loaded: Contact, draft: Contact)

  datatype Outcome = Outcome(db: Db, contact: Option<Id>, session: Session)

  // Values as stored

  function CleanText(env: Env, value: string): string {
    if env.storable(Strip(value)) then Strip(value) else ""
  }

  function CleanEmail(env: Env, value: string): string {
    var email := Lower(CleanText(env, value));
    if email == "" || |email| > EMAIL_MAX || !env.validEmail(email) then "" else email
  }

  function CleanName(env: Env, value: string): string {
    var name := CleanText(env, value);
    if |name| <= NAME_MAX then name else name[..NAME_MAX]
  }

  /** The external id of an identified session, or "" if the service wouldn't use it. */
  function UsableExternalId(env: Env, externalId: string): string {
    if || CleanText(env, externalId) != externalId
       || |externalId| > EXTERNAL_ID_MAX
       || Reserved(externalId)
    then ""
    else externalId
  }

  function ClaimsOf(env: Env, s: Session): Claims {
    Claims(s.org, s.externalId != "", UsableExternalId(env, s.externalId),
           CleanEmail(env, s.email), CleanName(env, s.name))
  }

  function Merged(stored: Attributes, cleaned: map<string, Json>): Attributes {
    if cleaned == map[] then stored else Dict(Entries(stored) + cleaned)
  }

  function NewContact(org: Id, email: string, externalId: string, name: string, now: Time): Contact {
    Contact(org, None, email, None, "", externalId, BLANK_PROFILE.(name := name),
            None, None, None, false, false, Dict(map[]), now)
  }

  // Finding the contact

  ghost function FindIdentified(
    contacts: Contacts, org: Id, externalId: string, provenEmail: string, now: Time, newId: Id): (r: Lookup)
    ensures r.Found?
  {
    match ByExternalId(contacts, org, externalId)
    case Some(id) => Found(contacts, id, false, contacts[id], contacts[id])
    case None =>
      match if provenEmail != "" then EmailOnlyHolder(contacts, org, provenEmail) else None
      case Some(id) => Found(contacts, id, false, contacts[id], contacts[id].(externalId := externalId))
      case None =>
        var contact := NewContact(org, "", externalId, "", now);
        Found(contacts[newId := contact], newId, false, contact, contact)
  }

  ghost function FindOrCreateByEmail(
    contacts: Contacts, org: Id, email: string, name: string, now: Time, newId: Id): (r: Lookup)
    ensures r.Found?
  {
    match ByEmail(contacts, org, email)
    case Some(id) => Found(contacts, id, false, contacts[id], contacts[id])
    case None =>
      var contact := NewContact(org, email, "", name, now);
      Found(contacts[newId := contact], newId, true, contact, contact)
  }

  ghost function LookedUp(contacts: Contacts, k: Claims, p: Payload, now: Time, newId: Id): Lookup {
    if k.identified then
      if k.externalId == "" then Nobody
      else FindIdentified(contacts, k.org, k.externalId, if p.verified then k.email else "", now, newId)
    else if k.email != "" then
      FindOrCreateByEmail(contacts, k.org, k.email, k.name, now, newId)
    else
      Nobody
  }

  // Its email

  function Earliest(a: Option<Time>, b: Option<Time>): Option<Time> {
    if a.None? then b else if b.None? then a else Some(if a.value <= b.value then a.value else b.value)
  }

  function Latest(a: Option<Time>, b: Option<Time>): Option<Time> {
    if a.None? then b else if b.None? then a else Some(if a.value >= b.value then a.value else b.value)
  }

  function OrElse(own: string, other: string): string {
    if own != "" then own else other
  }

  function FilledProfile(own: Profile, other: Profile): Profile {
    Profile(OrElse(own.name, other.name), OrElse(own.phone, other.phone),
            OrElse(own.avatarUrl, other.avatarUrl), OrElse(own.jobTitle, other.jobTitle),
            OrElse(own.locale, other.locale), OrElse(own.timezone, other.timezone))
  }

  /** The draft once it took what `other` holds, and its email. */
  function Absorbing(c: Contact, other: Contact): Contact {
    c.(profile := FilledProfile(c.profile, other.profile),
       company := if c.company.None? then other.company else c.company,
       attributes := if Entries(other.attributes) != map[] && c.attributes.Dict?
                     then Dict(Entries(other.attributes) + c.attributes.entries)
                     else c.attributes,
       unsubscribed := c.unsubscribed || other.unsubscribed,
       firstSeen := Earliest(c.firstSeen, other.firstSeen),
       lastSeen := Latest(c.lastSeen, other.lastSeen),
       lastContacted := Latest(c.lastContacted, other.lastContacted),
       email := other.email,
       verifiedAt := None)
  }

  /** The sessions, tickets and notes of `other` on `id`, and its row gone. */
  function AbsorbedInto(db: Db, id: Id, other: Id): Db {
    db.(
      sessions := map k | k in db.sessions ::
        if db.sessions[k].contact == Some(other) then db.sessions[k].(contact := Some(id)) else db.sessions[k],
      tickets := map k | k in db.tickets ::
        if db.tickets[k].contact == Some(other) then db.tickets[k].(contact := Some(id)) else db.tickets[k],
      notes := map k | k in db.notes ::
        if db.notes[k].contact == other then db.notes[k].(contact := id) else db.notes[k],
      contacts := db.contacts - {other})
  }

  /** What an identified session says its email is, stored on its own contact. */
  ghost function RecordedEmail(db: Db, id: Id, c: Contact, email: string, verified: bool): (Db, Contact) {
    if !verified then
      (db, c.(declared := if email == c.email then "" else email))
    else if c.email != "" then
      (db, c)
    else
      match EmailOnlyHolder(db.contacts, c.org, email)
      case Some(other) => (AbsorbedInto(db, id, other), Absorbing(c, db.contacts[other]))
      case None =>
        (db, if ByEmail(db.contacts, c.org, email).None? then c.(email := email, verifiedAt := None) else c)
  }

  /** The draft once the email it holds is proven. */
  function Proven(c: Contact, email: string, now: Time): Contact {
    c.(verifiedAt := if c.verifiedAt.Some? then c.verifiedAt else Some(now),
       declared := if c.declared == email then "" else c.declared)
  }

  // Its name, attributes and company

  function Described(c: Contact, name: string, traits: map<string, Json>): Contact {
    c.(profile := c.profile.(name := OrElse(c.profile.name, name)), attributes := Merged(c.attributes, traits))
  }

  ghost function SignedCompany(
    companies: Companies, org: Id, claim: CompanyClaim, now: Time, newId: Id): (Companies, Option<Id>) {
    var existing := CompanyByExternalId(companies, org, claim.externalId);
    var id := if existing.Some? then existing.value else newId;
    var row := if existing.Some? then companies[id]
               else Company(org, claim.externalId, claim.name, "", Dict(claim.traits), now);
    var others := companies[id := row];
    var takes := claim.domain != "" && claim.domain != row.domain && CompanyOnDomain(others, org, claim.domain).None?;
    var edited := row.(name := claim.name, domain := if takes then claim.domain else row.domain);
    (companies[id := if edited == row then row else edited.(updatedAt := now)], Some(id))
  }

  ghost function UnsignedCompany(
    env: Env, companies: Companies, org: Id, claim: CompanyClaim, provenEmail: string, now: Time, newId: Id)
    : (Companies, Option<Id>)
  {
    match CompanyByExternalId(companies, org, claim.externalId)
    case Some(id) => (companies, Some(id))
    case None =>
      var domain :=
        if || claim.domain == ""
           || claim.domain != EmailDomain(provenEmail)
           || env.publicDomain(claim.domain)
           || CompanyOnDomain(companies, org, claim.domain).Some?
        then "" else claim.domain;
      (companies[newId := Company(org, claim.externalId, claim.name, domain, Dict(claim.traits), now)], Some(newId))
  }

  ghost function ResolvedCompany(
    env: Env, companies: Companies, org: Id, p: Payload, provenEmail: string, now: Time, newId: Id)
    : (Companies, Option<Id>)
  {
    if p.company.None? || p.company.value.externalId == "" || p.company.value.name == "" then (companies, None)
    else if p.companyVerified then SignedCompany(companies, org, p.company.value, now, newId)
    else UnsignedCompany(env, companies, org, p.company.value, provenEmail, now, newId)
  }

  ghost function Autolinked(env: Env, companies: Companies, c: Contact): Contact {
    var domain := EmailDomain(c.email);
    if c.company.Some? || c.email == "" || domain == "" || env.publicDomain(domain) then c
    else c.(company := CompanyOnDomain(companies, c.org, domain))
  }

  function Touched(c: Contact, now: Time): Contact {
    c.(firstSeen := if c.firstSeen.Some? then c.firstSeen else Some(now), lastSeen := Some(now))
  }

  /** The draft as saved over the row it was loaded from: a visit alone is no edit. */
  function Saved(loaded: Contact, c: Contact, now: Time): Contact {
    if c.(firstSeen := loaded.firstSeen, lastSeen := loaded.lastSeen) == loaded then c else c.(updatedAt := now)
  }

  // The session

  /** The row once `email` is proven, if it still has that email. */
  function ProofRecorded(row: Session, email: string, source: ProofSource, now: Time): Session {
    if Lower(row.email) != email then row
    else if row.verifiedFor != email then
      row.(verifiedAt := Some(now), verifiedFor := email, proofSource := source, updatedAt := now)
    else if source.Signed? && !row.proofSource.Signed? then
      row.(proofSource := Signed, updatedAt := now)
    else row
  }

  function WithSession(db: Db, sid: Id, row: Session): Db {
    db.(sessions := db.sessions[sid := row])
  }

  /** The link, where it differs from what the request's session object holds. */
  function LinkedTo(db: Db, sid: Id, s: Session, contact: Option<Id>, now: Time): Db {
    if s.contact == contact || sid !in db.sessions then db
    else WithSession(db, sid, db.sessions[sid].(contact := contact, updatedAt := now))
  }

  /** The pass has a proof to record that the request's session object doesn't hold. */
  predicate Records(s: Session, proven: bool, email: string, source: ProofSource) {
    proven && (s.verifiedFor != email || (source.Signed? && !s.proofSource.Signed?))
  }

  /** The row after a pass on contact `id`, from the object `s` the request holds. */
  function SavedRow(
    row: Session, s: Session, id: Id, proven: bool, email: string, source: ProofSource, now: Time): Session {
    var linked := if s.contact == Some(id) then row else row.(contact := Some(id), updatedAt := now);
    if Records(s, proven, email, source) then ProofRecorded(linked, email, source, now) else linked
  }

  function SessionSaved(
    db: Db, sid: Id, s: Session, id: Id, proven: bool, email: string, source: ProofSource, now: Time): (Db, Session) {
    if sid !in db.sessions then (db, s.(contact := Some(id)))
    else
      var row := SavedRow(db.sessions[sid], s, id, proven, email, source, now);
      (WithSession(db, sid, row),
       if Records(s, proven, email, source)
       then s.(contact := Some(id), verifiedAt := row.verifiedAt, verifiedFor := row.verifiedFor,
               proofSource := row.proofSource)
       else s.(contact := Some(id)))
  }

  // The pass

  predicate EmailProven(k: Claims, p: Payload, c: Contact) {
    p.verified && k.email != "" && c.email == k.email
  }

  /** The draft's email declared, or proven and stored. */
  ghost function Identified(db: Db, id: Id, c: Contact, k: Claims, p: Payload, now: Time): (Db, Contact) {
    var (db1, c1) := if k.identified && k.email != "" then RecordedEmail(db, id, c, k.email, p.verified) else (db, c);
    (db1, Claimed(c1, k, p, now))
  }

  /** What the proof makes of the draft, and what the browser may then say of it. */
  function Claimed(c: Contact, k: Claims, p: Payload, now: Time): Contact {
    var c1 := if EmailProven(k, p, c) then Proven(c, k.email, now) else c;
    if k.identified || EmailProven(k, p, c) then Described(c1, k.name, p.traits) else c1
  }

  ghost function WithCompany(
    env: Env, companies: Companies, c: Contact, k: Claims, p: Payload, now: Time, newId: Id): (Companies, Contact) {
    if k.identified && (p.companyVerified || c.company.None?) then
      var (companies1, linked) :=
        ResolvedCompany(env, companies, k.org, p, if EmailProven(k, p, c) then k.email else "", now, newId);
      (companies1, if linked.Some? then c.(company := linked) else c)
    else
      (companies, c)
  }

  ghost function Finished(
    env: Env, companies: Companies, c: Contact, k: Claims, p: Payload, created: bool, now: Time): Contact {
    var c1 := if created || (k.identified && c.verifiedAt.Some?) then Autolinked(env, companies, c) else c;
    if created || k.identified || EmailProven(k, p, c) then Touched(c1, now) else c1
  }

  /** What a pass makes of the contact it found, saved. */
  datatype Settled = Settled(db: Db, contact: Contact, proven: bool)

  ghost function Settle(env: Env, db: Db, f: Lookup, k: Claims, p: Payload, now: Time, newId: Id): Settled
    requires f.Found?
  {
    var (db1, c1) := Identified(db.(contacts := f.contacts), f.id, f.draft, k, p, now);
    var (companies, c2) := WithCompany(env, db1.companies, c1, k, p, now, newId);
    var c3 := Saved(f.loaded, Finished(env, companies, c2, k, p, f.created, now), now);
    Settled(db1.(contacts := db1.contacts[f.id := c3], companies := companies), c3, EmailProven(k, p, c1))
  }

  ghost function Resolve(
    env: Env, db: Db, sid: Id, s: Session, k: Claims, p: Payload, now: Time, ids: NewIds): Outcome {
    var f := LookedUp(db.contacts, k, p, now, ids.contact);
    if f.Nobody? || f.draft.anonymized then
      Outcome(LinkedTo(db, sid, s, None, now), None, s.(contact := None))
    else
      var settled := Settle(env, db, f, k, p, now, ids.company);
      var (db1, s1) := SessionSaved(settled.db, sid, s, f.id, settled.proven, k.email, p.source, now);
      Outcome(db1, Some(f.id), s1)
  }

  /** `_resolve_session_once`. */
  ghost function ResolveOnce(env: Env, db: Db, sid: Id, s: Session, p: Payload, now: Time, ids: NewIds): Outcome {
    Resolve(env, db, sid, s, ClaimsOf(env, s), p, now, ids)
  }

  /** The tickets a session opened before it had a contact, linked once it gets one. */
  function TicketsLinked(db: Db, org: Id, sid: Id, contact: Option<Id>): Db {
    db.(tickets := map k | k in db.tickets ::
      var t := db.tickets[k];
      if t.org == org && t.session == Some(sid) && t.contact.None? then t.(contact := contact) else t)
  }

  /** Only once the session gets another contact: else an agent cleared that of a ticket without one. */
  function WithTickets(o: Outcome, sid: Id, s: Session): Outcome {
    if o.contact.Some? && o.contact != s.contact then o.(db := TicketsLinked(o.db, s.org, sid, o.contact)) else o
  }

  /** `_link_session_contact`: the pass, and the tickets, in one transaction. */
  ghost function LinkSession(env: Env, db: Db, sid: Id, s: Session, p: Payload, now: Time, ids: NewIds): Outcome {
    WithTickets(ResolveOnce(env, db, sid, s, p, now, ids), sid, s)
  }
}
