/**
 The rows the identity service reads and writes, and the database holding them.

 A row is a value, a table a map from primary keys to rows, and a foreign key an
 `Option` of a key. A transaction is a function from one database to the next.
 */
module Rows {
  import opened Text

  type Id = nat
  type Time = nat

  datatype Option<+T> = None | Some(value: T)

  /** A JSON value, as far as these rules look into one. */
  datatype Json = JTrue | JString(text: string) | JOther(code: int)

  /** What a JSON column holds: an object, or anything else a client managed to store. */
  datatype Attributes = Dict(entries: map<string, Json>) | NotDict(value: Json)

  datatype Profile = Profile(
    name: string, phone: string, avatarUrl: string, jobTitle: string, locale: string, timezone: string)

  const BLANK_PROFILE := Profile("", "", "", "", "", "")

  datatype Contact = Contact(
    org: Id,
    company: Option<Id>,
    email: string,
    verifiedAt: Option<Time>,
    declared: string,
    externalId: string,
    profile: Profile,
    firstSeen: Option<Time>,
    lastSeen: Option<Time>,
    lastContacted: Option<Time>,
    unsubscribed: bool,
    anonymized: bool,
    attributes: Attributes,
    updatedAt: Time)

  datatype ProofSource = NoProof | Signed | Code

  datatype Session = Session(
    org: Id,
    externalId: string,
    name: string,
    email: string,
    userAgent: string,
    contact: Option<Id>,
    verifiedAt: Option<Time>,
    verifiedFor: string,
    proofSource: ProofSource,
    lastSeenAt: Time,
    updatedAt: Time,
    createdAt: Time)

  datatype Source = Widget | Email | Api | Agent

  datatype Ticket = Ticket(
    org: Id,
    source: Source,
    contact: Option<Id>,
    session: Option<Id>,
    externalId: string,
    requester: Option<Id>,
    requesterEmail: string,
    requesterName: string,
    title: string,
    description: string,
    contextUrl: string,
    contextUserAgent: string,
    metadata: Attributes,
    createdAt: Time,
    updatedAt: Time)

  datatype Sender = FromUser | FromAgent | FromSystem

  datatype Message = Message(
    ticket: Id,
    session: Option<Id>,
    sender: Sender,
    author: Option<Id>,
    body: string,
    isText: bool,
    externalId: string,
    externalSender: string,
    updatedAt: Time)

  datatype Company = Company(
    org: Id, externalId: string, name: string, domain: string, attributes: Attributes, updatedAt: Time)

  datatype Note = Note(contact: Id, body: string)

  datatype Role = EndUser | AgentRole | Admin

  datatype User = User(role: Role, superuser: bool, org: Option<Id>, email: string, fullName: string)

  /** A file or a recording on a ticket. */
  datatype Upload = Upload(ticket: Id, uploadedBy: Option<Id>, file: string)

  /** A stored inbound mail. Its organizations are those of its mailbox and of its ticket. */
  datatype StoredMail = StoredMail(sender: string, ticket: Option<Id>, mailboxOrg: Option<Id>)

  /** A one-time code. A login code has neither organization nor session. */
  datatype OneTimeCode = OneTimeCode(email: string, forWidget: bool, org: Option<Id>, session: Option<Id>)

  datatype Db = Db(
    contacts: map<Id, Contact>,
    sessions: map<Id, Session>,
    tickets: map<Id, Ticket>,
    messages: map<Id, Message>,
    companies: map<Id, Company>,
    notes: map<Id, Note>,
    uploads: map<Id, Upload>,
    mails: map<Id, StoredMail>,
    codes: map<Id, OneTimeCode>,
    users: map<Id, User>)

  /** What of the instance the rules depend on, and cannot be told from a row. */
  datatype Env = Env(
    storable: string -> bool, validEmail: string -> bool, publicDomain: string -> bool, isUuid: string -> bool)

  const PRE_LOGIN_ANONYMOUS := "pre_login_anonymous"
  const PRE_LOGIN_SESSION_HASH := "pre_login_session_hash"

  function Entries(attributes: Attributes): map<string, Json> {
    if attributes.Dict? then attributes.entries else map[]
  }

  /** The metadata has the key a login leaves, with whatever value. */
  predicate HasLoginKey(metadata: Attributes) {
    metadata.Dict? && PRE_LOGIN_ANONYMOUS in metadata.entries
  }

  predicate MovedByLogin(t: Ticket) {
    HasLoginKey(t.metadata)
  }

  /** Prefixes no user's id has: its signature would be that of an email, or of a company. */
  predicate Reserved(externalId: string) {
    StartsWith(externalId, "email:") || StartsWith(externalId, "company\n")
  }

  // Lookups. `first()` of a query that uniqueness leaves at most one row to.

  type Contacts = map<Id, Contact>
  type Companies = map<Id, Company>

  predicate HoldsEmail(contacts: Contacts, org: Id, email: string, id: Id) {
    id in contacts && contacts[id].org == org && contacts[id].email == email
  }

  predicate HoldsExternalId(contacts: Contacts, org: Id, externalId: string, id: Id) {
    id in contacts && contacts[id].org == org && contacts[id].externalId == externalId
  }

  /** An email-only contact: no identity of its own, and not anonymized. */
  predicate HoldsEmailOnly(contacts: Contacts, org: Id, email: string, id: Id) {
    HoldsEmail(contacts, org, email, id) && contacts[id].externalId == "" && !contacts[id].anonymized
  }

  predicate IsCompany(companies: Companies, org: Id, externalId: string, id: Id) {
    id in companies && companies[id].org == org && companies[id].externalId == externalId
  }

  predicate OnDomain(companies: Companies, org: Id, domain: string, id: Id) {
    id in companies && companies[id].org == org && companies[id].domain == domain
  }

  ghost function ByEmail(contacts: Contacts, org: Id, email: string): Option<Id> {
    if exists id :: HoldsEmail(contacts, org, email, id)
    then var id :| HoldsEmail(contacts, org, email, id); Some(id)
    else None
  }

  ghost function ByExternalId(contacts: Contacts, org: Id, externalId: string): Option<Id> {
    if exists id :: HoldsExternalId(contacts, org, externalId, id)
    then var id :| HoldsExternalId(contacts, org, externalId, id); Some(id)
    else None
  }

  ghost function EmailOnlyHolder(contacts: Contacts, org: Id, email: string): Option<Id> {
    if exists id :: HoldsEmailOnly(contacts, org, email, id)
    then var id :| HoldsEmailOnly(contacts, org, email, id); Some(id)
    else None
  }

  ghost function CompanyByExternalId(companies: Companies, org: Id, externalId: string): Option<Id> {
    if exists id :: IsCompany(companies, org, externalId, id)
    then var id :| IsCompany(companies, org, externalId, id); Some(id)
    else None
  }

  ghost function CompanyOnDomain(companies: Companies, org: Id, domain: string): Option<Id> {
    if exists id :: OnDomain(companies, org, domain, id)
    then var id :| OnDomain(companies, org, domain, id); Some(id)
    else None
  }

  // The unique constraints, each over the rows where the column isn't blank.

  predicate ContactsClash(contacts: Contacts, a: Id, b: Id) {
    && a in contacts && b in contacts && a != b && contacts[a].org == contacts[b].org
    && (|| (contacts[a].email != "" && contacts[a].email == contacts[b].email)
        || (contacts[a].externalId != "" && contacts[a].externalId == contacts[b].externalId))
  }

  predicate CompaniesClash(companies: Companies, a: Id, b: Id) {
    && a in companies && b in companies && a != b && companies[a].org == companies[b].org
    && (|| (companies[a].domain != "" && companies[a].domain == companies[b].domain)
        || (companies[a].externalId != "" && companies[a].externalId == companies[b].externalId))
  }

  ghost predicate UniqueContacts(contacts: Contacts) {
    forall a, b :: !ContactsClash(contacts, a, b)
  }

  ghost predicate UniqueCompanies(companies: Companies) {
    forall a, b :: !CompaniesClash(companies, a, b)
  }

  ghost predicate Unique(db: Db) {
    UniqueContacts(db.contacts) && UniqueCompanies(db.companies)
  }

  // Proofs of an address (backend/apps/tickets/models.py).

  /** The session's current email has a proof, of that very address. */
  predicate HasProof(s: Session) {
    s.verifiedAt.Some? && Normalized(s.email) != "" && s.verifiedFor == Normalized(s.email)
  }

  /** And it is the contact's address too. */
  predicate ProofHolds(s: Session, c: Contact) {
    HasProof(s) && Normalized(c.email) == Normalized(s.email)
  }
}
