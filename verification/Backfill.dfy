/**
 The back-fill of contacts from the sessions and tickets of before they existed
 (backend/apps/contacts/backfill.py), first as what it makes of the database.
 */
module Backfill {
  import opened Text
  import opened Rows
  import opened Anonymization
  import opened Resolution

  /** What a contact is looked up on. */
  datatype Key = ByExternal(org: Id, value: string) | ByAddress(org: Id, value: string)

  /**
   The order rows are read in, latest first, and the keys the database gives new
   contacts: one for each of what they are looked up on.
   */
  datatype Reading = Reading(sessions: seq<Id>, tickets: seq<Id>, idOf: Key -> Id, keyOf: Id -> Key)

  // Identities

  function CleanAddress(env: Env, value: string): string {
    var email := Normalized(value);
    if email == "" || |email| > EMAIL_MAX || !env.validEmail(email) then "" else email
  }

  predicate UsableId(externalId: string) {
    externalId != "" && externalId == Strip(externalId) && !Reserved(externalId)
  }

  function AddressKey(env: Env, org: Id, email: string): Option<Key> {
    if CleanAddress(env, email) == "" then None else Some(ByAddress(org, CleanAddress(env, email)))
  }

  /** A session of the organization was created with the external id. */
  predicate Vouched(db: Db, org: Id, externalId: string) {
    && UsableId(externalId)
    && exists k :: k in db.sessions && db.sessions[k].org == org && db.sessions[k].externalId == externalId
  }

  function Account(db: Db, t: Ticket): Option<User> {
    if t.requester.Some? && t.requester.value in db.users then Some(db.users[t.requester.value]) else None
  }

  /** The address on the ticket belongs to the agent or admin it was filed by. */
  predicate IsOwnStaffEmail(env: Env, db: Db, t: Ticket) {
    && CleanAddress(env, t.requesterEmail) != ""
    && Account(db, t).Some? && !IsEndUser(Account(db, t).value)
    && CleanAddress(env, t.requesterEmail) == CleanAddress(env, Account(db, t).value.email)
  }

  predicate IsCustomer(db: Db, t: Ticket) {
    && Account(db, t).Some? && IsEndUser(Account(db, t).value)
    && (Account(db, t).value.org.None? || Account(db, t).value.org == Some(t.org))
  }

  predicate GivesEmail(env: Env, db: Db, sid: Id, tid: Id) {
    && sid in db.sessions && tid in db.tickets
    && var t := db.tickets[tid];
       && t.session == Some(sid) && t.org == db.sessions[sid].org
       && !IsOwnStaffEmail(env, db, t) && CleanAddress(env, t.requesterEmail) != ""
  }

  /** The latest usable email of a session's own tickets. */
  function EmailFromTickets(env: Env, db: Db, tids: seq<Id>, sid: Id): string {
    if tids == [] then ""
    else if GivesEmail(env, db, sid, tids[0]) then CleanAddress(env, db.tickets[tids[0]].requesterEmail)
    else EmailFromTickets(env, db, tids[1..], sid)
  }

  /** An anonymous session without a usable email: its tickets may say who it is. */
  predicate IsNobody(env: Env, s: Session) {
    s.externalId == "" && CleanAddress(env, s.email) == ""
  }

  function SessionKey(env: Env, db: Db, r: Reading, sid: Id): Option<Key>
    requires sid in db.sessions
  {
    var s := db.sessions[sid];
    if s.externalId != "" then
      if UsableId(s.externalId) then Some(ByExternal(s.org, s.externalId)) else None
    else if CleanAddress(env, s.email) != "" then
      Some(ByAddress(s.org, CleanAddress(env, s.email)))
    else
      var email := EmailFromTickets(env, db, r.tickets, sid);
      if email == "" then None else Some(ByAddress(s.org, email))
  }

  /** The ticket's session, if it is one of its organization. */
  predicate HasSession(db: Db, t: Ticket) {
    t.session.Some? && t.session.value in db.sessions && db.sessions[t.session.value].org == t.org
  }

  /** No session of its organization decides for the ticket. */
  predicate IsOnItsOwn(env: Env, db: Db, t: Ticket) {
    HasSession(db, t) ==>
      var s := db.sessions[t.session.value];
      s.contact.None? && s.externalId == "" && CleanAddress(env, s.email) == ""
  }

  function TicketKey(env: Env, db: Db, tid: Id): Option<Key>
    requires tid in db.tickets
  {
    var t := db.tickets[tid];
    var email := if IsOwnStaffEmail(env, db, t) then "" else t.requesterEmail;
    if Vouched(db, t.org, t.externalId) then Some(ByExternal(t.org, t.externalId))
    else if AddressKey(env, t.org, email).Some? then AddressKey(env, t.org, email)
    else if !HasSession(db, t) && IsCustomer(db, t) then AddressKey(env, t.org, Account(db, t).value.email)
    else None
  }

  // Contacts of keys

  predicate HoldsKey(contacts: Contacts, key: Key, id: Id) {
    match key
    case ByExternal(org, value) => HoldsExternalId(contacts, org, value, id)
    case ByAddress(org, value) => HoldsEmail(contacts, org, value, id)
  }

  ghost function Holder(contacts: Contacts, key: Key): Option<Id> {
    match key
    case ByExternal(org, value) => ByExternalId(contacts, org, value)
    case ByAddress(org, value) => ByEmail(contacts, org, value)
  }

  function BlankContact(key: Key, declared: string, now: Time): Contact {
    match key
    case ByExternal(org, value) => NewContact(org, "", value, "", now).(declared := declared)
    case ByAddress(org, value) => NewContact(org, value, "", "", now)
  }

  /** The contact a row is linked to: the key's, unless it is anonymized, or a new one. */
  ghost function LinkOf(contacts: Contacts, r: Reading, key: Option<Key>): Option<Id> {
    if key.None? then None
    else
      match Holder(contacts, key.value)
      case Some(id) => if contacts[id].anonymized then None else Some(id)
      case None => Some(r.idOf(key.value))
  }

  /** Those of the keys nobody holds. */
  ghost function Missing(contacts: Contacts, keys: set<Key>): set<Key> {
    set key | key in keys && Holder(contacts, key).None?
  }

  function Ids(r: Reading, keys: set<Key>): set<Id> {
    set key | key in keys :: r.idOf(key)
  }

  /** A new contact for each of the keys, and what it declares. */
  function NewContacts(r: Reading, keys: set<Key>, declares: Key -> string, now: Time): Contacts {
    map id | id in Ids(r, keys) :: BlankContact(r.keyOf(id), declares(r.keyOf(id)), now)
  }

  ghost function WithNew(contacts: Contacts, r: Reading, keys: set<Key>, declares: Key -> string, now: Time): Contacts {
    contacts + NewContacts(r, Missing(contacts, keys), declares, now)
  }

  // Sessions

  /** The sessions the back-fill links, if they have an identity. */
  predicate IsUnlinkedSession(db: Db, sid: Id) {
    sid in db.sessions && db.sessions[sid].contact.None?
  }

  function SessionKeys(env: Env, db: Db, r: Reading, sids: set<Id>): set<Key> {
    set sid | sid in sids && IsUnlinkedSession(db, sid) && SessionKey(env, db, r, sid).Some? ::
      SessionKey(env, db, r, sid).value
  }

  /** The email a new contact of the key declares: that of the key's session, as an external id has one. */
  ghost function SessionDeclares(env: Env, db: Db): Key -> string {
    (key: Key) =>
      if key.ByExternal? && exists sid :: IsSessionOf(db, key, sid)
      then var sid :| IsSessionOf(db, key, sid); CleanAddress(env, db.sessions[sid].email)
      else ""
  }

  predicate IsSessionOf(db: Db, key: Key, sid: Id) {
    sid in db.sessions && db.sessions[sid].org == key.org && db.sessions[sid].externalId == key.value
  }

  /** A session linked, storing the email it takes of its tickets: a proof it held was of another. */
  ghost function LinkedSession(env: Env, db: Db, r: Reading, contacts: Contacts, sid: Id): Session
    requires sid in db.sessions
  {
    var s := db.sessions[sid];
    var link := LinkOf(contacts, r, SessionKey(env, db, r, sid));
    if link.None? then s
    else if IsNobody(env, s) then s.(contact := link, email := EmailFromTickets(env, db, r.tickets, sid), verifiedAt := None)
    else s.(contact := link)
  }

  ghost function SessionsLinked(env: Env, db: Db, r: Reading, sids: set<Id>, now: Time): Db {
    db.(contacts := WithNew(db.contacts, r, SessionKeys(env, db, r, sids), SessionDeclares(env, db), now),
        sessions := map sid | sid in db.sessions ::
          if sid in sids && IsUnlinkedSession(db, sid) then LinkedSession(env, db, r, db.contacts, sid)
          else db.sessions[sid])
  }

  // Tickets

  predicate FollowsSession(db: Db, t: Ticket) {
    && t.contact.None? && HasSession(db, t)
    && var link := db.sessions[t.session.value].contact;
       && link.Some? && link.value in db.contacts
       && db.contacts[link.value].org == t.org && !db.contacts[link.value].anonymized
  }

  function TicketsFollowed(db: Db): Db {
    db.(tickets := map k | k in db.tickets ::
      if FollowsSession(db, db.tickets[k])
      then db.tickets[k].(contact := db.sessions[db.tickets[k].session.value].contact) else db.tickets[k])
  }

  predicate IsUnlinkedTicket(env: Env, db: Db, tid: Id) {
    tid in db.tickets && db.tickets[tid].contact.None? && IsOnItsOwn(env, db, db.tickets[tid])
  }

  function TicketKeys(env: Env, db: Db, tids: set<Id>): set<Key> {
    set tid | tid in tids && IsUnlinkedTicket(env, db, tid) && TicketKey(env, db, tid).Some? ::
      TicketKey(env, db, tid).value
  }

  ghost function TicketsLinked(env: Env, db: Db, r: Reading, tids: set<Id>, now: Time): Db {
    db.(contacts := WithNew(db.contacts, r, TicketKeys(env, db, tids), (_: Key) => "", now),
        tickets := map tid | tid in db.tickets ::
          if tid in tids && IsUnlinkedTicket(env, db, tid)
          then db.tickets[tid].(contact := LinkOf(db.contacts, r, TicketKey(env, db, tid))) else db.tickets[tid])
  }

  // The values of new contacts

  function Earlier(a: Option<Time>, b: Time): Option<Time> {
    Some(if a.Some? && a.value <= b then a.value else b)
  }

  function Later(a: Option<Time>, b: Time): Option<Time> {
    Some(if a.Some? && a.value >= b then a.value else b)
  }

  function Seen(c: Contact, first: Time, last: Time): Contact {
    c.(firstSeen := Earlier(c.firstSeen, first), lastSeen := Later(c.lastSeen, last))
  }

  function NamedIfBlank(c: Contact, name: string): Contact {
    c.(profile := c.profile.(name := OrElse(c.profile.name, name)))
  }

  function Cut(name: string): string {
    if |name| <= NAME_MAX then name else name[..NAME_MAX]
  }

  function FilledFromSession(c: Contact, s: Session): Contact {
    NamedIfBlank(Seen(c, s.createdAt, s.lastSeenAt), Strip(s.name))
  }

  function FilledFromTicket(env: Env, db: Db, c: Contact, t: Ticket): Contact {
    var c1 := Seen(c, t.createdAt, t.createdAt);
    var trusted := (t.externalId == "" || Vouched(db, t.org, t.externalId)) && !IsOwnStaffEmail(env, db, t);
    var c2 :=
      if !trusted then c1
      else
        var named := NamedIfBlank(c1, Strip(t.requesterName));
        if c.externalId != "" && c.declared == ""
        then named.(declared := CleanAddress(env, t.requesterEmail)) else named;
    if && c2.profile.name == "" && c2.email != "" && IsCustomer(db, t)
       && CleanAddress(env, Account(db, t).value.email) == c2.email
    then NamedIfBlank(c2, Cut(Strip(Account(db, t).value.fullName)))
    else c2
  }

  function FilledFromSessions(db: Db, sids: seq<Id>, id: Id, c: Contact): Contact {
    if sids == [] then c
    else
      var sid := sids[0];
      FilledFromSessions(db, sids[1..], id,
        if sid in db.sessions && db.sessions[sid].contact == Some(id) then FilledFromSession(c, db.sessions[sid]) else c)
  }

  function FilledFromTickets(env: Env, db: Db, tids: seq<Id>, id: Id, c: Contact): Contact {
    if tids == [] then c
    else
      var tid := tids[0];
      FilledFromTickets(env, db, tids[1..], id,
        if tid in db.tickets && db.tickets[tid].contact == Some(id)
        then FilledFromTicket(env, db, c, db.tickets[tid]) else c)
  }

  function Filled(env: Env, db: Db, r: Reading, id: Id): Contact
    requires id in db.contacts
  {
    FilledFromTickets(env, db, r.tickets, id, FilledFromSessions(db, r.sessions, id, db.contacts[id]))
  }

  function ContactsFilled(env: Env, db: Db, r: Reading, ids: set<Id>): Db {
    db.(contacts := map id | id in db.contacts :: if id in ids then Filled(env, db, r, id) else db.contacts[id])
  }

  // The whole of it

  ghost function Linked(env: Env, db: Db, r: Reading, now: Time): Db {
    var db1 := TicketsFollowed(SessionsLinked(env, db, r, db.sessions.Keys, now));
    TicketsLinked(env, db1, r, db1.tickets.Keys, now)
  }

  /** `backfill`, whatever batches it works in. */
  ghost function Backfilled(env: Env, db: Db, r: Reading, now: Time): Db {
    var linked := Linked(env, db, r, now);
    ContactsFilled(env, linked, r, linked.contacts.Keys - db.contacts.Keys)
  }
}
