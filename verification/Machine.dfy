/**
 Every transaction that touches who a session or a contact is, as one step of a
 machine. Requests overlap: a step may work from a session as it was read before other
 steps, whatever those made of the row since.
 */
module Machine {
  import opened Text
  import opened Rows
  import opened Resolution
  import opened Anonymization
  import opened LoginMove
  import opened DeskWork
  import Backfill

  /**
   Signatures, which only their holder's secret makes: a host app's of its user's id
   or email, and this instance's of a link to a conversation, mailed to an address.
   */
  datatype Host = Host(
    signsUser: (Id, string, string) -> bool,
    signsEmail: (Id, string, string) -> bool,
    mailedLink: (string, string) -> bool)

  /** A proof somebody gave. */
  datatype Proof =
    | OfUser(session: Id, org: Id, externalId: string)
    | OfAddress(session: Id, org: Id, email: string)
    | OfMailbox(contact: Id, link: string)

  /** The rows, the proofs given so far, and the keys contacts and tickets ever had. */
  datatype State = State(db: Db, proofs: set<Proof>, keys: set<Id>, ticketKeys: set<Id>)

  /** What a PATCH of a contact sets. */
  datatype Edit = Edit(
    email: Option<string>, profile: Option<Profile>, company: Option<Option<Id>>, unsubscribed: Option<bool>,
    attributes: map<string, Json>)

  /** What a widget request asks of the contact of its session. */
  datatype Claim = Claim(
    emailHash: string, code: bool, traits: map<string, Json>, company: Option<CompanyClaim>, companySigned: bool)

  datatype Step =
    | StartAnonymous(sid: Id, org: Id, name: string, email: string, userAgent: string)
    | StartIdentified(sid: Id, org: Id, name: string, email: string, userAgent: string, externalId: string, hash: string)
    | SaveSession(sid: Id, newName: Option<string>, newEmail: Option<string>)
    | DropProof(sid: Id, email: string)
    | MailCode(code: Id, sid: Id, email: string)
    | RedeemCode(code: Id, sid: Id)
    | Link(sid: Id, read: Session, claim: Claim, ids: NewIds)
    | Move(login: Login)
    | DeleteIfEmpty(contact: Id)
    | ReceiveFrom(org: Id, email: string, name: string, newId: Id)
    | OpenLink(contact: Id, link: string)
    | AgentCreates(newId: Id, org: Id, email: string, profile: Profile)
    | AgentEdits(contact: Id, edit: Edit)
    | AdminDeletes(contact: Id)
    | DeleteCompany(company: Id)
    | Handle(work: Work)
    | Anonymize(contact: Id, address: string)
    | BackfillContacts(reading: Backfill.Reading)

  // Sessions

  function NewSession(org: Id, externalId: string, name: string, email: string, userAgent: string, now: Time): Session {
    Session(org, externalId, name, email, userAgent, None, None, "", NoProof, now, now, now)
  }

  predicate UserTaken(db: Db, org: Id, externalId: string) {
    exists k :: k in db.sessions && db.sessions[k].org == org && db.sessions[k].externalId == externalId
  }

  function SavedSession(row: Session, name: Option<string>, email: Option<string>, now: Time): Session {
    row.(name := if name.Some? then name.value else row.name,
         email := if email.Some? then email.value else row.email,
         lastSeenAt := now, updatedAt := now)
  }

  /** `_drop_proof_of_another_email`, for the email its request's session object has. */
  function WithoutStaleProof(row: Session, email: string, now: Time): Session {
    if || (row.verifiedFor == Normalized(email) && row.verifiedAt.Some?)
       || (row.verifiedFor == "" && row.verifiedAt.None?)
    then row
    else row.(verifiedAt := None, verifiedFor := "", proofSource := NoProof, updatedAt := now)
  }

  /**
   `s` may be what a request read of this row. The external id of a row never changes,
   but for an anonymization that clears it.
   */
  predicate IsReadOf(st: State, sid: Id, s: Session) {
    && sid in st.db.sessions
    && var row := st.db.sessions[sid];
       && s.org == row.org
       && (s.externalId == row.externalId || (row.externalId == "" && OfUser(sid, s.org, s.externalId) in st.proofs))
  }

  /** `verify_email_hash`. */
  predicate SignsAddress(host: Host, org: Id, email: string, hash: string) {
    Normalized(email) != "" && hash != "" && host.signsEmail(org, Normalized(email), hash)
  }

  predicate SignsEmail(host: Host, s: Session, hash: string) {
    SignsAddress(host, s.org, s.email, hash)
  }

  function LinkPayload(host: Host, s: Session, claim: Claim): Payload {
    Payload(claim.code || SignsEmail(host, s, claim.emailHash), if claim.code then Code else Signed,
            claim.traits, claim.company, claim.companySigned)
  }

  // Contacts

  /** `delete_contact_if_left_empty`: an email-only contact with nothing of its own. */
  predicate LeftEmpty(db: Db, id: Id) {
    && id in db.contacts
    && var c := db.contacts[id];
       && c.externalId == "" && !c.anonymized && !c.unsubscribed
       && c.profile == BLANK_PROFILE.(name := c.profile.name) && c.attributes == Dict(map[])
       && (forall k :: k in db.tickets ==> db.tickets[k].contact != Some(id))
       && (forall k :: k in db.sessions ==> db.sessions[k].contact != Some(id))
       && (forall k :: k in db.notes ==> db.notes[k].contact != id)
  }

  /** The contact's row deleted, the sessions and tickets linked to it unlinked, its notes gone. */
  function Deleted(db: Db, id: Id): Db {
    db.(contacts := db.contacts - {id},
        sessions := map k | k in db.sessions ::
          if db.sessions[k].contact == Some(id) then db.sessions[k].(contact := None) else db.sessions[k],
        tickets := map k | k in db.tickets ::
          if db.tickets[k].contact == Some(id) then db.tickets[k].(contact := None) else db.tickets[k],
        notes := map k | k in db.notes && db.notes[k].contact != id :: db.notes[k])
  }

  /** A mail's one write on a contact: a missing company, and none until an identified contact's email is proven. */
  ghost function CompanyFilled(env: Env, companies: Companies, c: Contact, now: Time): Contact {
    if c.externalId == "" || c.verifiedAt.Some? then Saved(c, Autolinked(env, companies, c), now) else c
  }

  /** `resolve_contact_for_email`, of a usable address. */
  ghost function Received(env: Env, db: Db, org: Id, email: string, name: string, now: Time, newId: Id): Db {
    var f := FindOrCreateByEmail(db.contacts, org, email, CleanName(env, name), now, newId);
    if f.draft.anonymized then db
    else db.(contacts := f.contacts[f.id := CompanyFilled(env, db.companies, f.draft, now)])
  }

  /** A link proves the address the contact has now, or nothing. */
  predicate Proves(host: Host, link: string, email: string) {
    Strip(email) != "" && host.mailedLink(Normalized(email), link)
  }

  /** `mark_email_proven`. */
  function EmailProvenByLink(host: Host, c: Contact, link: string, now: Time): Contact {
    if c.anonymized || !Proves(host, link, c.email) || c.verifiedAt.Some? then c
    else c.(verifiedAt := Some(now), updatedAt := now)
  }

  function Edited(c: Contact, e: Edit, now: Time): Contact {
    var email := if e.email.Some? then Normalized(e.email.value) else c.email;
    var edited := c.(
      email := email, verifiedAt := if email != c.email then None else c.verifiedAt,
      profile := Set(c.profile, e.profile), company := Set(c.company, e.company),
      unsubscribed := Set(c.unsubscribed, e.unsubscribed), attributes := Merged(c.attributes, e.attributes));
    if edited == c then c else edited.(updatedAt := now)
  }

  /** Nobody but `id` has the address in the organization, if it is one. */
  ghost predicate EmailFree(contacts: Contacts, org: Id, email: string, id: Id) {
    email != "" ==> forall o :: HoldsEmail(contacts, org, email, o) ==> o == id
  }

  /** The company's row deleted. Its contacts stay, on no company. */
  function WithoutCompany(db: Db, id: Id): Db {
    db.(companies := db.companies - {id},
        contacts := map k | k in db.contacts ::
          if db.contacts[k].company == Some(id) then db.contacts[k].(company := None) else db.contacts[k])
  }

  // The machine

  predicate NewKey(st: State, id: Id) {
    id !in st.db.contacts && id !in st.keys
  }

  /** The back-fill gives each contact it creates a key of its own, that none ever had. */
  ghost predicate NewKeys(st: State, r: Backfill.Reading) {
    forall key :: r.keyOf(r.idOf(key)) == key && NewKey(st, r.idOf(key))
  }

  ghost predicate Enabled(env: Env, host: Host, st: State, step: Step) {
    var db := st.db;
    match step
    case StartAnonymous(sid, _, _, _, _) => sid !in db.sessions
    case StartIdentified(sid, org, _, _, _, externalId, hash) =>
      && sid !in db.sessions && externalId != "" && hash != ""
      && !Reserved(externalId) && host.signsUser(org, externalId, hash)
      && !UserTaken(db, org, externalId)
    case SaveSession(sid, _, _) => sid in db.sessions
    case DropProof(sid, _) => sid in db.sessions
    case MailCode(code, sid, email) => code !in db.codes && sid in db.sessions && Normalized(email) != ""
    case RedeemCode(code, sid) =>
      && code in db.codes && sid in db.sessions
      && db.codes[code].forWidget && db.codes[code].session == Some(sid)
    case Link(sid, s, claim, ids) =>
      && IsReadOf(st, sid, s) && NewKey(st, ids.contact) && ids.company !in db.companies
      && (claim.code ==> OfAddress(sid, s.org, Normalized(s.email)) in st.proofs)
    case Move(login) =>
      login.anonymous != login.identified && login.anonymous in db.sessions && login.identified in db.sessions
    case DeleteIfEmpty(id) => LeftEmpty(db, id)
    case ReceiveFrom(_, email, _, newId) => NewKey(st, newId) && CleanEmail(env, email) != ""
    case OpenLink(id, _) => id in db.contacts
    case AgentCreates(newId, org, email, _) => NewKey(st, newId) && EmailFree(db.contacts, org, Normalized(email), newId)
    case AgentEdits(id, edit) =>
      && id in db.contacts && !db.contacts[id].anonymized
      && (edit.email.Some? ==> EmailFree(db.contacts, db.contacts[id].org, Normalized(edit.email.value), id))
    case AdminDeletes(id) => id in db.contacts
    case DeleteCompany(id) => id in db.companies
    case Handle(work) => Allowed(db, st.ticketKeys, work)
    case Anonymize(id, newEmail) =>
      && id in db.contacts && EndsWith(newEmail, ANONYMIZED_DOMAIN) && Normalized(newEmail) == newEmail
      && EmailFree(db.contacts, db.contacts[id].org, newEmail, id)
    case BackfillContacts(r) => NewKeys(st, r)
  }

  /** The proof a step rests on, where it checks one. */
  ghost function Given(env: Env, host: Host, st: State, step: Step): set<Proof>
    requires Enabled(env, host, st, step)
  {
    match step
    case StartIdentified(sid, org, _, _, _, externalId, _) => {OfUser(sid, org, externalId)}
    case RedeemCode(code, sid) => {OfAddress(sid, st.db.sessions[sid].org, st.db.codes[code].email)}
    case Link(sid, s, claim, _) =>
      if SignsEmail(host, s, claim.emailHash) then {OfAddress(sid, s.org, Normalized(s.email))} else {}
    case OpenLink(id, link) => if Proves(host, link, st.db.contacts[id].email) then {OfMailbox(id, link)} else {}
    case _ => {}
  }

  /** What the step makes of the rows. */
  ghost function Written(env: Env, host: Host, st: State, step: Step, now: Time): Db
    requires Enabled(env, host, st, step)
  {
    var db := st.db;
    match step
    case StartAnonymous(sid, org, name, email, userAgent) =>
      WithSession(db, sid, NewSession(org, "", name, email, userAgent, now))
    case StartIdentified(sid, org, name, email, userAgent, externalId, _) =>
      WithSession(db, sid, NewSession(org, externalId, name, email, userAgent, now))
    case SaveSession(sid, name, email) => WithSession(db, sid, SavedSession(db.sessions[sid], name, email, now))
    case DropProof(sid, email) => WithSession(db, sid, WithoutStaleProof(db.sessions[sid], email, now))
    case MailCode(code, sid, email) =>
      db.(codes := db.codes[code := OneTimeCode(Normalized(email), true, Some(db.sessions[sid].org), Some(sid))])
    case RedeemCode(_, _) => db
    case Link(sid, s, claim, ids) => LinkSession(env, db, sid, s, LinkPayload(host, s, claim), now, ids).db
    case Move(login) => Moved(db, login, now)
    case DeleteIfEmpty(id) => Deleted(db, id)
    case ReceiveFrom(org, email, name, newId) => Received(env, db, org, CleanEmail(env, email), name, now, newId)
    case OpenLink(id, link) =>
      db.(contacts := db.contacts[id := EmailProvenByLink(host, db.contacts[id], link, now)])
    case AgentCreates(newId, org, email, profile) =>
      db.(contacts := db.contacts[newId := NewContact(org, Normalized(email), "", "", now).(profile := profile)])
    case AgentEdits(id, edit) => db.(contacts := db.contacts[id := Edited(db.contacts[id], edit, now)])
    case AdminDeletes(id) => Deleted(db, id)
    case DeleteCompany(id) => WithoutCompany(db, id)
    case Handle(work) => Worked(db, st.ticketKeys, work, now)
    case Anonymize(id, newEmail) => Anonymized(env, db, id, newEmail, now)
    case BackfillContacts(r) => Backfill.Backfilled(env, db, r, now)
  }

  /** One step, at some date. One that its guard refuses changes nothing. */
  datatype Event = Event(step: Step, at: Time)

  ghost function Apply(env: Env, host: Host, st: State, e: Event): State {
    if !Enabled(env, host, st, e.step) then st
    else
      var db := Written(env, host, st, e.step, e.at);
      State(db, st.proofs + Given(env, host, st, e.step), st.keys + st.db.contacts.Keys + db.contacts.Keys,
            st.ticketKeys + st.db.tickets.Keys + db.tickets.Keys)
  }

  ghost function Run(env: Env, host: Host, st: State, events: seq<Event>): State
    decreases |events|
  {
    if events == [] then st else Run(env, host, Apply(env, host, st, events[0]), events[1..])
  }

  const EMPTY: State :=
    State(Db(map[], map[], map[], map[], map[], map[], map[], map[], map[], map[]), {}, {}, {})

  lemma {:induction false} RunOneMore(env: Env, host: Host, st: State, events: seq<Event>, e: Event)
    ensures Run(env, host, st, events + [e]) == Apply(env, host, Run(env, host, st, events), e)
    decreases |events|
  {
    if events == [] {
      assert [] + [e] == [e];
      assert Run(env, host, st, [e]) == Run(env, host, Apply(env, host, st, e), [e][1..]);
    } else {
      assert (events + [e])[1..] == events[1..] + [e];
      RunOneMore(env, host, Apply(env, host, st, events[0]), events[1..], e);
    }
  }
}
