/**
 What the staff, the channels and the cleaning jobs write besides contacts and sessions:
 tickets (backend/apps/tickets/views.py:352-362 and 641-707,
 backend/apps/tickets/serializers.py:367-379), messages
 (backend/apps/tickets/views.py:1596-1620), notes, companies
 (backend/apps/contacts/views.py:318-361), accounts, uploads, stored mails and codes.
 */
module DeskWork {
  import opened Rows
  import opened Resolution
  import opened LoginMove

  /** What a PATCH of a ticket sets, of what the rules read. */
  datatype TicketEdit = TicketEdit(
    source: Option<Source>, requester: Option<Option<Id>>, requesterEmail: Option<string>, requesterName: Option<string>,
    contact: Option<Option<Id>>, title: Option<string>, description: Option<string>, externalId: Option<string>,
    contextUrl: Option<string>, contextUserAgent: Option<string>, metadata: Option<Attributes>)

  /** An edit that sets nothing. */
  const NO_EDIT := TicketEdit(None, None, None, None, None, None, None, None, None, None, None)

  datatype Work =
    | OpenTicket(tid: Id, ticket: Ticket)
    | LinkTicket(tid: Id, onto: Option<Id>)
    | EditTicket(tid: Id, edit: TicketEdit)
    | FillRequesters(sid: Id, name: string, email: string)
    | DeleteTicket(tid: Id)
    | Post(mid: Id, draft: Draft)
    | Reply(mid: Id, message: Message)
    | DeleteMessage(mid: Id, files: set<Id>)
    | AddNote(nid: Id, note: Note)
    | SaveCompany(company: Id, row: Company)
    | SaveUser(uid: Id, user: User)
    | DeleteUser(uid: Id)
    | AddUpload(upload: Id, file: Upload)
    | DropUpload(upload: Id)
    | StoreMail(mail: Id, stored: StoredMail)
    | DropMail(mail: Id)
    | DropCode(code: Id)

  function Set<T>(current: T, value: Option<T>): T {
    if value.Some? then value.value else current
  }

  function EditedTicket(t: Ticket, e: TicketEdit, now: Time): Ticket {
    t.(source := Set(t.source, e.source), requester := Set(t.requester, e.requester),
       requesterEmail := Set(t.requesterEmail, e.requesterEmail), requesterName := Set(t.requesterName, e.requesterName),
       contact := Set(t.contact, e.contact), title := Set(t.title, e.title),
       description := Set(t.description, e.description), externalId := Set(t.externalId, e.externalId),
       contextUrl := Set(t.contextUrl, e.contextUrl), contextUserAgent := Set(t.contextUserAgent, e.contextUserAgent),
       metadata := Set(t.metadata, e.metadata), updatedAt := now)
  }

  /** What a session says of its user fills the blanks of its tickets, but of those a login moved there. */
  function FilledTicket(db: Db, sid: Id, name: string, email: string, t: Ticket): Ticket
    requires sid in db.sessions
  {
    if t.session != Some(sid) || t.org != db.sessions[sid].org || MovedByLogin(t) then t
    else t.(requesterName := OrElse(t.requesterName, name), requesterEmail := OrElse(t.requesterEmail, email))
  }

  predicate InOrg(db: Db, contact: Option<Id>, org: Id) {
    contact.Some? ==> contact.value in db.contacts && db.contacts[contact.value].org == org
  }

  /** A ticket is never put on an anonymized contact it is not on already. */
  predicate TakesTicket(db: Db, t: Ticket, contact: Option<Id>) {
    && InOrg(db, contact, t.org)
    && (contact.Some? && db.contacts[contact.value].anonymized ==> t.contact == contact)
  }

  /** A company's organization and external id are never edited, and nobody else is on its domain. */
  predicate CompanySavable(companies: Companies, id: Id, row: Company) {
    && (if id in companies then row.org == companies[id].org && row.externalId == companies[id].externalId
        else row.externalId == "")
    && (row.domain != "" ==>
          forall o :: o in companies && o != id && companies[o].org == row.org ==> companies[o].domain != row.domain)
  }

  /** `ticketKeys` are those tickets ever had. */
  predicate Allowed(db: Db, ticketKeys: set<Id>, work: Work) {
    match work
    case OpenTicket(tid, t) => tid !in db.tickets && tid !in ticketKeys && InOrg(db, t.contact, t.org)
    case LinkTicket(tid, contact) => tid in db.tickets && InOrg(db, contact, db.tickets[tid].org)
    case EditTicket(tid, edit) =>
      tid in db.tickets && (edit.contact.Some? ==> TakesTicket(db, db.tickets[tid], edit.contact.value))
    case FillRequesters(sid, _, _) => sid in db.sessions
    case DeleteTicket(tid) => tid in db.tickets
    case Post(mid, draft) => mid !in db.messages && !Refused(db, draft)
    case Reply(mid, message) => mid !in db.messages && message.ticket in db.tickets
    case DeleteMessage(mid, _) => mid in db.messages
    case AddNote(nid, note) => nid !in db.notes && note.contact in db.contacts
    case SaveCompany(id, row) => CompanySavable(db.companies, id, row)
    case SaveUser(_, _) => true
    case DeleteUser(uid) => uid in db.users
    case AddUpload(id, file) => id !in db.uploads && file.ticket in db.tickets
    case DropUpload(id) => id in db.uploads
    case StoreMail(id, _) => id !in db.mails
    case DropMail(id) => id in db.mails
    case DropCode(id) => id in db.codes
  }

  /** The ticket's row deleted, with its messages and uploads. A mail stays, on no ticket. */
  function WithoutTicket(db: Db, tid: Id): Db {
    db.(tickets := db.tickets - {tid},
        messages := map k | k in db.messages && db.messages[k].ticket != tid :: db.messages[k],
        uploads := map k | k in db.uploads && db.uploads[k].ticket != tid :: db.uploads[k],
        mails := map k | k in db.mails ::
          if db.mails[k].ticket == Some(tid) then db.mails[k].(ticket := None) else db.mails[k])
  }

  function WithoutUser(db: Db, uid: Id): Db {
    db.(users := db.users - {uid},
        tickets := map k | k in db.tickets ::
          if db.tickets[k].requester == Some(uid) then db.tickets[k].(requester := None) else db.tickets[k],
        messages := map k | k in db.messages ::
          if db.messages[k].author == Some(uid) then db.messages[k].(author := None) else db.messages[k],
        uploads := map k | k in db.uploads ::
          if db.uploads[k].uploadedBy == Some(uid) then db.uploads[k].(uploadedBy := None) else db.uploads[k])
  }

  function Worked(db: Db, ticketKeys: set<Id>, work: Work, now: Time): Db
    requires Allowed(db, ticketKeys, work)
  {
    match work
    case OpenTicket(tid, t) => db.(tickets := db.tickets[tid := t])
    case LinkTicket(tid, contact) => db.(tickets := db.tickets[tid := db.tickets[tid].(contact := contact)])
    case EditTicket(tid, edit) => db.(tickets := db.tickets[tid := EditedTicket(db.tickets[tid], edit, now)])
    case FillRequesters(sid, name, email) =>
      db.(tickets := map k | k in db.tickets :: FilledTicket(db, sid, name, email, db.tickets[k]))
    case DeleteTicket(tid) => WithoutTicket(db, tid)
    case Post(mid, draft) => Posted(db, draft, mid, now)
    case Reply(mid, message) => db.(messages := db.messages[mid := message])
    case DeleteMessage(mid, files) => db.(messages := db.messages - {mid}, uploads := db.uploads - files)
    case AddNote(nid, note) => db.(notes := db.notes[nid := note])
    case SaveCompany(id, row) => db.(companies := db.companies[id := row])
    case SaveUser(uid, user) => db.(users := db.users[uid := user])
    case DeleteUser(uid) => WithoutUser(db, uid)
    case AddUpload(id, file) => db.(uploads := db.uploads[id := file])
    case DropUpload(id) => db.(uploads := db.uploads - {id})
    case StoreMail(id, stored) => db.(mails := db.mails[id := stored])
    case DropMail(id) => db.(mails := db.mails - {id})
    case DropCode(id) => db.(codes := db.codes - {id})
  }

  /** None of it writes a contact or a session, or makes a code. */
  lemma WorkLeavesPeople(db: Db, ticketKeys: set<Id>, work: Work, now: Time)
    requires Allowed(db, ticketKeys, work)
    ensures var after := Worked(db, ticketKeys, work, now);
      && after.contacts == db.contacts && after.sessions == db.sessions
      && (forall k :: k in after.codes ==> k in db.codes && after.codes[k] == db.codes[k])
  {}

  lemma WorkKeepsUnique(db: Db, ticketKeys: set<Id>, work: Work, now: Time)
    requires Allowed(db, ticketKeys, work) && Unique(db)
    ensures Unique(Worked(db, ticketKeys, work, now))
  {
    var after := Worked(db, ticketKeys, work, now);
    WorkLeavesPeople(db, ticketKeys, work, now);
    if work.SaveCompany? {
      forall a, b ensures !CompaniesClash(after.companies, a, b) {
        assert !CompaniesClash(db.companies, a, b);
      }
    }
  }
}
