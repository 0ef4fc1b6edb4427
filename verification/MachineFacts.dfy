/**
 What single transactions make of the rows, field by field: a mail's contact, a link
 opened, an agent's edits, deletions and the emptied contacts of a login
 (backend/apps/contacts/services.py:203-231 and 650-707, backend/apps/contacts/serializers.py,
 backend/apps/contacts/views.py).
 */
module MachineFacts {
  import opened Text
  import opened Rows
  import opened Resolution
  import opened DeskWork
  import opened Machine
  import opened Uniqueness

  // A mail's contact

  /** The company of the address's domain, unless that is nobody's or anybody's, or no company is on it. */
  ghost predicate IsCompanyOf(env: Env, companies: Companies, org: Id, email: string, company: Option<Id>) {
    var domain := EmailDomain(email);
    if domain != "" && !env.publicDomain(domain) && exists o :: OnDomain(companies, org, domain, o) then
      company.Some? && OnDomain(companies, org, domain, company.value)
    else company == None
  }

  /** A contact without company is given its domain's, and dated if that is one. */
  ghost predicate IsFilledIn(env: Env, companies: Companies, c: Contact, c1: Contact, now: Time) {
    && c1 == c.(company := c1.company, updatedAt := c1.updatedAt)
    && (if c.company == None && c.email != "" then IsCompanyOf(env, companies, c.org, c.email, c1.company)
        else c1.company == c.company)
    && c1.updatedAt == if c1.company == c.company then c.updatedAt else now
  }

  lemma FillingIs(env: Env, companies: Companies, c: Contact, now: Time)
    requires c.externalId == "" || c.verifiedAt.Some?
    ensures IsFilledIn(env, companies, c, CompanyFilled(env, companies, c, now), now)
  {}

  lemma ReceivedByHolder(env: Env, db: Db, org: Id, email: string, name: string, now: Time, newId: Id, id: Id)
    requires id in db.contacts && ByEmail(db.contacts, org, email) == Some(id)
    ensures Received(env, db, org, email, name, now, newId)
         == if db.contacts[id].anonymized then db
            else db.(contacts := db.contacts[id := CompanyFilled(env, db.companies, db.contacts[id], now)])
  {}

  /** A mail writes no more of its contact than a missing company, and nothing of an identified one's before its email is proven. */
  lemma KnownSenderIs(env: Env, db: Db, org: Id, email: string, name: string, now: Time, newId: Id, id: Id)
    requires UniqueContacts(db.contacts) && email != ""
    requires id in db.contacts && db.contacts[id].org == org && db.contacts[id].email == email
    ensures var c, db1 := db.contacts[id], Received(env, db, org, email, name, now, newId);
      && id in db1.contacts && db1 == db.(contacts := db.contacts[id := db1.contacts[id]])
      && if !c.anonymized && (c.externalId == "" || c.verifiedAt.Some?) then
           IsFilledIn(env, db.companies, c, db1.contacts[id], now)
         else db1.contacts[id] == c
  {
    ByEmailIs(db.contacts, org, email, id);
    ReceivedByHolder(env, db, org, email, name, now, newId, id);
    var c := db.contacts[id];
    assert db.contacts[id := c] == db.contacts;
    if !c.anonymized && (c.externalId == "" || c.verifiedAt.Some?) {
      FillingIs(env, db.companies, c, now);
    }
  }

  /** From an address nobody has, it makes a contact of that address and name, unverified, with its domain's company. */
  lemma NewSenderIs(env: Env, db: Db, org: Id, email: string, name: string, now: Time, newId: Id)
    requires email != "" && newId !in db.contacts
    requires forall id :: id in db.contacts ==> db.contacts[id].org != org || db.contacts[id].email != email
    ensures var db1 := Received(env, db, org, email, name, now, newId);
      && newId in db1.contacts && db1 == db.(contacts := db.contacts[newId := db1.contacts[newId]])
      && IsFilledIn(env, db.companies, Contact(
           org, None, email, None, "", "", Profile(CleanName(env, name), "", "", "", "", ""),
           None, None, None, false, false, Dict(map[]), now), db1.contacts[newId], now)
  {
    var c := NewContact(org, email, "", CleanName(env, name), now);
    FillingIs(env, db.companies, c, now);
    assert ByEmail(db.contacts, org, email).None?;
    assert db.contacts[newId := c][newId := CompanyFilled(env, db.companies, c, now)]
        == db.contacts[newId := CompanyFilled(env, db.companies, c, now)];
  }

  // An edit, a link opened

  /** What the edit sets, and an address it changes is unverified; dated if anything changed. */
  lemma EditedIs(c: Contact, e: Edit, now: Time)
    ensures var c1 := Edited(c, e, now);
      && c1.email == (if e.email.Some? then Normalized(e.email.value) else c.email)
      && c1.verifiedAt == (if c1.email == c.email then c.verifiedAt else None)
      && c1.profile == (if e.profile.Some? then e.profile.value else c.profile)
      && c1.company == (if e.company.Some? then e.company.value else c.company)
      && c1.unsubscribed == (if e.unsubscribed.Some? then e.unsubscribed.value else c.unsubscribed)
      && c1.attributes == (if e.attributes == map[] then c.attributes
                           else Dict((if c.attributes.Dict? then c.attributes.entries else map[]) + e.attributes))
      && c1 == c.(email := c1.email, verifiedAt := c1.verifiedAt, profile := c1.profile, company := c1.company,
                  unsubscribed := c1.unsubscribed, attributes := c1.attributes, updatedAt := c1.updatedAt)
      && c1.updatedAt == if c1.(updatedAt := c.updatedAt) == c then c.updatedAt else now
  {}

  /** A link mailed to the address a contact has, opened, dates its verification, unless it has a date. */
  lemma OpenedIs(host: Host, c: Contact, link: string, now: Time)
    ensures EmailProvenByLink(host, c, link, now)
         == if !c.anonymized && Strip(c.email) != "" && host.mailedLink(Normalized(c.email), link) && c.verifiedAt == None
            then c.(verifiedAt := Some(now), updatedAt := now) else c
  {}

  /** A proof, or half of one, that is not of the email at hand is gone, and dates its going; another stays as it is. */
  lemma DroppedIs(row: Session, email: string, now: Time)
    ensures var row1 := WithoutStaleProof(row, email, now);
      && (row.verifiedFor == Normalized(email) && row.verifiedAt.Some? ==> row1 == row)
      && (row.verifiedFor == "" && row.verifiedAt == None ==> row1 == row)
      && ((row.verifiedFor != "" || row.verifiedAt.Some?) && (row.verifiedFor != Normalized(email) || row.verifiedAt == None) ==>
            && row1.verifiedAt == None && row1.verifiedFor == "" && row1.proofSource == NoProof && row1.updatedAt == now
            && row1 == row.(verifiedAt := None, verifiedFor := "", proofSource := NoProof, updatedAt := now))
  {}

  // Deletions

  /** Off that contact, if it was on it. */
  function Off(contact: Option<Id>, id: Id): Option<Id> {
    if contact == Some(id) then None else contact
  }

  /** A contact deleted takes its notes along, and leaves its sessions and tickets on nobody. */
  lemma DeletedIs(db: Db, id: Id)
    ensures var db1 := Deleted(db, id);
      && db1 == db.(contacts := db1.contacts, sessions := db1.sessions, tickets := db1.tickets, notes := db1.notes)
      && db1.sessions.Keys == db.sessions.Keys && db1.tickets.Keys == db.tickets.Keys
      && (forall c :: c in db1.contacts <==> c in db.contacts && c != id)
      && (forall c :: c in db1.contacts ==> db1.contacts[c] == db.contacts[c])
      && (forall k :: k in db.sessions ==> db1.sessions[k] == db.sessions[k].(contact := Off(db.sessions[k].contact, id)))
      && (forall k :: k in db.tickets ==> db1.tickets[k] == db.tickets[k].(contact := Off(db.tickets[k].contact, id)))
      && (forall k :: k in db1.notes <==> k in db.notes && db.notes[k].contact != id)
      && (forall k :: k in db1.notes ==> db1.notes[k] == db.notes[k])
  {}

  /**
   The contacts a login may delete: nobody's user, not erased, with nothing but an
   address and a name, and no ticket, session or note.
   */
  lemma EmptiedIs(db: Db, id: Id)
    ensures LeftEmpty(db, id) <==>
      && id in db.contacts
      && var c := db.contacts[id];
         && c.externalId == "" && !c.anonymized && !c.unsubscribed
         && c.profile.phone == "" && c.profile.avatarUrl == "" && c.profile.jobTitle == ""
         && c.profile.locale == "" && c.profile.timezone == ""
         && c.attributes == Dict(map[])
         && (forall k :: k in db.tickets ==> db.tickets[k].contact != Some(id))
         && (forall k :: k in db.sessions ==> db.sessions[k].contact != Some(id))
         && (forall k :: k in db.notes ==> db.notes[k].contact != id)
  {}

  /** A company deleted leaves its contacts without one. */
  lemma CompanyDeletedIs(db: Db, id: Id)
    ensures var db1 := WithoutCompany(db, id);
      && db1 == db.(companies := db1.companies, contacts := db1.contacts)
      && (forall k :: k in db1.companies <==> k in db.companies && k != id)
      && (forall k :: k in db1.companies ==> db1.companies[k] == db.companies[k])
      && db1.contacts.Keys == db.contacts.Keys
      && (forall c :: c in db.contacts ==> db1.contacts[c] == db.contacts[c].(company := Off(db.contacts[c].company, id)))
  {}

  // Tickets

  /** A ticket deleted takes its messages and uploads along; its mails stay, on none. */
  lemma TicketDeletedIs(db: Db, id: Id)
    ensures var db1 := WithoutTicket(db, id);
      && db1 == db.(tickets := db1.tickets, messages := db1.messages, uploads := db1.uploads, mails := db1.mails)
      && (forall k :: k in db1.tickets <==> k in db.tickets && k != id)
      && (forall k :: k in db1.tickets ==> db1.tickets[k] == db.tickets[k])
      && (forall k :: k in db1.messages <==> k in db.messages && db.messages[k].ticket != id)
      && (forall k :: k in db1.messages ==> db1.messages[k] == db.messages[k])
      && (forall k :: k in db1.uploads <==> k in db.uploads && db.uploads[k].ticket != id)
      && (forall k :: k in db1.uploads ==> db1.uploads[k] == db.uploads[k])
      && db1.mails.Keys == db.mails.Keys
      && (forall k :: k in db.mails ==> db1.mails[k] == db.mails[k].(ticket := Off(db.mails[k].ticket, id)))
  {}

  /** An account deleted is named by nothing any more, and nothing else goes. */
  lemma UserDeletedIs(db: Db, id: Id)
    ensures var db1 := WithoutUser(db, id);
      && db1 == db.(users := db1.users, tickets := db1.tickets, messages := db1.messages, uploads := db1.uploads)
      && (forall k :: k in db1.users <==> k in db.users && k != id)
      && (forall k :: k in db1.users ==> db1.users[k] == db.users[k])
      && db1.tickets.Keys == db.tickets.Keys && db1.messages.Keys == db.messages.Keys
      && db1.uploads.Keys == db.uploads.Keys
      && (forall k :: k in db.tickets ==> db1.tickets[k] == db.tickets[k].(requester := Off(db.tickets[k].requester, id)))
      && (forall k :: k in db.messages ==> db1.messages[k] == db.messages[k].(author := Off(db.messages[k].author, id)))
      && (forall k :: k in db.uploads ==>
            db1.uploads[k] == db.uploads[k].(uploadedBy := Off(db.uploads[k].uploadedBy, id)))
  {}

  /** An edit of a ticket sets what it names and leaves the rest. */
  lemma EditedTicketIs(t: Ticket, e: TicketEdit, now: Time)
    ensures var t1 := EditedTicket(t, e, now);
      && t1 == t.(source := t1.source, requester := t1.requester, requesterEmail := t1.requesterEmail,
                  requesterName := t1.requesterName, contact := t1.contact, title := t1.title,
                  description := t1.description, externalId := t1.externalId, contextUrl := t1.contextUrl,
                  contextUserAgent := t1.contextUserAgent, metadata := t1.metadata, updatedAt := now)
      && t1.source == (if e.source == None then t.source else e.source.value)
      && t1.requester == (if e.requester == None then t.requester else e.requester.value)
      && t1.requesterEmail == (if e.requesterEmail == None then t.requesterEmail else e.requesterEmail.value)
      && t1.requesterName == (if e.requesterName == None then t.requesterName else e.requesterName.value)
      && t1.contact == (if e.contact == None then t.contact else e.contact.value)
      && t1.title == (if e.title == None then t.title else e.title.value)
      && t1.description == (if e.description == None then t.description else e.description.value)
      && t1.externalId == (if e.externalId == None then t.externalId else e.externalId.value)
      && t1.contextUrl == (if e.contextUrl == None then t.contextUrl else e.contextUrl.value)
      && t1.contextUserAgent == (if e.contextUserAgent == None then t.contextUserAgent else e.contextUserAgent.value)
      && t1.metadata == (if e.metadata == None then t.metadata else e.metadata.value)
  {}

  /** What the user of a session says of themselves fills the blanks of the session's tickets, if no login moved them. */
  lemma FilledTicketIs(db: Db, sid: Id, name: string, email: string, t: Ticket)
    requires sid in db.sessions
    ensures FilledTicket(db, sid, name, email, t)
         == if && t.session == Some(sid) && t.org == db.sessions[sid].org
               && !(t.metadata.Dict? && "pre_login_anonymous" in t.metadata.entries)
            then t.(requesterName := if t.requesterName == "" then name else t.requesterName,
                    requesterEmail := if t.requesterEmail == "" then email else t.requesterEmail)
            else t
  {}

  // Steps of the machine

  /** What a step that starts a session, mails a code, opens a link or works on a contact leaves of the rows. */
  lemma StepsWrite(env: Env, host: Host, st: State, step: Step, now: Time)
    requires Enabled(env, host, st, step)
    ensures var db, after := st.db, Written(env, host, st, step, now);
      match step
      case StartAnonymous(sid, org, name, email, userAgent) =>
        after == db.(sessions := db.sessions[sid :=
          Session(org, "", name, email, userAgent, None, None, "", NoProof, now, now, now)])
      case StartIdentified(sid, org, name, email, userAgent, externalId, _) =>
        after == db.(sessions := db.sessions[sid :=
          Session(org, externalId, name, email, userAgent, None, None, "", NoProof, now, now, now)])
      case MailCode(code, sid, email) =>
        after == db.(codes := db.codes[code := OneTimeCode(Normalized(email), true, Some(db.sessions[sid].org), Some(sid))])
      case RedeemCode(_, _) => after == db
      case OpenLink(id, link) =>
        after == db.(contacts := db.contacts[id := EmailProvenByLink(host, db.contacts[id], link, now)])
      case AgentCreates(newId, org, email, profile) =>
        after == db.(contacts := db.contacts[newId := Contact(
          org, None, Normalized(email), None, "", "", profile, None, None, None, false, false, Dict(map[]), now)])
      case AgentEdits(id, edit) => after == db.(contacts := db.contacts[id := Edited(db.contacts[id], edit, now)])
      case AdminDeletes(id) => after == Deleted(db, id)
      case DeleteIfEmpty(id) => after == Deleted(db, id)
      case DeleteCompany(id) => after == WithoutCompany(db, id)
      case _ => true
  {}

  /** A proof is given by a valid hash of the user, a code redeemed, a valid hash of the address read, or a link of the contact's. */
  lemma StepsProve(env: Env, host: Host, st: State, step: Step, now: Time)
    requires Enabled(env, host, st, step)
    ensures var given := Apply(env, host, st, Event(step, now)).proofs - st.proofs;
      match step
      case StartIdentified(sid, org, _, _, _, externalId, _) => given <= {OfUser(sid, org, externalId)}
      case RedeemCode(code, sid) => given <= {OfAddress(sid, st.db.sessions[sid].org, st.db.codes[code].email)}
      case Link(sid, s, claim, _) =>
        && given <= {OfAddress(sid, s.org, Normalized(s.email))}
        && (given != {} ==> claim.emailHash != "" && host.signsEmail(s.org, Normalized(s.email), claim.emailHash))
      case OpenLink(id, link) =>
        && given <= {OfMailbox(id, link)}
        && (given != {} ==> host.mailedLink(Normalized(st.db.contacts[id].email), link))
      case _ => given == {}
  {}
}
