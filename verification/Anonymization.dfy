/**
 Erasing a contact while keeping the structure of its tickets: `anonymize_contact`
 as a function of the database (backend/apps/contacts/gdpr.py).
 */
module Anonymization {
  import opened Text
  import opened Rows

  const REMOVED_TITLE := "[Removed at the contact's request]"
  const REMOVED_BODY := "[Content removed at the contact's request]"
  const ANONYMOUS_NAME := "Anonymized contact"
  const ANONYMIZED_DOMAIN := "@example.invalid"
  const KEPT_CONTEXT_KEYS: set<string> := {"browser", "os", "language", "timezone", "screen_resolution"}
  const PREVIOUS_TICKET := "previous_ticket"
  const MAX_KEPT_CONTEXT_LENGTH := 100

  // Whose is what

  predicate IsEndUser(u: User) {
    u.role == EndUser && !u.superuser
  }

  /** `account` is the ticket's requester, and not a member of the organization's staff. */
  predicate TheRequester(db: Db, account: Option<Id>, t: Ticket) {
    && account.Some? && t.requester == account && account.value in db.users
    && var u := db.users[account.value];
       !(u.role in {AgentRole, Admin} && u.org == Some(t.org))
  }

  /** The tickets on the contact, and those its sessions or its external id tell to be its own. */
  predicate IsTicketOf(db: Db, cid: Id, c: Contact, t: Ticket) {
    || t.contact == Some(cid)
    || (&& t.org == c.org
        && (|| (&& t.contact.None? && t.session.Some? && t.session.value in db.sessions
                && db.sessions[t.session.value].contact == Some(cid))
            || (c.externalId != "" && t.externalId == c.externalId)))
  }

  predicate ByTheContact(db: Db, cid: Id, c: Contact, u: Upload) {
    && u.ticket in db.tickets && IsTicketOf(db, cid, c, db.tickets[u.ticket])
    && (u.uploadedBy.None? || TheRequester(db, u.uploadedBy, db.tickets[u.ticket]))
  }

  predicate WroteMessage(db: Db, cid: Id, c: Contact, m: Message) {
    && m.ticket in db.tickets && IsTicketOf(db, cid, c, db.tickets[m.ticket])
    && (m.sender.FromUser? || TheRequester(db, m.author, db.tickets[m.ticket]))
  }

  predicate MailIn(db: Db, org: Id, mail: StoredMail) {
    || mail.mailboxOrg == Some(org)
    || (mail.ticket.Some? && mail.ticket.value in db.tickets && db.tickets[mail.ticket.value].org == org)
  }

  predicate ItsMail(db: Db, cid: Id, c: Contact, mail: StoredMail) {
    || (mail.ticket.Some? && mail.ticket.value in db.tickets && IsTicketOf(db, cid, c, db.tickets[mail.ticket.value]))
    || (c.email != "" && mail.sender == c.email && MailIn(db, c.org, mail))
  }

  /** The message's external sender is the address, with or without a name. */
  predicate SentFrom(m: Message, email: string) {
    email != "" && (Lower(m.externalSender) == Lower(email) || EndsWith(Lower(m.externalSender), Lower("<" + email + ">")))
  }

  predicate NamesContact(db: Db, c: Contact, m: Message) {
    SentFrom(m, c.email) && m.ticket in db.tickets && db.tickets[m.ticket].org == c.org
  }

  predicate ItsCode(db: Db, cid: Id, c: Contact, code: OneTimeCode) {
    && code.forWidget && code.org == Some(c.org)
    && (|| (code.session.Some? && code.session.value in db.sessions
            && db.sessions[code.session.value].contact == Some(cid))
        || (c.email != "" && code.email == c.email))
  }

  // What is left of a row

  predicate IsKept(env: Env, key: string, value: Json) {
    && value.JString?
    && (|| (key == PREVIOUS_TICKET && env.isUuid(value.text))
        || (key in KEPT_CONTEXT_KEYS && |value.text| <= MAX_KEPT_CONTEXT_LENGTH && '@' !in value.text))
  }

  function KeptMetadata(env: Env, metadata: Attributes): Attributes {
    var entries := Entries(metadata);
    Dict(map key | key in entries && IsKept(env, key, entries[key]) :: entries[key])
  }

  predicate HasAnonymizedEmail(c: Contact) {
    c.anonymized && EndsWith(c.email, ANONYMIZED_DOMAIN)
  }

  /** The address an anonymized contact has: its own if it's one already, else a new one. */
  function AnonymousEmail(c: Contact, newEmail: string): string {
    if HasAnonymizedEmail(c) then c.email else newEmail
  }

  function ScrubbedContact(c: Contact, newEmail: string, now: Time): Contact {
    var scrubbed := c.(
      email := AnonymousEmail(c, newEmail), verifiedAt := None, declared := "",
      profile := BLANK_PROFILE.(name := ANONYMOUS_NAME), externalId := "", company := None,
      attributes := Dict(map[]), lastContacted := None, anonymized := true);
    if scrubbed == c then c else scrubbed.(updatedAt := now)
  }

  function KeptRequester(db: Db, t: Ticket): Option<Id> {
    if t.requester.Some? && t.requester.value in db.users && IsEndUser(db.users[t.requester.value]) then None
    else t.requester
  }

  function ScrubbedTicket(env: Env, db: Db, cid: Id, email: string, t: Ticket, now: Time): Ticket {
    var scrubbed := t.(
      requester := KeptRequester(db, t),
      contact := if t.contact.Some? then Some(cid) else None,
      session := None,
      title := REMOVED_TITLE, description := REMOVED_BODY,
      requesterEmail := email, requesterName := ANONYMOUS_NAME,
      externalId := "", contextUrl := "", contextUserAgent := "",
      metadata := KeptMetadata(env, t.metadata));
    if scrubbed == t then t else scrubbed.(updatedAt := now)
  }

  function Unnamed(m: Message, now: Time): Message {
    m.(externalSender := "", updatedAt := now)
  }

  predicate IsScrubbedMessage(m: Message) {
    m.body == REMOVED_BODY && m.isText && m.session.None? && m.externalId == "" && m.externalSender == ""
  }

  function ScrubbedMessage(m: Message, now: Time): Message {
    if IsScrubbedMessage(m) then m
    else m.(body := REMOVED_BODY, isText := true, session := None, externalId := "", externalSender := "",
            updatedAt := now)
  }

  function AnonymizedMessage(db: Db, cid: Id, c: Contact, m: Message, now: Time): Message {
    var unnamed := if NamesContact(db, c, m) then Unnamed(m, now) else m;
    if WroteMessage(db, cid, c, m) then ScrubbedMessage(unnamed, now) else unnamed
  }

  function ClearedSession(s: Session): Session {
    s.(email := "", name := "", externalId := "", verifiedAt := None, verifiedFor := "", proofSource := NoProof,
       userAgent := "", contact := None)
  }

  // The whole of it

  function Anonymized(env: Env, db: Db, cid: Id, newEmail: string, now: Time): Db
    requires cid in db.contacts
  {
    var c := db.contacts[cid];
    var scrubbed := ScrubbedContact(c, newEmail, now);
    Db(
      db.contacts[cid := scrubbed],
      map k | k in db.sessions ::
        if db.sessions[k].contact == Some(cid) then ClearedSession(db.sessions[k]) else db.sessions[k],
      map k | k in db.tickets ::
        if IsTicketOf(db, cid, c, db.tickets[k])
        then ScrubbedTicket(env, db, cid, scrubbed.email, db.tickets[k], now) else db.tickets[k],
      map k | k in db.messages :: AnonymizedMessage(db, cid, c, db.messages[k], now),
      db.companies,
      map k | k in db.notes && db.notes[k].contact != cid :: db.notes[k],
      map k | k in db.uploads && !ByTheContact(db, cid, c, db.uploads[k]) :: db.uploads[k],
      map k | k in db.mails && !ItsMail(db, cid, c, db.mails[k]) :: db.mails[k],
      map k | k in db.codes && !ItsCode(db, cid, c, db.codes[k]) :: db.codes[k],
      db.users)
  }

  /** No stored mail, message or code is from the address. */
  predicate Unused(db: Db, email: string) {
    && (forall k :: k in db.mails ==> db.mails[k].sender != email)
    && (forall k :: k in db.messages ==> !SentFrom(db.messages[k], email))
    && (forall k :: k in db.codes ==> db.codes[k].email != email)
  }

  // Idempotence, table by table

  lemma KeptIsKept(env: Env, metadata: Attributes)
    ensures KeptMetadata(env, KeptMetadata(env, metadata)) == KeptMetadata(env, metadata)
  {}

  lemma ScrubbingTwice(env: Env, db: Db, db2: Db, cid: Id, email: string, t: Ticket, now: Time, later: Time)
    requires db2.users == db.users
    ensures var t1 := ScrubbedTicket(env, db, cid, email, t, now);
      ScrubbedTicket(env, db2, cid, email, t1, later) == t1
  {
    KeptIsKept(env, t.metadata);
  }

  lemma ScrubbingContactTwice(c: Contact, newEmail: string, now: Time, newEmail2: string, later: Time)
    requires EndsWith(newEmail, ANONYMIZED_DOMAIN)
    ensures var c1 := ScrubbedContact(c, newEmail, now);
      && c1.anonymized && c1.externalId == "" && c1.org == c.org && c1.email == AnonymousEmail(c, newEmail)
      && ScrubbedContact(c1, newEmail2, later) == c1
  {}

  /** A ticket the second run finds was one of the first, and its own scrub changes nothing. */
  lemma TicketsTwice(env: Env, db: Db, cid: Id, newEmail: string, now: Time, later: Time, k: Id)
    requires cid in db.contacts && EndsWith(newEmail, ANONYMIZED_DOMAIN) && k in db.tickets
    ensures var db1 := Anonymized(env, db, cid, newEmail, now);
      var c1 := db1.contacts[cid];
      IsTicketOf(db1, cid, c1, db1.tickets[k]) ==>
        && IsTicketOf(db, cid, db.contacts[cid], db.tickets[k])
        && ScrubbedTicket(env, db1, cid, c1.email, db1.tickets[k], later) == db1.tickets[k]
  {
    var db1 := Anonymized(env, db, cid, newEmail, now);
    var c := db.contacts[cid];
    ScrubbingContactTwice(c, newEmail, now, newEmail, later);
    ScrubbingTwice(env, db, db1, cid, db1.contacts[cid].email, db.tickets[k], now, later);
    var t1 := db1.tickets[k];
    if t1.session.Some? && t1.session.value in db1.sessions {
      assert db1.sessions[t1.session.value].contact != Some(cid);
    }
  }

  lemma RequesterStays(env: Env, db: Db, cid: Id, newEmail: string, now: Time, account: Option<Id>, k: Id)
    requires cid in db.contacts && k in db.tickets
    ensures var db1 := Anonymized(env, db, cid, newEmail, now);
      TheRequester(db1, account, db1.tickets[k]) ==> TheRequester(db, account, db.tickets[k])
  {}

  lemma EmptySenderIsNobody(m: Message, email: string)
    requires m.externalSender == ""
    ensures !SentFrom(m, email)
  {}

  lemma MessageTwice(env: Env, db: Db, cid: Id, newEmail: string, now: Time, later: Time, k: Id)
    requires cid in db.contacts && EndsWith(newEmail, ANONYMIZED_DOMAIN) && k in db.messages
    requires var db1 := Anonymized(env, db, cid, newEmail, now); !NamesContact(db1, db1.contacts[cid], db1.messages[k])
    ensures var db1 := Anonymized(env, db, cid, newEmail, now);
      AnonymizedMessage(db1, cid, db1.contacts[cid], db1.messages[k], later) == db1.messages[k]
  {
    var db1 := Anonymized(env, db, cid, newEmail, now);
    var c, c1 := db.contacts[cid], db1.contacts[cid];
    var m, m1 := db.messages[k], db1.messages[k];
    ScrubbingContactTwice(c, newEmail, now, newEmail, later);
    assert m1.ticket == m.ticket && m1.author == m.author && m1.sender == m.sender;
    if m.ticket in db.tickets {
      TicketsTwice(env, db, cid, newEmail, now, later, m.ticket);
      RequesterStays(env, db, cid, newEmail, now, m.author, m.ticket);
      assert WroteMessage(db1, cid, c1, m1) ==> WroteMessage(db, cid, c, m);
    }
  }

  lemma NameTwice(env: Env, db: Db, cid: Id, newEmail: string, now: Time, k: Id)
    requires cid in db.contacts && EndsWith(newEmail, ANONYMIZED_DOMAIN) && k in db.messages
    requires HasAnonymizedEmail(db.contacts[cid]) || Unused(db, newEmail)
    ensures var db1 := Anonymized(env, db, cid, newEmail, now); !NamesContact(db1, db1.contacts[cid], db1.messages[k])
  {
    var db1 := Anonymized(env, db, cid, newEmail, now);
    var m, m1 := db.messages[k], db1.messages[k];
    ScrubbingContactTwice(db.contacts[cid], newEmail, now, newEmail, now);
    assert m1.externalSender == m.externalSender || m1.externalSender == "";
    if m1.externalSender == "" {
      EmptySenderIsNobody(m1, db1.contacts[cid].email);
    }
  }

  lemma UploadTwice(env: Env, db: Db, cid: Id, newEmail: string, now: Time, k: Id)
    requires cid in db.contacts && EndsWith(newEmail, ANONYMIZED_DOMAIN)
    requires k in Anonymized(env, db, cid, newEmail, now).uploads
    ensures var db1 := Anonymized(env, db, cid, newEmail, now);
      !ByTheContact(db1, cid, db1.contacts[cid], db1.uploads[k])
  {}

  lemma MailTwice(env: Env, db: Db, cid: Id, newEmail: string, now: Time, k: Id)
    requires cid in db.contacts && EndsWith(newEmail, ANONYMIZED_DOMAIN)
    requires HasAnonymizedEmail(db.contacts[cid]) || Unused(db, newEmail)
    requires k in Anonymized(env, db, cid, newEmail, now).mails
    ensures var db1 := Anonymized(env, db, cid, newEmail, now);
      !ItsMail(db1, cid, db1.contacts[cid], db1.mails[k])
  {}

  lemma CodeTwice(env: Env, db: Db, cid: Id, newEmail: string, now: Time, k: Id)
    requires cid in db.contacts && EndsWith(newEmail, ANONYMIZED_DOMAIN)
    requires HasAnonymizedEmail(db.contacts[cid]) || Unused(db, newEmail)
    requires k in Anonymized(env, db, cid, newEmail, now).codes
    ensures var db1 := Anonymized(env, db, cid, newEmail, now);
      !ItsCode(db1, cid, db1.contacts[cid], db1.codes[k])
  {}

  lemma AllTicketsTwice(env: Env, db: Db, cid: Id, newEmail: string, now: Time, newEmail2: string, later: Time)
    requires cid in db.contacts && EndsWith(newEmail, ANONYMIZED_DOMAIN)
    ensures var db1 := Anonymized(env, db, cid, newEmail, now);
      Anonymized(env, db1, cid, newEmail2, later).tickets == db1.tickets
  {
    var db1 := Anonymized(env, db, cid, newEmail, now);
    ScrubbingContactTwice(db.contacts[cid], newEmail, now, newEmail2, later);
    forall k | k in db.tickets
      ensures IsTicketOf(db1, cid, db1.contacts[cid], db1.tickets[k]) ==>
        ScrubbedTicket(env, db1, cid, db1.contacts[cid].email, db1.tickets[k], later) == db1.tickets[k]
    {
      TicketsTwice(env, db, cid, newEmail, now, later, k);
    }
  }

  lemma RowsTwice(env: Env, db: Db, cid: Id, newEmail: string, now: Time, newEmail2: string, later: Time)
    requires cid in db.contacts && EndsWith(newEmail, ANONYMIZED_DOMAIN)
    ensures var db1 := Anonymized(env, db, cid, newEmail, now);
      var db2 := Anonymized(env, db1, cid, newEmail2, later);
      db2.contacts == db1.contacts && db2.sessions == db1.sessions && db2.notes == db1.notes
  {
    ScrubbingContactTwice(db.contacts[cid], newEmail, now, newEmail2, later);
  }

  /** No stored mail or code is the contact's, and no message names its address. */
  predicate NoTraces(db: Db, cid: Id)
    requires cid in db.contacts
  {
    && (forall k :: k in db.mails ==> !ItsMail(db, cid, db.contacts[cid], db.mails[k]))
    && (forall k :: k in db.codes ==> !ItsCode(db, cid, db.contacts[cid], db.codes[k]))
    && (forall k :: k in db.messages ==> !NamesContact(db, db.contacts[cid], db.messages[k]))
  }

  /** None is left where the new address is one that none is from, as a random one is, or it keeps the one it has. */
  lemma UnusedLeavesNoTraces(env: Env, db: Db, cid: Id, newEmail: string, now: Time)
    requires cid in db.contacts && EndsWith(newEmail, ANONYMIZED_DOMAIN)
    requires HasAnonymizedEmail(db.contacts[cid]) || Unused(db, newEmail)
    ensures NoTraces(Anonymized(env, db, cid, newEmail, now), cid)
  {
    var db1 := Anonymized(env, db, cid, newEmail, now);
    forall k | k in db1.mails ensures !ItsMail(db1, cid, db1.contacts[cid], db1.mails[k]) {
      MailTwice(env, db, cid, newEmail, now, k);
    }
    forall k | k in db1.codes ensures !ItsCode(db1, cid, db1.contacts[cid], db1.codes[k]) {
      CodeTwice(env, db, cid, newEmail, now, k);
    }
    forall k | k in db1.messages ensures !NamesContact(db1, db1.contacts[cid], db1.messages[k]) {
      NameTwice(env, db, cid, newEmail, now, k);
    }
  }

  lemma TracesTwice(env: Env, db: Db, cid: Id, newEmail: string, now: Time, newEmail2: string, later: Time)
    requires cid in db.contacts && EndsWith(newEmail, ANONYMIZED_DOMAIN)
    requires NoTraces(Anonymized(env, db, cid, newEmail, now), cid)
    ensures var db1 := Anonymized(env, db, cid, newEmail, now);
      var db2 := Anonymized(env, db1, cid, newEmail2, later);
      db2.uploads == db1.uploads && db2.mails == db1.mails && db2.codes == db1.codes
  {
    var db1 := Anonymized(env, db, cid, newEmail, now);
    forall k | k in db1.uploads ensures !ByTheContact(db1, cid, db1.contacts[cid], db1.uploads[k]) {
      UploadTwice(env, db, cid, newEmail, now, k);
    }
  }

  lemma MessagesTwice(env: Env, db: Db, cid: Id, newEmail: string, now: Time, newEmail2: string, later: Time)
    requires cid in db.contacts && EndsWith(newEmail, ANONYMIZED_DOMAIN)
    requires NoTraces(Anonymized(env, db, cid, newEmail, now), cid)
    ensures var db1 := Anonymized(env, db, cid, newEmail, now);
      Anonymized(env, db1, cid, newEmail2, later).messages == db1.messages
  {
    var db1 := Anonymized(env, db, cid, newEmail, now);
    forall k | k in db1.messages
      ensures AnonymizedMessage(db1, cid, db1.contacts[cid], db1.messages[k], later) == db1.messages[k]
    {
      MessageTwice(env, db, cid, newEmail, now, later, k);
    }
  }

  /** An anonymization takes every trace there is: it only changes nothing where there is none. */
  lemma TracesGo(env: Env, db: Db, cid: Id, newEmail: string, now: Time)
    requires cid in db.contacts && Anonymized(env, db, cid, newEmail, now) == db
    ensures NoTraces(db, cid)
  {
    forall k | k in db.messages ensures !NamesContact(db, db.contacts[cid], db.messages[k]) {
      assert AnonymizedMessage(db, cid, db.contacts[cid], db.messages[k], now) == db.messages[k];
      UnnamedDiffers(db, cid, db.messages[k], now);
    }
  }

  lemma UnnamedDiffers(db: Db, cid: Id, m: Message, now: Time)
    requires cid in db.contacts
    ensures NamesContact(db, db.contacts[cid], m) ==> AnonymizedMessage(db, cid, db.contacts[cid], m, now) != m
  {
    if m.externalSender == "" {
      EmptySenderIsNobody(m, db.contacts[cid].email);
    }
  }

  /**
   Anonymizing again changes nothing, not even a date, exactly if the first run left no
   mail, message or code from the new address.
   */
  lemma AnonymizingTwice(
    env: Env, db: Db, cid: Id, newEmail: string, now: Time, newEmail2: string, later: Time)
    requires cid in db.contacts && EndsWith(newEmail, ANONYMIZED_DOMAIN)
    ensures var db1 := Anonymized(env, db, cid, newEmail, now);
      Anonymized(env, db1, cid, newEmail2, later) == db1 <==> NoTraces(db1, cid)
    ensures HasAnonymizedEmail(db.contacts[cid]) || Unused(db, newEmail) ==>
      NoTraces(Anonymized(env, db, cid, newEmail, now), cid)
  {
    var db1 := Anonymized(env, db, cid, newEmail, now);
    if NoTraces(db1, cid) {
      AllTicketsTwice(env, db, cid, newEmail, now, newEmail2, later);
      RowsTwice(env, db, cid, newEmail, now, newEmail2, later);
      MessagesTwice(env, db, cid, newEmail, now, newEmail2, later);
      TracesTwice(env, db, cid, newEmail, now, newEmail2, later);
    } else if Anonymized(env, db1, cid, newEmail2, later) == db1 {
      TracesGo(env, db1, cid, newEmail2, later);
      assert false;
    }
    if HasAnonymizedEmail(db.contacts[cid]) || Unused(db, newEmail) {
      UnusedLeavesNoTraces(env, db, cid, newEmail, now);
    }
  }

  // What it keeps, and what it leaves behind

  /** The contact didn't write the message: staff did, or it is on somebody else's ticket. */
  predicate NotTheContacts(db: Db, cid: Id, m: Message)
    requires cid in db.contacts
  {
    !WroteMessage(db, cid, db.contacts[cid], m)
  }

  /**
   No ticket or message goes, no other contact changes, and a message the contact didn't
   write keeps all but the contact's address as its sender.
   */
  lemma AnonymizingConserves(env: Env, db: Db, cid: Id, newEmail: string, now: Time)
    requires cid in db.contacts
    ensures var db1 := Anonymized(env, db, cid, newEmail, now);
      && db1.tickets.Keys == db.tickets.Keys && db1.messages.Keys == db.messages.Keys
      && db1.sessions.Keys == db.sessions.Keys && db1.contacts.Keys == db.contacts.Keys
      && db1.companies == db.companies && db1.users == db.users
      && (forall k :: k in db.contacts && k != cid ==> db1.contacts[k] == db.contacts[k])
      && (forall k :: k in db.sessions && db.sessions[k].contact != Some(cid) ==> db1.sessions[k] == db.sessions[k])
      && (forall k :: k in db.tickets && !IsTicketOf(db, cid, db.contacts[cid], db.tickets[k])
            ==> db1.tickets[k] == db.tickets[k])
      && (forall k :: k in db.messages && NotTheContacts(db, cid, db.messages[k]) ==>
            && db1.messages[k].body == db.messages[k].body
            && db1.messages[k].session == db.messages[k].session
            && db1.messages[k].externalId == db.messages[k].externalId)
  {}

  /** An agent's or admin's own message keeps its body, on whichever ticket, filed by whomever. */
  lemma AnonymizingSparesStaff(env: Env, db: Db, cid: Id, newEmail: string, now: Time, k: Id)
    requires cid in db.contacts && k in db.messages && db.messages[k].ticket in db.tickets
    requires var m := db.messages[k];
      && !m.sender.FromUser? && m.author.Some? && m.author.value in db.users
      && var author := db.users[m.author.value];
         author.role in {AgentRole, Admin} && author.org == Some(db.tickets[m.ticket].org)
    ensures Anonymized(env, db, cid, newEmail, now).messages[k].body == db.messages[k].body
  {}

  /** Nothing of the contact is left where the erasure looks. */
  lemma AnonymizingErases(env: Env, db: Db, cid: Id, newEmail: string, now: Time)
    requires cid in db.contacts
    ensures var db1 := Anonymized(env, db, cid, newEmail, now);
      var c, c1 := db.contacts[cid], db1.contacts[cid];
      && c1.anonymized && c1.externalId == "" && c1.verifiedAt.None? && c1.declared == "" && c1.company.None?
      && c1.profile == BLANK_PROFILE.(name := ANONYMOUS_NAME) && c1.attributes == Dict(map[])
      && (c1.email == newEmail || (c1.email == c.email && c.anonymized))
      && (forall k :: k in db1.sessions ==> db1.sessions[k].contact != Some(cid))
      && (forall k :: k in db1.notes ==> db1.notes[k].contact != cid)
      && (forall k :: k in db.tickets && IsTicketOf(db, cid, c, db.tickets[k]) ==>
            && db1.tickets[k].session.None? && db1.tickets[k].externalId == ""
            && db1.tickets[k].requesterEmail == c1.email && db1.tickets[k].requesterName == "Anonymized contact"
            && db1.tickets[k].title == "[Removed at the contact's request]"
            && db1.tickets[k].description == "[Content removed at the contact's request]"
            && db1.tickets[k].contextUrl == "" && db1.tickets[k].contextUserAgent == "")
      && (forall k :: k in db.messages && WroteMessage(db, cid, c, db.messages[k]) ==>
            IsScrubbedMessage(db1.messages[k]))
  {}
}
