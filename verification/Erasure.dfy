/**
 `anonymize_contact` statement by statement: what it reads before it scrubs it, and in
 which order, makes the difference (backend/apps/contacts/gdpr.py:52-345).
 */
module Erasure {
  import opened Rows
  import opened Desk
  import opened Anonymization

  /** Its tickets, as read before anything is scrubbed. */
  function TicketIds(db: Db, cid: Id, c: Contact): set<Id> {
    set k | k in db.tickets && IsTicketOf(db, cid, c, db.tickets[k])
  }

  /** An upload, or a message, that the contact made on one of its tickets. */
  predicate MadeOn(db: Db, tids: set<Id>, ticket: Id, maker: Option<Id>, outside: bool) {
    ticket in tids && ticket in db.tickets && (outside || TheRequester(db, maker, db.tickets[ticket]))
  }

  // What each statement leaves

  function MailsLeft(db: Db, c: Contact, tids: set<Id>): map<Id, StoredMail> {
    map k | k in db.mails
      && !((db.mails[k].ticket.Some? && db.mails[k].ticket.value in tids)
           || (c.email != "" && db.mails[k].sender == c.email && MailIn(db, c.org, db.mails[k]))) :: db.mails[k]
  }

  function MessagesUnnamed(db: Db, c: Contact, now: Time): map<Id, Message> {
    map k | k in db.messages ::
      if NamesContact(db, c, db.messages[k]) then Unnamed(db.messages[k], now) else db.messages[k]
  }

  function MessagesScrubbed(db: Db, tids: set<Id>, now: Time): map<Id, Message> {
    map k | k in db.messages ::
      var m := db.messages[k];
      if MadeOn(db, tids, m.ticket, m.author, m.sender.FromUser?) then ScrubbedMessage(m, now) else m
  }

  function CodesLeft(db: Db, cid: Id, c: Contact): map<Id, OneTimeCode> {
    map k | k in db.codes && !ItsCode(db, cid, c, db.codes[k]) :: db.codes[k]
  }

  function UploadsLeft(db: Db, tids: set<Id>): map<Id, Upload> {
    map k | k in db.uploads
      && !MadeOn(db, tids, db.uploads[k].ticket, db.uploads[k].uploadedBy, db.uploads[k].uploadedBy.None?) :: db.uploads[k]
  }

  function SessionsCleared(db: Db, cid: Id): map<Id, Session> {
    map k | k in db.sessions ::
      if db.sessions[k].contact == Some(cid) then ClearedSession(db.sessions[k]) else db.sessions[k]
  }

  function TicketsScrubbed(env: Env, db: Db, cid: Id, email: string, tids: set<Id>, now: Time): map<Id, Ticket> {
    map k | k in db.tickets ::
      if k in tids then ScrubbedTicket(env, db, cid, email, db.tickets[k], now) else db.tickets[k]
  }

  // The statements

  /** `_delete_inbound_mail`: the mails, then the address as a sender on anybody's ticket. */
  method DeleteInboundMail(db: Tables, c: Contact, tids: set<Id>, now: Time)
    modifies db`mails, db`messages
    ensures db.mails == MailsLeft(old(db.Contents()), c, tids)
    ensures db.messages == MessagesUnnamed(old(db.Contents()), c, now)
  {
    var view := db.Snapshot();
    db.mails := MailsLeft(view, c, tids);
    if c.email != "" {
      db.messages := MessagesUnnamed(view, c, now);
    } else {
      assert MessagesUnnamed(view, c, now) == view.messages;
    }
  }

  /** `_scrub_tickets`: ticket by ticket, those that need it. */
  method ScrubTickets(db: Tables, env: Env, cid: Id, email: string, tids: set<Id>, now: Time)
    requires tids <= db.tickets.Keys
    modifies db`tickets
    ensures db.tickets == TicketsScrubbed(env, old(db.Contents()), cid, email, tids, now)
  {
    var view := db.Snapshot();
    var changed: map<Id, Ticket> := map[];
    var left := tids;
    while left != {}
      invariant left <= tids && changed.Keys <= tids - left
      invariant forall k :: k in tids - left ==>
        ScrubbedTicket(env, view, cid, email, view.tickets[k], now) == if k in changed then changed[k] else view.tickets[k]
      decreases left
    {
      var k :| k in left;
      var scrubbed := ScrubbedTicket(env, view, cid, email, view.tickets[k], now);
      if scrubbed != view.tickets[k] {
        changed := changed[k := scrubbed];
      }
      left := left - {k};
    }
    db.tickets := view.tickets + changed;
  }

  // They look at the tickets and the accounts, whatever was done to other tables

  lemma SameUploads(a: Db, b: Db, tids: set<Id>)
    requires b.tickets == a.tickets && b.users == a.users && b.uploads == a.uploads
    ensures UploadsLeft(b, tids) == UploadsLeft(a, tids)
  {}

  lemma SameTickets(env: Env, a: Db, b: Db, cid: Id, email: string, tids: set<Id>, now: Time)
    requires b.tickets == a.tickets && b.users == a.users
    ensures TicketsScrubbed(env, b, cid, email, tids, now) == TicketsScrubbed(env, a, cid, email, tids, now)
  {}

  // Each table is, in the end, that of the contact's erasure

  lemma MailsAre(env: Env, db: Db, cid: Id, newEmail: string, now: Time)
    requires cid in db.contacts
    ensures MailsLeft(db, db.contacts[cid], TicketIds(db, cid, db.contacts[cid])) == Anonymized(env, db, cid, newEmail, now).mails
  {}

  lemma UploadsAre(env: Env, db: Db, cid: Id, newEmail: string, now: Time)
    requires cid in db.contacts
    ensures UploadsLeft(db, TicketIds(db, cid, db.contacts[cid])) == Anonymized(env, db, cid, newEmail, now).uploads
  {}

  lemma MessageIs(db: Db, unlinked: Db, cid: Id, c: Contact, now: Time, k: Id)
    requires k in db.messages
    requires unlinked.tickets == db.tickets && unlinked.users == db.users
    requires unlinked.messages == MessagesUnnamed(db, c, now)
    ensures MessagesScrubbed(unlinked, TicketIds(db, cid, c), now)[k] == AnonymizedMessage(db, cid, c, db.messages[k], now)
  {}

  lemma MessagesAre(env: Env, db: Db, unlinked: Db, cid: Id, newEmail: string, now: Time)
    requires cid in db.contacts
    requires unlinked.tickets == db.tickets && unlinked.users == db.users
    requires unlinked.messages == MessagesUnnamed(db, db.contacts[cid], now)
    ensures MessagesScrubbed(unlinked, TicketIds(db, cid, db.contacts[cid]), now) == Anonymized(env, db, cid, newEmail, now).messages
  {
    var c := db.contacts[cid];
    forall k | k in db.messages
      ensures MessagesScrubbed(unlinked, TicketIds(db, cid, c), now)[k] == AnonymizedMessage(db, cid, c, db.messages[k], now)
    {
      MessageIs(db, unlinked, cid, c, now, k);
    }
  }

  lemma OtherTablesAre(env: Env, db: Db, cid: Id, newEmail: string, now: Time)
    requires cid in db.contacts
    ensures var c := db.contacts[cid];
      var scrubbed := ScrubbedContact(c, newEmail, now);
      var after := Anonymized(env, db, cid, newEmail, now);
      && after.contacts == db.contacts[cid := scrubbed]
      && after.sessions == SessionsCleared(db, cid)
      && after.tickets == TicketsScrubbed(env, db, cid, scrubbed.email, TicketIds(db, cid, c), now)
      && after.codes == CodesLeft(db, cid, c)
      && after.companies == db.companies && after.users == db.users
      && after.notes == NotesLeft(db, cid)
  {}

  function NotesLeft(db: Db, cid: Id): map<Id, Note> {
    map k | k in db.notes && db.notes[k].contact != cid :: db.notes[k]
  }

  lemma AllTablesAre(env: Env, db: Db, cid: Id, newEmail: string, now: Time, messages: map<Id, Message>)
    requires cid in db.contacts && messages == Anonymized(env, db, cid, newEmail, now).messages
    ensures var c := db.contacts[cid];
      var scrubbed := ScrubbedContact(c, newEmail, now);
      var tids := TicketIds(db, cid, c);
      Anonymized(env, db, cid, newEmail, now)
      == Db(db.contacts[cid := scrubbed], SessionsCleared(db, cid),
            TicketsScrubbed(env, db, cid, scrubbed.email, tids, now), messages, db.companies, NotesLeft(db, cid),
            UploadsLeft(db, tids), MailsLeft(db, c, tids), CodesLeft(db, cid, c), db.users)
  {
    MailsAre(env, db, cid, newEmail, now);
    UploadsAre(env, db, cid, newEmail, now);
    OtherTablesAre(env, db, cid, newEmail, now);
  }

  /** `anonymize_contact`, of a row that is there: what it reads of tables it scrubs later is what they were. */
  method EraseContact(db: Tables, env: Env, cid: Id, newEmail: string, now: Time)
    requires cid in db.contacts
    modifies db
    ensures db.Contents() == Anonymized(env, old(db.Contents()), cid, newEmail, now)
  {
    var before := db.Snapshot();
    var c := before.contacts[cid];
    var tids := TicketIds(before, cid, c);
    DeleteInboundMail(db, c, tids, now);
    db.codes := CodesLeft(before, cid, c);
    var scrubbed := ScrubbedContact(c, newEmail, now);
    db.contacts := db.contacts[cid := scrubbed];
    db.notes := NotesLeft(before, cid);
    db.sessions := SessionsCleared(before, cid);
    ScrubTraces(db, before, env, cid, scrubbed.email, tids, newEmail, now);
    AllTablesAre(env, before, cid, newEmail, now, db.messages);
  }

  /** The uploads, the messages, and the tickets last: they still say whose the others are. */
  method ScrubTraces(
    db: Tables, ghost before: Db, env: Env, cid: Id, email: string, tids: set<Id>, ghost newEmail: string, now: Time)
    requires cid in before.contacts && tids == TicketIds(before, cid, before.contacts[cid])
    requires db.tickets == before.tickets && db.users == before.users && db.uploads == before.uploads
    requires db.messages == MessagesUnnamed(before, before.contacts[cid], now)
    modifies db`uploads, db`messages, db`tickets
    ensures db.uploads == UploadsLeft(before, tids)
    ensures db.messages == Anonymized(env, before, cid, newEmail, now).messages
    ensures db.tickets == TicketsScrubbed(env, before, cid, email, tids, now)
  {
    var unlinked := db.Snapshot();
    SameUploads(before, unlinked, tids);
    db.uploads := UploadsLeft(unlinked, tids);
    MessagesAre(env, before, unlinked, cid, newEmail, now);
    db.messages := MessagesScrubbed(unlinked, tids, now);
    SameTickets(env, before, db.Contents(), cid, email, tids, now);
    ScrubTickets(db, env, cid, email, tids, now);
  }

  /** `anonymize_contact`: false if the row is gone. */
  method AnonymizeContact(db: Tables, env: Env, cid: Id, newEmail: string, now: Time) returns (found: bool)
    modifies db
    ensures found == (cid in old(db.contacts))
    ensures db.Contents() == if found then Anonymized(env, old(db.Contents()), cid, newEmail, now) else old(db.Contents())
  {
    found := cid in db.contacts;
    if found {
      EraseContact(db, env, cid, newEmail, now);
    }
  }
}
