/**
 Where the mail of a ticket goes, and who may write on it: the requester's address, the
 link that opens the conversation, and the widget's right to answer
 (backend/apps/tickets/models.py:155-201, backend/apps/tickets/access.py:53-79,
 backend/apps/email_channel/outbound.py:284-310, backend/apps/email_channel/tokens.py:88-125).
 */
module Replies {
  import opened Text
  import opened Rows
  import opened Access
  import opened Anonymization
  import opened LoginMove
  import opened Tokens
  import opened Safety
  import opened DeskWork
  import opened Machine
  import opened Reach
  import opened Permanence

  function ContactOf(db: Db, t: Ticket): Option<Contact> {
    if t.contact.Some? && t.contact.value in db.contacts then Some(db.contacts[t.contact.value]) else None
  }

  predicate CanBeEmailed(db: Db, t: Ticket) {
    && t.requesterEmail != ""
    && match ContactOf(db, t)
       case Some(c) => !c.anonymized
       case None => !EndsWith(Lower(t.requesterEmail), Lower(ANONYMIZED_DOMAIN))
  }

  /** `requester_reply_address`: where an agent's reply goes, or "". */
  function ReplyAddressOf(db: Db, t: Ticket): string {
    if t.requesterEmail != "" then if CanBeEmailed(db, t) then t.requesterEmail else ""
    else
      match ContactOf(db, t)
      case Some(c) =>
        if c.anonymized || MovedByLogin(t) then "" else if c.email != "" then c.email else c.declared
      case None => ""
  }

  lemma AnonymousStaysAnonymous(email: string)
    requires EndsWith(email, ANONYMIZED_DOMAIN)
    ensures EndsWith(Lower(email), Lower(ANONYMIZED_DOMAIN)) && email != ""
  {
    var local := email[..|email| - |ANONYMIZED_DOMAIN|];
    assert email == local + ANONYMIZED_DOMAIN;
    LowerConcat(local, ANONYMIZED_DOMAIN);
  }

  lemma ScrubbedGetsNoMail(db: Db, t: Ticket)
    requires t.requesterEmail != "" && EndsWith(Lower(t.requesterEmail), Lower(ANONYMIZED_DOMAIN))
    requires t.contact.Some? ==> t.contact.value in db.contacts && db.contacts[t.contact.value].anonymized
    ensures ReplyAddressOf(db, t) == ""
  {}

  lemma ScrubbedTicketIs(env: Env, db: Db, cid: Id, newEmail: string, now: Time, k: Id)
    requires cid in db.contacts && k in db.tickets && IsTicketOf(db, cid, db.contacts[cid], db.tickets[k])
    ensures var db1 := Anonymized(env, db, cid, newEmail, now);
      && k in db1.tickets && cid in db1.contacts && db1.contacts[cid].anonymized
      && db1.tickets[k].requesterEmail == AnonymousEmail(db.contacts[cid], newEmail)
      && (db1.tickets[k].contact.None? || db1.tickets[k].contact == Some(cid))
  {}

  /** Once a contact is anonymized, no reply on one of its tickets is mailed to anyone. */
  lemma ErasedGetsNoMail(env: Env, db: Db, cid: Id, newEmail: string, now: Time, k: Id)
    requires cid in db.contacts && EndsWith(newEmail, ANONYMIZED_DOMAIN)
    requires k in db.tickets && IsTicketOf(db, cid, db.contacts[cid], db.tickets[k])
    ensures var db1 := Anonymized(env, db, cid, newEmail, now); ReplyAddressOf(db1, db1.tickets[k]) == ""
  {
    var db1 := Anonymized(env, db, cid, newEmail, now);
    AnonymousStaysAnonymous(AnonymousEmail(db.contacts[cid], newEmail));
    ScrubbedTicketIs(env, db, cid, newEmail, now, k);
    ScrubbedGetsNoMail(db1, db1.tickets[k]);
  }

  // What a login moved

  /** An edit by the staff that writes the ticket's address, or takes the key of a login off it. */
  predicate Readdresses(step: Step, k: Id) {
    && step.Handle? && step.work.EditTicket? && step.work.tid == k
    && var edit := step.work.edit;
       edit.requesterEmail.Some? || (edit.metadata.Some? && !HasLoginKey(edit.metadata.value))
  }

  /** The ticket was moved and has the address on it, or has an erased contact's. */
  predicate MailsOnly(t: Ticket, address: string) {
    (MovedByLogin(t) && t.requesterEmail == address) || EndsWith(t.requesterEmail, ANONYMIZED_DOMAIN)
  }

  lemma MailsOnlyThat(db: Db, t: Ticket, address: string)
    requires MailsOnly(t, address)
    ensures ReplyAddressOf(db, t) in {"", address} || EndsWith(ReplyAddressOf(db, t), ANONYMIZED_DOMAIN)
  {}

  lemma ErasingKeepsAddress(env: Env, db: Db, id: Id, newEmail: string, now: Time, k: Id, address: string)
    requires id in db.contacts && EndsWith(newEmail, ANONYMIZED_DOMAIN)
    requires k in db.tickets && MailsOnly(db.tickets[k], address)
    ensures var after := Anonymized(env, db, id, newEmail, now).tickets; k in after && MailsOnly(after[k], address)
  {}

  lemma MovingKeepsAddress(db: Db, login: Login, now: Time, k: Id, address: string)
    requires k in db.tickets && MailsOnly(db.tickets[k], address)
    ensures MailsOnly(Moved(db, login, now).tickets[k], address)
  {}

  lemma WorkKeepsAddress(db: Db, ticketKeys: set<Id>, work: Work, now: Time, k: Id, address: string)
    requires Allowed(db, ticketKeys, work) && !Readdresses(Handle(work), k)
    requires k in db.tickets && MailsOnly(db.tickets[k], address) && k in Worked(db, ticketKeys, work, now).tickets
    ensures MailsOnly(Worked(db, ticketKeys, work, now).tickets[k], address)
  {
    if work.FillRequesters? {
      assert db.tickets[k].requesterEmail == "" ==> !EndsWith(db.tickets[k].requesterEmail, ANONYMIZED_DOMAIN);
    }
  }

  /** The ticket is gone for good, or mails only that address. */
  predicate StillMailsOnly(st: State, k: Id, address: string) {
    k in st.ticketKeys && (k in st.db.tickets ==> MailsOnly(st.db.tickets[k], address))
  }

  /** A pass or a back-fill gives a ticket at most another contact. */
  lemma PassKeepsAddress(env: Env, host: Host, st: State, e: Event, k: Id, address: string)
    requires Enabled(env, host, st, e.step) && (e.step.Link? || e.step.BackfillContacts?)
    requires StillMailsOnly(st, k, address)
    ensures StillMailsOnly(Apply(env, host, st, e), k, address)
  {
    if e.step.Link? {
      var Link(sid, s, claim, ids) := e.step;
      LinkingKeepsRest(env, st.db, sid, s, LinkPayload(host, s, claim), e.at, ids);
    } else {
      BackfillLaws.BackfillKeepsRest(env, st.db, e.step.reading, e.at);
      assert k in st.db.tickets ==>
        BackfillLaws.TicketAlike(st.db.tickets[k], Written(env, host, st, e.step, e.at).tickets[k]);
    }
  }

  lemma OtherStepKeepsAddress(env: Env, host: Host, st: State, e: Event, k: Id, address: string)
    requires Enabled(env, host, st, e.step) && !e.step.Link? && !e.step.BackfillContacts?
    requires StillMailsOnly(st, k, address) && !Readdresses(e.step, k)
    ensures StillMailsOnly(Apply(env, host, st, e), k, address)
  {
    if k in Written(env, host, st, e.step, e.at).tickets {
      StepAndMark(env, host, st, e, k);
      match e.step
      case Move(login) => MovingKeepsAddress(st.db, login, e.at, k, address);
      case Anonymize(id, newEmail) => ErasingKeepsAddress(env, st.db, id, newEmail, e.at, k, address);
      case Handle(work) => WorkKeepsAddress(st.db, st.ticketKeys, work, e.at, k, address);
      case _ =>
    }
  }

  lemma StepKeepsAddress(env: Env, host: Host, st: State, e: Event, k: Id, address: string)
    requires StillMailsOnly(st, k, address) && !Readdresses(e.step, k)
    ensures StillMailsOnly(Apply(env, host, st, e), k, address)
  {
    if Enabled(env, host, st, e.step) {
      if e.step.Link? || e.step.BackfillContacts? {
        PassKeepsAddress(env, host, st, e, k, address);
      } else {
        OtherStepKeepsAddress(env, host, st, e, k, address);
      }
    }
  }

  lemma {:induction false} RunKeepsAddress(
    env: Env, host: Host, st: State, events: seq<Event>, k: Id, address: string)
    requires StillMailsOnly(st, k, address) && forall i :: 0 <= i < |events| ==> !Readdresses(events[i].step, k)
    ensures StillMailsOnly(Run(env, host, st, events), k, address)
    decreases |events|
  {
    if events != [] {
      StepKeepsAddress(env, host, st, events[0], k, address);
      RunKeepsAddress(env, host, Apply(env, host, st, events[0]), events[1..], k, address);
    }
  }

  /**
   While no edit of it writes its address, or takes the login's key off it, a ticket a
   login moved only ever mails the address written on it, not the contact it moved to: or
   nobody, at an erased contact's address.
   */
  lemma MovedTicketMailsItsOwn(env: Env, host: Host, st: State, login: Login, now: Time, events: seq<Event>, k: Id)
    requires Enabled(env, host, st, Move(login)) && k in st.db.tickets && IsLeft(login, st.db.tickets[k])
    requires forall i :: 0 <= i < |events| ==> !Readdresses(events[i].step, k)
    ensures var end := Run(env, host, Apply(env, host, st, Event(Move(login), now)), events).db;
      k in end.tickets ==>
        || ReplyAddressOf(end, end.tickets[k]) in {"", st.db.tickets[k].requesterEmail}
        || EndsWith(ReplyAddressOf(end, end.tickets[k]), ANONYMIZED_DOMAIN)
  {
    var moved := Apply(env, host, st, Event(Move(login), now));
    var address := st.db.tickets[k].requesterEmail;
    MoveMarks(env, host, st, login, now, k);
    assert moved.db.tickets[k] == MovedTicket(login, st.db.tickets[k]);
    RunKeepsAddress(env, host, moved, events, k, address);
    var end := Run(env, host, moved, events).db;
    if k in end.tickets {
      MailsOnlyThat(end, end.tickets[k], address);
    }
  }

  // The link to a conversation

  function AddressHash(o: Instance, key: string, email: string): string {
    o.sign(key, "email:" + Normalized(email))
  }

  /** `ConversationClaim.holds`, whichever key the hash was made with. */
  predicate Holds(o: Instance, hash: string, email: string) {
    Strip(email) != "" && exists key :: key in o.keys && AddressHash(o, key, email) == hash
  }

  /** `conversation_url` gives a link: only for the address the contact holds, and not on a moved ticket. */
  predicate GivesLink(db: Db, t: Ticket, address: string) {
    match ContactOf(db, t)
    case Some(c) => !c.anonymized && c.email != "" && Normalized(c.email) == Normalized(address) && !MovedByLogin(t)
    case None => false
  }

  /** Two addresses with the same hash, under one of the keys or two. */
  predicate Collide(o: Instance, a: string, b: string) {
    && Normalized(a) != Normalized(b)
    && exists key, key2 :: key in o.keys && key2 in o.keys && AddressHash(o, key, a) == AddressHash(o, key2, b)
  }

  /** A link proves the address it was mailed to for as long as the contact holds it, and no other that its hash can tell. */
  lemma LinkProvesItsAddress(o: Instance, db: Db, t: Ticket, address: string, key: string, later: string)
    requires key in o.keys && GivesLink(db, t, address) && !Collide(o, address, later)
    ensures Holds(o, AddressHash(o, key, address), later)
      <==> Strip(later) != "" && Normalized(later) == Normalized(ContactOf(db, t).value.email)
  {}

  /** What a link claims: a ticket, its contact, and the hash of the address mailed. */
  datatype Claimed = Claimed(ticket: Id, contact: Id, hash: string)

  /** The signing of claims: a token, dated, under a key, and what is read back of one. */
  datatype Seal = Seal(write: (string, Claimed, Time) -> string, read: string -> Option<(string, Claimed, Time)>)

  ghost predicate Faithful(seal: Seal) {
    forall key: string, claim: Claimed, at: Time :: seal.read(seal.write(key, claim, at)) == Some((key, claim, at))
  }

  /** `conversation_token`. */
  function TokenOf(o: Instance, seal: Seal, tid: Id, cid: Id, address: string, key: string, at: Time): string {
    seal.write(key, Claimed(tid, cid, AddressHash(o, key, address)), at)
  }

  /** `read_conversation_token`: signed under a key still known, and not too old. */
  function ReadToken(o: Instance, seal: Seal, token: string, now: Time, maxAge: nat): Option<Claimed> {
    match seal.read(token)
    case Some((key, claim, at)) => if key in o.keys && now - at <= maxAge then Some(claim) else None
    case None => None
  }

  /** `_resolve`: the ticket the claim still opens. */
  predicate OpensTicket(o: Instance, db: Db, claim: Claimed) {
    && claim.ticket in db.tickets && claim.contact in db.contacts
    && var t, c := db.tickets[claim.ticket], db.contacts[claim.contact];
       t.contact == Some(claim.contact) && !c.anonymized && Holds(o, claim.hash, c.email) && !MovedByLogin(t)
  }

  /**
   A link given for a ticket and an address opens that ticket and no other, on whatever
   the rows have become, exactly while it is not too old, the ticket is on that contact
   and was not moved by a login, and the contact is not erased and holds that address,
   unless it holds one with the same hash.
   */
  lemma LinkOpensItsTicket(
    o: Instance, seal: Seal, db: Db, tid: Id, address: string, key: string, at: Time, later: Db, now: Time, maxAge: nat)
    requires Faithful(seal) && key in o.keys && tid in db.tickets && GivesLink(db, db.tickets[tid], address)
    requires var cid := db.tickets[tid].contact.value;
      cid in later.contacts ==> !Collide(o, address, later.contacts[cid].email)
    ensures var cid := db.tickets[tid].contact.value;
      var claim := ReadToken(o, seal, TokenOf(o, seal, tid, cid, address, key, at), now, maxAge);
      && (claim.Some? <==> now - at <= maxAge)
      && (claim.Some? ==>
            && claim.value.ticket == tid
            && (OpensTicket(o, later, claim.value) <==>
                  && tid in later.tickets && cid in later.contacts
                  && later.tickets[tid].contact == Some(cid) && !MovedByLogin(later.tickets[tid])
                  && !later.contacts[cid].anonymized && Strip(later.contacts[cid].email) != ""
                  && Normalized(later.contacts[cid].email) == Normalized(address)))
  {
    var cid := db.tickets[tid].contact.value;
    if cid in later.contacts {
      LinkProvesItsAddress(o, db, db.tickets[tid], address, key, later.contacts[cid].email);
    }
  }

  // Writing from the widget

  /** `writable_from`, of a session that sees the ticket. */
  predicate WritableFrom(db: Db, sid: Id, tid: Id)
    requires sid in db.sessions && tid in db.tickets
  {
    var s, t := db.sessions[sid], db.tickets[tid];
    if t.session == Some(sid) then true
    else if t.session.None? then
      match ContactOf(db, t)
      case Some(c) =>
        && t.source.Email? && t.contact == s.contact && ContactHistoryOpens(db, s)
        && Normalized(ReplyAddressOf(db, t)) == Normalized(c.email)
      case None => false
    else if t.session.value !in db.sessions then false
    else
      var opener := db.sessions[t.session.value];
      || (s.externalId != "" && opener.externalId == s.externalId)
      || (opener.contact == t.contact && ContactHistoryOpens(db, opener))
  }

  /** Who proved being the contact's person: the host app's user of its id, or whoever proved its address. */
  predicate Entitled(proofs: set<Proof>, sid: Id, s: Session, c: Contact) {
    || (s.externalId != "" && c.externalId == s.externalId && OfUser(sid, s.org, s.externalId) in proofs)
    || OfAddress(sid, s.org, Normalized(c.email)) in proofs
  }

  /**
   In any reachable state, a session that may answer on a ticket another one opened
   writes to somebody entitled: that session is the same user's, or proved being the
   person of the ticket's contact.
   */
  lemma AnswersReachTheEntitled(host: Host, st: State, sid: Id, tid: Id)
    requires Invariant(host, st) && sid in st.db.sessions && tid in st.db.tickets
    requires WritableFrom(st.db, sid, tid)
    requires var t := st.db.tickets[tid]; t.session.Some? && t.session != Some(sid)
    ensures var t := st.db.tickets[tid];
      && t.session.value in st.db.sessions
      && var opener := st.db.sessions[t.session.value];
         || (opener.externalId != "" && opener.externalId == st.db.sessions[sid].externalId)
         || (&& opener.contact == t.contact && t.contact.Some? && t.contact.value in st.db.contacts
             && Entitled(st.proofs, t.session.value, opener, st.db.contacts[t.contact.value]))
  {}

  /** And from a mail's ticket, whose replies go to the contact, only who proved being its person may answer. */
  lemma MailIsAnsweredByTheEntitled(host: Host, st: State, sid: Id, tid: Id)
    requires Invariant(host, st) && sid in st.db.sessions && tid in st.db.tickets
    requires WritableFrom(st.db, sid, tid) && st.db.tickets[tid].session.None?
    ensures var t := st.db.tickets[tid];
      && t.source.Email? && t.contact.Some? && t.contact.value in st.db.contacts
      && Entitled(st.proofs, sid, st.db.sessions[sid], st.db.contacts[t.contact.value])
      && Normalized(ReplyAddressOf(st.db, t)) == Normalized(st.db.contacts[t.contact.value].email)
  {}
}
