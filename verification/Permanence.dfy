/**
 What no later step of a run takes back: an erasure and, but for one kind of edit, the
 mark a login leaves on a ticket.
 */
module Permanence {
  import opened Rows
  import opened Resolution
  import opened Uniqueness
  import opened Absorption
  import opened Reach
  import opened Senders
  import opened Anonymization
  import opened LoginMove
  import opened DeskWork
  import opened Machine
  import opened Safety

  // Erased contacts

  predicate IsErased(contacts: Contacts, id: Id) {
    id in contacts && contacts[id].anonymized
  }

  /** Every erased row is still there, and the same. */
  ghost predicate ErasedKept(before: Contacts, after: Contacts) {
    forall id :: IsErased(before, id) ==> id in after && after[id] == before[id]
  }

  lemma FoundKeepsErased(
    env: Env, db: Db, sid: Id, s: Session, k: Claims, p: Payload, now: Time, ids: NewIds, f: Lookup, id: Id)
    requires ids.contact !in db.contacts && IsErased(db.contacts, id)
    requires f == LookedUp(db.contacts, k, p, now, ids.contact) && f.Found? && !f.draft.anonymized
    ensures var after := Resolve(env, db, sid, s, k, p, now, ids).db.contacts;
      id in after ==> after[id] == db.contacts[id]
  {
    var settled := Settle(env, db, f, k, p, now, ids.company);
    SettlingKeepsErased(env, db, k, p, now, ids, f, id, settled);
    SessionSavingKeepsRest(settled.db, sid, s, f.id, settled.proven, k.email, p.source, now);
  }

  lemma SettlingKeepsErased(
    env: Env, db: Db, k: Claims, p: Payload, now: Time, ids: NewIds, f: Lookup, id: Id, settled: Settled)
    requires ids.contact !in db.contacts && IsErased(db.contacts, id)
    requires f == LookedUp(db.contacts, k, p, now, ids.contact) && f.Found? && !f.draft.anonymized
    requires settled == Settle(env, db, f, k, p, now, ids.company)
    ensures id in settled.db.contacts ==> settled.db.contacts[id] == db.contacts[id]
  {
    LookupFinds(db.contacts, k, p, now, ids.contact);
    SettlingKeepsOthers(env, db, f, k, p, now, ids.company);
  }

  lemma FoundLosesNoErased(
    env: Env, db: Db, sid: Id, s: Session, k: Claims, p: Payload, now: Time, ids: NewIds, f: Lookup, id: Id)
    requires ids.contact !in db.contacts && IsErased(db.contacts, id)
    requires f == LookedUp(db.contacts, k, p, now, ids.contact) && f.Found? && !f.draft.anonymized
    ensures id in Resolve(env, db, sid, s, k, p, now, ids).db.contacts
  {
    if id !in Resolve(env, db, sid, s, k, p, now, ids).db.contacts {
      LookupFinds(db.contacts, k, p, now, ids.contact);
      PassAbsorbsOnlyEmailOnly(env, db, sid, s, k, p, now, ids, f, id);
    }
  }

  lemma PassKeepsErased(
    env: Env, db: Db, sid: Id, s: Session, k: Claims, p: Payload, now: Time, ids: NewIds)
    requires ids.contact !in db.contacts
    ensures ErasedKept(db.contacts, Resolve(env, db, sid, s, k, p, now, ids).db.contacts)
  {
    var f := LookedUp(db.contacts, k, p, now, ids.contact);
    if f.Nobody? || f.draft.anonymized {
      NobodyUnlinks(env, db, sid, s, k, p, now, ids, f);
      UnlinkingKeepsRest(db, sid, s, None, now);
    } else {
      forall id | IsErased(db.contacts, id)
        ensures var after := Resolve(env, db, sid, s, k, p, now, ids).db.contacts;
          id in after && after[id] == db.contacts[id]
      {
        FoundKeepsErased(env, db, sid, s, k, p, now, ids, f, id);
        FoundLosesNoErased(env, db, sid, s, k, p, now, ids, f, id);
      }
    }
  }

  lemma LinkKeepsErased(env: Env, host: Host, st: State, e: Event)
    requires e.step.Link? && Enabled(env, host, st, e.step)
    ensures ErasedKept(st.db.contacts, Written(env, host, st, e.step, e.at).contacts)
  {
    var Link(sid, s, claim, ids) := e.step;
    var p := LinkPayload(host, s, claim);
    PassKeepsErased(env, st.db, sid, s, ClaimsOf(env, s), p, e.at, ids);
    TicketsOnly(ResolveOnce(env, st.db, sid, s, p, e.at, ids), sid, s);
  }

  lemma ErasingKeepsErased(env: Env, db: Db, id: Id, address: string, now: Time)
    requires id in db.contacts && (db.contacts[id].anonymized ==> Erased(db.contacts[id]))
    ensures ErasedKept(db.contacts, Anonymized(env, db, id, address, now).contacts)
  {}

  lemma ReceivingKeepsErased(env: Env, db: Db, org: Id, email: string, name: string, now: Time, newId: Id)
    requires newId !in db.contacts
    ensures ErasedKept(db.contacts, Received(env, db, org, email, name, now, newId).contacts)
  {
    var f := FindOrCreateByEmail(db.contacts, org, email, CleanName(env, name), now, newId);
    ReceivedFrom(env, db, org, email, name, now, newId, f, CompanyFilled(env, db.companies, f.draft, now));
  }

  lemma BackfillKeepsErased(env: Env, host: Host, st: State, e: Event)
    requires Invariant(host, st) && e.step.BackfillContacts? && Enabled(env, host, st, e.step)
    ensures ErasedKept(st.db.contacts, Written(env, host, st, e.step, e.at).contacts)
  {
    BackfillIsReady(host, st, e.step.reading);
    BackfillLaws.BackfillOnlyFillsIn(env, st.db, e.step.reading, e.at);
  }

  lemma SavingKeepsErased(contacts: Contacts, id: Id, c: Contact)
    requires IsErased(contacts, id) ==> c == contacts[id]
    ensures ErasedKept(contacts, contacts[id := c])
  {}

  lemma DeletingCompanyKeepsErased(host: Host, proofs: set<Proof>, db: Db, id: Id)
    requires ContactsHonest(host, proofs, db.contacts)
    ensures ErasedKept(db.contacts, WithoutCompany(db, id).contacts)
  {
    forall k | IsErased(db.contacts, k) ensures db.contacts[k].company.None? {
      assert ContactHonest(host, proofs, k, db.contacts[k]);
    }
  }

  lemma AnonymizingKeepsErased(env: Env, host: Host, st: State, e: Event)
    requires Invariant(host, st) && Enabled(env, host, st, e.step) && e.step.Anonymize?
    ensures ErasedKept(st.db.contacts, Written(env, host, st, e.step, e.at).contacts)
  {
    assert ContactHonest(host, st.proofs, e.step.contact, st.db.contacts[e.step.contact]);
    ErasingKeepsErased(env, st.db, e.step.contact, e.step.address, e.at);
  }

  lemma OtherStepKeepsErased(env: Env, host: Host, st: State, e: Event)
    requires Invariant(host, st) && Enabled(env, host, st, e.step) && !e.step.AdminDeletes?
    requires !e.step.Link? && !e.step.Anonymize? && !e.step.BackfillContacts?
    ensures ErasedKept(st.db.contacts, Written(env, host, st, e.step, e.at).contacts)
  {
    match e.step
    case ReceiveFrom(org, email, name, newId) =>
      ReceivingKeepsErased(env, st.db, org, CleanEmail(env, email), name, e.at, newId);
    case DeleteCompany(id) => DeletingCompanyKeepsErased(host, st.proofs, st.db, id);
    case Handle(work) => WorkLeavesPeople(st.db, st.ticketKeys, work, e.at);
    case OpenLink(id, link) =>
      SavingKeepsErased(st.db.contacts, id, EmailProvenByLink(host, st.db.contacts[id], link, e.at));
    case _ =>
  }

  lemma StepKeepsErased(env: Env, host: Host, st: State, e: Event)
    requires Invariant(host, st) && Enabled(env, host, st, e.step) && !e.step.AdminDeletes?
    ensures ErasedKept(st.db.contacts, Written(env, host, st, e.step, e.at).contacts)
  {
    if e.step.Link? {
      LinkKeepsErased(env, host, st, e);
    } else if e.step.Anonymize? {
      AnonymizingKeepsErased(env, host, st, e);
    } else if e.step.BackfillContacts? {
      BackfillKeepsErased(env, host, st, e);
    } else {
      OtherStepKeepsErased(env, host, st, e);
    }
  }

  /** The row of `id`, if there is one, is `c`, and no session is on it. Its key is never given again. */
  ghost predicate Frozen(st: State, id: Id, c: Contact) {
    && id in st.keys
    && (id in st.db.contacts ==> st.db.contacts[id] == c)
    && (forall k :: k in st.db.sessions ==> st.db.sessions[k].contact != Some(id))
  }

  lemma NoneLinked(host: Host, st: State, id: Id)
    requires Invariant(host, st) && (IsErased(st.db.contacts, id) || id !in st.db.contacts)
    ensures forall k :: k in st.db.sessions ==> st.db.sessions[k].contact != Some(id)
  {}

  lemma LinkingAddsOnlyTheNewKey(env: Env, db: Db, sid: Id, s: Session, p: Payload, now: Time, ids: NewIds)
    requires ids.contact !in db.contacts
    ensures LinkSession(env, db, sid, s, p, now, ids).db.contacts.Keys <= db.contacts.Keys + {ids.contact}
  {
    PassAddsOnlyTheNewKey(env, db, sid, s, ClaimsOf(env, s), p, now, ids);
    TicketsOnly(ResolveOnce(env, db, sid, s, p, now, ids), sid, s);
  }

  lemma ReceivingAddsOnlyTheNewKey(env: Env, db: Db, org: Id, email: string, name: string, now: Time, newId: Id)
    requires newId !in db.contacts
    ensures Received(env, db, org, email, name, now, newId).contacts.Keys <= db.contacts.Keys + {newId}
  {}

  /** A key no contact has any more isn't given to another. */
  ghost predicate NoneReturns(st: State, contacts: Contacts) {
    forall id :: id in st.keys && id in contacts ==> id in st.db.contacts
  }

  lemma BackfillReusesNoKey(env: Env, host: Host, st: State, r: Backfill.Reading, now: Time)
    requires Invariant(host, st) && NewKeys(st, r)
    ensures NoneReturns(st, Backfill.Backfilled(env, st.db, r, now).contacts)
  {
    BackfillIsReady(host, st, r);
    forall id | id in Backfill.Backfilled(env, st.db, r, now).contacts && id !in st.db.contacts ensures id !in st.keys {
      BackfillLaws.NewAreUnproven(env, st.db, r, now, id);
      assert NewKey(st, r.idOf(r.keyOf(id)));
    }
  }

  lemma KeysAreNotReused(env: Env, host: Host, st: State, e: Event)
    requires Invariant(host, st) && Enabled(env, host, st, e.step)
    ensures NoneReturns(st, Written(env, host, st, e.step, e.at).contacts)
  {
    match e.step
    case Link(sid, s, claim, ids) =>
      LinkingAddsOnlyTheNewKey(env, st.db, sid, s, LinkPayload(host, s, claim), e.at, ids);
    case ReceiveFrom(org, email, name, newId) =>
      ReceivingAddsOnlyTheNewKey(env, st.db, org, CleanEmail(env, email), name, e.at, newId);
    case BackfillContacts(r) => BackfillReusesNoKey(env, host, st, r, e.at);
    case Handle(work) => WorkLeavesPeople(st.db, st.ticketKeys, work, e.at);
    case _ =>
  }

  lemma PassAddsOnlyTheNewKey(
    env: Env, db: Db, sid: Id, s: Session, k: Claims, p: Payload, now: Time, ids: NewIds)
    requires ids.contact !in db.contacts
    ensures Resolve(env, db, sid, s, k, p, now, ids).db.contacts.Keys <= db.contacts.Keys + {ids.contact}
  {
    var f := LookedUp(db.contacts, k, p, now, ids.contact);
    if f.Nobody? || f.draft.anonymized {
      NobodyUnlinks(env, db, sid, s, k, p, now, ids, f);
      UnlinkingKeepsRest(db, sid, s, None, now);
    } else {
      FoundAddsOnlyTheNewKey(env, db, sid, s, k, p, now, ids, f);
    }
  }

  lemma FoundAddsOnlyTheNewKey(
    env: Env, db: Db, sid: Id, s: Session, k: Claims, p: Payload, now: Time, ids: NewIds, f: Lookup)
    requires ids.contact !in db.contacts
    requires f == LookedUp(db.contacts, k, p, now, ids.contact) && f.Found? && !f.draft.anonymized
    ensures Resolve(env, db, sid, s, k, p, now, ids).db.contacts.Keys <= db.contacts.Keys + {ids.contact}
  {
    LookupFinds(db.contacts, k, p, now, ids.contact);
    SettlingKeepsOthers(env, db, f, k, p, now, ids.company);
  }

  lemma StepKeepsFrozen(env: Env, host: Host, st: State, e: Event, id: Id, c: Contact)
    requires Invariant(host, st) && c.anonymized && Frozen(st, id, c)
    ensures Frozen(Apply(env, host, st, e), id, c)
  {
    StepKeepsInvariant(env, host, st, e);
    if Enabled(env, host, st, e.step) {
      if id !in st.db.contacts {
        KeysAreNotReused(env, host, st, e);
      } else if !e.step.AdminDeletes? {
        StepKeepsErased(env, host, st, e);
        assert IsErased(st.db.contacts, id);
      }
      NoneLinked(host, Apply(env, host, st, e), id);
    }
  }

  /**
   Once anonymized, a contact is never written again, and no session is linked to it,
   whatever later requests do, from whatever they read before.
   */
  lemma {:induction false} ErasureIsForGood(env: Env, host: Host, st: State, events: seq<Event>, id: Id)
    requires Invariant(host, st) && IsErased(st.db.contacts, id)
    ensures Frozen(Run(env, host, st, events), id, st.db.contacts[id])
  {
    NoneLinked(host, st, id);
    FrozenForGood(env, host, st, events, id, st.db.contacts[id]);
  }

  lemma {:induction false} FrozenForGood(env: Env, host: Host, st: State, events: seq<Event>, id: Id, c: Contact)
    requires Invariant(host, st) && c.anonymized && Frozen(st, id, c)
    ensures Frozen(Run(env, host, st, events), id, c)
    decreases |events|
  {
    if events != [] {
      StepKeepsInvariant(env, host, st, events[0]);
      StepKeepsFrozen(env, host, st, events[0], id, c);
      FrozenForGood(env, host, Apply(env, host, st, events[0]), events[1..], id, c);
    }
  }

  /** Only an admin's deletion takes the erased row itself away. */
  lemma {:induction false} OnlyAdminsDelete(env: Env, host: Host, st: State, events: seq<Event>, id: Id)
    requires Invariant(host, st) && IsErased(st.db.contacts, id)
    requires forall i :: 0 <= i < |events| ==> events[i].step != AdminDeletes(id)
    ensures IsErased(Run(env, host, st, events).db.contacts, id)
    decreases |events|
  {
    if events != [] {
      var e := events[0];
      StepKeepsInvariant(env, host, st, e);
      StepLeavesErased(env, host, st, e, id);
      OnlyAdminsDelete(env, host, Apply(env, host, st, e), events[1..], id);
    }
  }

  lemma StepLeavesErased(env: Env, host: Host, st: State, e: Event, id: Id)
    requires Invariant(host, st) && IsErased(st.db.contacts, id) && e.step != AdminDeletes(id)
    ensures IsErased(Apply(env, host, st, e).db.contacts, id)
  {
    if Enabled(env, host, st, e.step) && !e.step.AdminDeletes? {
      StepKeepsErased(env, host, st, e);
    }
  }

  // The mark of a login

  /** An edit by the staff that writes the ticket's metadata. */
  predicate WritesMetadata(step: Step, k: Id) {
    step.Handle? && step.work.EditTicket? && step.work.tid == k && step.work.edit.metadata.Some?
  }

  predicate Unmarks(step: Step, k: Id) {
    WritesMetadata(step, k) && !HasMark(step.work.edit.metadata.value)
  }

  /** Such an edit that has the mark, or another login that moves the ticket. */
  predicate Remarks(db: Db, step: Step, k: Id) {
    || (WritesMetadata(step, k) && HasMark(step.work.edit.metadata.value))
    || (step.Move? && k in db.tickets && IsLeft(step.login, db.tickets[k]))
  }

  /** The last step that took place and wrote the ticket's mark is an edit without it. */
  ghost predicate LosesMark(env: Env, host: Host, st: State, events: seq<Event>, k: Id)
    decreases |events|
  {
    && events != []
    && var init, e := events[..|events| - 1], events[|events| - 1];
       var at := Run(env, host, st, init);
       if Enabled(env, host, at, e.step) && (Unmarks(e.step, k) || Remarks(at.db, e.step, k)) then Unmarks(e.step, k)
       else LosesMark(env, host, st, init, k)
  }

  /** What a step makes of a ticket's mark, other than by writing it: it goes only with the ticket's session. */
  predicate MarkKept(t: Ticket, t1: Ticket) {
    && (t.session.None? ==> t1.session.None?)
    && (HasMark(t.metadata) ==> HasMark(t1.metadata) || t1.session.None?)
    && (HasMark(t1.metadata) ==> HasMark(t.metadata))
  }

  ghost predicate AllMarksKept(before: map<Id, Ticket>, after: map<Id, Ticket>) {
    forall k :: k in before && k in after ==> MarkKept(before[k], after[k])
  }

  lemma MovingMarks(db: Db, login: Login, now: Time, k: Id)
    requires k in db.tickets
    ensures var after := Moved(db, login, now).tickets;
      && after.Keys == db.tickets.Keys
      && (db.tickets[k].session.None? ==> after[k].session.None?)
      && (if IsLeft(login, db.tickets[k]) && login.anonymous in db.sessions then HasMark(after[k].metadata)
          else after[k] == db.tickets[k])
  {}

  lemma ErasingKeepsMarks(env: Env, db: Db, id: Id, address: string, now: Time)
    requires id in db.contacts
    ensures AllMarksKept(db.tickets, Anonymized(env, db, id, address, now).tickets)
    ensures Anonymized(env, db, id, address, now).tickets.Keys == db.tickets.Keys
  {}

  lemma DeletingKeepsMarks(db: Db, id: Id)
    ensures AllMarksKept(db.tickets, Deleted(db, id).tickets)
    ensures Deleted(db, id).tickets.Keys == db.tickets.Keys
  {}

  lemma BackfillKeepsMarks(env: Env, db: Db, r: Backfill.Reading, now: Time)
    ensures AllMarksKept(db.tickets, Backfill.Backfilled(env, db, r, now).tickets)
    ensures Backfill.Backfilled(env, db, r, now).tickets.Keys == db.tickets.Keys
  {
    BackfillLaws.BackfillKeepsRest(env, db, r, now);
    var after := Backfill.Backfilled(env, db, r, now).tickets;
    forall k | k in db.tickets ensures MarkKept(db.tickets[k], after[k]) {
      assert BackfillLaws.TicketAlike(db.tickets[k], after[k]);
    }
  }

  lemma WorkKeepsMark(db: Db, ticketKeys: set<Id>, work: Work, now: Time, k: Id)
    requires Allowed(db, ticketKeys, work) && k in db.tickets && k in Worked(db, ticketKeys, work, now).tickets
    ensures var t1 := Worked(db, ticketKeys, work, now).tickets[k];
      if WritesMetadata(Handle(work), k)
      then t1.metadata == work.edit.metadata.value && t1.session == db.tickets[k].session
      else MarkKept(db.tickets[k], t1)
  {}

  lemma WorkReopensNone(db: Db, ticketKeys: set<Id>, work: Work, now: Time, k: Id)
    requires Allowed(db, ticketKeys, work) && k in ticketKeys && k in Worked(db, ticketKeys, work, now).tickets
    ensures k in db.tickets
  {}

  /** What a step that took place makes of a ticket's mark. */
  ghost predicate MarkAfter(db: Db, step: Step, after: Db, k: Id)
    requires k in after.tickets
  {
    && k in db.tickets
    && (db.tickets[k].session.None? ==> after.tickets[k].session.None?)
    && (Unmarks(step, k) ==> !HasMark(after.tickets[k].metadata))
    && (Remarks(db, step, k) ==> HasMark(after.tickets[k].metadata))
    && (!Unmarks(step, k) && !Remarks(db, step, k) ==> MarkKept(db.tickets[k], after.tickets[k]))
  }

  lemma StepAndMark(env: Env, host: Host, st: State, e: Event, k: Id)
    requires Enabled(env, host, st, e.step) && k in st.ticketKeys
    requires k in Written(env, host, st, e.step, e.at).tickets
    ensures k in st.db.tickets && MarkAfter(st.db, e.step, Written(env, host, st, e.step, e.at), k)
  {
    match e.step
    case Link(sid, s, claim, ids) => LinkingKeepsRest(env, st.db, sid, s, LinkPayload(host, s, claim), e.at, ids);
    case BackfillContacts(r) => BackfillKeepsMarks(env, st.db, r, e.at);
    case Move(login) => MovingMarks(st.db, login, e.at, k);
    case Anonymize(id, address) => ErasingKeepsMarks(env, st.db, id, address, e.at);
    case DeleteIfEmpty(id) => DeletingKeepsMarks(st.db, id);
    case AdminDeletes(id) => DeletingKeepsMarks(st.db, id);
    case Handle(work) =>
      WorkReopensNone(st.db, st.ticketKeys, work, e.at, k);
      WorkKeepsMark(st.db, st.ticketKeys, work, e.at, k);
    case _ =>
  }

  lemma NoLaterStep(env: Env, host: Host, st: State, init: seq<Event>, e: Event, k: Id)
    ensures LosesMark(env, host, st, init + [e], k) <==>
      (var at := Run(env, host, st, init);
       if Enabled(env, host, at, e.step) && (Unmarks(e.step, k) || Remarks(at.db, e.step, k)) then Unmarks(e.step, k)
       else LosesMark(env, host, st, init, k))
  {
    assert (init + [e])[..|init|] == init;
  }

  /** Off its mark exactly after such an edit, or off every session. */
  ghost predicate MarkTold(env: Env, host: Host, st: State, events: seq<Event>, k: Id) {
    var end := Run(env, host, st, events);
    && k in end.ticketKeys
    && (k in end.db.tickets ==>
          && (LosesMark(env, host, st, events, k) ==> !HasMark(end.db.tickets[k].metadata))
          && (!LosesMark(env, host, st, events, k) ==>
                HasMark(end.db.tickets[k].metadata) || end.db.tickets[k].session.None?))
  }

  lemma {:induction false} MarksOverRuns(env: Env, host: Host, st: State, events: seq<Event>, k: Id)
    requires k in st.db.tickets && k in st.ticketKeys && HasMark(st.db.tickets[k].metadata)
    ensures MarkTold(env, host, st, events, k)
    decreases |events|
  {
    if events == [] {
      assert Run(env, host, st, events) == st;
    } else {
      var init, e := events[..|events| - 1], events[|events| - 1];
      assert events == init + [e];
      MarksOverRuns(env, host, st, init, k);
      MarkOneMore(env, host, st, init, e, k);
    }
  }

  lemma MarkOneMore(env: Env, host: Host, st: State, init: seq<Event>, e: Event, k: Id)
    requires MarkTold(env, host, st, init, k)
    ensures MarkTold(env, host, st, init + [e], k)
  {
    RunOneMore(env, host, st, init, e);
    NoLaterStep(env, host, st, init, e, k);
    var at := Run(env, host, st, init);
    if Enabled(env, host, at, e.step) && k in Written(env, host, at, e.step, e.at).tickets {
      StepAndMark(env, host, at, e, k);
    }
  }

  /**
   The sender of a ticket a login moved reads as verified later exactly if an edit took
   the mark off the ticket, no later one or login put it back, and the sender would be
   verified without it. So it never does while every edit of the ticket's metadata keeps
   the mark.
   */
  lemma MovedSenderOverRuns(env: Env, host: Host, st: State, login: Login, now: Time, events: seq<Event>, k: Id)
    requires Enabled(env, host, st, Move(login)) && k in st.db.tickets && IsLeft(login, st.db.tickets[k])
    ensures var moved := Apply(env, host, st, Event(Move(login), now));
      var end := Run(env, host, moved, events).db;
      k in end.tickets ==>
        (SenderVerified(end, end.tickets[k]) == Some(true) <==>
          && LosesMark(env, host, moved, events, k)
          && SenderVerified(end, end.tickets[k].(metadata := Dict(map[]))) == Some(true))
  {
    var moved := Apply(env, host, st, Event(Move(login), now));
    MoveMarks(env, host, st, login, now, k);
    MarksOverRuns(env, host, moved, events, k);
    var end := Run(env, host, moved, events).db;
    if k in end.tickets {
      SenderByMark(end, end.tickets[k]);
    }
  }

  lemma SenderByMark(db: Db, t: Ticket)
    ensures SenderVerified(db, t) == Some(true) <==>
      !HasMark(t.metadata) && SenderVerified(db, t.(metadata := Dict(map[]))) == Some(true)
    ensures t.session.None? ==> SenderVerified(db, t) != Some(true)
  {}

  lemma MoveMarks(env: Env, host: Host, st: State, login: Login, now: Time, k: Id)
    requires Enabled(env, host, st, Move(login)) && k in st.db.tickets && IsLeft(login, st.db.tickets[k])
    ensures var moved := Apply(env, host, st, Event(Move(login), now));
      && moved.db == Moved(st.db, login, now)
      && k in moved.ticketKeys && k in moved.db.tickets && HasMark(moved.db.tickets[k].metadata)
  {
    MovingMarks(st.db, login, now, k);
  }

  predicate EditsKeepMark(events: seq<Event>, k: Id) {
    forall i :: 0 <= i < |events| ==> !Unmarks(events[i].step, k)
  }

  lemma {:induction false} KeptByEveryEdit(env: Env, host: Host, st: State, events: seq<Event>, k: Id)
    requires EditsKeepMark(events, k)
    ensures !LosesMark(env, host, st, events, k)
    decreases |events|
  {
    if events != [] {
      KeptByEveryEdit(env, host, st, events[..|events| - 1], k);
    }
  }

  /** Whatever else happens after a login, if every edit of the ticket's metadata keeps the mark. */
  lemma MovedTicketIsNeverVerified(
    env: Env, host: Host, st: State, login: Login, now: Time, events: seq<Event>, k: Id)
    requires Enabled(env, host, st, Move(login)) && k in st.db.tickets && IsLeft(login, st.db.tickets[k])
    ensures var end := Run(env, host, Apply(env, host, st, Event(Move(login), now)), events).db;
      EditsKeepMark(events, k) && k in end.tickets ==> SenderVerified(end, end.tickets[k]) != Some(true)
  {
    var moved := Apply(env, host, st, Event(Move(login), now));
    MovedSenderOverRuns(env, host, st, login, now, events, k);
    if EditsKeepMark(events, k) {
      KeptByEveryEdit(env, host, moved, events, k);
    }
  }

  /** An edit that empties a ticket's metadata. */
  function Emptied(k: Id): Step {
    Handle(EditTicket(k, NO_EDIT.(metadata := Some(Dict(map[])))))
  }

  /** A login, then that edit: the sender of a widget's ticket, unverified after the one, is verified after both. */
  lemma AnEditVerifiesTheSender(env: Env, host: Host, st: State, login: Login, now: Time, later: Time, k: Id)
    requires Enabled(env, host, st, Move(login)) && k in st.db.tickets && IsLeft(login, st.db.tickets[k])
    requires st.db.tickets[k].source.Widget? && login.contact.Some? && login.contact.value in st.db.contacts
    requires st.db.sessions[login.identified].contact == login.contact
    requires st.db.sessions[login.identified].externalId != ""
    ensures var moved := Apply(env, host, st, Event(Move(login), now));
      var edited := Apply(env, host, moved, Event(Emptied(k), later));
      && k in moved.db.tickets && SenderVerified(moved.db, moved.db.tickets[k]) == Some(false)
      && k in edited.db.tickets && SenderVerified(edited.db, edited.db.tickets[k]) == Some(true)
  {
    MoveMarks(env, host, st, login, now, k);
    var moved := Apply(env, host, st, Event(Move(login), now));
    MovedThenEmptied(st.db, login, now, later, k);
    EmptyingIs(env, host, moved, k, later);
  }

  lemma EmptyingIs(env: Env, host: Host, st: State, k: Id, later: Time)
    requires k in st.db.tickets
    ensures Apply(env, host, st, Event(Emptied(k), later)).db
         == st.db.(tickets := st.db.tickets[k := st.db.tickets[k].(metadata := Dict(map[]), updatedAt := later)])
  {
    assert Allowed(st.db, st.ticketKeys, Emptied(k).work);
  }

  lemma MovedThenEmptied(db: Db, login: Login, now: Time, later: Time, k: Id)
    requires login.anonymous != login.identified && login.anonymous in db.sessions && login.identified in db.sessions
    requires k in db.tickets && IsLeft(login, db.tickets[k])
    requires db.tickets[k].source.Widget? && login.contact.Some? && login.contact.value in db.contacts
    requires db.sessions[login.identified].contact == login.contact
    requires db.sessions[login.identified].externalId != ""
    ensures var moved := Moved(db, login, now);
      var t := moved.tickets[k].(metadata := Dict(map[]), updatedAt := later);
      && SenderVerified(moved, moved.tickets[k]) == Some(false)
      && SenderVerified(moved.(tickets := moved.tickets[k := t]), t) == Some(true)
  {
    var moved := Moved(db, login, now);
    assert moved.tickets[k] == MovedTicket(login, db.tickets[k]);
    assert moved.sessions[login.identified] == db.sessions[login.identified];
  }
}
