/**
 The back-fill as it runs, batch by batch: whatever the batches, it leaves what the
 function of the database says (backend/apps/contacts/backfill.py:111-495).
 */
module BackfillRun {
  import opened Rows
  import opened Desk
  import opened Backfill
  import opened BackfillLaws

  function Union(batches: seq<set<Id>>): set<Id> {
    if batches == [] then {} else Union(batches[..|batches| - 1]) + batches[|batches| - 1]
  }

  /** No row is in two batches. */
  ghost predicate Disjoint(batches: seq<set<Id>>) {
    forall i, j :: 0 <= i < j < |batches| ==> batches[i] !! batches[j]
  }

  lemma {:induction false} InUnion(batches: seq<set<Id>>, id: Id)
    requires id in Union(batches)
    ensures exists i :: 0 <= i < |batches| && id in batches[i]
  {
    var init := batches[..|batches| - 1];
    if id in Union(init) {
      InUnion(init, id);
      var i :| 0 <= i < |init| && id in init[i];
      assert id in batches[i];
    }
  }

  lemma NextIsDisjoint(batches: seq<set<Id>>, k: nat)
    requires k < |batches| && Disjoint(batches)
    ensures Union(batches[..k]) !! batches[k]
    ensures Union(batches[..k + 1]) == Union(batches[..k]) + batches[k]
  {
    assert batches[..k + 1][..k] == batches[..k];
    forall id | id in Union(batches[..k]) ensures id !in batches[k] {
      InUnion(batches[..k], id);
    }
  }

  // Contacts of keys

  method FindHolder(db: Tables, key: Key) returns (found: Option<Id>)
    requires UniqueContacts(db.contacts) && Proper(key)
    ensures found == Holder(db.contacts, key)
  {
    match key
    case ByExternal(org, value) => found := db.FindByExternalId(org, value);
    case ByAddress(org, value) => found := db.FindByEmail(org, value);
  }

  function Declared(emails: map<Key, string>): Key -> string {
    (key: Key) => if key in emails then emails[key] else ""
  }

  lemma WithOneKey(contacts: Contacts, r: Reading, key: Key, declares: Key -> string, now: Time)
    requires Fresh(r, contacts)
    ensures WithNew(contacts, r, {key}, declares, now)
         == if Holder(contacts, key).Some? then contacts
            else contacts[r.idOf(key) := BlankContact(key, declares(key), now)]
  {}

  /** One more key: it is linked as it would have been at first. */
  lemma OneMoreKey(contacts: Contacts, r: Reading, done: set<Key>, key: Key, declares: Key -> string, now: Time)
    requires UniqueContacts(contacts) && Fresh(r, contacts)
    requires (forall k :: k in done ==> Proper(k)) && Proper(key)
    ensures var before := WithNew(contacts, r, done, declares, now);
      && UniqueContacts(before) && Fresh(r, before)
      && LinkOf(before, r, Some(key)) == LinkOf(contacts, r, Some(key))
      && WithNew(before, r, {key}, declares, now) == WithNew(contacts, r, done + {key}, declares, now)
  {
    var before := WithNew(contacts, r, done, declares, now);
    WithNewIs(contacts, r, done, declares, now);
    WithNewIsUnique(contacts, r, done, before);
    StaysFresh(contacts, r, done, before);
    WithNewInTwo(contacts, r, done, {key}, declares, declares, now);
    LinkStays(contacts, r, done, before, Some(key));
  }

  /** The contact of a key, a new one if nobody holds it, and none if it is anonymized. */
  method ContactId(db: Tables, r: Reading, key: Key, emails: map<Key, string>, now: Time) returns (id: Option<Id>)
    requires UniqueContacts(db.contacts) && Fresh(r, db.contacts) && Proper(key)
    modifies db`contacts
    ensures db.contacts == WithNew(old(db.contacts), r, {key}, Declared(emails), now)
    ensures id == LinkOf(old(db.contacts), r, Some(key))
  {
    WithOneKey(db.contacts, r, key, Declared(emails), now);
    id := FindHolder(db, key);
    if id.None? {
      db.contacts := db.contacts[r.idOf(key) := BlankContact(key, Declared(emails)(key), now)];
      id := Some(r.idOf(key));
    } else if db.contacts[id.value].anonymized {
      id := None;
    }
  }

  /** What is known of the contacts of the keys done so far. */
  ghost predicate IdsKnown(contacts: Contacts, r: Reading, done: set<Key>, ids: map<Key, Id>) {
    && ids.Keys <= done
    && forall key :: key in done ==> LinkOf(contacts, r, Some(key)) == Found(ids, key)
  }

  function Found(ids: map<Key, Id>, key: Key): Option<Id> {
    if key in ids then Some(ids[key]) else None
  }

  /** `_contact_ids`. */
  method ContactIds(db: Tables, r: Reading, keys: set<Key>, emails: map<Key, string>, now: Time)
    returns (ids: map<Key, Id>)
    requires UniqueContacts(db.contacts) && Fresh(r, db.contacts) && (forall key :: key in keys ==> Proper(key))
    modifies db`contacts
    ensures db.contacts == WithNew(old(db.contacts), r, keys, Declared(emails), now)
    ensures IdsKnown(old(db.contacts), r, keys, ids)
  {
    ids := map[];
    var left, done: set<Key> := keys, {};
    ghost var before := db.contacts;
    NoneNew(before, r, Declared(emails), now);
    while left != {}
      invariant done !! left && done + left == keys
      invariant db.contacts == WithNew(before, r, done, Declared(emails), now)
      invariant IdsKnown(before, r, done, ids)
      decreases left
    {
      var key :| key in left;
      OneMoreKey(before, r, done, key, Declared(emails), now);
      var id := ContactId(db, r, key, emails, now);
      KnownOneMore(before, r, done, ids, key, id);
      if id.Some? {
        ids := ids[key := id.value];
      }
      left, done := left - {key}, done + {key};
    }
    assert done == keys;
  }

  lemma NoneNew(contacts: Contacts, r: Reading, declares: Key -> string, now: Time)
    ensures WithNew(contacts, r, {}, declares, now) == contacts
  {
    assert NewContacts(r, {}, declares, now) == map[];
    assert Missing(contacts, {}) == {};
  }

  lemma KnownOneMore(contacts: Contacts, r: Reading, done: set<Key>, ids: map<Key, Id>, key: Key, id: Option<Id>)
    requires IdsKnown(contacts, r, done, ids) && key !in done && id == LinkOf(contacts, r, Some(key))
    ensures IdsKnown(contacts, r, done + {key}, if id.Some? then ids[key := id.value] else ids)
  {}

  lemma SameDeclares(contacts: Contacts, r: Reading, keys: set<Key>, d: Key -> string, e: Key -> string, now: Time)
    requires Fresh(r, contacts) && forall key :: key in keys ==> d(key) == e(key)
    ensures WithNew(contacts, r, keys, d, now) == WithNew(contacts, r, keys, e, now)
  {}

  // Sessions

  function ValueOf(emails: map<Id, string>, id: Id): string {
    if id in emails then emails[id] else ""
  }

  lemma {:induction false} EmailOfOneMore(env: Env, db: Db, tids: seq<Id>, tid: Id, sid: Id)
    ensures EmailFromTickets(env, db, tids + [tid], sid)
         == if EmailFromTickets(env, db, tids, sid) != "" then EmailFromTickets(env, db, tids, sid)
            else if GivesEmail(env, db, sid, tid) then CleanAddress(env, db.tickets[tid].requesterEmail) else ""
  {
    if tids == [] {
      assert [] + [tid] == [tid] && [tid][1..] == [];
    } else {
      assert (tids + [tid])[1..] == tids[1..] + [tid];
      EmailOfOneMore(env, db, tids[1..], tid, sid);
    }
  }

  /** `_emails_from_tickets`: the first usable email of each session, its tickets read latest first. */
  method EmailsFromTickets(env: Env, db: Db, tids: seq<Id>, sids: set<Id>) returns (emails: map<Id, string>)
    ensures forall sid :: sid in sids ==> ValueOf(emails, sid) == EmailFromTickets(env, db, tids, sid)
  {
    emails := map[];
    var k := 0;
    while k < |tids|
      invariant k <= |tids|
      invariant forall sid :: sid in sids ==> ValueOf(emails, sid) == EmailFromTickets(env, db, tids[..k], sid)
    {
      var tid := tids[k];
      assert tids[..k + 1] == tids[..k] + [tid];
      forall sid | sid in sids
        ensures EmailFromTickets(env, db, tids[..k + 1], sid)
             == if EmailFromTickets(env, db, tids[..k], sid) != "" then EmailFromTickets(env, db, tids[..k], sid)
                else if GivesEmail(env, db, sid, tid) then CleanAddress(env, db.tickets[tid].requesterEmail) else ""
      {
        EmailOfOneMore(env, db, tids[..k], tid, sid);
      }
      if tid in db.tickets && db.tickets[tid].session.Some? {
        var sid := db.tickets[tid].session.value;
        if sid in sids && ValueOf(emails, sid) == "" && GivesEmail(env, db, sid, tid) {
          emails := emails[sid := CleanAddress(env, db.tickets[tid].requesterEmail)];
        }
      }
      k := k + 1;
    }
    assert tids[..k] == tids;
  }

  /** A session's identity, given what its tickets say of an anonymous one without an email. */
  function KeyFrom(env: Env, s: Session, email: string): Option<Key> {
    if s.externalId != "" then
      if UsableId(s.externalId) then Some(ByExternal(s.org, s.externalId)) else None
    else if CleanAddress(env, s.email) != "" then Some(ByAddress(s.org, CleanAddress(env, s.email)))
    else if email == "" then None
    else Some(ByAddress(s.org, email))
  }

  /** The identities of a batch, by session. */
  predicate KeysOf(env: Env, db: Db, r: Reading, batch: set<Id>, keys: map<Id, Key>) {
    && (forall sid :: sid in keys ==> sid in batch && IsUnlinkedSession(db, sid))
    && (forall sid :: sid in batch && IsUnlinkedSession(db, sid) ==>
          SessionKey(env, db, r, sid) == if sid in keys then Some(keys[sid]) else None)
  }

  /** What each key's contact would declare: the email of its session, as an external id has one. */
  method DeclaredEmails(env: Env, db: Db, r: Reading, batch: set<Id>, keys: map<Id, Key>)
    returns (emails: map<Key, string>)
    requires SessionsUnique(db.sessions) && KeysOf(env, db, r, batch, keys)
    ensures forall sid :: sid in keys ==> Declared(emails)(keys[sid]) == SessionDeclares(env, db)(keys[sid])
  {
    emails := map[];
    var left, done: set<Id> := keys.Keys, {};
    while left != {}
      invariant done !! left && done + left == keys.Keys
      invariant forall sid :: sid in done ==> Declared(emails)(keys[sid]) == SessionDeclares(env, db)(keys[sid])
      decreases left
    {
      var sid :| sid in left;
      var key := keys[sid];
      assert SessionKey(env, db, r, sid) == Some(key);
      SessionKeyIsProper(env, db, r, sid);
      if key.ByExternal? {
        SessionDeclaresItsOwn(env, db, key, sid);
        emails := emails[key := CleanAddress(env, db.sessions[sid].email)];
      } else {
        emails := emails[key := ""];
      }
      left, done := left - {sid}, done + {sid};
    }
    assert done == keys.Keys;
  }

  lemma KeysAre(env: Env, db: Db, r: Reading, batch: set<Id>, keys: map<Id, Key>)
    requires KeysOf(env, db, r, batch, keys)
    ensures keys.Values == SessionKeys(env, db, r, batch)
  {}

  /** A session as the batch leaves it. */
  function LinkedAs(env: Env, s: Session, link: Option<Id>, email: string): Session {
    if link.None? then s
    else if IsNobody(env, s) then s.(contact := link, email := email, verifiedAt := None)
    else s.(contact := link)
  }

  function LinkIn(keys: map<Id, Key>, ids: map<Key, Id>, sid: Id): Option<Id> {
    if sid in keys then Found(ids, keys[sid]) else None
  }

  lemma LinkedAsIs(
    env: Env, db: Db, r: Reading, batch: set<Id>, keys: map<Id, Key>, ids: map<Key, Id>, email: string, sid: Id)
    requires KeysOf(env, db, r, batch, keys) && IdsKnown(db.contacts, r, keys.Values, ids)
    requires sid in batch && IsUnlinkedSession(db, sid)
    requires IsNobody(env, db.sessions[sid]) ==> email == EmailFromTickets(env, db, r.tickets, sid)
    ensures LinkedAs(env, db.sessions[sid], LinkIn(keys, ids, sid), email)
         == LinkedSession(env, db, r, db.contacts, sid)
  {}

  method SessionIdentities(env: Env, db: Db, r: Reading, batch: set<Id>) returns (keys: map<Id, Key>, emails: map<Id, string>)
    ensures KeysOf(env, db, r, batch, keys)
    ensures forall sid :: sid in batch && IsUnlinkedSession(db, sid) && IsNobody(env, db.sessions[sid]) ==>
      ValueOf(emails, sid) == EmailFromTickets(env, db, r.tickets, sid)
  {
    var nobody := set sid | sid in batch && IsUnlinkedSession(db, sid) && IsNobody(env, db.sessions[sid]);
    emails := EmailsFromTickets(env, db, r.tickets, nobody);
    keys := map sid | sid in batch && IsUnlinkedSession(db, sid)
      && KeyFrom(env, db.sessions[sid], ValueOf(emails, sid)).Some? :: KeyFrom(env, db.sessions[sid], ValueOf(emails, sid)).value;
    forall sid | sid in batch && IsUnlinkedSession(db, sid)
      ensures SessionKey(env, db, r, sid) == if sid in keys then Some(keys[sid]) else None
    {
      assert IsNobody(env, db.sessions[sid]) ==> sid in nobody;
    }
  }

  lemma BatchContacts(
    env: Env, db: Db, r: Reading, batch: set<Id>, keys: map<Id, Key>, emails: map<Key, string>, now: Time)
    requires Fresh(r, db.contacts) && KeysOf(env, db, r, batch, keys)
    requires forall sid :: sid in keys ==> Declared(emails)(keys[sid]) == SessionDeclares(env, db)(keys[sid])
    ensures WithNew(db.contacts, r, keys.Values, Declared(emails), now) == SessionsLinked(env, db, r, batch, now).contacts
  {
    KeysAre(env, db, r, batch, keys);
    forall key | key in keys.Values ensures Declared(emails)(key) == SessionDeclares(env, db)(key) {
      var sid :| sid in keys && keys[sid] == key;
    }
    SameDeclares(db.contacts, r, keys.Values, Declared(emails), SessionDeclares(env, db), now);
  }

  /** The sessions of a batch, linked in one statement. */
  function BatchLinked(env: Env, db: Db, batch: set<Id>, keys: map<Id, Key>, ids: map<Key, Id>, emails: map<Id, string>)
    : map<Id, Session>
  {
    map sid | sid in db.sessions ::
      if sid in batch && IsUnlinkedSession(db, sid)
      then LinkedAs(env, db.sessions[sid], LinkIn(keys, ids, sid), ValueOf(emails, sid)) else db.sessions[sid]
  }

  lemma BatchSessions(
    env: Env, db: Db, r: Reading, batch: set<Id>, keys: map<Id, Key>, ids: map<Key, Id>, emails: map<Id, string>,
    now: Time)
    requires KeysOf(env, db, r, batch, keys) && IdsKnown(db.contacts, r, keys.Values, ids)
    requires forall sid :: sid in batch && IsUnlinkedSession(db, sid) && IsNobody(env, db.sessions[sid]) ==>
      ValueOf(emails, sid) == EmailFromTickets(env, db, r.tickets, sid)
    ensures BatchLinked(env, db, batch, keys, ids, emails) == SessionsLinked(env, db, r, batch, now).sessions
  {
    forall sid | sid in batch && IsUnlinkedSession(db, sid)
      ensures LinkedAs(env, db.sessions[sid], LinkIn(keys, ids, sid), ValueOf(emails, sid))
           == LinkedSession(env, db, r, db.contacts, sid)
    {
      LinkedAsIs(env, db, r, batch, keys, ids, ValueOf(emails, sid), sid);
    }
  }

  /** One batch of `_link_sessions`. */
  method LinkSessionBatch(db: Tables, env: Env, r: Reading, batch: set<Id>, now: Time)
    requires UniqueContacts(db.contacts) && Fresh(r, db.contacts) && SessionsUnique(db.sessions)
    modifies db`contacts, db`sessions
    ensures db.Contents() == SessionsLinked(env, old(db.Contents()), r, batch, now)
  {
    var view := db.Snapshot();
    var keys, emails := SessionIdentities(env, view, r, batch);
    var declared := DeclaredEmails(env, view, r, batch, keys);
    BatchContacts(env, view, r, batch, keys, declared, now);
    KeysAre(env, view, r, batch, keys);
    SessionKeysAreProper(env, view, r, batch);
    var ids := ContactIds(db, r, keys.Values, declared, now);
    BatchSessions(env, view, r, batch, keys, ids, emails, now);
    db.sessions := BatchLinked(env, view, batch, keys, ids, emails);
    OnlyTwoTables(env, view, r, batch, now);
  }

  /** `_link_sessions`: all of them, in whatever batches. */
  method LinkSessions(db: Tables, env: Env, r: Reading, batches: seq<set<Id>>, now: Time)
    requires UniqueContacts(db.contacts) && Fresh(r, db.contacts) && SessionsUnique(db.sessions) && Disjoint(batches)
    modifies db`contacts, db`sessions
    ensures db.Contents() == SessionsLinked(env, old(db.Contents()), r, Union(batches), now)
  {
    ghost var before := db.Contents();
    var k := 0;
    NoSessions(env, before, r, now);
    while k < |batches|
      invariant k <= |batches|
      invariant db.Contents() == SessionsLinked(env, before, r, Union(batches[..k]), now)
    {
      var done := Union(batches[..k]);
      NextIsDisjoint(batches, k);
      SessionsAddContacts(env, before, r, done, now);
      UsersUntouched(env, before, r, done, now);
      StillUnique(before, SessionsLinked(env, before, r, done, now));
      SessionsInTwo(env, before, r, done, batches[k], now);
      LinkSessionBatch(db, env, r, batches[k], now);
      k := k + 1;
    }
    assert batches[..k] == batches;
  }

  lemma NoSessions(env: Env, db: Db, r: Reading, now: Time)
    ensures SessionsLinked(env, db, r, {}, now) == db
  {}

  // Tickets

  predicate TicketKeysOf(env: Env, db: Db, batch: set<Id>, keys: map<Id, Key>) {
    && (forall tid :: tid in keys ==> tid in batch && IsUnlinkedTicket(env, db, tid))
    && (forall tid :: tid in batch && IsUnlinkedTicket(env, db, tid) ==>
          TicketKey(env, db, tid) == if tid in keys then Some(keys[tid]) else None)
  }

  lemma TicketKeysAre(env: Env, db: Db, batch: set<Id>, keys: map<Id, Key>)
    requires TicketKeysOf(env, db, batch, keys)
    ensures keys.Values == TicketKeys(env, db, batch)
  {}

  function TicketsBatchLinked(env: Env, db: Db, batch: set<Id>, keys: map<Id, Key>, ids: map<Key, Id>): map<Id, Ticket> {
    map tid | tid in db.tickets ::
      if tid in batch && IsUnlinkedTicket(env, db, tid)
      then db.tickets[tid].(contact := LinkIn(keys, ids, tid)) else db.tickets[tid]
  }

  lemma BatchTickets(
    env: Env, db: Db, r: Reading, batch: set<Id>, keys: map<Id, Key>, ids: map<Key, Id>, now: Time)
    requires TicketKeysOf(env, db, batch, keys) && IdsKnown(db.contacts, r, keys.Values, ids)
    ensures TicketsBatchLinked(env, db, batch, keys, ids) == TicketsLinked(env, db, r, batch, now).tickets
  {
    forall tid | tid in batch && IsUnlinkedTicket(env, db, tid)
      ensures LinkIn(keys, ids, tid) == LinkOf(db.contacts, r, TicketKey(env, db, tid))
    {
      if tid in keys {
        assert LinkOf(db.contacts, r, Some(keys[tid])) == Found(ids, keys[tid]);
      }
    }
  }

  /** One batch of `_link_tickets_without_session`. A new contact declares nothing yet. */
  method LinkTicketBatch(db: Tables, env: Env, r: Reading, batch: set<Id>, now: Time)
    requires UniqueContacts(db.contacts) && Fresh(r, db.contacts)
    modifies db`contacts, db`tickets
    ensures db.Contents() == TicketsLinked(env, old(db.Contents()), r, batch, now)
  {
    var view := db.Snapshot();
    var keys := map tid | tid in batch && IsUnlinkedTicket(env, view, tid) && TicketKey(env, view, tid).Some? ::
      TicketKey(env, view, tid).value;
    TicketKeysAre(env, view, batch, keys);
    TicketKeysAreProper(env, view, batch);
    SameDeclares(view.contacts, r, keys.Values, Declared(map[]), (_: Key) => "", now);
    var ids := ContactIds(db, r, keys.Values, map[], now);
    BatchTickets(env, view, r, batch, keys, ids, now);
    db.tickets := TicketsBatchLinked(env, view, batch, keys, ids);
    OnlyTheirTables(env, view, r, batch, now);
  }

  /** `_link_tickets_without_session`, in whatever batches. */
  method LinkTickets(db: Tables, env: Env, r: Reading, batches: seq<set<Id>>, now: Time)
    requires UniqueContacts(db.contacts) && Fresh(r, db.contacts) && Disjoint(batches)
    modifies db`contacts, db`tickets
    ensures db.Contents() == TicketsLinked(env, old(db.Contents()), r, Union(batches), now)
  {
    ghost var before := db.Contents();
    var k := 0;
    IdleTickets(env, before, r, {}, now);
    while k < |batches|
      invariant k <= |batches|
      invariant db.Contents() == TicketsLinked(env, before, r, Union(batches[..k]), now)
    {
      var done := Union(batches[..k]);
      NextIsDisjoint(batches, k);
      TicketsAddContacts(env, before, r, done, now);
      TicketsInTwo(env, before, r, done, batches[k], now);
      LinkTicketBatch(db, env, r, batches[k], now);
      k := k + 1;
    }
    assert batches[..k] == batches;
  }

  /** `_link_tickets_to_their_session`, in one statement. */
  method FollowSessions(db: Tables)
    modifies db`tickets
    ensures db.Contents() == TicketsFollowed(old(db.Contents()))
  {
    var view := db.Snapshot();
    db.tickets := map k | k in view.tickets ::
      if FollowsSession(view, view.tickets[k])
      then view.tickets[k].(contact := view.sessions[view.tickets[k].session.value].contact) else view.tickets[k];
  }

  // The values of new contacts

  lemma {:induction false} SessionsOneMore(db: Db, sids: seq<Id>, sid: Id, id: Id, c: Contact)
    ensures var c1 := FilledFromSessions(db, sids, id, c);
      FilledFromSessions(db, sids + [sid], id, c)
      == if sid in db.sessions && db.sessions[sid].contact == Some(id) then FilledFromSession(c1, db.sessions[sid]) else c1
  {
    if sids == [] {
      assert [] + [sid] == [sid] && [sid][1..] == [];
    } else {
      assert (sids + [sid])[1..] == sids[1..] + [sid];
      var first := sids[0];
      SessionsOneMore(db, sids[1..], sid, id,
        if first in db.sessions && db.sessions[first].contact == Some(id) then FilledFromSession(c, db.sessions[first]) else c);
    }
  }

  lemma {:induction false} TicketsOneMore(env: Env, db: Db, tids: seq<Id>, tid: Id, id: Id, c: Contact)
    ensures var c1 := FilledFromTickets(env, db, tids, id, c);
      FilledFromTickets(env, db, tids + [tid], id, c)
      == if tid in db.tickets && db.tickets[tid].contact == Some(id) then FilledFromTicket(env, db, c1, db.tickets[tid]) else c1
  {
    if tids == [] {
      assert [] + [tid] == [tid] && [tid][1..] == [];
    } else {
      assert (tids + [tid])[1..] == tids[1..] + [tid];
      var first := tids[0];
      TicketsOneMore(env, db, tids[1..], tid, id,
        if first in db.tickets && db.tickets[first].contact == Some(id)
        then FilledFromTicket(env, db, c, db.tickets[first]) else c);
    }
  }

  /** The rows of a batch's sessions, latest first, each filling its own contact. */
  method FillFromSessions(db: Db, sids: seq<Id>, drafts: map<Id, Contact>) returns (filled: map<Id, Contact>)
    ensures filled.Keys == drafts.Keys
    ensures forall id :: id in drafts ==> filled[id] == FilledFromSessions(db, sids, id, drafts[id])
  {
    filled := drafts;
    var k := 0;
    while k < |sids|
      invariant k <= |sids| && filled.Keys == drafts.Keys
      invariant forall id :: id in drafts ==> filled[id] == FilledFromSessions(db, sids[..k], id, drafts[id])
    {
      var sid := sids[k];
      assert sids[..k + 1] == sids[..k] + [sid];
      forall id | id in drafts
        ensures FilledFromSessions(db, sids[..k + 1], id, drafts[id])
             == if sid in db.sessions && db.sessions[sid].contact == Some(id)
                then FilledFromSession(filled[id], db.sessions[sid]) else filled[id]
      {
        SessionsOneMore(db, sids[..k], sid, id, drafts[id]);
      }
      if sid in db.sessions && db.sessions[sid].contact.Some? && db.sessions[sid].contact.value in filled {
        var id := db.sessions[sid].contact.value;
        filled := filled[id := FilledFromSession(filled[id], db.sessions[sid])];
      }
      k := k + 1;
    }
    assert sids[..k] == sids;
  }

  /** Then those of its tickets. */
  method FillFromTickets(env: Env, db: Db, tids: seq<Id>, drafts: map<Id, Contact>) returns (filled: map<Id, Contact>)
    ensures filled.Keys == drafts.Keys
    ensures forall id :: id in drafts ==> filled[id] == FilledFromTickets(env, db, tids, id, drafts[id])
  {
    filled := drafts;
    var k := 0;
    while k < |tids|
      invariant k <= |tids| && filled.Keys == drafts.Keys
      invariant forall id :: id in drafts ==> filled[id] == FilledFromTickets(env, db, tids[..k], id, drafts[id])
    {
      var tid := tids[k];
      assert tids[..k + 1] == tids[..k] + [tid];
      forall id | id in drafts
        ensures FilledFromTickets(env, db, tids[..k + 1], id, drafts[id])
             == if tid in db.tickets && db.tickets[tid].contact == Some(id)
                then FilledFromTicket(env, db, filled[id], db.tickets[tid]) else filled[id]
      {
        TicketsOneMore(env, db, tids[..k], tid, id, drafts[id]);
      }
      if tid in db.tickets && db.tickets[tid].contact.Some? && db.tickets[tid].contact.value in filled {
        var id := db.tickets[tid].contact.value;
        filled := filled[id := FilledFromTicket(env, db, filled[id], db.tickets[tid])];
      }
      k := k + 1;
    }
    assert tids[..k] == tids;
  }

  /** The contacts of a batch, as read. */
  predicate IsDrafts(db: Db, batch: set<Id>, drafts: map<Id, Contact>) {
    && drafts.Keys == (set id | id in batch && id in db.contacts)
    && forall id :: id in drafts ==> drafts[id] == db.contacts[id]
  }

  lemma FilledAre(
    env: Env, db: Db, r: Reading, batch: set<Id>, drafts: map<Id, Contact>, named: map<Id, Contact>,
    filled: map<Id, Contact>)
    requires IsDrafts(db, batch, drafts) && named.Keys == drafts.Keys && filled.Keys == drafts.Keys
    requires forall id :: id in drafts ==> named[id] == FilledFromSessions(db, r.sessions, id, drafts[id])
    requires forall id :: id in drafts ==> filled[id] == FilledFromTickets(env, db, r.tickets, id, named[id])
    ensures db.(contacts := db.contacts + filled) == ContactsFilled(env, db, r, batch)
  {
    forall id | id in filled ensures filled[id] == Filled(env, db, r, id) {}
    assert db.contacts + filled == ContactsFilled(env, db, r, batch).contacts;
  }

  function Drafts(db: Db, batch: set<Id>): (drafts: map<Id, Contact>)
    ensures IsDrafts(db, batch, drafts)
  {
    map id | id in batch && id in db.contacts :: db.contacts[id]
  }

  /** `_fill_new_contacts`, but for the write. */
  method FillDrafts(env: Env, db: Db, r: Reading, batch: set<Id>) returns (filled: map<Id, Contact>)
    ensures db.(contacts := db.contacts + filled) == ContactsFilled(env, db, r, batch)
  {
    var drafts := Drafts(db, batch);
    var named := FillFromSessions(db, r.sessions, drafts);
    filled := FillFromTickets(env, db, r.tickets, named);
    FilledAre(env, db, r, batch, drafts, named, filled);
  }

  method FillBatch(db: Tables, env: Env, r: Reading, batch: set<Id>)
    modifies db`contacts
    ensures db.Contents() == ContactsFilled(env, old(db.Contents()), r, batch)
  {
    var view := db.Snapshot();
    var filled := FillDrafts(env, view, r, batch);
    db.contacts := db.contacts + filled;
  }

  method FillContacts(db: Tables, env: Env, r: Reading, batches: seq<set<Id>>)
    requires Disjoint(batches)
    modifies db`contacts
    ensures db.Contents() == ContactsFilled(env, old(db.Contents()), r, Union(batches))
  {
    ghost var before := db.Contents();
    var k := 0;
    FillingNone(env, before, r);
    while k < |batches|
      invariant k <= |batches|
      invariant db.Contents() == ContactsFilled(env, before, r, Union(batches[..k]))
    {
      NextIsDisjoint(batches, k);
      FillingInTwo(env, before, r, Union(batches[..k]), batches[k]);
      FillBatch(db, env, r, batches[k]);
      k := k + 1;
    }
    assert batches[..k] == batches;
  }

  /** How the rows, and then the contacts created, are cut into batches. */
  datatype Batching = Batching(sessions: seq<set<Id>>, tickets: seq<set<Id>>, batched: set<Id> -> seq<set<Id>>)

  ghost predicate Cuts(b: Batching, sessions: set<Id>, tickets: set<Id>) {
    && Disjoint(b.sessions) && Union(b.sessions) == sessions
    && Disjoint(b.tickets) && Union(b.tickets) == tickets
    && forall ids :: Disjoint(b.batched(ids)) && Union(b.batched(ids)) == ids
  }

  lemma BatchedCuts(b: Batching, sessions: set<Id>, tickets: set<Id>, ids: set<Id>)
    requires Cuts(b, sessions, tickets)
    ensures Disjoint(b.batched(ids)) && Union(b.batched(ids)) == ids
  {}

  lemma FilledKeys(env: Env, db: Db, r: Reading, ids: set<Id>)
    ensures ContactsFilled(env, db, r, ids).contacts.Keys == db.contacts.Keys
  {}

  /** Every row linked that can be. */
  method LinkAll(db: Tables, env: Env, r: Reading, b: Batching, now: Time)
    requires UniqueContacts(db.contacts) && Fresh(r, db.contacts) && SessionsUnique(db.sessions)
    requires Cuts(b, db.sessions.Keys, db.tickets.Keys)
    modifies db`contacts, db`sessions, db`tickets
    ensures db.Contents() == Linked(env, old(db.Contents()), r, now)
  {
    ghost var before := db.Contents();
    SessionsAddContacts(env, before, r, before.sessions.Keys, now);
    OnlyTwoTables(env, before, r, before.sessions.Keys, now);
    LinkSessions(db, env, r, b.sessions, now);
    FollowSessions(db);
    assert db.tickets.Keys == before.tickets.Keys;
    LinkTickets(db, env, r, b.tickets, now);
  }

  /** `backfill`: whatever the batches, what the function of the database says, and how many contacts it created. */
  method Run(db: Tables, env: Env, r: Reading, b: Batching, now: Time) returns (created: nat)
    requires UniqueContacts(db.contacts) && Fresh(r, db.contacts) && SessionsUnique(db.sessions)
    requires Cuts(b, db.sessions.Keys, db.tickets.Keys)
    modifies db`contacts, db`sessions, db`tickets
    ensures db.Contents() == Backfilled(env, old(db.Contents()), r, now)
    ensures created == |db.contacts.Keys - old(db.contacts).Keys|
  {
    var known := db.contacts.Keys;
    LinkAll(db, env, r, b, now);
    var added := db.contacts.Keys - known;
    BatchedCuts(b, db.sessions.Keys, db.tickets.Keys, added);
    FilledKeys(env, db.Contents(), r, added);
    FillContacts(db, env, r, b.batched(added));
    created := |added|;
  }
}
