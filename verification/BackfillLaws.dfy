/** That the back-fill only fills in, is done once, and does not depend on its batches. */
module BackfillLaws {
  import opened Text
  import opened Rows
  import opened Uniqueness
  import opened Backfill

  predicate Proper(key: Key) {
    key.value != ""
  }

  /** The key given to a new contact is new, unless it is that very contact's already, and each is its own. */
  ghost predicate Fresh(r: Reading, contacts: Contacts) {
    forall key :: r.keyOf(r.idOf(key)) == key && (r.idOf(key) in contacts ==> HoldsKey(contacts, key, r.idOf(key)))
  }

  /** An external id has one session of an organization. */
  ghost predicate SessionsUnique(sessions: map<Id, Session>) {
    forall a, b :: a in sessions && b in sessions && SameUser(sessions[a], sessions[b]) ==> a == b
  }

  predicate SameUser(a: Session, b: Session) {
    a.externalId != "" && a.externalId == b.externalId && a.org == b.org
  }

  // New contacts

  lemma HolderIs(contacts: Contacts, key: Key, id: Id)
    requires UniqueContacts(contacts) && Proper(key) && HoldsKey(contacts, key, id)
    ensures Holder(contacts, key) == Some(id)
  {
    match key
    case ByExternal(org, value) => ByExternalIdIs(contacts, org, value, id);
    case ByAddress(org, value) => ByEmailIs(contacts, org, value, id);
  }

  lemma HolderHolds(contacts: Contacts, key: Key)
    ensures var h := Holder(contacts, key);
      && (h.Some? ==> HoldsKey(contacts, key, h.value))
      && (h.None? ==> forall id :: !HoldsKey(contacts, key, id))
  {}

  predicate NewRow(r: Reading, contacts: Contacts, key: Key, after: Contacts) {
    var id := r.idOf(key);
    && id in after && !after[id].anonymized && after[id].verifiedAt.None?
    && HoldsKey(after, key, id)
    && (key.ByExternal? ==> after[id].email == "") && (key.ByAddress? ==> after[id].externalId == "")
  }

  /** The contacts after some keys got theirs: the old ones, and a new one for each that was missing. */
  ghost predicate IsWithNew(contacts: Contacts, r: Reading, keys: set<Key>, after: Contacts) {
    && (forall id :: id in contacts ==> id in after && after[id] == contacts[id])
    && (forall key :: key in Missing(contacts, keys) ==> NewRow(r, contacts, key, after))
    && (forall id :: id in after && id !in contacts ==> id == r.idOf(r.keyOf(id)) && r.keyOf(id) in Missing(contacts, keys))
  }

  lemma WithNewIs(contacts: Contacts, r: Reading, keys: set<Key>, declares: Key -> string, now: Time)
    requires Fresh(r, contacts)
    ensures IsWithNew(contacts, r, keys, WithNew(contacts, r, keys, declares, now))
  {
    var after := WithNew(contacts, r, keys, declares, now);
    forall key | key in Missing(contacts, keys) ensures NewRow(r, contacts, key, after) && r.idOf(key) !in contacts {
      assert r.idOf(key) in Ids(r, Missing(contacts, keys));
      HolderHolds(contacts, key);
    }
  }

  /** Who holds a key but didn't before is the contact made for it. */
  lemma NewHolder(contacts: Contacts, r: Reading, keys: set<Key>, after: Contacts, key: Key, id: Id)
    requires IsWithNew(contacts, r, keys, after) && Proper(key)
    requires HoldsKey(after, key, id) && !HoldsKey(contacts, key, id)
    ensures id !in contacts && key in Missing(contacts, keys) && id == r.idOf(key)
  {}

  /** A key is held as before, or by the contact that was made for it. */
  lemma HolderWithNew(contacts: Contacts, r: Reading, keys: set<Key>, after: Contacts, key: Key)
    requires UniqueContacts(after) && IsWithNew(contacts, r, keys, after) && Proper(key)
    ensures Holder(after, key) ==
      if Holder(contacts, key).Some? then Holder(contacts, key)
      else if key in keys then Some(r.idOf(key)) else None
  {
    HolderHolds(contacts, key);
    HolderHolds(after, key);
    if Holder(contacts, key).Some? {
      HolderIs(after, key, Holder(contacts, key).value);
    } else if key in keys {
      assert NewRow(r, contacts, key, after);
      HolderIs(after, key, r.idOf(key));
    } else if Holder(after, key).Some? {
      NewHolder(contacts, r, keys, after, key, Holder(after, key).value);
    }
  }

  lemma NewClashesWithNobody(contacts: Contacts, r: Reading, keys: set<Key>, after: Contacts, b: Id, a: Id)
    requires IsWithNew(contacts, r, keys, after) && (forall key :: key in keys ==> Proper(key))
    requires b in after && b !in contacts
    ensures !ContactsClash(after, a, b)
  {
    var key := r.keyOf(b);
    assert NewRow(r, contacts, key, after);
    HolderHolds(contacts, key);
    if ContactsClash(after, a, b) {
      assert HoldsKey(after, key, b);
      NewHolder(contacts, r, keys, after, key, b);
      NewHolder(contacts, r, keys, after, key, a);
    }
  }

  lemma WithNewIsUnique(contacts: Contacts, r: Reading, keys: set<Key>, after: Contacts)
    requires UniqueContacts(contacts) && IsWithNew(contacts, r, keys, after)
    requires forall key :: key in keys ==> Proper(key)
    ensures UniqueContacts(after)
  {
    forall a, b ensures !ContactsClash(after, a, b) {
      if a in after && b in after {
        if b !in contacts {
          NewClashesWithNobody(contacts, r, keys, after, b, a);
        } else if a !in contacts {
          NewClashesWithNobody(contacts, r, keys, after, a, b);
        } else {
          assert !ContactsClash(contacts, a, b);
        }
      }
    }
  }

  // Links

  lemma SessionKeyIsProper(env: Env, db: Db, r: Reading, sid: Id)
    requires sid in db.sessions
    ensures var key := SessionKey(env, db, r, sid); key.Some? ==> Proper(key.value) && key.value.org == db.sessions[sid].org
  {}

  lemma TicketKeyIsProper(env: Env, db: Db, tid: Id)
    requires tid in db.tickets
    ensures var key := TicketKey(env, db, tid); key.Some? ==> Proper(key.value) && key.value.org == db.tickets[tid].org
  {}

  /** A row's link is the same before and after other keys got their contacts. */
  lemma LinkStays(contacts: Contacts, r: Reading, keys: set<Key>, after: Contacts, key: Option<Key>)
    requires UniqueContacts(after) && IsWithNew(contacts, r, keys, after)
    requires key.Some? ==> Proper(key.value)
    ensures LinkOf(after, r, key) == LinkOf(contacts, r, key)
  {
    if key.Some? {
      HolderWithNew(contacts, r, keys, after, key.value);
      HolderHolds(contacts, key.value);
      if Holder(contacts, key.value).None? && key.value in keys {
        assert NewRow(r, contacts, key.value, after);
      }
    }
  }

  /** And it is the contact that holds the key then, unless that one is anonymized. */
  lemma LinkIsHolder(contacts: Contacts, r: Reading, keys: set<Key>, after: Contacts, key: Key)
    requires UniqueContacts(after) && IsWithNew(contacts, r, keys, after)
    requires Proper(key) && key in keys
    ensures Holder(after, key).Some? && HoldsKey(after, key, Holder(after, key).value)
    ensures LinkOf(contacts, r, Some(key))
         == if after[Holder(after, key).value].anonymized then None else Holder(after, key)
  {
    HolderWithNew(contacts, r, keys, after, key);
    HolderHolds(after, key);
    HolderHolds(contacts, key);
    if Holder(contacts, key).None? {
      assert NewRow(r, contacts, key, after);
    }
  }

  lemma StaysFresh(contacts: Contacts, r: Reading, keys: set<Key>, after: Contacts)
    requires Fresh(r, contacts) && IsWithNew(contacts, r, keys, after)
    ensures Fresh(r, after)
  {}

  lemma SessionKeysAreProper(env: Env, db: Db, r: Reading, sids: set<Id>)
    ensures forall key :: key in SessionKeys(env, db, r, sids) ==> Proper(key)
  {}

  lemma TicketKeysAreProper(env: Env, db: Db, tids: set<Id>)
    ensures forall key :: key in TicketKeys(env, db, tids) ==> Proper(key)
  {}

  /** The contacts each stage leaves. */
  lemma SessionsAddContacts(env: Env, db: Db, r: Reading, sids: set<Id>, now: Time)
    requires UniqueContacts(db.contacts) && Fresh(r, db.contacts)
    ensures var after := SessionsLinked(env, db, r, sids, now).contacts;
      IsWithNew(db.contacts, r, SessionKeys(env, db, r, sids), after) && UniqueContacts(after) && Fresh(r, after)
  {
    var keys := SessionKeys(env, db, r, sids);
    var after := SessionsLinked(env, db, r, sids, now).contacts;
    WithNewIs(db.contacts, r, keys, SessionDeclares(env, db), now);
    SessionKeysAreProper(env, db, r, sids);
    WithNewIsUnique(db.contacts, r, keys, after);
    StaysFresh(db.contacts, r, keys, after);
  }

  lemma TicketsAddContacts(env: Env, db: Db, r: Reading, tids: set<Id>, now: Time)
    requires UniqueContacts(db.contacts) && Fresh(r, db.contacts)
    ensures var after := TicketsLinked(env, db, r, tids, now).contacts;
      IsWithNew(db.contacts, r, TicketKeys(env, db, tids), after) && UniqueContacts(after) && Fresh(r, after)
  {
    var keys := TicketKeys(env, db, tids);
    var after := TicketsLinked(env, db, r, tids, now).contacts;
    WithNewIs(db.contacts, r, keys, (_: Key) => "", now);
    TicketKeysAreProper(env, db, tids);
    WithNewIsUnique(db.contacts, r, keys, after);
    StaysFresh(db.contacts, r, keys, after);
  }

  // It only fills in

  /** A row linked is untouched, and one that isn't only gets its link, and a session maybe its tickets' email. */
  predicate SessionFilled(before: Session, after: Session) {
    || after == before
    || (&& before.contact.None? && after.contact.Some?
        && (|| after == before.(contact := after.contact)
            || (&& before.externalId == ""
                && after == before.(contact := after.contact, email := after.email, verifiedAt := None))))
  }

  predicate TicketFilled(before: Ticket, after: Ticket) {
    after == before || (before.contact.None? && after == before.(contact := after.contact))
  }

  ghost predicate OnlyFilled(db: Db, after: Db) {
    && after.messages == db.messages && after.companies == db.companies && after.notes == db.notes
    && after.users == db.users && after.uploads == db.uploads && after.mails == db.mails && after.codes == db.codes
    && after.sessions.Keys == db.sessions.Keys && after.tickets.Keys == db.tickets.Keys
    && (forall k :: k in db.sessions ==> SessionFilled(db.sessions[k], after.sessions[k]))
    && (forall k :: k in db.tickets ==> TicketFilled(db.tickets[k], after.tickets[k]))
    && (forall k :: k in db.contacts ==> k in after.contacts && after.contacts[k] == db.contacts[k])
  }

  lemma SessionsOnlyFill(env: Env, db: Db, r: Reading, sids: set<Id>, now: Time)
    requires UniqueContacts(db.contacts) && Fresh(r, db.contacts)
    ensures OnlyFilled(db, SessionsLinked(env, db, r, sids, now))
  {
    SessionsAddContacts(env, db, r, sids, now);
    var after := SessionsLinked(env, db, r, sids, now);
    forall k | k in db.sessions ensures SessionFilled(db.sessions[k], after.sessions[k]) {}
  }

  lemma FollowingOnlyFills(db: Db)
    ensures OnlyFilled(db, TicketsFollowed(db))
  {
    var after := TicketsFollowed(db);
    forall k | k in db.tickets ensures TicketFilled(db.tickets[k], after.tickets[k]) {}
  }

  lemma TicketsOnlyFill(env: Env, db: Db, r: Reading, tids: set<Id>, now: Time)
    requires UniqueContacts(db.contacts) && Fresh(r, db.contacts)
    ensures OnlyFilled(db, TicketsLinked(env, db, r, tids, now))
  {
    TicketsAddContacts(env, db, r, tids, now);
    var after := TicketsLinked(env, db, r, tids, now);
    forall k | k in db.tickets ensures TicketFilled(db.tickets[k], after.tickets[k]) {}
  }

  lemma FillingTwice(a: Db, b: Db, c: Db)
    requires OnlyFilled(a, b) && OnlyFilled(b, c)
    ensures OnlyFilled(a, c)
  {
    forall k | k in a.sessions ensures SessionFilled(a.sessions[k], c.sessions[k]) {
      assert SessionFilled(a.sessions[k], b.sessions[k]) && SessionFilled(b.sessions[k], c.sessions[k]);
    }
    forall k | k in a.tickets ensures TicketFilled(a.tickets[k], c.tickets[k]) {
      assert TicketFilled(a.tickets[k], b.tickets[k]) && TicketFilled(b.tickets[k], c.tickets[k]);
    }
  }

  lemma LinkingOnlyFills(env: Env, db: Db, r: Reading, now: Time)
    requires UniqueContacts(db.contacts) && Fresh(r, db.contacts)
    ensures var linked := Linked(env, db, r, now);
      OnlyFilled(db, linked) && UniqueContacts(linked.contacts) && Fresh(r, linked.contacts)
  {
    var db1 := SessionsLinked(env, db, r, db.sessions.Keys, now);
    var db2 := TicketsFollowed(db1);
    SessionsAddContacts(env, db, r, db.sessions.Keys, now);
    SessionsOnlyFill(env, db, r, db.sessions.Keys, now);
    FollowingOnlyFills(db1);
    FillingTwice(db, db1, db2);
    TicketsAddContacts(env, db2, r, db2.tickets.Keys, now);
    TicketsOnlyFill(env, db2, r, db2.tickets.Keys, now);
    FillingTwice(db, db2, TicketsLinked(env, db2, r, db2.tickets.Keys, now));
  }

  /** A linked row, and a contact that was there, never change, and nothing else goes. */
  lemma BackfillOnlyFillsIn(env: Env, db: Db, r: Reading, now: Time)
    requires UniqueContacts(db.contacts) && Fresh(r, db.contacts)
    ensures OnlyFilled(db, Backfilled(env, db, r, now))
  {
    LinkingOnlyFills(env, db, r, now);
  }

  // It does not depend on its batches

  /** What a session's key is read from is the same. */
  ghost predicate SameEvidence(db: Db, db1: Db, sid: Id) {
    && sid in db.sessions && sid in db1.sessions && db1.sessions[sid] == db.sessions[sid]
    && TicketsAlike(db.tickets, db1.tickets) && db1.users == db.users
  }

  predicate TicketAlike(t: Ticket, t1: Ticket) {
    t1 == t.(contact := t1.contact)
  }

  ghost predicate TicketsAlike(tickets: map<Id, Ticket>, tickets1: map<Id, Ticket>) {
    tickets1.Keys == tickets.Keys && forall k :: k in tickets ==> TicketAlike(tickets[k], tickets1[k])
  }

  lemma {:induction false} SameEmail(env: Env, db: Db, db1: Db, tids: seq<Id>, sid: Id)
    requires SameEvidence(db, db1, sid)
    ensures EmailFromTickets(env, db1, tids, sid) == EmailFromTickets(env, db, tids, sid)
  {
    if tids != [] {
      assert tids[0] in db.tickets ==> TicketAlike(db.tickets[tids[0]], db1.tickets[tids[0]]);
      assert GivesEmail(env, db1, sid, tids[0]) == GivesEmail(env, db, sid, tids[0]);
      SameEmail(env, db, db1, tids[1..], sid);
    }
  }

  lemma SameSessionKey(env: Env, db: Db, db1: Db, r: Reading, sid: Id)
    requires SameEvidence(db, db1, sid)
    ensures SessionKey(env, db1, r, sid) == SessionKey(env, db, r, sid)
  {
    SameEmail(env, db, db1, r.tickets, sid);
  }

  lemma SessionDeclaresItsOwn(env: Env, db: Db, key: Key, sid: Id)
    requires SessionsUnique(db.sessions) && Proper(key) && key.ByExternal? && IsSessionOf(db, key, sid)
    ensures SessionDeclares(env, db)(key) == CleanAddress(env, db.sessions[sid].email)
  {}

  /** An identified session keeps its email. */
  predicate SameUsers(db: Db, db1: Db) {
    && db1.sessions.Keys == db.sessions.Keys
    && forall k :: k in db.sessions ==> SameIdentified(db.sessions[k], db1.sessions[k])
  }

  predicate SameIdentified(s: Session, s1: Session) {
    s1.org == s.org && s1.externalId == s.externalId && (s.externalId != "" ==> s1.email == s.email)
  }

  lemma SameDeclared(env: Env, db: Db, db1: Db, key: Key)
    requires SessionsUnique(db.sessions) && SessionsUnique(db1.sessions) && SameUsers(db, db1) && Proper(key)
    ensures SessionDeclares(env, db1)(key) == SessionDeclares(env, db)(key)
  {
    if key.ByExternal? {
      if sid :| IsSessionOf(db, key, sid) {
        assert SameIdentified(db.sessions[sid], db1.sessions[sid]);
        SessionDeclaresItsOwn(env, db, key, sid);
        SessionDeclaresItsOwn(env, db1, key, sid);
      } else {
        forall sid ensures !IsSessionOf(db1, key, sid) {
          assert sid in db.sessions ==> SameIdentified(db.sessions[sid], db1.sessions[sid]);
          assert !IsSessionOf(db, key, sid);
        }
      }
    }
  }

  lemma MissingInTwo(contacts: Contacts, r: Reading, first: set<Key>, second: set<Key>, after: Contacts)
    requires IsWithNew(contacts, r, first, after) && UniqueContacts(after)
    requires (forall key :: key in first ==> Proper(key)) && (forall key :: key in second ==> Proper(key))
    ensures Missing(contacts, first + second) == Missing(contacts, first) + Missing(after, second)
  {
    forall key | key in second ensures key in Missing(after, second) <==> key in Missing(contacts, second) && key !in first {
      HolderWithNew(contacts, r, first, after, key);
    }
  }

  ghost predicate Agree(d: Key -> string, e: Key -> string) {
    forall key :: Proper(key) ==> d(key) == e(key)
  }

  lemma NewContactsInTwo(
    r: Reading, one: set<Key>, two: set<Key>, d: Key -> string, e: Key -> string, now: Time)
    requires Agree(d, e) && (forall key :: key in two ==> Proper(key) && r.keyOf(r.idOf(key)) == key)
    ensures NewContacts(r, one + two, d, now) == NewContacts(r, one, d, now) + NewContacts(r, two, e, now)
  {}

  lemma Associative(a: Contacts, b: Contacts, c: Contacts)
    ensures a + (b + c) == a + b + c
  {}

  /** New contacts made in two steps are those made in one. */
  lemma WithNewInTwo(
    contacts: Contacts, r: Reading, first: set<Key>, second: set<Key>, d: Key -> string, e: Key -> string, now: Time)
    requires UniqueContacts(contacts) && Fresh(r, contacts) && Agree(d, e)
    requires (forall key :: key in first ==> Proper(key)) && (forall key :: key in second ==> Proper(key))
    ensures WithNew(WithNew(contacts, r, first, d, now), r, second, e, now)
         == WithNew(contacts, r, first + second, d, now)
  {
    var after := WithNew(contacts, r, first, d, now);
    WithNewIs(contacts, r, first, d, now);
    WithNewIsUnique(contacts, r, first, after);
    MissingInTwo(contacts, r, first, second, after);
    var one, two := Missing(contacts, first), Missing(after, second);
    NewContactsInTwo(r, one, two, d, e, now);
    Associative(contacts, NewContacts(r, one, d, now), NewContacts(r, two, e, now));
  }

  lemma UserUntouched(env: Env, db: Db, r: Reading, sids: set<Id>, now: Time, k: Id)
    requires k in db.sessions
    ensures SameIdentified(db.sessions[k], SessionsLinked(env, db, r, sids, now).sessions[k])
  {}

  lemma UsersUntouched(env: Env, db: Db, r: Reading, sids: set<Id>, now: Time)
    ensures SameUsers(db, SessionsLinked(env, db, r, sids, now))
  {
    var after := SessionsLinked(env, db, r, sids, now);
    assert after.sessions.Keys == db.sessions.Keys;
    forall k | k in db.sessions ensures SameIdentified(db.sessions[k], after.sessions[k]) {
      UserUntouched(env, db, r, sids, now, k);
    }
  }

  ghost predicate AllSameEvidence(db: Db, db1: Db, sids: set<Id>) {
    forall sid :: sid in sids && sid in db.sessions ==> SameEvidence(db, db1, sid)
  }

  /** After some sessions were linked, the others are as they were. */
  lemma OthersUntouched(env: Env, db: Db, r: Reading, first: set<Id>, second: set<Id>, now: Time)
    requires first !! second
    ensures AllSameEvidence(db, SessionsLinked(env, db, r, first, now), second)
  {}

  lemma StillUnique(db: Db, db1: Db)
    requires SessionsUnique(db.sessions) && SameUsers(db, db1)
    ensures SessionsUnique(db1.sessions)
  {}

  lemma KeysOfSecond(env: Env, db: Db, r: Reading, first: set<Id>, second: set<Id>, now: Time)
    requires first !! second
    ensures SessionKeys(env, SessionsLinked(env, db, r, first, now), r, second) == SessionKeys(env, db, r, second)
    ensures SessionKeys(env, db, r, first + second) == SessionKeys(env, db, r, first) + SessionKeys(env, db, r, second)
  {
    var db1 := SessionsLinked(env, db, r, first, now);
    OthersUntouched(env, db, r, first, second, now);
    forall sid | sid in second && sid in db.sessions
      ensures SessionKey(env, db1, r, sid) == SessionKey(env, db, r, sid)
    {
      assert SameEvidence(db, db1, sid);
      SameSessionKey(env, db, db1, r, sid);
    }
  }

  lemma SecondLinks(env: Env, db: Db, r: Reading, first: set<Id>, second: set<Id>, now: Time, sid: Id)
    requires UniqueContacts(db.contacts) && Fresh(r, db.contacts) && first !! second
    requires sid in second && sid in db.sessions
    ensures var db1 := SessionsLinked(env, db, r, first, now);
      LinkedSession(env, db1, r, db1.contacts, sid) == LinkedSession(env, db, r, db.contacts, sid)
  {
    var db1 := SessionsLinked(env, db, r, first, now);
    OthersUntouched(env, db, r, first, second, now);
    assert SameEvidence(db, db1, sid);
    SameSessionKey(env, db, db1, r, sid);
    SameEmail(env, db, db1, r.tickets, sid);
    SessionKeyIsProper(env, db, r, sid);
    SessionsAddContacts(env, db, r, first, now);
    LinkStays(db.contacts, r, SessionKeys(env, db, r, first), db1.contacts, SessionKey(env, db, r, sid));
  }

  lemma SessionRowInTwo(env: Env, db: Db, r: Reading, first: set<Id>, second: set<Id>, now: Time, sid: Id)
    requires UniqueContacts(db.contacts) && Fresh(r, db.contacts) && first !! second && sid in db.sessions
    ensures SessionsLinked(env, SessionsLinked(env, db, r, first, now), r, second, now).sessions[sid]
         == SessionsLinked(env, db, r, first + second, now).sessions[sid]
  {
    if sid in second {
      OthersUntouched(env, db, r, first, second, now);
      assert SameEvidence(db, SessionsLinked(env, db, r, first, now), sid);
      SecondLinks(env, db, r, first, second, now, sid);
    }
  }

  lemma SessionRowsInTwo(env: Env, db: Db, r: Reading, first: set<Id>, second: set<Id>, now: Time)
    requires UniqueContacts(db.contacts) && Fresh(r, db.contacts) && first !! second
    ensures SessionsLinked(env, SessionsLinked(env, db, r, first, now), r, second, now).sessions
         == SessionsLinked(env, db, r, first + second, now).sessions
  {
    forall sid | sid in db.sessions
      ensures SessionsLinked(env, SessionsLinked(env, db, r, first, now), r, second, now).sessions[sid]
           == SessionsLinked(env, db, r, first + second, now).sessions[sid]
    {
      SessionRowInTwo(env, db, r, first, second, now, sid);
    }
  }

  lemma OnlyTwoTables(env: Env, db: Db, r: Reading, sids: set<Id>, now: Time)
    ensures var after := SessionsLinked(env, db, r, sids, now);
      after == db.(contacts := after.contacts, sessions := after.sessions)
  {}

  /** Linking sessions batch by batch is linking them all at once. */
  lemma SessionsInTwo(env: Env, db: Db, r: Reading, first: set<Id>, second: set<Id>, now: Time)
    requires UniqueContacts(db.contacts) && Fresh(r, db.contacts) && SessionsUnique(db.sessions) && first !! second
    ensures SessionsLinked(env, SessionsLinked(env, db, r, first, now), r, second, now)
         == SessionsLinked(env, db, r, first + second, now)
  {
    SessionContactsInTwo(env, db, r, first, second, now);
    SessionRowsInTwo(env, db, r, first, second, now);
    OnlyTwoTables(env, db, r, first, now);
    OnlyTwoTables(env, SessionsLinked(env, db, r, first, now), r, second, now);
    OnlyTwoTables(env, db, r, first + second, now);
  }

  lemma SessionContactsInTwo(env: Env, db: Db, r: Reading, first: set<Id>, second: set<Id>, now: Time)
    requires UniqueContacts(db.contacts) && Fresh(r, db.contacts) && SessionsUnique(db.sessions) && first !! second
    ensures SessionsLinked(env, SessionsLinked(env, db, r, first, now), r, second, now).contacts
         == SessionsLinked(env, db, r, first + second, now).contacts
  {
    var db1 := SessionsLinked(env, db, r, first, now);
    KeysOfSecond(env, db, r, first, second, now);
    UsersUntouched(env, db, r, first, now);
    StillUnique(db, db1);
    SessionKeysAreProper(env, db, r, first);
    SessionKeysAreProper(env, db, r, second);
    forall key | Proper(key) ensures SessionDeclares(env, db1)(key) == SessionDeclares(env, db)(key) {
      SameDeclared(env, db, db1, key);
    }
    WithNewInTwo(db.contacts, r, SessionKeys(env, db, r, first), SessionKeys(env, db, r, second),
                 SessionDeclares(env, db), SessionDeclares(env, db1), now);
  }

  /** What a ticket's key is read from is the same. */
  predicate SameTicketEvidence(db: Db, db1: Db, tid: Id) {
    && tid in db.tickets && tid in db1.tickets && db1.tickets[tid] == db.tickets[tid]
    && db1.sessions == db.sessions && db1.users == db.users
  }

  lemma SameTicketKey(env: Env, db: Db, db1: Db, tid: Id)
    requires SameTicketEvidence(db, db1, tid)
    ensures TicketKey(env, db1, tid) == TicketKey(env, db, tid)
    ensures IsUnlinkedTicket(env, db1, tid) == IsUnlinkedTicket(env, db, tid)
  {}

  lemma OtherTicketsUntouched(env: Env, db: Db, r: Reading, first: set<Id>, second: set<Id>, now: Time)
    requires first !! second
    ensures var db1 := TicketsLinked(env, db, r, first, now);
      forall tid :: tid in second && tid in db.tickets ==> SameTicketEvidence(db, db1, tid)
  {}

  lemma TicketKeysOfSecond(env: Env, db: Db, r: Reading, first: set<Id>, second: set<Id>, now: Time)
    requires first !! second
    ensures TicketKeys(env, TicketsLinked(env, db, r, first, now), second) == TicketKeys(env, db, second)
    ensures TicketKeys(env, db, first + second) == TicketKeys(env, db, first) + TicketKeys(env, db, second)
  {
    var db1 := TicketsLinked(env, db, r, first, now);
    OtherTicketsUntouched(env, db, r, first, second, now);
    forall tid | tid in second && tid in db.tickets
      ensures TicketKey(env, db1, tid) == TicketKey(env, db, tid)
      ensures IsUnlinkedTicket(env, db1, tid) == IsUnlinkedTicket(env, db, tid)
    {
      assert SameTicketEvidence(db, db1, tid);
      SameTicketKey(env, db, db1, tid);
    }
  }

  lemma TicketContactsInTwo(env: Env, db: Db, r: Reading, first: set<Id>, second: set<Id>, now: Time)
    requires UniqueContacts(db.contacts) && Fresh(r, db.contacts) && first !! second
    ensures TicketsLinked(env, TicketsLinked(env, db, r, first, now), r, second, now).contacts
         == TicketsLinked(env, db, r, first + second, now).contacts
  {
    TicketKeysOfSecond(env, db, r, first, second, now);
    TicketKeysAreProper(env, db, first);
    TicketKeysAreProper(env, db, second);
    WithNewInTwo(db.contacts, r, TicketKeys(env, db, first), TicketKeys(env, db, second),
                 (_: Key) => "", (_: Key) => "", now);
  }

  lemma TicketRowInTwo(env: Env, db: Db, r: Reading, first: set<Id>, second: set<Id>, now: Time, tid: Id)
    requires UniqueContacts(db.contacts) && Fresh(r, db.contacts) && first !! second && tid in db.tickets
    ensures TicketsLinked(env, TicketsLinked(env, db, r, first, now), r, second, now).tickets[tid]
         == TicketsLinked(env, db, r, first + second, now).tickets[tid]
  {
    if tid in second {
      var db1 := TicketsLinked(env, db, r, first, now);
      OtherTicketsUntouched(env, db, r, first, second, now);
      assert SameTicketEvidence(db, db1, tid);
      SameTicketKey(env, db, db1, tid);
      TicketKeyIsProper(env, db, tid);
      TicketsAddContacts(env, db, r, first, now);
      LinkStays(db.contacts, r, TicketKeys(env, db, first), db1.contacts, TicketKey(env, db, tid));
    }
  }

  lemma TicketRowsInTwo(env: Env, db: Db, r: Reading, first: set<Id>, second: set<Id>, now: Time)
    requires UniqueContacts(db.contacts) && Fresh(r, db.contacts) && first !! second
    ensures TicketsLinked(env, TicketsLinked(env, db, r, first, now), r, second, now).tickets
         == TicketsLinked(env, db, r, first + second, now).tickets
  {
    forall tid | tid in db.tickets
      ensures TicketsLinked(env, TicketsLinked(env, db, r, first, now), r, second, now).tickets[tid]
           == TicketsLinked(env, db, r, first + second, now).tickets[tid]
    {
      TicketRowInTwo(env, db, r, first, second, now, tid);
    }
  }

  lemma OnlyTheirTables(env: Env, db: Db, r: Reading, tids: set<Id>, now: Time)
    ensures var after := TicketsLinked(env, db, r, tids, now);
      after == db.(contacts := after.contacts, tickets := after.tickets)
  {}

  /** And so for tickets. */
  lemma TicketsInTwo(env: Env, db: Db, r: Reading, first: set<Id>, second: set<Id>, now: Time)
    requires UniqueContacts(db.contacts) && Fresh(r, db.contacts) && first !! second
    ensures TicketsLinked(env, TicketsLinked(env, db, r, first, now), r, second, now)
         == TicketsLinked(env, db, r, first + second, now)
  {
    TicketContactsInTwo(env, db, r, first, second, now);
    TicketRowsInTwo(env, db, r, first, second, now);
    OnlyTheirTables(env, db, r, first, now);
    OnlyTheirTables(env, TicketsLinked(env, db, r, first, now), r, second, now);
    OnlyTheirTables(env, db, r, first + second, now);
  }

  lemma {:induction false} SameSessionValues(db: Db, db1: Db, sids: seq<Id>, id: Id, c: Contact)
    requires db1.sessions == db.sessions
    ensures FilledFromSessions(db1, sids, id, c) == FilledFromSessions(db, sids, id, c)
  {
    if sids != [] {
      var sid := sids[0];
      SameSessionValues(db, db1, sids[1..], id,
        if sid in db.sessions && db.sessions[sid].contact == Some(id) then FilledFromSession(c, db.sessions[sid]) else c);
    }
  }

  lemma {:induction false} SameTicketValues(env: Env, db: Db, db1: Db, tids: seq<Id>, id: Id, c: Contact)
    requires db1.sessions == db.sessions && db1.tickets == db.tickets && db1.users == db.users
    ensures FilledFromTickets(env, db1, tids, id, c) == FilledFromTickets(env, db, tids, id, c)
  {
    if tids != [] {
      var tid := tids[0];
      if tid in db.tickets {
        var t := db.tickets[tid];
        assert Vouched(db1, t.org, t.externalId) == Vouched(db, t.org, t.externalId);
        assert FilledFromTicket(env, db1, c, t) == FilledFromTicket(env, db, c, t);
      }
      SameTicketValues(env, db, db1, tids[1..], id,
        if tid in db.tickets && db.tickets[tid].contact == Some(id)
        then FilledFromTicket(env, db, c, db.tickets[tid]) else c);
    }
  }

  /** And for the values of new contacts, each read from its own rows. */
  lemma FillingInTwo(env: Env, db: Db, r: Reading, first: set<Id>, second: set<Id>)
    requires first !! second
    ensures ContactsFilled(env, ContactsFilled(env, db, r, first), r, second)
         == ContactsFilled(env, db, r, first + second)
  {
    var db1 := ContactsFilled(env, db, r, first);
    forall id | id in db.contacts && id in second ensures Filled(env, db1, r, id) == Filled(env, db, r, id) {
      SameSessionValues(db, db1, r.sessions, id, db.contacts[id]);
      SameTicketValues(env, db, db1, r.tickets, id, FilledFromSessions(db, r.sessions, id, db.contacts[id]));
    }
    assert ContactsFilled(env, db1, r, second).contacts == ContactsFilled(env, db, r, first + second).contacts;
  }

  // Once is enough

  /** Only the values of some contacts differ, none that a contact is looked up on or verified by. */
  predicate SameToLookups(a: Contact, b: Contact) {
    && b.org == a.org && b.email == a.email && b.externalId == a.externalId
    && b.anonymized == a.anonymized && b.verifiedAt == a.verifiedAt
  }

  ghost predicate AllSameToLookups(contacts: Contacts, after: Contacts) {
    after.Keys == contacts.Keys && forall id :: id in contacts ==> SameToLookups(contacts[id], after[id])
  }

  lemma SameToLookupsIsUnique(contacts: Contacts, after: Contacts)
    requires UniqueContacts(contacts) && AllSameToLookups(contacts, after)
    ensures UniqueContacts(after)
  {
    forall a, b ensures !ContactsClash(after, a, b) {
      assert !ContactsClash(contacts, a, b);
      if a in contacts && b in contacts {
        assert SameToLookups(contacts[a], after[a]) && SameToLookups(contacts[b], after[b]);
      }
    }
  }

  /** A row that found nobody to link to never does, with whatever keys new contacts are given. */
  lemma UnlinkableStays(contacts: Contacts, after: Contacts, r: Reading, r2: Reading, key: Option<Key>)
    requires UniqueContacts(contacts) && AllSameToLookups(contacts, after)
    requires (key.Some? ==> Proper(key.value)) && LinkOf(contacts, r, key).None?
    ensures LinkOf(after, r2, key).None?
  {
    SameToLookupsIsUnique(contacts, after);
    if key.Some? {
      var id := Holder(contacts, key.value).value;
      assert SameToLookups(contacts[id], after[id]);
      HolderIs(after, key.value, id);
    }
  }

  /** Nothing to do for sessions: none that isn't linked can be. */
  lemma IdleSessions(env: Env, db: Db, r: Reading, sids: set<Id>, now: Time)
    requires forall sid :: sid in sids && IsUnlinkedSession(db, sid) ==>
      LinkOf(db.contacts, r, SessionKey(env, db, r, sid)).None?
    ensures SessionsLinked(env, db, r, sids, now) == db
  {
    forall key | key in SessionKeys(env, db, r, sids) ensures Holder(db.contacts, key).Some? {
      var sid :| sid in sids && IsUnlinkedSession(db, sid) && SessionKey(env, db, r, sid) == Some(key);
      assert LinkOf(db.contacts, r, Some(key)).None?;
    }
    var after := SessionsLinked(env, db, r, sids, now);
    assert after.contacts == db.contacts;
    assert after.sessions == db.sessions;
    OnlyTwoTables(env, db, r, sids, now);
  }

  lemma IdleTickets(env: Env, db: Db, r: Reading, tids: set<Id>, now: Time)
    requires forall tid :: tid in tids && IsUnlinkedTicket(env, db, tid) ==>
      LinkOf(db.contacts, r, TicketKey(env, db, tid)).None?
    ensures TicketsLinked(env, db, r, tids, now) == db
  {
    forall key | key in TicketKeys(env, db, tids) ensures Holder(db.contacts, key).Some? {
      var tid :| tid in tids && IsUnlinkedTicket(env, db, tid) && TicketKey(env, db, tid) == Some(key);
      assert LinkOf(db.contacts, r, Some(key)).None?;
    }
    var after := TicketsLinked(env, db, r, tids, now);
    assert after.contacts == db.contacts;
    assert after.tickets == db.tickets;
    OnlyTheirTables(env, db, r, tids, now);
  }

  /** Every linked session's contact is there, as a foreign key's is. */
  ghost predicate LinksExist(db: Db) {
    forall k :: k in db.sessions && db.sessions[k].contact.Some? ==> db.sessions[k].contact.value in db.contacts
  }

  /** The stages of one run, in order. */
  ghost predicate IsRun(env: Env, db: Db, r: Reading, now: Time, a: Db, b: Db, linked: Db, end: Db) {
    && a == SessionsLinked(env, db, r, db.sessions.Keys, now)
    && b == TicketsFollowed(a)
    && linked == TicketsLinked(env, b, r, b.tickets.Keys, now)
    && end == ContactsFilled(env, linked, r, linked.contacts.Keys - db.contacts.Keys)
  }

  ghost predicate Ready(db: Db, r: Reading) {
    UniqueContacts(db.contacts) && Fresh(r, db.contacts) && LinksExist(db)
  }

  lemma {:induction false} SessionsFillKeepsLookups(db: Db, sids: seq<Id>, id: Id, c: Contact)
    ensures SameToLookups(c, FilledFromSessions(db, sids, id, c))
  {
    if sids != [] {
      var sid := sids[0];
      SessionsFillKeepsLookups(db, sids[1..], id,
        if sid in db.sessions && db.sessions[sid].contact == Some(id) then FilledFromSession(c, db.sessions[sid]) else c);
    }
  }

  lemma FillKeepsLookups(env: Env, db: Db, c: Contact, t: Ticket)
    ensures SameToLookups(c, FilledFromTicket(env, db, c, t))
  {}

  lemma {:induction false} TicketsFillKeepsLookups(env: Env, db: Db, tids: seq<Id>, id: Id, c: Contact)
    ensures SameToLookups(c, FilledFromTickets(env, db, tids, id, c))
  {
    if tids != [] {
      if tids[0] in db.tickets && db.tickets[tids[0]].contact == Some(id) {
        var c1 := FilledFromTicket(env, db, c, db.tickets[tids[0]]);
        FillKeepsLookups(env, db, c, db.tickets[tids[0]]);
        TicketsFillKeepsLookups(env, db, tids[1..], id, c1);
      } else {
        TicketsFillKeepsLookups(env, db, tids[1..], id, c);
      }
    }
  }

  lemma FillingKeepsLookups(env: Env, db: Db, r: Reading, ids: set<Id>)
    ensures AllSameToLookups(db.contacts, ContactsFilled(env, db, r, ids).contacts)
  {
    forall id | id in db.contacts ensures SameToLookups(db.contacts[id], Filled(env, db, r, id)) {
      SessionsFillKeepsLookups(db, r.sessions, id, db.contacts[id]);
      TicketsFillKeepsLookups(env, db, r.tickets, id, FilledFromSessions(db, r.sessions, id, db.contacts[id]));
    }
  }

  /** What each stage leaves for the next. */
  lemma RunStages(env: Env, db: Db, r: Reading, now: Time, a: Db, b: Db, linked: Db, end: Db)
    requires Ready(db, r) && IsRun(env, db, r, now, a, b, linked, end)
    ensures IsWithNew(db.contacts, r, SessionKeys(env, db, r, db.sessions.Keys), a.contacts)
    ensures UniqueContacts(a.contacts) && Fresh(r, a.contacts) && b.contacts == a.contacts
    ensures IsWithNew(b.contacts, r, TicketKeys(env, b, b.tickets.Keys), linked.contacts)
    ensures UniqueContacts(linked.contacts) && AllSameToLookups(linked.contacts, end.contacts)
    ensures b.sessions == a.sessions && end.sessions == a.sessions && end.tickets == linked.tickets
    ensures end.users == db.users && b.users == db.users
  {
    SessionsAddContacts(env, db, r, db.sessions.Keys, now);
    TicketsAddContacts(env, b, r, b.tickets.Keys, now);
    FillingKeepsLookups(env, linked, r, linked.contacts.Keys - db.contacts.Keys);
    OnlyTwoTables(env, db, r, db.sessions.Keys, now);
    OnlyTheirTables(env, b, r, b.tickets.Keys, now);
  }

  lemma RunKeepsTickets(env: Env, db: Db, r: Reading, now: Time, a: Db, b: Db, linked: Db, end: Db)
    requires IsRun(env, db, r, now, a, b, linked, end)
    ensures TicketsAlike(db.tickets, end.tickets)
  {
    OnlyTwoTables(env, db, r, db.sessions.Keys, now);
    FollowingKeepsTickets(a);
    LinkingKeepsTickets(env, b, r, b.tickets.Keys, now);
    forall k | k in db.tickets ensures TicketAlike(db.tickets[k], end.tickets[k]) {
      assert TicketAlike(db.tickets[k], b.tickets[k]) && TicketAlike(b.tickets[k], linked.tickets[k]);
    }
  }

  lemma FollowingKeepsTickets(db: Db)
    ensures TicketsAlike(db.tickets, TicketsFollowed(db).tickets)
  {
    var after := TicketsFollowed(db);
    forall k | k in db.tickets ensures TicketAlike(db.tickets[k], after.tickets[k]) {}
  }

  lemma LinkingKeepsTickets(env: Env, db: Db, r: Reading, tids: set<Id>, now: Time)
    ensures TicketsAlike(db.tickets, TicketsLinked(env, db, r, tids, now).tickets)
  {
    var after := TicketsLinked(env, db, r, tids, now);
    forall k | k in db.tickets ensures TicketAlike(db.tickets[k], after.tickets[k]) {}
  }

  lemma UnlinkedAfterAll(env: Env, db: Db, r: Reading, now: Time, a: Db, sid: Id)
    requires a == SessionsLinked(env, db, r, db.sessions.Keys, now) && IsUnlinkedSession(a, sid)
    ensures IsUnlinkedSession(db, sid) && a.sessions[sid] == db.sessions[sid]
    ensures LinkOf(db.contacts, r, SessionKey(env, db, r, sid)).None?
  {}

  /** Both orders give each session the same email of its tickets. */
  ghost predicate ReadsAlike(env: Env, db: Db, r: Reading, r2: Reading) {
    forall sid :: sid in db.sessions ==>
      EmailFromTickets(env, db, r2.tickets, sid) == EmailFromTickets(env, db, r.tickets, sid)
  }

  lemma SameReading(env: Env, db: Db, r: Reading, r2: Reading, sid: Id)
    requires ReadsAlike(env, db, r, r2) && sid in db.sessions
    ensures SessionKey(env, db, r2, sid) == SessionKey(env, db, r, sid)
  {}

  /** Every ticket, latest first: those of the same date in any order. */
  ghost predicate LatestFirst(db: Db, tids: seq<Id>) {
    && (forall k :: k in db.tickets ==> k in tids)
    && Descending(db, tids)
  }

  ghost predicate Descending(db: Db, tids: seq<Id>) {
    forall i, j :: 0 <= i < j < |tids| && tids[i] in db.tickets && tids[j] in db.tickets ==>
      db.tickets[tids[i]].createdAt >= db.tickets[tids[j]].createdAt
  }

  /** The ticket gives the session its email, and none that does is later. */
  ghost predicate IsLatest(env: Env, db: Db, tids: seq<Id>, sid: Id, tid: Id) {
    && GivesEmail(env, db, sid, tid) && tid in tids
    && forall o :: o in tids && GivesEmail(env, db, sid, o) ==> db.tickets[o].createdAt <= db.tickets[tid].createdAt
  }

  ghost predicate IsRead(env: Env, db: Db, tids: seq<Id>, sid: Id, tid: Id) {
    && IsLatest(env, db, tids, sid, tid)
    && EmailFromTickets(env, db, tids, sid) == CleanAddress(env, db.tickets[tid].requesterEmail)
  }

  lemma {:induction false} EmailIsTheLatest(env: Env, db: Db, tids: seq<Id>, sid: Id)
    requires Descending(db, tids)
    ensures if exists tid :: tid in tids && GivesEmail(env, db, sid, tid)
            then exists tid :: IsRead(env, db, tids, sid, tid)
            else EmailFromTickets(env, db, tids, sid) == ""
  {
    if tids != [] {
      if GivesEmail(env, db, sid, tids[0]) {
        assert IsRead(env, db, tids, sid, tids[0]);
      } else {
        assert Descending(db, tids[1..]) && forall o :: o in tids <==> o == tids[0] || o in tids[1..];
        EmailIsTheLatest(env, db, tids[1..], sid);
        if tid :| IsRead(env, db, tids[1..], sid, tid) {
          assert IsRead(env, db, tids, sid, tid);
        }
      }
    }
  }

  /** Tickets of one date that give a session its email give the same. */
  ghost predicate TiesAgree(env: Env, db: Db) {
    forall sid, a, b :: GivesEmail(env, db, sid, a) && GivesEmail(env, db, sid, b) ==>
      db.tickets[a].createdAt == db.tickets[b].createdAt ==>
        CleanAddress(env, db.tickets[a].requesterEmail) == CleanAddress(env, db.tickets[b].requesterEmail)
  }

  /** Two orders that the database may give are alike, unless tickets of the very same date say otherwise. */
  lemma LatestFirstReadsAlike(env: Env, db: Db, r: Reading, r2: Reading)
    requires LatestFirst(db, r.tickets) && LatestFirst(db, r2.tickets) && TiesAgree(env, db)
    ensures ReadsAlike(env, db, r, r2)
  {
    forall sid | sid in db.sessions
      ensures EmailFromTickets(env, db, r2.tickets, sid) == EmailFromTickets(env, db, r.tickets, sid)
    {
      EmailIsTheLatest(env, db, r.tickets, sid);
      EmailIsTheLatest(env, db, r2.tickets, sid);
      if tid :| GivesEmail(env, db, sid, tid) {
        var a :| IsRead(env, db, r.tickets, sid, a);
        var b :| IsRead(env, db, r2.tickets, sid, b);
        assert db.tickets[a].createdAt == db.tickets[b].createdAt;
      }
    }
  }

  lemma LinkStaysNone(
    r: Reading, r2: Reading, k1: set<Key>, k2: set<Key>, c0: Contacts, c1: Contacts, c2: Contacts, c3: Contacts,
    key: Option<Key>)
    requires IsWithNew(c0, r, k1, c1) && IsWithNew(c1, r, k2, c2) && AllSameToLookups(c2, c3)
    requires UniqueContacts(c1) && UniqueContacts(c2) && (key.Some? ==> Proper(key.value))
    requires LinkOf(c0, r, key).None?
    ensures LinkOf(c3, r2, key).None?
  {
    LinkStays(c0, r, k1, c1, key);
    LinkStays(c1, r, k2, c2, key);
    UnlinkableStays(c2, c3, r, r2, key);
  }

  lemma SessionStaysUnlinked(
    env: Env, db: Db, r: Reading, r2: Reading, now: Time, a: Db, b: Db, linked: Db, end: Db, sid: Id)
    requires Ready(db, r) && IsRun(env, db, r, now, a, b, linked, end)
    requires ReadsAlike(env, db, r, r2) && IsUnlinkedSession(end, sid)
    ensures LinkOf(end.contacts, r2, SessionKey(env, end, r2, sid)).None?
  {
    RunStages(env, db, r, now, a, b, linked, end);
    RunKeepsTickets(env, db, r, now, a, b, linked, end);
    UnlinkedAfterAll(env, db, r, now, a, sid);
    assert SameEvidence(db, end, sid);
    SameSessionKey(env, db, end, r2, sid);
    SameReading(env, db, r, r2, sid);
    SessionKeyIsProper(env, db, r, sid);
    LinkStaysNone(r, r2, SessionKeys(env, db, r, db.sessions.Keys), TicketKeys(env, b, b.tickets.Keys),
                  db.contacts, a.contacts, linked.contacts, end.contacts, SessionKey(env, db, r, sid));
  }

  lemma UnlinkedTicketAfterAll(env: Env, b: Db, r: Reading, now: Time, linked: Db, tid: Id)
    requires linked == TicketsLinked(env, b, r, b.tickets.Keys, now)
    requires tid in linked.tickets && linked.tickets[tid].contact.None?
    ensures tid in b.tickets && linked.tickets[tid] == b.tickets[tid]
    ensures IsUnlinkedTicket(env, b, tid) ==> LinkOf(b.contacts, r, TicketKey(env, b, tid)).None?
  {}

  lemma TicketStaysUnlinked(
    env: Env, db: Db, r: Reading, r2: Reading, now: Time, a: Db, b: Db, linked: Db, end: Db, tid: Id)
    requires Ready(db, r) && IsRun(env, db, r, now, a, b, linked, end)
    requires IsUnlinkedTicket(env, end, tid)
    ensures LinkOf(end.contacts, r2, TicketKey(env, end, tid)).None?
  {
    RunStages(env, db, r, now, a, b, linked, end);
    UnlinkedTicketAfterAll(env, b, r, now, linked, tid);
    assert SameTicketEvidence(b, end, tid);
    SameTicketKey(env, b, end, tid);
    TicketKeyIsProper(env, b, tid);
    var key, keys := TicketKey(env, b, tid), TicketKeys(env, b, b.tickets.Keys);
    LinkStays(b.contacts, r, keys, linked.contacts, key);
    UnlinkableStays(linked.contacts, end.contacts, r, r2, key);
  }

  /** A ticket that would follow its session followed it already. */
  lemma NoneFollows(a: Db, end: Db, tid: Id)
    requires LinksExist(a) && end.sessions == a.sessions
    requires tid in end.tickets && tid in a.tickets && end.tickets[tid] == a.tickets[tid]
    requires !FollowsSession(a, a.tickets[tid])
    requires forall id :: id in a.contacts ==> id in end.contacts && SameToLookups(a.contacts[id], end.contacts[id])
    ensures !FollowsSession(end, end.tickets[tid])
  {}

  lemma LinkStillExists(env: Env, db: Db, r: Reading, now: Time, a: Db, sid: Id)
    requires Ready(db, r) && a == SessionsLinked(env, db, r, db.sessions.Keys, now)
    requires IsUnlinkedSession(db, sid) && LinkOf(db.contacts, r, SessionKey(env, db, r, sid)).Some?
    ensures LinkOf(db.contacts, r, SessionKey(env, db, r, sid)).value in a.contacts
  {
    var key, keys := SessionKey(env, db, r, sid).value, SessionKeys(env, db, r, db.sessions.Keys);
    SessionsAddContacts(env, db, r, db.sessions.Keys, now);
    SessionKeyIsProper(env, db, r, sid);
    LinkIsHolder(db.contacts, r, keys, a.contacts, key);
  }

  lemma LinksStillExist(env: Env, db: Db, r: Reading, now: Time, a: Db)
    requires Ready(db, r) && a == SessionsLinked(env, db, r, db.sessions.Keys, now)
    ensures LinksExist(a)
  {
    SessionsAddContacts(env, db, r, db.sessions.Keys, now);
    forall sid | sid in a.sessions && a.sessions[sid].contact.Some?
      ensures a.sessions[sid].contact.value in a.contacts
    {
      if db.sessions[sid].contact.None? {
        LinkStillExists(env, db, r, now, a, sid);
      }
    }
  }

  lemma TicketFollowedBefore(a: Db, b: Db, tid: Id)
    requires b == TicketsFollowed(a) && tid in b.tickets && b.tickets[tid].contact.None?
    ensures tid in a.tickets && b.tickets[tid] == a.tickets[tid]
    ensures LinksExist(a) ==> !FollowsSession(a, a.tickets[tid])
  {}

  lemma NothingFollows(env: Env, db: Db, r: Reading, now: Time, a: Db, b: Db, linked: Db, end: Db, tid: Id)
    requires Ready(db, r) && IsRun(env, db, r, now, a, b, linked, end) && tid in end.tickets
    ensures !FollowsSession(end, end.tickets[tid])
  {
    if end.tickets[tid].contact.None? {
      RunStages(env, db, r, now, a, b, linked, end);
      UnlinkedTicketAfterAll(env, b, r, now, linked, tid);
      LinksStillExist(env, db, r, now, a);
      TicketFollowedBefore(a, b, tid);
      forall id | id in a.contacts ensures id in end.contacts && SameToLookups(a.contacts[id], end.contacts[id]) {
        assert id in linked.contacts && linked.contacts[id] == a.contacts[id];
      }
      NoneFollows(a, end, tid);
    }
  }

  lemma FollowingNone(db: Db)
    requires forall tid :: tid in db.tickets ==> !FollowsSession(db, db.tickets[tid])
    ensures TicketsFollowed(db) == db
  {}

  lemma FillingNone(env: Env, db: Db, r: Reading)
    ensures ContactsFilled(env, db, r, {}) == db
  {}

  lemma IdleRun(env: Env, end: Db, r2: Reading, later: Time)
    requires SessionsLinked(env, end, r2, end.sessions.Keys, later) == end
    requires TicketsFollowed(end) == end
    requires TicketsLinked(env, end, r2, end.tickets.Keys, later) == end
    ensures Backfilled(env, end, r2, later) == end
  {}

  /**
   A second run creates no contact, links no row, and writes nothing else, if its order
   gives each session the email the first one did.
   */
  lemma SecondBackfillIsIdle(env: Env, db: Db, r: Reading, now: Time, r2: Reading, later: Time)
    requires Ready(db, r) && ReadsAlike(env, db, r, r2)
    ensures var once := Backfilled(env, db, r, now);
      Backfilled(env, once, r2, later) == once
  {
    var a := SessionsLinked(env, db, r, db.sessions.Keys, now);
    var b := TicketsFollowed(a);
    var linked := TicketsLinked(env, b, r, b.tickets.Keys, now);
    var end := ContactsFilled(env, linked, r, linked.contacts.Keys - db.contacts.Keys);
    forall sid | IsUnlinkedSession(end, sid)
      ensures LinkOf(end.contacts, r2, SessionKey(env, end, r2, sid)).None?
    {
      SessionStaysUnlinked(env, db, r, r2, now, a, b, linked, end, sid);
    }
    IdleSessions(env, end, r2, end.sessions.Keys, later);
    forall tid | IsUnlinkedTicket(env, end, tid)
      ensures LinkOf(end.contacts, r2, TicketKey(env, end, tid)).None?
    {
      TicketStaysUnlinked(env, db, r, r2, now, a, b, linked, end, tid);
    }
    IdleTickets(env, end, r2, end.tickets.Keys, later);
    forall tid | tid in end.tickets ensures !FollowsSession(end, end.tickets[tid]) {
      NothingFollows(env, db, r, now, a, b, linked, end, tid);
    }
    FollowingNone(end);
    IdleRun(env, end, r2, later);
  }

  // The same identity, the same contact

  /** Who a row with that identity is linked to in the end: its holder, or nobody if that one is anonymized. */
  ghost function ContactOfKey(end: Db, key: Key): Option<Id> {
    match Holder(end.contacts, key)
    case Some(id) => if end.contacts[id].anonymized then None else Some(id)
    case None => None
  }

  lemma LinkInTheEnd(contacts: Contacts, r: Reading, keys: set<Key>, after: Contacts, linked: Contacts, end: Db,
                     more: set<Key>, key: Key)
    requires IsWithNew(contacts, r, keys, after) && UniqueContacts(after) && Proper(key) && key in keys
    requires IsWithNew(after, r, more, linked) && UniqueContacts(linked) && AllSameToLookups(linked, end.contacts)
    ensures LinkOf(contacts, r, Some(key)) == ContactOfKey(end, key) && Holder(end.contacts, key).Some?
  {
    LinkIsHolder(contacts, r, keys, after, key);
    var id := Holder(after, key).value;
    HolderIs(linked, key, id);
    SameToLookupsIsUnique(linked, end.contacts);
    assert SameToLookups(linked[id], end.contacts[id]);
    HolderIs(end.contacts, key, id);
  }

  lemma LinkedToItsKey(env: Env, db: Db, r: Reading, now: Time, sid: Id, key: Key)
    requires IsUnlinkedSession(db, sid) && SessionKey(env, db, r, sid) == Some(key)
    ensures SessionsLinked(env, db, r, db.sessions.Keys, now).sessions[sid].contact == LinkOf(db.contacts, r, Some(key))
  {}

  /** Every session the run found unlinked ends on the contact its identity is that of. */
  lemma SessionEndsOnItsContact(
    env: Env, db: Db, r: Reading, now: Time, a: Db, b: Db, linked: Db, end: Db, sid: Id)
    requires Ready(db, r) && IsRun(env, db, r, now, a, b, linked, end)
    requires IsUnlinkedSession(db, sid) && SessionKey(env, db, r, sid).Some?
    ensures sid in end.sessions
    ensures end.sessions[sid].contact == ContactOfKey(end, SessionKey(env, db, r, sid).value)
    ensures Holder(end.contacts, SessionKey(env, db, r, sid).value).Some?
  {
    var key, keys := SessionKey(env, db, r, sid).value, SessionKeys(env, db, r, db.sessions.Keys);
    RunStages(env, db, r, now, a, b, linked, end);
    SessionKeyIsProper(env, db, r, sid);
    LinkInTheEnd(db.contacts, r, keys, a.contacts, linked.contacts, end,
                 TicketKeys(env, b, b.tickets.Keys), key);
    LinkedToItsKey(env, db, r, now, sid, key);
  }

  lemma SameIsWithNew(contacts: Contacts, r: Reading)
    ensures IsWithNew(contacts, r, {}, contacts)
  {}

  /** And so does every ticket no session decides for: rows with the same identity end on the same contact. */
  lemma TicketEndsOnItsContact(
    env: Env, db: Db, r: Reading, now: Time, a: Db, b: Db, linked: Db, end: Db, tid: Id)
    requires Ready(db, r) && IsRun(env, db, r, now, a, b, linked, end)
    requires IsUnlinkedTicket(env, b, tid) && TicketKey(env, b, tid).Some?
    ensures tid in end.tickets
    ensures end.tickets[tid].contact == ContactOfKey(end, TicketKey(env, b, tid).value)
    ensures Holder(end.contacts, TicketKey(env, b, tid).value).Some?
  {
    var key, keys := TicketKey(env, b, tid).value, TicketKeys(env, b, b.tickets.Keys);
    RunStages(env, db, r, now, a, b, linked, end);
    TicketKeyIsProper(env, b, tid);
    SameIsWithNew(linked.contacts, r);
    LinkInTheEnd(b.contacts, r, keys, linked.contacts, linked.contacts, end, {}, key);
    assert linked.tickets[tid].contact == LinkOf(b.contacts, r, Some(key));
  }

  // What it makes of a live system

  /** Tickets only get their contact, and no code is touched, whatever the contacts were. */
  lemma BackfillKeepsRest(env: Env, db: Db, r: Reading, now: Time)
    ensures TicketsAlike(db.tickets, Backfilled(env, db, r, now).tickets)
    ensures Backfilled(env, db, r, now).codes == db.codes
  {
    var a := SessionsLinked(env, db, r, db.sessions.Keys, now);
    var b := TicketsFollowed(a);
    var linked := TicketsLinked(env, b, r, b.tickets.Keys, now);
    var end := ContactsFilled(env, linked, r, linked.contacts.Keys - db.contacts.Keys);
    RunKeepsTickets(env, db, r, now, a, b, linked, end);
    OnlyTwoTables(env, db, r, db.sessions.Keys, now);
    OnlyTheirTables(env, b, r, b.tickets.Keys, now);
  }

  predicate NormalKey(key: Key) {
    key.ByAddress? ==> Normalized(key.value) == key.value
  }

  lemma CleanAddressIsNormal(env: Env, value: string)
    ensures Normalized(CleanAddress(env, value)) == CleanAddress(env, value)
  {
    NormalizedIdempotent(value);
    assert Normalized("") == "";
  }

  lemma {:induction false} TicketsEmailIsNormal(env: Env, db: Db, tids: seq<Id>, sid: Id)
    ensures var email := EmailFromTickets(env, db, tids, sid); Normalized(email) == email
  {
    if tids == [] {
      assert Normalized("") == "";
    } else if GivesEmail(env, db, sid, tids[0]) {
      CleanAddressIsNormal(env, db.tickets[tids[0]].requesterEmail);
    } else {
      TicketsEmailIsNormal(env, db, tids[1..], sid);
    }
  }

  lemma SessionKeysAreNormal(env: Env, db: Db, r: Reading, sids: set<Id>)
    ensures forall key :: key in SessionKeys(env, db, r, sids) ==> NormalKey(key)
  {
    forall sid | sid in db.sessions && SessionKey(env, db, r, sid).Some?
      ensures NormalKey(SessionKey(env, db, r, sid).value)
    {
      CleanAddressIsNormal(env, db.sessions[sid].email);
      TicketsEmailIsNormal(env, db, r.tickets, sid);
    }
  }

  lemma TicketKeysAreNormal(env: Env, db: Db, tids: set<Id>)
    ensures forall key :: key in TicketKeys(env, db, tids) ==> NormalKey(key)
  {
    forall tid | tid in db.tickets && TicketKey(env, db, tid).Some?
      ensures NormalKey(TicketKey(env, db, tid).value)
    {
      CleanAddressIsNormal(env, db.tickets[tid].requesterEmail);
      CleanAddressIsNormal(env, "");
      if Account(db, db.tickets[tid]).Some? {
        CleanAddressIsNormal(env, Account(db, db.tickets[tid]).value.email);
      }
    }
  }

  /** Nothing is proven of it, and its email is as every contact's. */
  predicate Unproven(c: Contact) {
    c.verifiedAt.None? && !c.anonymized && Normalized(c.email) == c.email
  }

  lemma NewIsUnproven(contacts: Contacts, r: Reading, keys: set<Key>, after: Contacts, id: Id)
    requires IsWithNew(contacts, r, keys, after) && (forall key :: key in keys ==> NormalKey(key))
    requires id in after && id !in contacts
    ensures Unproven(after[id])
  {
    assert NewRow(r, contacts, r.keyOf(id), after);
    assert Normalized("") == "";
  }

  /** The contacts it creates are unproven, and under the keys given to what they are looked up on. */
  lemma NewAreUnproven(env: Env, db: Db, r: Reading, now: Time, id: Id)
    requires Ready(db, r)
    requires id in Backfilled(env, db, r, now).contacts && id !in db.contacts
    ensures Unproven(Backfilled(env, db, r, now).contacts[id]) && id == r.idOf(r.keyOf(id))
  {
    var a := SessionsLinked(env, db, r, db.sessions.Keys, now);
    var b := TicketsFollowed(a);
    var linked := TicketsLinked(env, b, r, b.tickets.Keys, now);
    var end := ContactsFilled(env, linked, r, linked.contacts.Keys - db.contacts.Keys);
    RunStages(env, db, r, now, a, b, linked, end);
    assert SameToLookups(linked.contacts[id], end.contacts[id]);
    if id in a.contacts {
      SessionKeysAreNormal(env, db, r, db.sessions.Keys);
      NewIsUnproven(db.contacts, r, SessionKeys(env, db, r, db.sessions.Keys), a.contacts, id);
      assert linked.contacts[id] == a.contacts[id];
    } else {
      TicketKeysAreNormal(env, b, b.tickets.Keys);
      NewIsUnproven(b.contacts, r, TicketKeys(env, b, b.tickets.Keys), linked.contacts, id);
    }
  }

  lemma BackfillKeepsUnique(env: Env, db: Db, r: Reading, now: Time)
    requires Ready(db, r)
    ensures UniqueContacts(Backfilled(env, db, r, now).contacts)
  {
    var a := SessionsLinked(env, db, r, db.sessions.Keys, now);
    var b := TicketsFollowed(a);
    var linked := TicketsLinked(env, b, r, b.tickets.Keys, now);
    var end := ContactsFilled(env, linked, r, linked.contacts.Keys - db.contacts.Keys);
    RunStages(env, db, r, now, a, b, linked, end);
    SameToLookupsIsUnique(linked.contacts, end.contacts);
  }

  /** The session's contact is a live one of its organization and, if it is identified, of its external id. */
  predicate Belongs(contacts: Contacts, s: Session) {
    s.contact.Some? ==>
      && s.contact.value in contacts
      && var c := contacts[s.contact.value];
         c.org == s.org && !c.anonymized && (s.externalId != "" ==> c.externalId == s.externalId)
  }

  lemma BelongsToItsKey(env: Env, db: Db, r: Reading, end: Db, sid: Id, s: Session)
    requires sid in db.sessions && SessionKey(env, db, r, sid).Some?
    requires s.org == db.sessions[sid].org && s.externalId == db.sessions[sid].externalId
    requires s.contact == ContactOfKey(end, SessionKey(env, db, r, sid).value)
    ensures Belongs(end.contacts, s)
  {
    HolderHolds(end.contacts, SessionKey(env, db, r, sid).value);
  }

  /** A session it links is where it belongs. */
  lemma LinkedWhereItBelongs(env: Env, db: Db, r: Reading, now: Time, sid: Id)
    requires Ready(db, r) && IsUnlinkedSession(db, sid)
    ensures var end := Backfilled(env, db, r, now); sid in end.sessions && Belongs(end.contacts, end.sessions[sid])
  {
    var a := SessionsLinked(env, db, r, db.sessions.Keys, now);
    var b := TicketsFollowed(a);
    var linked := TicketsLinked(env, b, r, b.tickets.Keys, now);
    var end := ContactsFilled(env, linked, r, linked.contacts.Keys - db.contacts.Keys);
    BackfillOnlyFillsIn(env, db, r, now);
    assert SessionFilled(db.sessions[sid], end.sessions[sid]);
    if SessionKey(env, db, r, sid).Some? {
      SessionEndsOnItsContact(env, db, r, now, a, b, linked, end, sid);
      BelongsToItsKey(env, db, r, end, sid, end.sessions[sid]);
    } else {
      OnlyTheirTables(env, b, r, b.tickets.Keys, now);
      assert a.sessions[sid] == db.sessions[sid];
    }
  }
}
