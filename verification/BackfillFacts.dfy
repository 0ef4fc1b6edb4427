/**
 Where the back-fill puts every session and ticket, and what the contacts it creates
 hold, by the rows alone (backend/apps/contacts/backfill.py:8-38 and 74-457).
 */
module BackfillFacts {
  import opened Text
  import opened Rows
  import opened Backfill
  import opened BackfillLaws

  // Identities

  /** An address in canonical form, or "" if it can't be a contact's. */
  function Address(env: Env, value: string): string {
    if 0 < |Normalized(value)| <= 254 && env.validEmail(Normalized(value)) then Normalized(value) else ""
  }

  lemma SameAddress(env: Env, value: string)
    ensures CleanAddress(env, value) == Address(env, value)
  {}

  /** An external id as it may be used: with nothing around it, and not of a reserved form. */
  predicate IsUsable(externalId: string) {
    externalId != "" && Strip(externalId) == externalId
    && !StartsWith(externalId, "email:") && !StartsWith(externalId, "company\n")
  }

  /** Whoever holds the external id, unless that contact is anonymized. */
  ghost predicate OnUser(contacts: Contacts, org: Id, externalId: string, contact: Option<Id>) {
    && (exists o :: HoldsExternalId(contacts, org, externalId, o))
    && forall o :: HoldsExternalId(contacts, org, externalId, o) ==>
         contact == (if contacts[o].anonymized then None else Some(o))
  }

  /** Whoever holds the address, unless that contact is anonymized. */
  ghost predicate OnAddress(contacts: Contacts, org: Id, email: string, contact: Option<Id>) {
    && (exists o :: HoldsEmail(contacts, org, email, o))
    && forall o :: HoldsEmail(contacts, org, email, o) ==> contact == (if contacts[o].anonymized then None else Some(o))
  }

  lemma ContactOfUser(end: Db, org: Id, externalId: string)
    requires UniqueContacts(end.contacts) && externalId != "" && Holder(end.contacts, ByExternal(org, externalId)).Some?
    ensures OnUser(end.contacts, org, externalId, ContactOfKey(end, ByExternal(org, externalId)))
  {
    forall o: Id | HoldsExternalId(end.contacts, org, externalId, o)
      ensures Holder(end.contacts, ByExternal(org, externalId)) == Some(o)
    {
      HolderIs(end.contacts, ByExternal(org, externalId), o);
    }
  }

  lemma ContactOfAddress(end: Db, org: Id, email: string)
    requires UniqueContacts(end.contacts) && email != "" && Holder(end.contacts, ByAddress(org, email)).Some?
    ensures OnAddress(end.contacts, org, email, ContactOfKey(end, ByAddress(org, email)))
  {
    forall o: Id | HoldsEmail(end.contacts, org, email, o) ensures Holder(end.contacts, ByAddress(org, email)) == Some(o) {
      HolderIs(end.contacts, ByAddress(org, email), o);
    }
  }

  // Sessions

  /** The ticket is the session's, in its organization, and its address is usable and not that of the staff filing it. */
  predicate SpeaksFor(env: Env, db: Db, sid: Id, tid: Id)
    requires sid in db.sessions && tid in db.tickets
  {
    var t := db.tickets[tid];
    && t.session == Some(sid) && t.org == db.sessions[sid].org
    && Address(env, t.requesterEmail) != "" && !IsStaffs(env, db, t)
  }

  /** The address on the ticket is that of the agent, admin or superuser it was filed by. */
  predicate IsStaffs(env: Env, db: Db, t: Ticket) {
    && t.requester.Some? && t.requester.value in db.users
    && var u := db.users[t.requester.value];
       && (!u.role.EndUser? || u.superuser)
       && Address(env, t.requesterEmail) != "" && Address(env, t.requesterEmail) == Address(env, u.email)
  }

  lemma SameStaffs(env: Env, db: Db, t: Ticket)
    ensures IsStaffs(env, db, t) == IsOwnStaffEmail(env, db, t)
  {}

  lemma SameSpeaks(env: Env, db: Db, sid: Id, tid: Id)
    requires sid in db.sessions && tid in db.tickets
    ensures SpeaksFor(env, db, sid, tid) == GivesEmail(env, db, sid, tid)
  {
    SameStaffs(env, db, db.tickets[tid]);
  }

  /** The latest of them that speaks for the session. */
  ghost predicate IsLastWord(env: Env, db: Db, sid: Id, tid: Id)
    requires sid in db.sessions
  {
    && tid in db.tickets && SpeaksFor(env, db, sid, tid)
    && forall o :: o in db.tickets && SpeaksFor(env, db, sid, o) ==> db.tickets[o].createdAt <= db.tickets[tid].createdAt
  }

  /** Where a session without a contact ends, and the address it then has. */
  ghost predicate SessionEnds(env: Env, db: Db, end: Db, sid: Id)
    requires sid in db.sessions && sid in end.sessions
  {
    var s, s1 := db.sessions[sid], end.sessions[sid];
    if s.externalId != "" then
      && s1 == s.(contact := s1.contact)
      && if IsUsable(s.externalId) then OnUser(end.contacts, s.org, s.externalId, s1.contact) else s1.contact.None?
    else if Address(env, s.email) != "" then
      s1 == s.(contact := s1.contact) && OnAddress(end.contacts, s.org, Address(env, s.email), s1.contact)
    else if exists tid :: tid in db.tickets && SpeaksFor(env, db, sid, tid) then
      exists tid :: IsLastWord(env, db, sid, tid)
        && var email := Address(env, db.tickets[tid].requesterEmail);
           && OnAddress(end.contacts, s.org, email, s1.contact)
           && s1 == if s1.contact.None? then s else s.(contact := s1.contact, email := email, verifiedAt := None)
    else s1 == s
  }

  lemma SameUsable(externalId: string)
    ensures UsableId(externalId) == IsUsable(externalId)
  {}

  ghost predicate IsReadLast(env: Env, db: Db, tids: seq<Id>, sid: Id, tid: Id)
    requires sid in db.sessions
  {
    && IsLastWord(env, db, sid, tid)
    && EmailFromTickets(env, db, tids, sid) == Address(env, db.tickets[tid].requesterEmail)
  }

  /** The email its tickets give a session is the last word of theirs. */
  lemma LastWordIsRead(env: Env, db: Db, tids: seq<Id>, sid: Id)
    requires LatestFirst(db, tids) && sid in db.sessions
    ensures if exists tid :: tid in db.tickets && SpeaksFor(env, db, sid, tid)
            then exists tid :: IsReadLast(env, db, tids, sid, tid)
            else EmailFromTickets(env, db, tids, sid) == ""
  {
    EmailIsTheLatest(env, db, tids, sid);
    forall tid | tid in db.tickets ensures SpeaksFor(env, db, sid, tid) == GivesEmail(env, db, sid, tid) {
      SameSpeaks(env, db, sid, tid);
    }
    if tid :| tid in db.tickets && SpeaksFor(env, db, sid, tid) {
      assert GivesEmail(env, db, sid, tid) && tid in tids;
      var last :| IsRead(env, db, tids, sid, last);
      SameAddress(env, db.tickets[last].requesterEmail);
      assert IsReadLast(env, db, tids, sid, last);
    }
  }

  lemma RowIsLinked(env: Env, db: Db, r: Reading, now: Time, a: Db, b: Db, linked: Db, end: Db, sid: Id)
    requires IsRun(env, db, r, now, a, b, linked, end) && IsUnlinkedSession(db, sid)
    ensures sid in end.sessions && end.sessions[sid] == LinkedSession(env, db, r, db.contacts, sid)
  {
    OnlyTheirTables(env, b, r, b.tickets.Keys, now);
  }

  /** Its identity's contact, as the back-fill found it. */
  ghost predicate KeyEnds(end: Db, key: Option<Key>, contact: Option<Id>) {
    match key
    case Some(ByExternal(org, value)) => OnUser(end.contacts, org, value, contact)
    case Some(ByAddress(org, value)) => OnAddress(end.contacts, org, value, contact)
    case None => contact.None?
  }

  lemma KeyEndsSo(end: Db, key: Key)
    requires UniqueContacts(end.contacts) && Proper(key) && Holder(end.contacts, key).Some?
    ensures KeyEnds(end, Some(key), ContactOfKey(end, key))
  {
    match key
    case ByExternal(org, value) => ContactOfUser(end, org, value);
    case ByAddress(org, value) => ContactOfAddress(end, org, value);
  }

  /** The row, once its contact is known. */
  lemma RowEndsSo(env: Env, db: Db, r: Reading, end: Db, sid: Id)
    requires LatestFirst(db, r.tickets) && sid in db.sessions && db.sessions[sid].contact.None? && sid in end.sessions
    requires end.sessions[sid] == LinkedSession(env, db, r, db.contacts, sid)
    requires KeyEnds(end, SessionKey(env, db, r, sid), end.sessions[sid].contact)
    ensures SessionEnds(env, db, end, sid)
  {
    SameUsable(db.sessions[sid].externalId);
    SameAddress(env, db.sessions[sid].email);
    LastWordIsRead(env, db, r.tickets, sid);
  }

  lemma SessionEndsSo(env: Env, db: Db, r: Reading, now: Time, a: Db, b: Db, linked: Db, end: Db, sid: Id)
    requires Ready(db, r) && IsRun(env, db, r, now, a, b, linked, end) && LatestFirst(db, r.tickets)
    requires sid in db.sessions && db.sessions[sid].contact.None?
    ensures sid in end.sessions && SessionEnds(env, db, end, sid)
  {
    RunStages(env, db, r, now, a, b, linked, end);
    SameToLookupsIsUnique(linked.contacts, end.contacts);
    RowIsLinked(env, db, r, now, a, b, linked, end, sid);
    var key := SessionKey(env, db, r, sid);
    if key.Some? {
      SessionEndsOnItsContact(env, db, r, now, a, b, linked, end, sid);
      SessionKeyIsProper(env, db, r, sid);
      KeyEndsSo(end, key.value);
    }
    RowEndsSo(env, db, r, end, sid);
  }

  /** After the back-fill, every session that had no contact is where it belongs, by its row and its tickets alone. */
  lemma SessionsEnd(env: Env, db: Db, r: Reading, now: Time, sid: Id)
    requires Ready(db, r) && LatestFirst(db, r.tickets) && sid in db.sessions && db.sessions[sid].contact.None?
    ensures var end := Backfilled(env, db, r, now); sid in end.sessions && SessionEnds(env, db, end, sid)
  {
    var a := SessionsLinked(env, db, r, db.sessions.Keys, now);
    var b := TicketsFollowed(a);
    var linked := TicketsLinked(env, b, r, b.tickets.Keys, now);
    var end := ContactsFilled(env, linked, r, linked.contacts.Keys - db.contacts.Keys);
    SessionEndsSo(env, db, r, now, a, b, linked, end, sid);
  }

  // Tickets

  /** A session of the organization was created with the external id. */
  predicate IsVouched(end: Db, org: Id, externalId: string) {
    && IsUsable(externalId)
    && exists sid :: sid in end.sessions && end.sessions[sid].org == org && end.sessions[sid].externalId == externalId
  }

  /** An end user's account, of no other organization. */
  predicate IsEndUsers(db: Db, t: Ticket) {
    && t.requester.Some? && t.requester.value in db.users
    && var u := db.users[t.requester.value];
       u.role.EndUser? && !u.superuser && (u.org.None? || u.org == Some(t.org))
  }

  predicate OnSession(end: Db, t: Ticket) {
    t.session.Some? && t.session.value in end.sessions && end.sessions[t.session.value].org == t.org
  }

  /** Where a ticket without a contact ends. Its session decides, unless it is nobody's. */
  ghost predicate TicketEnds(env: Env, end: Db, t: Ticket, contact: Option<Id>) {
    if OnSession(end, t) && end.sessions[t.session.value].contact.Some? then
      var c := end.sessions[t.session.value].contact.value;
      contact == if c in end.contacts && end.contacts[c].org == t.org && !end.contacts[c].anonymized then Some(c) else None
    else if OnSession(end, t) && (end.sessions[t.session.value].externalId != ""
                                  || Address(env, end.sessions[t.session.value].email) != "") then
      contact.None?
    else if IsVouched(end, t.org, t.externalId) then OnUser(end.contacts, t.org, t.externalId, contact)
    else if Address(env, t.requesterEmail) != "" && !IsStaffs(env, end, t) then
      OnAddress(end.contacts, t.org, Address(env, t.requesterEmail), contact)
    else if !OnSession(end, t) && IsEndUsers(end, t) && Address(env, end.users[t.requester.value].email) != "" then
      OnAddress(end.contacts, t.org, Address(env, end.users[t.requester.value].email), contact)
    else contact.None?
  }

  /** A ticket's identity, by its row. */
  lemma TicketKeyIs(env: Env, db: Db, tid: Id)
    requires tid in db.tickets
    ensures var t := db.tickets[tid];
      TicketKey(env, db, tid)
      == if IsVouched(db, t.org, t.externalId) then Some(ByExternal(t.org, t.externalId))
         else if Address(env, t.requesterEmail) != "" && !IsStaffs(env, db, t) then
           Some(ByAddress(t.org, Address(env, t.requesterEmail)))
         else if !OnSession(db, t) && IsEndUsers(db, t) && Address(env, db.users[t.requester.value].email) != "" then
           Some(ByAddress(t.org, Address(env, db.users[t.requester.value].email)))
         else None
  {
    var t := db.tickets[tid];
    SameUsable(t.externalId);
    SameStaffs(env, db, t);
    SameAddress(env, t.requesterEmail);
    SameAddress(env, "");
    NoAddress(env);
    if t.requester.Some? && t.requester.value in db.users {
      SameAddress(env, db.users[t.requester.value].email);
    }
  }

  lemma NoAddress(env: Env)
    ensures CleanAddress(env, "") == ""
  {
    assert Strip("") == "" && Lower("") == "";
  }

  /** A session's contact looks the same when its tickets follow it as in the end. */
  lemma FollowsTheSame(a: Contacts, r: Reading, keys: set<Key>, linked: Contacts, end: Contacts, id: Id)
    requires IsWithNew(a, r, keys, linked) && AllSameToLookups(linked, end) && id in a
    ensures id in end && end[id].org == a[id].org && end[id].anonymized == a[id].anonymized
  {
    assert SameToLookups(linked[id], end[id]);
  }

  lemma FollowedTicket(
    env: Env, db: Db, r: Reading, now: Time, a: Db, b: Db, linked: Db, end: Db, tid: Id)
    requires Ready(db, r) && IsRun(env, db, r, now, a, b, linked, end) && tid in a.tickets && a.tickets[tid].contact.None?
    requires OnSession(end, a.tickets[tid]) && end.sessions[a.tickets[tid].session.value].contact.Some?
    ensures tid in end.tickets && end.tickets[tid] == a.tickets[tid].(contact := end.tickets[tid].contact)
    ensures TicketEnds(env, end, a.tickets[tid], end.tickets[tid].contact)
  {
    RunStages(env, db, r, now, a, b, linked, end);
    LinksStillExist(env, db, r, now, a);
    var t := a.tickets[tid];
    var id := end.sessions[t.session.value].contact.value;
    FollowsTheSame(a.contacts, r, TicketKeys(env, b, b.tickets.Keys), linked.contacts, end.contacts, id);
    FollowedIs(a, tid);
    FollowedIsDecided(env, b, tid);
    NotOnItsOwn(env, b, r, now, linked, tid);
    FollowedEnds(env, a, end, t, end.tickets[tid].contact);
  }

  lemma FollowedIs(a: Db, tid: Id)
    requires tid in a.tickets
    ensures var t := a.tickets[tid];
      TicketsFollowed(a).tickets[tid]
      == if FollowsSession(a, t) then t.(contact := a.sessions[t.session.value].contact) else t
  {}

  lemma FollowedIsDecided(env: Env, b: Db, tid: Id)
    requires tid in b.tickets && OnSession(b, b.tickets[tid])
    requires b.sessions[b.tickets[tid].session.value].contact.Some?
    ensures !IsUnlinkedTicket(env, b, tid)
  {}

  lemma FollowedEnds(env: Env, a: Db, end: Db, t: Ticket, contact: Option<Id>)
    requires end.sessions == a.sessions && OnSession(end, t) && t.contact.None?
    requires end.sessions[t.session.value].contact.Some?
    requires var id := end.sessions[t.session.value].contact.value;
      id in a.contacts && id in end.contacts
      && end.contacts[id].org == a.contacts[id].org && end.contacts[id].anonymized == a.contacts[id].anonymized
    requires contact == if FollowsSession(a, t) then a.sessions[t.session.value].contact else None
    ensures TicketEnds(env, end, t, contact)
  {}

  /** A ticket that has a contact, or that its session decides for, is left as it is. */
  lemma NotOnItsOwn(env: Env, b: Db, r: Reading, now: Time, linked: Db, tid: Id)
    requires linked == TicketsLinked(env, b, r, b.tickets.Keys, now) && tid in b.tickets
    requires !IsUnlinkedTicket(env, b, tid)
    ensures tid in linked.tickets && linked.tickets[tid] == b.tickets[tid]
  {}

  lemma DecidedTicket(
    env: Env, db: Db, r: Reading, now: Time, a: Db, b: Db, linked: Db, end: Db, tid: Id)
    requires Ready(db, r) && IsRun(env, db, r, now, a, b, linked, end) && tid in a.tickets && a.tickets[tid].contact.None?
    requires OnSession(end, a.tickets[tid]) && end.sessions[a.tickets[tid].session.value].contact.None?
    requires || end.sessions[a.tickets[tid].session.value].externalId != ""
             || Address(env, end.sessions[a.tickets[tid].session.value].email) != ""
    ensures tid in end.tickets && end.tickets[tid] == a.tickets[tid]
    ensures TicketEnds(env, end, a.tickets[tid], end.tickets[tid].contact)
  {
    RunStages(env, db, r, now, a, b, linked, end);
    assert b.tickets[tid] == a.tickets[tid];
    SameAddress(env, end.sessions[a.tickets[tid].session.value].email);
    NotOnItsOwn(env, b, r, now, linked, tid);
  }

  lemma OwnTicket(
    env: Env, db: Db, r: Reading, now: Time, a: Db, b: Db, linked: Db, end: Db, tid: Id)
    requires Ready(db, r) && IsRun(env, db, r, now, a, b, linked, end) && tid in a.tickets && a.tickets[tid].contact.None?
    requires OnSession(end, a.tickets[tid]) ==>
      var s := end.sessions[a.tickets[tid].session.value];
      s.contact.None? && s.externalId == "" && Address(env, s.email) == ""
    ensures tid in end.tickets && end.tickets[tid] == a.tickets[tid].(contact := end.tickets[tid].contact)
    ensures TicketEnds(env, end, a.tickets[tid], end.tickets[tid].contact)
  {
    var t := a.tickets[tid];
    RunStages(env, db, r, now, a, b, linked, end);
    SameToLookupsIsUnique(linked.contacts, end.contacts);
    assert b.tickets[tid] == t;
    if OnSession(end, t) {
      SameAddress(env, end.sessions[t.session.value].email);
    }
    var key := TicketKey(env, b, tid);
    OwnIsLinked(env, b, r, now, linked, tid);
    if key.Some? {
      TicketEndsOnItsContact(env, db, r, now, a, b, linked, end, tid);
      TicketKeyIsProper(env, b, tid);
      KeyEndsSo(end, key.value);
    }
    OwnEnds(env, b, end, tid, end.tickets[tid].contact);
  }

  lemma OwnEnds(env: Env, b: Db, end: Db, tid: Id, contact: Option<Id>)
    requires end.sessions == b.sessions && end.users == b.users && tid in b.tickets
    requires KeyEnds(end, TicketKey(env, b, tid), contact)
    requires OnSession(end, b.tickets[tid]) ==>
      var s := end.sessions[b.tickets[tid].session.value];
      s.contact.None? && s.externalId == "" && Address(env, s.email) == ""
    ensures TicketEnds(env, end, b.tickets[tid], contact)
  {
    TicketKeyIs(env, b, tid);
    SameVouched(b, end, b.tickets[tid]);
  }

  lemma OwnIsLinked(env: Env, b: Db, r: Reading, now: Time, linked: Db, tid: Id)
    requires linked == TicketsLinked(env, b, r, b.tickets.Keys, now) && IsUnlinkedTicket(env, b, tid)
    ensures tid in linked.tickets
    ensures linked.tickets[tid] == b.tickets[tid].(contact := LinkOf(b.contacts, r, TicketKey(env, b, tid)))
  {}

  lemma SameVouched(b: Db, end: Db, t: Ticket)
    requires end.sessions == b.sessions && end.users == b.users
    ensures IsVouched(end, t.org, t.externalId) == IsVouched(b, t.org, t.externalId)
    ensures OnSession(end, t) == OnSession(b, t) && IsEndUsers(end, t) == IsEndUsers(b, t)
    ensures forall env :: IsStaffs(env, end, t) == IsStaffs(env, b, t)
  {}

  /** And every ticket that had no contact. */
  lemma TicketsEnd(env: Env, db: Db, r: Reading, now: Time, tid: Id)
    requires Ready(db, r) && tid in db.tickets && db.tickets[tid].contact.None?
    ensures var end := Backfilled(env, db, r, now);
      && tid in end.tickets && end.tickets[tid] == db.tickets[tid].(contact := end.tickets[tid].contact)
      && TicketEnds(env, end, db.tickets[tid], end.tickets[tid].contact)
  {
    var a := SessionsLinked(env, db, r, db.sessions.Keys, now);
    var b := TicketsFollowed(a);
    var linked := TicketsLinked(env, b, r, b.tickets.Keys, now);
    var end := ContactsFilled(env, linked, r, linked.contacts.Keys - db.contacts.Keys);
    OnlyTwoTables(env, db, r, db.sessions.Keys, now);
    var t := db.tickets[tid];
    if OnSession(end, t) && end.sessions[t.session.value].contact.Some? {
      FollowedTicket(env, db, r, now, a, b, linked, end, tid);
    } else if OnSession(end, t) && (end.sessions[t.session.value].externalId != ""
                                    || Address(env, end.sessions[t.session.value].email) != "") {
      DecidedTicket(env, db, r, now, a, b, linked, end, tid);
    } else {
      OwnTicket(env, db, r, now, a, b, linked, end, tid);
    }
  }

  // What new contacts hold

  /** The name the ticket gives its contact: its own, if it may, or else its account's, if that holds the contact's address. */
  function NameOn(env: Env, db: Db, t: Ticket, email: string): string {
    if MaySpeak(env, db, t) && Strip(t.requesterName) != "" then Strip(t.requesterName)
    else if email != "" && IsEndUsers(db, t) && Address(env, db.users[t.requester.value].email) == email then
      var name := Strip(db.users[t.requester.value].fullName);
      if |name| <= 255 then name else name[..255]
    else ""
  }

  /** What the ticket says of its requester counts: it names no user that no session vouched for, and staff filed it for another. */
  predicate MaySpeak(env: Env, db: Db, t: Ticket) {
    (t.externalId == "" || IsVouched(db, t.org, t.externalId)) && !IsStaffs(env, db, t)
  }

  predicate IsOnSession(db: Db, sid: Id, id: Id) {
    sid in db.sessions && db.sessions[sid].contact == Some(id)
  }

  predicate IsOnTicket(db: Db, tid: Id, id: Id) {
    tid in db.tickets && db.tickets[tid].contact == Some(id)
  }

  /** The first name the sessions give, in the order read. */
  function FirstSessionName(db: Db, sids: seq<Id>, id: Id): string {
    if sids == [] then ""
    else if IsOnSession(db, sids[0], id) && Strip(db.sessions[sids[0]].name) != "" then Strip(db.sessions[sids[0]].name)
    else FirstSessionName(db, sids[1..], id)
  }

  function FirstTicketName(env: Env, db: Db, tids: seq<Id>, id: Id, email: string): string {
    if tids == [] then ""
    else if IsOnTicket(db, tids[0], id) && NameOn(env, db, db.tickets[tids[0]], email) != "" then
      NameOn(env, db, db.tickets[tids[0]], email)
    else FirstTicketName(env, db, tids[1..], id, email)
  }

  /** The first address the tickets that may speak declare. */
  function FirstDeclared(env: Env, db: Db, tids: seq<Id>, id: Id): string {
    if tids == [] then ""
    else if && IsOnTicket(db, tids[0], id) && MaySpeak(env, db, db.tickets[tids[0]])
            && Address(env, db.tickets[tids[0]].requesterEmail) != "" then
      Address(env, db.tickets[tids[0]].requesterEmail)
    else FirstDeclared(env, db, tids[1..], id)
  }

  /** The earliest time of any of its sessions and tickets, and the latest. */
  ghost predicate IsSpan(db: Db, sids: seq<Id>, tids: seq<Id>, id: Id, first: Option<Time>, last: Option<Time>) {
    && (forall k :: k in sids && IsOnSession(db, k, id) ==>
          && first.Some? && first.value <= db.sessions[k].createdAt
          && last.Some? && last.value >= db.sessions[k].lastSeenAt)
    && (forall k :: k in tids && IsOnTicket(db, k, id) ==>
          && first.Some? && first.value <= db.tickets[k].createdAt
          && last.Some? && last.value >= db.tickets[k].createdAt)
    && (first.Some? ==>
          || (exists k :: k in sids && IsOnSession(db, k, id) && db.sessions[k].createdAt == first.value)
          || (exists k :: k in tids && IsOnTicket(db, k, id) && db.tickets[k].createdAt == first.value))
    && (last.Some? ==>
          || (exists k :: k in sids && IsOnSession(db, k, id) && db.sessions[k].lastSeenAt == last.value)
          || (exists k :: k in tids && IsOnTicket(db, k, id) && db.tickets[k].createdAt == last.value))
  }

  /** Only these differ: the visits, the name and the declared address. */
  predicate OnlyFilled(c: Contact, c1: Contact) {
    c1 == c.(firstSeen := c1.firstSeen, lastSeen := c1.lastSeen, declared := c1.declared,
             profile := c.profile.(name := c1.profile.name))
  }

  lemma {:induction false} SessionsFill(db: Db, sids: seq<Id>, id: Id, c: Contact)
    ensures var c1 := FilledFromSessions(db, sids, id, c);
      && OnlyFilled(c, c1) && c1.declared == c.declared
      && c1.profile.name == (if c.profile.name != "" then c.profile.name else FirstSessionName(db, sids, id))
  {
    if sids != [] {
      var sid := sids[0];
      var c1 := if sid in db.sessions && db.sessions[sid].contact == Some(id) then FilledFromSession(c, db.sessions[sid]) else c;
      SessionsFill(db, sids[1..], id, c1);
    }
  }

  lemma SameTicketWords(env: Env, db: Db, t: Ticket)
    ensures IsEndUsers(db, t) == IsCustomer(db, t) && IsVouched(db, t.org, t.externalId) == Vouched(db, t.org, t.externalId)
    ensures IsStaffs(env, db, t) == IsOwnStaffEmail(env, db, t)
  {
    SameUsable(t.externalId);
    SameStaffs(env, db, t);
  }

  lemma TicketFills(env: Env, db: Db, c: Contact, t: Ticket)
    ensures var c1 := FilledFromTicket(env, db, c, t);
      && OnlyFilled(c, c1)
      && c1.declared == (if c.externalId != "" && c.declared == "" && MaySpeak(env, db, t)
                         then Address(env, t.requesterEmail) else c.declared)
      && c1.profile.name == (if c.profile.name != "" then c.profile.name else NameOn(env, db, t, c.email))
  {
    TicketNames(env, db, c, t);
    TicketDeclares(env, db, c, t);
  }

  lemma TicketNames(env: Env, db: Db, c: Contact, t: Ticket)
    ensures FilledFromTicket(env, db, c, t).profile.name
         == if c.profile.name != "" then c.profile.name else NameOn(env, db, t, c.email)
  {
    SameTicketWords(env, db, t);
    if t.requester.Some? && t.requester.value in db.users {
      SameAddress(env, db.users[t.requester.value].email);
    }
  }

  lemma TicketDeclares(env: Env, db: Db, c: Contact, t: Ticket)
    ensures FilledFromTicket(env, db, c, t).declared
         == if c.externalId != "" && c.declared == "" && MaySpeak(env, db, t) then Address(env, t.requesterEmail)
            else c.declared
  {
    SameTicketWords(env, db, t);
    SameAddress(env, t.requesterEmail);
  }

  lemma {:induction false} TicketsFill(env: Env, db: Db, tids: seq<Id>, id: Id, c: Contact)
    ensures var c1 := FilledFromTickets(env, db, tids, id, c);
      && OnlyFilled(c, c1)
      && c1.declared == (if c.externalId != "" && c.declared == "" then FirstDeclared(env, db, tids, id) else c.declared)
      && c1.profile.name == (if c.profile.name != "" then c.profile.name else FirstTicketName(env, db, tids, id, c.email))
  {
    if tids != [] {
      if tids[0] in db.tickets && db.tickets[tids[0]].contact == Some(id) {
        TicketFills(env, db, c, db.tickets[tids[0]]);
        TicketsFill(env, db, tids[1..], id, FilledFromTicket(env, db, c, db.tickets[tids[0]]));
      } else {
        TicketsFill(env, db, tids[1..], id, c);
      }
    }
  }

  // Their visits

  predicate NoLater(a: Option<Time>, b: Option<Time>) {
    b.Some? ==> a.Some? && a.value <= b.value
  }

  predicate NoEarlier(a: Option<Time>, b: Option<Time>) {
    b.Some? ==> a.Some? && a.value >= b.value
  }

  ghost predicate SessionsSpan(db: Db, sids: seq<Id>, id: Id, c: Contact, c1: Contact) {
    && NoLater(c1.firstSeen, c.firstSeen) && NoEarlier(c1.lastSeen, c.lastSeen)
    && (forall k :: k in sids && IsOnSession(db, k, id) ==>
          && NoLater(c1.firstSeen, Some(db.sessions[k].createdAt)) && NoEarlier(c1.lastSeen, Some(db.sessions[k].lastSeenAt)))
    && (c1.firstSeen != c.firstSeen ==>
          exists k :: k in sids && IsOnSession(db, k, id) && c1.firstSeen == Some(db.sessions[k].createdAt))
    && (c1.lastSeen != c.lastSeen ==>
          exists k :: k in sids && IsOnSession(db, k, id) && c1.lastSeen == Some(db.sessions[k].lastSeenAt))
  }

  lemma {:induction false} SessionsAreSeen(db: Db, sids: seq<Id>, id: Id, c: Contact)
    ensures SessionsSpan(db, sids, id, c, FilledFromSessions(db, sids, id, c))
  {
    if sids != [] {
      var sid := sids[0];
      var c1 := if IsOnSession(db, sid, id) then FilledFromSession(c, db.sessions[sid]) else c;
      SessionsAreSeen(db, sids[1..], id, c1);
      var c2 := FilledFromSessions(db, sids, id, c);
      assert SessionsSpan(db, sids[1..], id, c1, c2);
      assert forall k :: k in sids <==> k == sid || k in sids[1..];
    }
  }

  ghost predicate TicketsSpan(db: Db, tids: seq<Id>, id: Id, c: Contact, c1: Contact) {
    && NoLater(c1.firstSeen, c.firstSeen) && NoEarlier(c1.lastSeen, c.lastSeen)
    && (forall k :: k in tids && IsOnTicket(db, k, id) ==>
          && NoLater(c1.firstSeen, Some(db.tickets[k].createdAt)) && NoEarlier(c1.lastSeen, Some(db.tickets[k].createdAt)))
    && (c1.firstSeen != c.firstSeen ==>
          exists k :: k in tids && IsOnTicket(db, k, id) && c1.firstSeen == Some(db.tickets[k].createdAt))
    && (c1.lastSeen != c.lastSeen ==>
          exists k :: k in tids && IsOnTicket(db, k, id) && c1.lastSeen == Some(db.tickets[k].createdAt))
  }

  lemma TicketIsSeen(env: Env, db: Db, c: Contact, t: Ticket)
    ensures var c1 := FilledFromTicket(env, db, c, t);
      c1.firstSeen == Earlier(c.firstSeen, t.createdAt) && c1.lastSeen == Later(c.lastSeen, t.createdAt)
  {}

  lemma {:induction false} TicketsAreSeen(env: Env, db: Db, tids: seq<Id>, id: Id, c: Contact)
    ensures TicketsSpan(db, tids, id, c, FilledFromTickets(env, db, tids, id, c))
  {
    if tids != [] {
      var tid := tids[0];
      var c1 := if IsOnTicket(db, tid, id) then FilledFromTicket(env, db, c, db.tickets[tid]) else c;
      if IsOnTicket(db, tid, id) {
        TicketIsSeen(env, db, c, db.tickets[tid]);
      }
      TicketsAreSeen(env, db, tids[1..], id, c1);
      assert TicketsSpan(db, tids[1..], id, c1, FilledFromTickets(env, db, tids, id, c));
      assert forall k :: k in tids <==> k == tid || k in tids[1..];
    }
  }

  lemma SpanIs(db: Db, sids: seq<Id>, tids: seq<Id>, id: Id, c: Contact, c1: Contact, c2: Contact)
    requires c.firstSeen.None? && c.lastSeen.None?
    requires SessionsSpan(db, sids, id, c, c1) && TicketsSpan(db, tids, id, c1, c2)
    ensures IsSpan(db, sids, tids, id, c2.firstSeen, c2.lastSeen)
  {}

  /** What is filled in of a contact: first by its sessions, then by its tickets. */
  ghost predicate IsFilled(env: Env, db: Db, r: Reading, id: Id, c: Contact, c1: Contact) {
    && OnlyFilled(c, c1)
    && (c.firstSeen.None? && c.lastSeen.None? ==> IsSpan(db, r.sessions, r.tickets, id, c1.firstSeen, c1.lastSeen))
    && c1.declared == (if c.externalId != "" && c.declared == "" then FirstDeclared(env, db, r.tickets, id) else c.declared)
    && c1.profile.name == (if c.profile.name != "" then c.profile.name
                           else if FirstSessionName(db, r.sessions, id) != "" then FirstSessionName(db, r.sessions, id)
                           else FirstTicketName(env, db, r.tickets, id, c.email))
  }

  lemma FillingFills(env: Env, db: Db, r: Reading, id: Id)
    requires id in db.contacts
    ensures IsFilled(env, db, r, id, db.contacts[id], Filled(env, db, r, id))
  {
    var c := db.contacts[id];
    var c1 := FilledFromSessions(db, r.sessions, id, c);
    SessionsFill(db, r.sessions, id, c);
    TicketsFill(env, db, r.tickets, id, c1);
    SessionsAreSeen(db, r.sessions, id, c);
    TicketsAreSeen(env, db, r.tickets, id, c1);
    if c.firstSeen.None? && c.lastSeen.None? {
      SpanIs(db, r.sessions, r.tickets, id, c, c1, Filled(env, db, r, id));
    }
  }

  // The rows are the same before and after the values are filled in

  predicate SameRows(a: Db, b: Db) {
    a.sessions == b.sessions && a.tickets == b.tickets && a.users == b.users
  }

  lemma {:induction false} SameFirstSessionName(a: Db, b: Db, sids: seq<Id>, id: Id)
    requires SameRows(a, b)
    ensures FirstSessionName(a, sids, id) == FirstSessionName(b, sids, id)
  {
    if sids != [] {
      SameFirstSessionName(a, b, sids[1..], id);
    }
  }

  lemma SameWordsOn(env: Env, a: Db, b: Db, t: Ticket, email: string)
    requires SameRows(a, b)
    ensures NameOn(env, a, t, email) == NameOn(env, b, t, email) && MaySpeak(env, a, t) == MaySpeak(env, b, t)
  {
    assert IsVouched(a, t.org, t.externalId) == IsVouched(b, t.org, t.externalId);
  }

  lemma {:induction false} SameFirstOnTickets(env: Env, a: Db, b: Db, tids: seq<Id>, id: Id, email: string)
    requires SameRows(a, b)
    ensures FirstTicketName(env, a, tids, id, email) == FirstTicketName(env, b, tids, id, email)
    ensures FirstDeclared(env, a, tids, id) == FirstDeclared(env, b, tids, id)
  {
    if tids != [] {
      if tids[0] in a.tickets {
        SameWordsOn(env, a, b, a.tickets[tids[0]], email);
      }
      SameFirstOnTickets(env, a, b, tids[1..], id, email);
    }
  }

  lemma SameFilled(env: Env, a: Db, b: Db, r: Reading, id: Id, c: Contact, c1: Contact)
    requires SameRows(a, b) && IsFilled(env, a, r, id, c, c1)
    ensures IsFilled(env, b, r, id, c, c1)
  {
    SameFirstSessionName(a, b, r.sessions, id);
    SameFirstOnTickets(env, a, b, r.tickets, id, c.email);
    assert IsSpan(a, r.sessions, r.tickets, id, c1.firstSeen, c1.lastSeen)
      ==> IsSpan(b, r.sessions, r.tickets, id, c1.firstSeen, c1.lastSeen);
  }

  // The contact created

  /** The session that the external id is looked up for. */
  predicate IsUnlinkedUser(db: Db, org: Id, externalId: string, sid: Id) {
    && sid in db.sessions && db.sessions[sid].contact.None?
    && db.sessions[sid].org == org && db.sessions[sid].externalId == externalId
  }

  /** A contact of an address, or of an external id, which declares its session's address. */
  ghost predicate IsBlank(env: Env, db: Db, c: Contact, now: Time) {
    && c == Contact(c.org, None, c.email, None, c.declared, c.externalId, Profile("", "", "", "", "", ""), None, None,
                    None, false, false, Dict(map[]), now)
    && (c.externalId == "" <==> c.email != "")
    && (c.externalId == "" ==> c.declared == "")
    && (c.externalId != "" && c.declared != "" ==>
          exists sid :: sid in db.sessions && db.sessions[sid].org == c.org && db.sessions[sid].externalId == c.externalId
            && c.declared == Address(env, db.sessions[sid].email))
    && (forall sid :: SessionsUnique(db.sessions) && IsUnlinkedUser(db, c.org, c.externalId, sid) && c.externalId != "" ==>
          c.declared == Address(env, db.sessions[sid].email))
  }

  lemma NewRowIs(contacts: Contacts, r: Reading, keys: set<Key>, declares: Key -> string, now: Time, id: Id)
    requires Fresh(r, contacts) && id in WithNew(contacts, r, keys, declares, now) && id !in contacts
    ensures WithNew(contacts, r, keys, declares, now)[id] == BlankContact(r.keyOf(id), declares(r.keyOf(id)), now)
    ensures r.keyOf(id) in Missing(contacts, keys)
  {}

  lemma BlankIs(env: Env, db: Db, key: Key, declared: string, now: Time)
    requires Proper(key)
    requires key.ByExternal? && declared != "" ==>
      exists sid :: IsSessionOf(db, key, sid) && declared == CleanAddress(env, db.sessions[sid].email)
    requires forall sid :: SessionsUnique(db.sessions) && key.ByExternal? && IsUnlinkedUser(db, key.org, key.value, sid) ==>
      declared == CleanAddress(env, db.sessions[sid].email)
    ensures IsBlank(env, db, BlankContact(key, declared, now), now)
  {
    forall sid | sid in db.sessions ensures CleanAddress(env, db.sessions[sid].email) == Address(env, db.sessions[sid].email) {
      SameAddress(env, db.sessions[sid].email);
    }
    if key.ByExternal? && declared != "" {
      var sid :| IsSessionOf(db, key, sid) && declared == CleanAddress(env, db.sessions[sid].email);
    }
  }

  lemma SessionsBlank(env: Env, db: Db, r: Reading, now: Time, id: Id)
    requires Ready(db, r) && id !in db.contacts
    requires id in SessionsLinked(env, db, r, db.sessions.Keys, now).contacts
    ensures IsBlank(env, db, SessionsLinked(env, db, r, db.sessions.Keys, now).contacts[id], now)
  {
    var keys, key := SessionKeys(env, db, r, db.sessions.Keys), r.keyOf(id);
    NewRowIs(db.contacts, r, keys, SessionDeclares(env, db), now, id);
    SessionKeysAreProper(env, db, r, db.sessions.Keys);
    var declared := SessionDeclares(env, db)(key);
    forall sid | SessionsUnique(db.sessions) && key.ByExternal? && IsUnlinkedUser(db, key.org, key.value, sid)
      ensures declared == CleanAddress(env, db.sessions[sid].email)
    {
      SessionDeclaresItsOwn(env, db, key, sid);
    }
    BlankIs(env, db, key, declared, now);
  }

  /** An external id vouched for by a session without a contact has one by then. */
  lemma HeldByThen(env: Env, db: Db, r: Reading, now: Time, org: Id, externalId: string, sid: Id)
    requires Ready(db, r) && IsUnlinkedUser(db, org, externalId, sid) && UsableId(externalId)
    ensures Holder(SessionsLinked(env, db, r, db.sessions.Keys, now).contacts, ByExternal(org, externalId)).Some?
  {
    var key, keys := ByExternal(org, externalId), SessionKeys(env, db, r, db.sessions.Keys);
    assert SessionKey(env, db, r, sid) == Some(key) && key in keys;
    SessionsAddContacts(env, db, r, db.sessions.Keys, now);
    LinkIsHolder(db.contacts, r, keys, SessionsLinked(env, db, r, db.sessions.Keys, now).contacts, key);
  }

  lemma UsableTicketKeys(env: Env, db: Db, tids: set<Id>)
    ensures forall key :: key in TicketKeys(env, db, tids) && key.ByExternal? ==> UsableId(key.value)
  {}

  lemma TicketsBlank(env: Env, db: Db, r: Reading, now: Time, a: Db, b: Db, linked: Db, end: Db, id: Id)
    requires Ready(db, r) && IsRun(env, db, r, now, a, b, linked, end) && id in linked.contacts && id !in a.contacts
    ensures IsBlank(env, db, linked.contacts[id], now)
  {
    var keys, key := TicketKeys(env, b, b.tickets.Keys), r.keyOf(id);
    RunStages(env, db, r, now, a, b, linked, end);
    NewRowIs(b.contacts, r, keys, (_: Key) => "", now, id);
    TicketKeysAreProper(env, b, b.tickets.Keys);
    UsableTicketKeys(env, b, b.tickets.Keys);
    forall sid | key.ByExternal? && IsUnlinkedUser(db, key.org, key.value, sid) ensures false {
      HeldByThen(env, db, r, now, key.org, key.value, sid);
    }
    BlankIs(env, db, key, "", now);
  }

  /** A contact it creates is a blank one of an address or of an external id, filled from its sessions and tickets. */
  lemma NewContactIs(env: Env, db: Db, r: Reading, now: Time, id: Id)
    requires Ready(db, r) && id in Backfilled(env, db, r, now).contacts && id !in db.contacts
    ensures var end := Backfilled(env, db, r, now);
      exists c :: IsBlank(env, db, c, now) && IsFilled(env, end, r, id, c, end.contacts[id])
  {
    var a := SessionsLinked(env, db, r, db.sessions.Keys, now);
    var b := TicketsFollowed(a);
    var linked := TicketsLinked(env, b, r, b.tickets.Keys, now);
    var end := ContactsFilled(env, linked, r, linked.contacts.Keys - db.contacts.Keys);
    RunStages(env, db, r, now, a, b, linked, end);
    var c := linked.contacts[id];
    if id in a.contacts {
      SessionsBlank(env, db, r, now, id);
      assert c == a.contacts[id];
    } else {
      TicketsBlank(env, db, r, now, a, b, linked, end, id);
    }
    FillingFills(env, linked, r, id);
    SameFilled(env, linked, end, r, id, c, end.contacts[id]);
  }
}
