/**
 The widget's requests as they write the rows, field by field and ticket by ticket
 (backend/apps/tickets/views.py:189-248 and 453-618, backend/apps/tickets/messages.py,
 backend/apps/contacts/services.py:203-230 and 648-707).
 */
module WidgetRequests {
  import opened Text
  import opened Rows
  import opened Resolution
  import opened Desk
  import opened LoginMove
  import opened Machine
  import opened WidgetInit
  import opened InitLaws

  // A session resumed

  /** `_drop_proof_of_another_email`, on the row as it is: a proof of the email landed meanwhile stays. */
  method DropProofOfAnotherEmail(db: Tables, sid: Id, s: Session, now: Time) returns (s1: Session)
    requires sid in db.sessions
    modifies db`sessions
    ensures s1 == s || s1 == s.(verifiedAt := None, verifiedFor := "", proofSource := NoProof)
    ensures db.sessions == old(db.sessions)
         || db.sessions == old(db.sessions)[sid := WithoutStaleProof(old(db.sessions[sid]), s.email, now)]
    ensures SameProof(s, old(db.sessions[sid])) ==>
      && db.sessions == old(db.sessions)[sid := WithoutStaleProof(old(db.sessions[sid]), s.email, now)]
      && SameProof(s1, db.sessions[sid])
  {
    var email := Normalized(s.email);
    var hasSome := s.verifiedAt.Some? || s.verifiedFor != "";
    s1 := s;
    if !hasSome || (s.verifiedAt.Some? && s.verifiedFor == email) {
      assert db.sessions[sid := db.sessions[sid]] == db.sessions;
      return;
    }
    var row := db.sessions[sid];
    if !(row.verifiedFor == email && row.verifiedAt.Some?) && !(row.verifiedFor == "" && row.verifiedAt.None?) {
      db.sessions := db.sessions[sid := row.(verifiedAt := None, verifiedFor := "", proofSource := NoProof, updatedAt := now)];
      s1 := s.(verifiedAt := None, verifiedFor := "", proofSource := NoProof);
    } else {
      assert db.sessions[sid := db.sessions[sid]] == db.sessions;
    }
  }

  predicate SameProof(s: Session, row: Session) {
    s.email == row.email && s.verifiedAt == row.verifiedAt && s.verifiedFor == row.verifiedFor
  }

  /** `_record_session_resume`, of a session as its row is. */
  method RecordSessionResume(db: Tables, host: Host, sid: Id, r: Request, now: Time)
    requires sid in db.sessions
    modifies db`sessions
    ensures db.sessions == old(db.sessions)[sid := Resumed(host, old(db.sessions[sid]), r, now)]
  {
    var s := db.sessions[sid];
    if r.name != "" && s.name == "" {
      s := s.(name := r.name);
    }
    if && r.email != "" && Lower(r.email) != Normalized(s.email)
       && (s.email == "" || s.externalId != "" || SignsAddress(host, r.org, r.email, r.claim.emailHash)) {
      s := s.(email := r.email);
    }
    s := s.(lastSeenAt := now, updatedAt := now);
    ghost var before := db.sessions;
    db.sessions := db.sessions[sid := s];
    var s1 := DropProofOfAnotherEmail(db, sid, s, now);
    assert db.sessions == before[sid := db.sessions[sid]];
  }

  // A login

  /** `_move_conversation_to_identified_session`: each ticket in place, then the messages, then the session left blank. */
  method MoveConversation(db: Tables, l: Login, now: Time) returns (left: set<Id>)
    requires l.anonymous in db.sessions
    modifies db`sessions, db`tickets, db`messages
    ensures db.Contents() == Moved(old(db.Contents()), l, now)
    ensures left == LeftContacts(old(db.Contents()), l)
  {
    ghost var before := db.Contents();
    var found := set k | k in db.tickets && IsLeft(l, db.tickets[k]);
    var moved, contacts := MoveTickets(db.tickets, found, l);
    var own := db.sessions[l.anonymous].contact;
    left := contacts + (if own.Some? then {own.value} else {}) - (if l.contact.Some? then {l.contact.value} else {});
    LeftAre(before, l, found, contacts);
    MovedAre(before, l, now, found, moved);
    db.tickets := db.tickets + moved;
    db.messages := Repointed(db.messages, db.tickets, l);
    db.sessions := db.sessions[l.anonymous := LeftSession(db.sessions[l.anonymous], now)];
  }

  /** The anonymous session's messages on tickets of the organization, on the identified session. */
  function Repointed(messages: map<Id, Message>, tickets: map<Id, Ticket>, l: Login): map<Id, Message> {
    map k | k in messages ::
      if messages[k].session == Some(l.anonymous) && messages[k].ticket in tickets && tickets[messages[k].ticket].org == l.org
      then messages[k].(session := Some(l.identified)) else messages[k]
  }

  /** The tickets, one by one, and the contacts they were on. */
  method MoveTickets(tickets: map<Id, Ticket>, found: set<Id>, l: Login)
    returns (moved: map<Id, Ticket>, contacts: set<Id>)
    requires found <= tickets.Keys
    ensures moved.Keys == found && (forall k :: k in found ==> moved[k] == MovedTicket(l, tickets[k]))
    ensures contacts == set k | k in found && tickets[k].contact.Some? :: tickets[k].contact.value
  {
    moved, contacts := map[], {};
    var todo := found;
    while todo != {}
      invariant todo <= found && moved.Keys == found - todo
      invariant forall k :: k in moved ==> moved[k] == MovedTicket(l, tickets[k])
      invariant contacts == set k | k in found - todo && tickets[k].contact.Some? :: tickets[k].contact.value
      decreases todo
    {
      var k :| k in todo;
      var t := tickets[k];
      if t.contact.Some? {
        contacts := contacts + {t.contact.value};
      }
      t := t.(session := Some(l.identified), externalId := l.externalId);
      if l.contact.Some? {
        t := t.(contact := l.contact);
      }
      var metadata := Entries(t.metadata)[PRE_LOGIN_ANONYMOUS := JTrue][PRE_LOGIN_SESSION_HASH := JString(l.digest)];
      moved := moved[k := t.(metadata := Dict(metadata))];
      todo := todo - {k};
      assert found - todo == (found - (todo + {k})) + {k};
    }
    assert found - todo == found;
  }

  lemma MovedTicketsAre(db: Db, l: Login, now: Time, found: set<Id>, moved: map<Id, Ticket>)
    requires l.anonymous in db.sessions && found == set k | k in db.tickets && IsLeft(l, db.tickets[k])
    requires moved.Keys == found && (forall k :: k in found ==> moved[k] == MovedTicket(l, db.tickets[k]))
    ensures db.tickets + moved == Moved(db, l, now).tickets
  {}

  lemma MovedMessagesAre(db: Db, l: Login, now: Time)
    requires l.anonymous in db.sessions
    ensures Repointed(db.messages, Moved(db, l, now).tickets, l) == Moved(db, l, now).messages
  {}

  lemma MovedAre(db: Db, l: Login, now: Time, found: set<Id>, moved: map<Id, Ticket>)
    requires l.anonymous in db.sessions && found == set k | k in db.tickets && IsLeft(l, db.tickets[k])
    requires moved.Keys == found && (forall k :: k in found ==> moved[k] == MovedTicket(l, db.tickets[k]))
    ensures Moved(db, l, now) == db.(
      tickets := db.tickets + moved,
      messages := Repointed(db.messages, db.tickets + moved, l),
      sessions := db.sessions[l.anonymous := LeftSession(db.sessions[l.anonymous], now)])
  {
    MovedTicketsAre(db, l, now, found, moved);
    MovedMessagesAre(db, l, now);
  }

  lemma LeftAre(db: Db, l: Login, found: set<Id>, contacts: set<Id>)
    requires l.anonymous in db.sessions && found == set k | k in db.tickets && IsLeft(l, db.tickets[k])
    requires contacts == set k | k in found && db.tickets[k].contact.Some? :: db.tickets[k].contact.value
    ensures LeftContacts(db, l) ==
      contacts + (if db.sessions[l.anonymous].contact.Some? then {db.sessions[l.anonymous].contact.value} else {})
      - (if l.contact.Some? then {l.contact.value} else {})
  {}

  // The contacts a login empties

  lemma DeletingEmpty(db: Db, id: Id)
    requires LeftEmpty(db, id)
    ensures Deleted(db, id) == db.(contacts := db.contacts - {id})
    ensures forall o :: o != id ==> (LeftEmpty(Deleted(db, id), o) <==> LeftEmpty(db, o))
  {}

  /** `delete_contact_if_left_empty`. */
  method DeleteIfLeftEmpty(db: Tables, id: Id) returns (deleted: bool)
    modifies db`contacts
    ensures deleted == LeftEmpty(old(db.Contents()), id)
    ensures db.Contents() == if deleted then Deleted(old(db.Contents()), id) else old(db.Contents())
  {
    ghost var before := db.Contents();
    deleted := false;
    if id in db.contacts {
      var c := db.contacts[id];
      if && c.externalId == "" && !c.anonymized && !c.unsubscribed
         && c.profile == BLANK_PROFILE.(name := c.profile.name) && c.attributes == Dict(map[])
         && (forall k :: k in db.tickets ==> db.tickets[k].contact != Some(id))
         && (forall k :: k in db.sessions ==> db.sessions[k].contact != Some(id))
         && (forall k :: k in db.notes ==> db.notes[k].contact != id) {
        DeletingEmpty(before, id);
        db.contacts := db.contacts - {id};
        deleted := true;
      }
    }
  }

  function EmptyAmong(db: Db, ids: set<Id>): set<Id> {
    set id | id in ids && LeftEmpty(db, id)
  }

  /** The empty ones among them, gone. */
  function WithoutEmpty(db: Db, ids: set<Id>): Db {
    db.(contacts := db.contacts - EmptyAmong(db, ids))
  }

  lemma EmptyOneMore(db: Db, done: set<Id>, id: Id)
    ensures EmptyAmong(db, done + {id}) == EmptyAmong(db, done) + if LeftEmpty(db, id) then {id} else {}
  {}

  lemma OthersStayEmpty(db: Db, gone: set<Id>, id: Id)
    requires id !in gone
    ensures LeftEmpty(db.(contacts := db.contacts - gone), id) <==> LeftEmpty(db, id)
  {}

  lemma MinusTwice(contacts: Contacts, a: set<Id>, b: set<Id>)
    ensures contacts - (a + b) == contacts - a - b
  {}

  lemma OneMoreEmpty(db: Db, done: set<Id>, id: Id)
    requires id !in done
    ensures var db1 := WithoutEmpty(db, done);
      && (LeftEmpty(db1, id) <==> LeftEmpty(db, id))
      && WithoutEmpty(db, done + {id}) == if LeftEmpty(db1, id) then db1.(contacts := db1.contacts - {id}) else db1
  {
    EmptyOneMore(db, done, id);
    OthersStayEmpty(db, EmptyAmong(db, done), id);
    MinusTwice(db.contacts, EmptyAmong(db, done), {id});
  }

  /** `_delete_contacts_left_empty`, in any order. */
  method DeleteContactsLeftEmpty(db: Tables, ids: set<Id>)
    modifies db`contacts
    ensures db.Contents() == WithoutEmpty(old(db.Contents()), ids)
  {
    ghost var before := db.Contents();
    var todo, done: set<Id> := ids, {};
    assert WithoutEmpty(before, {}) == before by {
      assert EmptyAmong(before, {}) == {};
    }
    while todo != {}
      invariant done !! todo && done + todo == ids
      invariant db.Contents() == WithoutEmpty(before, done)
      decreases todo
    {
      var id :| id in todo;
      OneMoreEmpty(before, done, id);
      var deleted := DeleteIfLeftEmpty(db, id);
      if deleted {
        DeletingEmpty(WithoutEmpty(before, done), id);
      }
      todo, done := todo - {id}, done + {id};
    }
    assert done == ids;
  }

  // An init

  method FindUsersSession(db: Tables, org: Id, externalId: string) returns (found: Option<Id>)
    ensures found.None? <==> UsersSession(db.Contents(), org, externalId).None?
    ensures found.Some? ==> IsUsers(db.Contents(), org, externalId, found.value)
  {
    found := None;
    ghost var view := db.Contents();
    if sid :| sid in db.sessions && db.sessions[sid].org == org && db.sessions[sid].externalId == externalId {
      assert IsUsers(view, org, externalId, sid);
      found := Some(sid);
    } else {
      assert forall sid :: !IsUsers(view, org, externalId, sid);
    }
  }

  /** A user has one session of an organization. */
  ghost predicate OneSessionEach(db: Db) {
    forall org, externalId, a, b ::
      externalId != "" && IsUsers(db, org, externalId, a) && IsUsers(db, org, externalId, b) ==> a == b
  }

  /** `get_or_create` on the user's session, resumed if it's there. */
  method GetOrCreateUserSession(db: Tables, host: Host, r: Request, now: Time, newSid: Id) returns (sid: Id)
    requires SignsUser(host, r) && OneSessionEach(db.Contents())
    modifies db`sessions
    ensures (db.Contents(), sid) == UserSession(host, old(db.Contents()), r, now, newSid)
  {
    var found := FindUsersSession(db, r.org, r.externalId);
    if found.Some? {
      sid := found.value;
      RecordSessionResume(db, host, sid, r, now);
    } else {
      sid := newSid;
      db.sessions := db.sessions[sid := NewSession(r.org, r.externalId, r.name, r.email, r.userAgent, now)];
    }
  }

  /** `_link_session_contact`, of a session as its row is. */
  method LinkSessionAsIs(db: Tables, env: Env, host: Host, sid: Id, r: Request, now: Time, ids: NewIds)
    requires sid in db.sessions && db.Valid() && ids.contact !in db.contacts && ids.company !in db.companies
    modifies db`contacts, db`sessions, db`tickets, db`notes, db`companies
    ensures db.Contents() == LinkedDb(env, host, old(db.Contents()), sid, r, now, ids) && db.Valid()
  {
    var s := db.sessions[sid];
    var signed := SignsEmail(host, s, r.claim.emailHash);
    var p := Payload(signed, Signed, r.claim.traits, r.claim.company, r.claim.companySigned);
    var contact, s1 := db.LinkSessionContact(env, sid, s, p, now, ids);
  }

  predicate HasSession(r: Request, sessions: map<Id, Session>) {
    r.stored.Some? && r.stored.value in sessions && sessions[r.stored.value].org == r.org
  }

  /** An anonymous session that goes on. */
  method GoOn(db: Tables, env: Env, host: Host, sid: Id, r: Request, now: Time, ids: NewIds)
    requires sid in db.sessions && db.Valid() && ids.contact !in db.contacts && ids.company !in db.companies
    modifies db`contacts, db`sessions, db`tickets, db`notes, db`companies
    ensures db.Contents() == LinkedDb(env, host,
      WithSession(old(db.Contents()), sid, Resumed(host, old(db.sessions[sid]), r, now)), sid, r, now, ids)
  {
    RecordSessionResume(db, host, sid, r, now);
    LinkSessionAsIs(db, env, host, sid, r, now, ids);
  }

  /** The session of the user that signed. */
  method OpenUserSession(db: Tables, env: Env, host: Host, r: Request, now: Time, keys: Keys) returns (sid: Id)
    requires SignsUser(host, r) && OneSessionEach(db.Contents())
    requires db.Valid() && keys.ids.contact !in db.contacts && keys.ids.company !in db.companies
    modifies db`contacts, db`sessions, db`tickets, db`notes, db`companies
    ensures var (db1, user) := UserSession(host, old(db.Contents()), r, now, keys.session);
      sid == user && sid in db1.sessions && db.Contents() == LinkedDb(env, host, db1, sid, r, now, keys.ids)
  {
    UserSessionIs(host, db.Contents(), r, now, keys.session);
    sid := GetOrCreateUserSession(db, host, r, now, keys.session);
    LinkSessionAsIs(db, env, host, sid, r, now, keys.ids);
  }

  /** A login: the user's session, and the conversations of the stored one moved there. */
  method LogIn(db: Tables, env: Env, host: Host, stored: Id, r: Request, digest: string, now: Time, keys: Keys)
    returns (response: Response, left: set<Id>)
    requires SignsUser(host, r) && Stored(db.Contents(), r) == Some(stored) && IsAnonymous(db.Contents(), Some(stored))
    requires OneSessionEach(db.Contents()) && keys.session !in db.sessions
    requires db.Valid() && keys.ids.contact !in db.contacts && keys.ids.company !in db.companies
    modifies db`contacts, db`sessions, db`tickets, db`messages, db`notes, db`companies
    ensures (db.Contents(), response) == Initialized(env, host, old(db.Contents()), r, digest, now, keys)
    ensures left == InitLeaves(env, host, old(db.Contents()), r, digest, now, keys)
  {
    ghost var before := db.Contents();
    var sid := OpenUserSession(db, env, host, r, now, keys);
    ghost var db1 := UserSession(host, before, r, now, keys.session).0;
    UserSessionIs(host, before, r, now, keys.session);
    LinkingKeepsUsers(env, host, db1, sid, r, now, keys.ids);
    assert stored in db1.sessions && stored in db.sessions && sid in db.sessions;
    var s := db.sessions[sid];
    left := MoveConversation(db, Login(s.org, stored, digest, sid, s.externalId, s.contact), now);
    response := Opened(sid);
  }

  /** `_create_or_resume_session`, and the contacts it may leave empty. */
  method OpenSession(db: Tables, env: Env, host: Host, r: Request, digest: string, now: Time, keys: Keys)
    returns (response: Response, left: set<Id>)
    requires OneSessionEach(db.Contents()) && keys.session !in db.sessions
    requires db.Valid() && keys.ids.contact !in db.contacts && keys.ids.company !in db.companies
    modifies db`contacts, db`sessions, db`tickets, db`messages, db`notes, db`companies
    ensures (db.Contents(), response) == Initialized(env, host, old(db.Contents()), r, digest, now, keys)
    ensures left == InitLeaves(env, host, old(db.Contents()), r, digest, now, keys)
  {
    left := {};
    var isLogin := false;
    if HasSession(r, db.sessions) && db.sessions[r.stored.value].externalId == "" {
      var stored := r.stored.value;
      isLogin := SignsUser(host, r);
      if !isLogin && !LosesProof(host, db.sessions[stored], r) {
        GoOn(db, env, host, stored, r, now, keys.ids);
        return Opened(stored), left;
      }
    }
    if r.externalId != "" && r.userHash != "" {
      if !SignsUser(host, r) {
        return Refused, left;
      }
      if isLogin {
        response, left := LogIn(db, env, host, r.stored.value, r, digest, now, keys);
        return;
      }
      ghost var before := db.Contents();
      var sid := OpenUserSession(db, env, host, r, now, keys);
      return Opened(sid), left;
    }
    db.sessions := db.sessions[keys.session := NewSession(r.org, "", r.name, r.email, r.userAgent, now)];
    LinkSessionAsIs(db, env, host, keys.session, r, now, keys.ids);
    return Opened(keys.session), left;
  }

  /** The login done, an emptied contact is deleted, and one that isn't empty stays. */
  method CreateOrResumeSession(db: Tables, env: Env, host: Host, r: Request, digest: string, now: Time, keys: Keys)
    returns (response: Response)
    requires OneSessionEach(db.Contents()) && keys.session !in db.sessions
    requires db.Valid() && keys.ids.contact !in db.contacts && keys.ids.company !in db.companies
    modifies db`contacts, db`sessions, db`tickets, db`messages, db`notes, db`companies
    ensures var (after, answer) := Initialized(env, host, old(db.Contents()), r, digest, now, keys);
      && response == answer
      && db.Contents() == WithoutEmpty(after, InitLeaves(env, host, old(db.Contents()), r, digest, now, keys))
  {
    var left;
    response, left := OpenSession(db, env, host, r, digest, now, keys);
    DeleteContactsLeftEmpty(db, left);
  }
}
