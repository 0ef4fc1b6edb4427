/** What an init can and cannot open, or touch. */
module InitLaws {
  import opened Text
  import opened Rows
  import opened Resolution
  import opened Uniqueness
  import opened Reach
  import opened LoginMove
  import opened Machine
  import opened WidgetInit

  // A pass makes nobody another user

  predicate SameUser(a: Session, b: Session) {
    b.org == a.org && b.externalId == a.externalId
  }

  ghost predicate UsersKept(before: map<Id, Session>, after: map<Id, Session>) {
    after.Keys == before.Keys && forall k :: k in before ==> SameUser(before[k], after[k])
  }

  lemma AbsorbingKeepsUsers(db: Db, id: Id, other: Id)
    ensures UsersKept(db.sessions, AbsorbedInto(db, id, other).sessions)
  {}

  lemma RecordingKeepsUsers(db: Db, id: Id, c: Contact, email: string, verified: bool)
    ensures UsersKept(db.sessions, RecordedEmail(db, id, c, email, verified).0.sessions)
  {
    var other := EmailOnlyHolder(db.contacts, c.org, email);
    if verified && c.email == "" && other.Some? {
      AbsorbingKeepsUsers(db, id, other.value);
    } else {
      assert RecordedEmail(db, id, c, email, verified).0 == db;
    }
  }

  lemma SettlingKeepsUsers(env: Env, db: Db, f: Lookup, k: Claims, p: Payload, now: Time, newId: Id)
    requires f.Found?
    ensures UsersKept(db.sessions, Settle(env, db, f, k, p, now, newId).db.sessions)
    ensures !k.identified ==> Settle(env, db, f, k, p, now, newId).db.sessions == db.sessions
  {
    RecordingKeepsUsers(db.(contacts := f.contacts), f.id, f.draft, k.email, p.verified);
  }

  /** Only the session itself, where the pass is of an anonymous one. */
  ghost predicate OthersKept(sid: Id, before: map<Id, Session>, after: map<Id, Session>) {
    forall k :: k in before && k != sid ==> k in after && after[k] == before[k]
  }

  lemma FoundKeepsUsers(
    env: Env, db: Db, sid: Id, s: Session, k: Claims, p: Payload, now: Time, ids: NewIds, f: Lookup)
    requires f == LookedUp(db.contacts, k, p, now, ids.contact) && f.Found? && !f.draft.anonymized
    ensures var after := Resolve(env, db, sid, s, k, p, now, ids).db.sessions;
      UsersKept(db.sessions, after) && (!k.identified ==> OthersKept(sid, db.sessions, after))
  {
    SettlingKeepsUsers(env, db, f, k, p, now, ids.company);
    var settled := Settle(env, db, f, k, p, now, ids.company);
    SavingKeepsUsers(settled.db, sid, s, f.id, settled.proven, k.email, p.source, now);
  }

  lemma SavingKeepsUsers(
    db: Db, sid: Id, s: Session, id: Id, proven: bool, email: string, source: ProofSource, now: Time)
    ensures var after := SessionSaved(db, sid, s, id, proven, email, source, now).0.sessions;
      UsersKept(db.sessions, after) && OthersKept(sid, db.sessions, after)
  {
    if sid in db.sessions {
      RowKeepsUsers(db.sessions, sid, SavedRow(db.sessions[sid], s, id, proven, email, source, now));
    }
  }

  lemma RowKeepsUsers(sessions: map<Id, Session>, sid: Id, row: Session)
    requires sid in sessions && SameUser(sessions[sid], row)
    ensures UsersKept(sessions, sessions[sid := row]) && OthersKept(sid, sessions, sessions[sid := row])
  {}

  lemma UnlinkingKeepsUsers(db: Db, sid: Id, s: Session, contact: Option<Id>, now: Time)
    ensures var after := LinkedTo(db, sid, s, contact, now).sessions;
      UsersKept(db.sessions, after) && OthersKept(sid, db.sessions, after)
  {
    if s.contact == contact || sid !in db.sessions {
      assert LinkedTo(db, sid, s, contact, now) == db;
    } else {
      RowKeepsUsers(db.sessions, sid, db.sessions[sid].(contact := contact, updatedAt := now));
    }
  }

  lemma PassKeepsUsers(env: Env, db: Db, sid: Id, s: Session, k: Claims, p: Payload, now: Time, ids: NewIds)
    ensures var after := Resolve(env, db, sid, s, k, p, now, ids).db.sessions;
      UsersKept(db.sessions, after) && (!k.identified ==> OthersKept(sid, db.sessions, after))
  {
    var f := LookedUp(db.contacts, k, p, now, ids.contact);
    if f.Nobody? || f.draft.anonymized {
      NobodyUnlinks(env, db, sid, s, k, p, now, ids, f);
      UnlinkingKeepsUsers(db, sid, s, None, now);
    } else {
      FoundKeepsUsers(env, db, sid, s, k, p, now, ids, f);
    }
  }

  lemma LinkingKeepsUsers(env: Env, host: Host, db: Db, sid: Id, r: Request, now: Time, ids: NewIds)
    requires sid in db.sessions
    ensures var after := LinkedDb(env, host, db, sid, r, now, ids).sessions;
      && UsersKept(db.sessions, after)
      && (db.sessions[sid].externalId == "" ==> OthersKept(sid, db.sessions, after))
  {
    var s := db.sessions[sid];
    var p := LinkPayload(host, s, r.claim.(code := false));
    PassKeepsUsers(env, db, sid, s, ClaimsOf(env, s), p, now, ids);
    TicketsOnly(ResolveOnce(env, db, sid, s, p, now, ids), sid, s);
  }

  // What a browser gets

  /** Resuming makes nobody another user, and keeps no proof of an email the session doesn't have. */
  lemma ResumingKeepsUser(host: Host, s: Session, r: Request, now: Time)
    ensures var s1 := Resumed(host, s, r, now);
      && SameUser(s, s1) && s1.contact == s.contact
      && (s1.verifiedAt.Some? ==>
            && s1.verifiedAt == s.verifiedAt && s1.verifiedFor == s.verifiedFor
            && s1.verifiedFor == Normalized(s1.email))
      && (s1.name != s.name ==> s.name == "") && (s1.email != s.email ==> TakesEmail(host, s, r))
  {}

  lemma GoingOnOpens(env: Env, host: Host, db: Db, r: Request, digest: string, now: Time, keys: Keys)
    requires GoesOn(host, db, r)
    ensures var (after, response) := Initialized(env, host, db, r, digest, now, keys);
      && response == Opened(r.stored.value) && r.stored.value in after.sessions
      && after.sessions[r.stored.value].externalId == ""
      && OthersKept(r.stored.value, db.sessions, after.sessions)
  {
    var sid := r.stored.value;
    var row := Resumed(host, db.sessions[sid], r, now);
    ResumingKeepsUser(host, db.sessions[sid], r, now);
    RowKeepsUsers(db.sessions, sid, row);
    LinkingKeepsUsers(env, host, WithSession(db, sid, row), sid, r, now, keys.ids);
    var after := Initialized(env, host, db, r, digest, now, keys).0.sessions;
    forall k | k in db.sessions && k != sid ensures k in after && after[k] == db.sessions[k] {
      assert WithSession(db, sid, row).sessions[k] == db.sessions[k];
    }
  }

  lemma UserSessionIs(host: Host, db: Db, r: Request, now: Time, newSid: Id)
    ensures var (db1, sid) := UserSession(host, db, r, now, newSid);
      && sid in db1.sessions && db1.sessions[sid].org == r.org && db1.sessions[sid].externalId == r.externalId
      && (sid == newSid || IsUsers(db, r.org, r.externalId, sid))
      && OthersKept(sid, db.sessions, db1.sessions)
      && db1 == db.(sessions := db1.sessions)
  {
    match UsersSession(db, r.org, r.externalId)
    case Some(sid) => ResumingKeepsUser(host, db.sessions[sid], r, now);
    case None =>
  }

  /** The user's session, linked: it is there, and the user's. */
  lemma LinkedUserSession(env: Env, host: Host, db1: Db, sid: Id, r: Request, now: Time, ids: NewIds)
    requires sid in db1.sessions && db1.sessions[sid].org == r.org && db1.sessions[sid].externalId == r.externalId
    ensures var after := LinkedDb(env, host, db1, sid, r, now, ids).sessions;
      sid in after && after[sid].org == r.org && after[sid].externalId == r.externalId
  {
    LinkingKeepsUsers(env, host, db1, sid, r, now, ids);
    assert SameUser(db1.sessions[sid], LinkedDb(env, host, db1, sid, r, now, ids).sessions[sid]);
  }

  lemma MovingKeepsUsers(db: Db, l: Login, now: Time)
    ensures UsersKept(db.sessions, Moved(db, l, now).sessions)
  {}

  /** The session of the user that signed, and its external id. */
  lemma SigningOpens(env: Env, host: Host, db: Db, r: Request, digest: string, now: Time, keys: Keys)
    requires SignsUser(host, r)
    ensures var (after, response) := Initialized(env, host, db, r, digest, now, keys);
      && response.Opened? && response.session in after.sessions
      && after.sessions[response.session].org == r.org
      && after.sessions[response.session].externalId == r.externalId
      && (response.session == keys.session || IsUsers(db, r.org, r.externalId, response.session))
  {
    UserSessionIs(host, db, r, now, keys.session);
    var (db1, sid) := UserSession(host, db, r, now, keys.session);
    LinkedUserSession(env, host, db1, sid, r, now, keys.ids);
    var db2 := LinkedDb(env, host, db1, sid, r, now, keys.ids);
    var stored := Stored(db, r);
    if IsAnonymous(db, stored) {
      var login := LoginOf(db2, digest, stored.value, sid);
      MovingKeepsUsers(db2, login, now);
      assert SameUser(db2.sessions[sid], Moved(db2, login, now).sessions[sid]);
    }
  }

  /** With no valid hash of a user, and none to go on with: a new anonymous session, or none. */
  lemma OthersOpenAnew(env: Env, host: Host, db: Db, r: Request, digest: string, now: Time, keys: Keys)
    requires !SignsUser(host, r) && !GoesOn(host, db, r) && keys.session !in db.sessions
    ensures var (after, response) := Initialized(env, host, db, r, digest, now, keys);
      if r.externalId != "" && r.userHash != "" then response == Refused && after == db
      else
        && response == Opened(keys.session) && keys.session in after.sessions
        && after.sessions[keys.session].externalId == ""
        && OthersKept(keys.session, db.sessions, after.sessions)
  {
    if r.externalId == "" || r.userHash == "" {
      var row := NewSession(r.org, "", r.name, r.email, r.userAgent, now);
      var db1 := WithSession(db, keys.session, row);
      LinkingKeepsUsers(env, host, db1, keys.session, r, now, keys.ids);
      var after := Initialized(env, host, db, r, digest, now, keys).0.sessions;
      forall k | k in db.sessions && k != keys.session ensures k in after && after[k] == db.sessions[k] {
        assert db1.sessions[k] == db.sessions[k];
      }
    }
  }

  /** Only a valid hash of the user's id gives access to an identified session, that of the user. */
  lemma OnlyAHashOpensIdentified(env: Env, host: Host, db: Db, r: Request, digest: string, now: Time, keys: Keys)
    requires keys.session !in db.sessions
    ensures var (after, response) := Initialized(env, host, db, r, digest, now, keys);
      response.Opened? ==>
        && response.session in after.sessions
        && (after.sessions[response.session].externalId != "" <==> SignsUser(host, r))
        && (SignsUser(host, r) ==>
              && after.sessions[response.session].externalId == r.externalId
              && after.sessions[response.session].org == r.org)
  {
    if SignsUser(host, r) {
      SigningOpens(env, host, db, r, digest, now, keys);
    } else if GoesOn(host, db, r) {
      GoingOnOpens(env, host, db, r, digest, now, keys);
    } else {
      OthersOpenAnew(env, host, db, r, digest, now, keys);
    }
  }

  /** Without a valid hash of the user, no other session is touched: a logout leaves the stored one as it was. */
  lemma NoHashTouchesNoOther(env: Env, host: Host, db: Db, r: Request, digest: string, now: Time, keys: Keys, sid: Id)
    requires keys.session !in db.sessions && !SignsUser(host, r) && sid in db.sessions
    ensures var (after, response) := Initialized(env, host, db, r, digest, now, keys);
      response != Opened(sid) ==> sid in after.sessions && after.sessions[sid] == db.sessions[sid]
    ensures db.sessions[sid].externalId != "" ==> Initialized(env, host, db, r, digest, now, keys).1 != Opened(sid)
  {
    if GoesOn(host, db, r) {
      GoingOnOpens(env, host, db, r, digest, now, keys);
    } else {
      OthersOpenAnew(env, host, db, r, digest, now, keys);
    }
  }

  /** A session whose proof the init loses is left as it was, and another one answers. */
  lemma LostProofStartsAnew(env: Env, host: Host, db: Db, r: Request, digest: string, now: Time, keys: Keys)
    requires keys.session !in db.sessions && !SignsUser(host, r)
    requires IsAnonymous(db, Stored(db, r)) && LosesProof(host, db.sessions[r.stored.value], r)
    ensures var (after, response) := Initialized(env, host, db, r, digest, now, keys);
      && response != Opened(r.stored.value)
      && r.stored.value in after.sessions && after.sessions[r.stored.value] == db.sessions[r.stored.value]
  {
    OthersOpenAnew(env, host, db, r, digest, now, keys);
  }

  /** After a login, nothing of the organization's is left on the anonymous session. */
  lemma LoginLeavesNothing(env: Env, host: Host, db: Db, r: Request, digest: string, now: Time, keys: Keys)
    requires keys.session !in db.sessions && SignsUser(host, r) && IsAnonymous(db, Stored(db, r))
    ensures var (after, response) := Initialized(env, host, db, r, digest, now, keys);
      && response.Opened? && response.session != r.stored.value
      && (forall k :: k in after.tickets && after.tickets[k].org == r.org ==> after.tickets[k].session != r.stored)
      && r.stored.value in after.sessions && after.sessions[r.stored.value].contact.None?
  {
    UserSessionIs(host, db, r, now, keys.session);
    var (db1, sid) := UserSession(host, db, r, now, keys.session);
    LinkingKeepsUsers(env, host, db1, sid, r, now, keys.ids);
    var db2 := LinkedDb(env, host, db1, sid, r, now, keys.ids);
    assert SameUser(db1.sessions[sid], db2.sessions[sid]);
    assert r.stored.value in db1.sessions && r.stored.value in db2.sessions;
    MovingConserves(db2, LoginOf(db2, digest, r.stored.value, sid), now);
  }
}
