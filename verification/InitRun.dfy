/** That an init is a run of the machine, so that all that holds of runs holds of inits too. */
module InitRun {
  import opened Rows
  import opened Resolution
  import opened Machine
  import opened WidgetInit
  import opened InitLaws

  ghost predicate Reaches(env: Env, host: Host, st: State, db: Db) {
    exists events :: Run(env, host, st, events).db == db
  }

  /** What the steps of an init need of the keys they are given. */
  predicate FreshKeys(st: State, ids: NewIds) {
    NewKey(st, ids.contact) && ids.company !in st.db.companies
  }

  /** A step of sessions alone. */
  lemma SessionStep(env: Env, host: Host, st: State, step: Step, at: Time, sid: Id, row: Session)
    requires Enabled(env, host, st, step)
    requires step.StartAnonymous? || step.StartIdentified? || step.SaveSession? || step.DropProof?
    requires Written(env, host, st, step, at) == WithSession(st.db, sid, row)
    ensures var st1 := Apply(env, host, st, Event(step, at));
      st1.db == WithSession(st.db, sid, row) && (forall ids :: FreshKeys(st, ids) ==> FreshKeys(st1, ids))
  {}

  /** One more step reaches what it writes. */
  lemma ReachesOneMore(env: Env, host: Host, st: State, events: seq<Event>, e: Event)
    requires Enabled(env, host, Run(env, host, st, events), e.step)
    ensures Reaches(env, host, st, Written(env, host, Run(env, host, st, events), e.step, e.at))
  {
    RunOneMore(env, host, st, events, e);
    assert Run(env, host, st, events + [e]).db == Written(env, host, Run(env, host, st, events), e.step, e.at);
  }

  function Resuming(host: Host, db: Db, sid: Id, r: Request, now: Time): seq<Event>
    requires sid in db.sessions
  {
    var s := db.sessions[sid];
    var saved := SavedSession(s, NewName(s, r), NewEmail(host, s, r), now);
    [Event(SaveSession(sid, NewName(s, r), NewEmail(host, s, r)), now), Event(DropProof(sid, saved.email), now)]
  }

  lemma RunOfOne(env: Env, host: Host, st: State, e: Event)
    ensures Run(env, host, st, [e]) == Apply(env, host, st, e)
  {}

  /** Resuming a session is saving it, then dropping its stale proof. */
  lemma ResumingRuns(env: Env, host: Host, st: State, sid: Id, r: Request, now: Time)
    requires sid in st.db.sessions
    ensures var st1 := Run(env, host, st, Resuming(host, st.db, sid, r, now));
      && st1.db == WithSession(st.db, sid, Resumed(host, st.db.sessions[sid], r, now))
      && (forall ids :: FreshKeys(st, ids) ==> FreshKeys(st1, ids))
  {
    var s := st.db.sessions[sid];
    var saved := SavedSession(s, NewName(s, r), NewEmail(host, s, r), now);
    var save, drop := SaveSession(sid, NewName(s, r), NewEmail(host, s, r)), DropProof(sid, saved.email);
    SessionStep(env, host, st, save, now, sid, saved);
    var st1 := Apply(env, host, st, Event(save, now));
    SessionStep(env, host, st1, drop, now, sid, WithoutStaleProof(saved, saved.email, now));
    RunOfOne(env, host, st, Event(save, now));
    RunOneMore(env, host, st, [Event(save, now)], Event(drop, now));
    assert Resuming(host, st.db, sid, r, now) == [Event(save, now)] + [Event(drop, now)];
    assert WithSession(st1.db, sid, WithoutStaleProof(saved, saved.email, now))
        == WithSession(st.db, sid, Resumed(host, s, r, now)) by {
      assert st1.db.sessions[sid := Resumed(host, s, r, now)] == st.db.sessions[sid := Resumed(host, s, r, now)];
    }
  }

  function Linking(db: Db, sid: Id, r: Request, now: Time, ids: NewIds): Event
    requires sid in db.sessions
  {
    Event(Link(sid, db.sessions[sid], r.claim.(code := false), ids), now)
  }

  /** Linking a session as it now is, is a step. */
  lemma LinkingRuns(env: Env, host: Host, st: State, sid: Id, r: Request, now: Time, ids: NewIds)
    requires sid in st.db.sessions && FreshKeys(st, ids)
    ensures Enabled(env, host, st, Linking(st.db, sid, r, now, ids).step)
    ensures Written(env, host, st, Linking(st.db, sid, r, now, ids).step, now) == LinkedDb(env, host, st.db, sid, r, now, ids)
  {}

  /** An anonymous session that goes on: resumed, and linked. */
  lemma GoingOnIsARun(env: Env, host: Host, st: State, r: Request, digest: string, now: Time, keys: Keys)
    requires GoesOn(host, st.db, r) && FreshKeys(st, keys.ids)
    ensures Reaches(env, host, st, Initialized(env, host, st.db, r, digest, now, keys).0)
  {
    var sid := r.stored.value;
    var events := Resuming(host, st.db, sid, r, now);
    ResumingRuns(env, host, st, sid, r, now);
    var st1 := Run(env, host, st, events);
    LinkingRuns(env, host, st1, sid, r, now, keys.ids);
    ReachesOneMore(env, host, st, events, Linking(st1.db, sid, r, now, keys.ids));
  }

  /** A new anonymous session: started, and linked. */
  lemma StartingIsARun(env: Env, host: Host, st: State, r: Request, digest: string, now: Time, keys: Keys)
    requires !GoesOn(host, st.db, r) && (r.externalId == "" || r.userHash == "")
    requires FreshKeys(st, keys.ids) && keys.session !in st.db.sessions
    ensures Reaches(env, host, st, Initialized(env, host, st.db, r, digest, now, keys).0)
  {
    var sid := keys.session;
    var start := StartAnonymous(sid, r.org, r.name, r.email, r.userAgent);
    SessionStep(env, host, st, start, now, sid, NewSession(r.org, "", r.name, r.email, r.userAgent, now));
    RunOfOne(env, host, st, Event(start, now));
    var st1 := Run(env, host, st, [Event(start, now)]);
    LinkingRuns(env, host, st1, sid, r, now, keys.ids);
    ReachesOneMore(env, host, st, [Event(start, now)], Linking(st1.db, sid, r, now, keys.ids));
  }

  /** The user's session: resumed, or started with the hash that signs it. */
  lemma UserSessionRuns(env: Env, host: Host, st: State, r: Request, now: Time, newSid: Id) returns (events: seq<Event>)
    requires SignsUser(host, r) && newSid !in st.db.sessions
    ensures var st1 := Run(env, host, st, events);
      && st1.db == UserSession(host, st.db, r, now, newSid).0
      && (forall ids :: FreshKeys(st, ids) ==> FreshKeys(st1, ids))
  {
    match UsersSession(st.db, r.org, r.externalId)
    case Some(sid) =>
      ResumingRuns(env, host, st, sid, r, now);
      events := Resuming(host, st.db, sid, r, now);
    case None =>
      assert !UserTaken(st.db, r.org, r.externalId) by {
        forall k | k in st.db.sessions ensures !(st.db.sessions[k].org == r.org && st.db.sessions[k].externalId == r.externalId) {
          assert !IsUsers(st.db, r.org, r.externalId, k);
        }
      }
      var start := StartIdentified(newSid, r.org, r.name, r.email, r.userAgent, r.externalId, r.userHash);
      SessionStep(env, host, st, start, now, newSid, NewSession(r.org, r.externalId, r.name, r.email, r.userAgent, now));
      RunOfOne(env, host, st, Event(start, now));
      events := [Event(start, now)];
  }

  /** And linked. */
  lemma LinkedUserRuns(env: Env, host: Host, st: State, r: Request, now: Time, keys: Keys) returns (events: seq<Event>)
    requires SignsUser(host, r) && FreshKeys(st, keys.ids) && keys.session !in st.db.sessions
    ensures var (db1, sid) := UserSession(host, st.db, r, now, keys.session);
      sid in db1.sessions && Run(env, host, st, events).db == LinkedDb(env, host, db1, sid, r, now, keys.ids)
  {
    var first := UserSessionRuns(env, host, st, r, now, keys.session);
    var st1 := Run(env, host, st, first);
    UserSessionIs(host, st.db, r, now, keys.session);
    var sid := UserSession(host, st.db, r, now, keys.session).1;
    var link := Linking(st1.db, sid, r, now, keys.ids);
    LinkingRuns(env, host, st1, sid, r, now, keys.ids);
    RunOneMore(env, host, st, first, link);
    events := first + [link];
  }

  /** The user's session, linked, and the conversations of the session it left moved there. */
  lemma SigningIsARun(env: Env, host: Host, st: State, r: Request, digest: string, now: Time, keys: Keys)
    requires SignsUser(host, r) && FreshKeys(st, keys.ids) && keys.session !in st.db.sessions
    ensures Reaches(env, host, st, Initialized(env, host, st.db, r, digest, now, keys).0)
  {
    var events := LinkedUserRuns(env, host, st, r, now, keys);
    var (db1, sid) := UserSession(host, st.db, r, now, keys.session);
    if IsAnonymous(st.db, Stored(st.db, r)) {
      MoveRuns(env, host, st, db1, Run(env, host, st, events), events, r, sid, digest, now, keys);
    } else {
      SigningOnlyLinks(env, host, st.db, r, digest, now, keys);
    }
  }

  lemma SigningOnlyLinks(env: Env, host: Host, db: Db, r: Request, digest: string, now: Time, keys: Keys)
    requires SignsUser(host, r) && !IsAnonymous(db, Stored(db, r)) && keys.session !in db.sessions
    ensures var (db1, sid) := UserSession(host, db, r, now, keys.session);
      sid in db1.sessions && Initialized(env, host, db, r, digest, now, keys).0 == LinkedDb(env, host, db1, sid, r, now, keys.ids)
  {
    UserSessionIs(host, db, r, now, keys.session);
    var (db1, sid) := UserSession(host, db, r, now, keys.session);
    LinkedUserSession(env, host, db1, sid, r, now, keys.ids);
  }

  lemma MoveRuns(
    env: Env, host: Host, st: State, db1: Db, st2: State, events: seq<Event>, r: Request, sid: Id, digest: string,
    now: Time, keys: Keys)
    requires SignsUser(host, r) && IsAnonymous(st.db, Stored(st.db, r)) && keys.session !in st.db.sessions
    requires (db1, sid) == UserSession(host, st.db, r, now, keys.session) && sid in db1.sessions
    requires st2 == Run(env, host, st, events) && st2.db == LinkedDb(env, host, db1, sid, r, now, keys.ids)
    ensures Reaches(env, host, st, Initialized(env, host, st.db, r, digest, now, keys).0)
  {
    var stored := r.stored.value;
    UserSessionIs(host, st.db, r, now, keys.session);
    LinkingKeepsUsers(env, host, db1, sid, r, now, keys.ids);
    assert SameUser(db1.sessions[sid], st2.db.sessions[sid]);
    assert stored in db1.sessions && stored in st2.db.sessions;
    var login := LoginOf(st2.db, digest, stored, sid);
    ReachesOneMore(env, host, st, events, Event(Move(login), now));
  }

  /** Whatever an init leaves, steps of the machine lead to: it keeps what every run keeps. */
  lemma InitIsARun(env: Env, host: Host, st: State, r: Request, digest: string, now: Time, keys: Keys)
    requires FreshKeys(st, keys.ids) && keys.session !in st.db.sessions
    ensures Reaches(env, host, st, Initialized(env, host, st.db, r, digest, now, keys).0)
  {
    if GoesOn(host, st.db, r) {
      GoingOnIsARun(env, host, st, r, digest, now, keys);
    } else if SignsUser(host, r) {
      SigningIsARun(env, host, st, r, digest, now, keys);
    } else if r.externalId == "" || r.userHash == "" {
      StartingIsARun(env, host, st, r, digest, now, keys);
    } else {
      assert Run(env, host, st, []).db == st.db;
    }
  }
}
