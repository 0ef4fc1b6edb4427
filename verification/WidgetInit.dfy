/**
 A widget's init: which session a browser goes on with, and what it may do there
 (backend/apps/tickets/views.py:189-248 and 528-618).
 */
module WidgetInit {
  import opened Text
  import opened Rows
  import opened Resolution
  import opened LoginMove
  import opened Machine

  /** What a page sends: the session it stored, and whom it says the visitor is, signed or not. */
  datatype Request = Request(
    org: Id, stored: Option<Id>, externalId: string, userHash: string, name: string, email: string,
    userAgent: string, claim: Claim)

  datatype Response = Refused | Opened(session: Id)

  /** The keys the database would give. */
  datatype Keys = Keys(session: Id, ids: NewIds)

  predicate SignsUser(host: Host, r: Request) {
    && r.externalId != "" && r.userHash != ""
    && !Reserved(r.externalId) && host.signsUser(r.org, r.externalId, r.userHash)
  }

  // Resuming a session

  /** An anonymous session keeps its first email, unless the host app signs another. */
  predicate TakesEmail(host: Host, s: Session, r: Request) {
    && r.email != "" && Lower(r.email) != Normalized(s.email)
    && (s.email == "" || s.externalId != "" || SignsAddress(host, r.org, r.email, r.claim.emailHash))
  }

  function NewName(s: Session, r: Request): Option<string> {
    if r.name != "" && s.name == "" then Some(r.name) else None
  }

  function NewEmail(host: Host, s: Session, r: Request): Option<string> {
    if TakesEmail(host, s, r) then Some(r.email) else None
  }

  /** `_record_session_resume`: the row and the request's object are the same here. */
  function Resumed(host: Host, s: Session, r: Request, now: Time): Session {
    var saved := SavedSession(s, NewName(s, r), NewEmail(host, s, r), now);
    WithoutStaleProof(saved, saved.email, now)
  }

  // Which session

  function Stored(db: Db, r: Request): Option<Id> {
    if r.stored.Some? && r.stored.value in db.sessions && db.sessions[r.stored.value].org == r.org then r.stored else None
  }

  predicate IsAnonymous(db: Db, stored: Option<Id>) {
    stored.Some? && stored.value in db.sessions && db.sessions[stored.value].externalId == ""
  }

  /**
   The proof is lost: one a code gave, by an init that declares another email, and any
   other by an init that doesn't sign the email it has.
   */
  predicate LosesProof(host: Host, s: Session, r: Request) {
    && s.verifiedAt.Some?
    && if s.proofSource.Code? then r.email != "" && Normalized(r.email) != Normalized(s.email)
       else !SignsAddress(host, r.org, if r.email != "" then r.email else s.email, r.claim.emailHash)
  }

  predicate GoesOn(host: Host, db: Db, r: Request) {
    && IsAnonymous(db, Stored(db, r)) && !SignsUser(host, r)
    && !LosesProof(host, db.sessions[Stored(db, r).value], r)
  }

  predicate IsUsers(db: Db, org: Id, externalId: string, sid: Id) {
    sid in db.sessions && db.sessions[sid].org == org && db.sessions[sid].externalId == externalId
  }

  /** The session of the user, if it has one. */
  ghost function UsersSession(db: Db, org: Id, externalId: string): Option<Id> {
    if exists sid :: IsUsers(db, org, externalId, sid) then var sid :| IsUsers(db, org, externalId, sid); Some(sid)
    else None
  }

  function LoginOf(db: Db, digest: string, anonymous: Id, identified: Id): Login
    requires identified in db.sessions
  {
    var s := db.sessions[identified];
    Login(s.org, anonymous, digest, identified, s.externalId, s.contact)
  }

  ghost function LinkedDb(env: Env, host: Host, db: Db, sid: Id, r: Request, now: Time, ids: NewIds): Db
    requires sid in db.sessions
  {
    LinkSession(env, db, sid, db.sessions[sid], LinkPayload(host, db.sessions[sid], r.claim.(code := false)), now, ids).db
  }

  /** The user's session found and resumed, or created. */
  ghost function UserSession(host: Host, db: Db, r: Request, now: Time, newSid: Id): (Db, Id) {
    match UsersSession(db, r.org, r.externalId)
    case Some(sid) => (WithSession(db, sid, Resumed(host, db.sessions[sid], r, now)), sid)
    case None => (WithSession(db, newSid, NewSession(r.org, r.externalId, r.name, r.email, r.userAgent, now)), newSid)
  }

  /** `_create_or_resume_session`, but for the contacts a login may leave with nothing. */
  ghost function Initialized(env: Env, host: Host, db: Db, r: Request, digest: string, now: Time, keys: Keys): (Db, Response) {
    var stored := Stored(db, r);
    if GoesOn(host, db, r) then
      var sid := stored.value;
      (LinkedDb(env, host, WithSession(db, sid, Resumed(host, db.sessions[sid], r, now)), sid, r, now, keys.ids), Opened(sid))
    else if r.externalId != "" && r.userHash != "" then
      if !SignsUser(host, r) then (db, Refused)
      else
        var (db1, sid) := UserSession(host, db, r, now, keys.session);
        var db2 := LinkedDb(env, host, db1, sid, r, now, keys.ids);
        if IsAnonymous(db, stored) && sid in db2.sessions
        then (Moved(db2, LoginOf(db2, digest, stored.value, sid), now), Opened(sid))
        else (db2, Opened(sid))
    else
      var db1 := WithSession(db, keys.session, NewSession(r.org, "", r.name, r.email, r.userAgent, now));
      (LinkedDb(env, host, db1, keys.session, r, now, keys.ids), Opened(keys.session))
  }

  /** The contacts a login may leave with nothing, those of the conversations it moves. No other init leaves any. */
  ghost function InitLeaves(env: Env, host: Host, db: Db, r: Request, digest: string, now: Time, keys: Keys): set<Id> {
    var stored := Stored(db, r);
    if GoesOn(host, db, r) || !SignsUser(host, r) || !IsAnonymous(db, stored) then {}
    else
      var (db1, sid) := UserSession(host, db, r, now, keys.session);
      var db2 := LinkedDb(env, host, db1, sid, r, now, keys.ids);
      if sid in db2.sessions then LeftContacts(db2, LoginOf(db2, digest, stored.value, sid)) else {}
  }
}
