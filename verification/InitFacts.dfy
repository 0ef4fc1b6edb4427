/**
 What an init does, by the rows and the request alone: when a browser goes on with the
 session it stored, and what the session that answers holds
 (backend/apps/tickets/views.py:189-248 and 528-618).
 */
module InitFacts {
  import opened Text
  import opened Rows
  import opened Resolution
  import opened Uniqueness
  import opened Reach
  import opened LoginMove
  import opened Machine
  import opened WidgetInit
  import opened InitLaws
  import opened EmailProof
  import opened MoveFacts

  // Going on

  /** The host app's hash of the user's id. */
  predicate HasUserHash(host: Host, r: Request) {
    && r.externalId != "" && r.userHash != ""
    && !StartsWith(r.externalId, "email:") && !StartsWith(r.externalId, "company\n")
    && host.signsUser(r.org, r.externalId, r.userHash)
  }

  /** The host app's hash of an address. */
  predicate HasEmailHash(host: Host, r: Request, email: string) {
    && Normalized(email) != "" && r.claim.emailHash != ""
    && host.signsEmail(r.org, Normalized(email), r.claim.emailHash)
  }

  /** The session can be gone on with: it proved nothing, or the init keeps what it proved. */
  predicate KeepsProof(host: Host, s: Session, r: Request) {
    || s.verifiedAt.None?
    || (s.proofSource.Code? && (r.email == "" || Normalized(r.email) == Normalized(s.email)))
    || (!s.proofSource.Code? && HasEmailHash(host, r, if r.email != "" then r.email else s.email))
  }

  /** Without a user's hash, an init goes on with a session exactly if it is the one stored, anonymous, and its proof is kept. */
  lemma GoesOnExactly(env: Env, host: Host, db: Db, r: Request, digest: string, now: Time, keys: Keys, sid: Id)
    requires keys.session !in db.sessions && sid in db.sessions && !HasUserHash(host, r)
    ensures Initialized(env, host, db, r, digest, now, keys).1 == Opened(sid)
      <==> && r.stored == Some(sid) && db.sessions[sid].org == r.org && db.sessions[sid].externalId == ""
           && KeepsProof(host, db.sessions[sid], r)
  {}

  /** With one, exactly with a session of that user. */
  lemma SignsInExactly(env: Env, host: Host, db: Db, r: Request, digest: string, now: Time, keys: Keys)
    requires keys.session !in db.sessions && HasUserHash(host, r)
    ensures var response := Initialized(env, host, db, r, digest, now, keys).1;
      && response.Opened?
      && if exists sid :: IsUsers(db, r.org, r.externalId, sid) then IsUsers(db, r.org, r.externalId, response.session)
         else response.session == keys.session
  {}

  /** A user's id with a hash that isn't the host app's is refused, and without one a new session answers. */
  lemma OthersExactly(env: Env, host: Host, db: Db, r: Request, digest: string, now: Time, keys: Keys)
    requires keys.session !in db.sessions && !HasUserHash(host, r)
    requires forall sid :: sid in db.sessions ==> Initialized(env, host, db, r, digest, now, keys).1 != Opened(sid)
    ensures var (after, response) := Initialized(env, host, db, r, digest, now, keys);
      if r.externalId != "" && r.userHash != "" then response.Refused? && after == db else response == Opened(keys.session)
  {}

  // The session that answers

  /** A resumed row, field by field. */
  lemma ResumedIs(host: Host, s: Session, r: Request, now: Time)
    ensures var s1 := Resumed(host, s, r, now);
      var email := if && r.email != "" && Lower(r.email) != Normalized(s.email)
                      && (s.email == "" || s.externalId != "" || HasEmailHash(host, r, r.email))
                   then r.email else s.email;
      var kept := (s.verifiedAt.Some? && s.verifiedFor == Normalized(email)) || (s.verifiedAt.None? && s.verifiedFor == "");
      s1 == s.(name := if s.name == "" then r.name else s.name, email := email, lastSeenAt := now, updatedAt := now,
               verifiedAt := if kept then s.verifiedAt else None, verifiedFor := if kept then s.verifiedFor else "",
               proofSource := if kept then s.proofSource else NoProof)
  {}

  /** All but its contact and its proof. */
  predicate SameWords(a: Session, b: Session) {
    b == a.(contact := b.contact, verifiedAt := b.verifiedAt, verifiedFor := b.verifiedFor, proofSource := b.proofSource,
            updatedAt := b.updatedAt)
  }

  lemma SavingKeepsWords(
    db: Db, sid: Id, s: Session, id: Id, proven: bool, email: string, source: ProofSource, now: Time, k: Id)
    requires k in db.sessions
    ensures var after := SessionSaved(db, sid, s, id, proven, email, source, now).0.sessions;
      k in after && SameWords(db.sessions[k], after[k])
  {}

  ghost predicate AllWordsKept(sessions: map<Id, Session>, after: map<Id, Session>) {
    forall k :: k in sessions ==> k in after && SameWords(sessions[k], after[k])
  }

  lemma MovingKeepsWords(db: Db, db1: Db, db2: Db, other: Option<Id>, id: Id)
    requires RowsMoved(db, db1, other, id) && AllWordsKept(db1.sessions, db2.sessions)
    ensures AllWordsKept(db.sessions, db2.sessions)
  {
    forall k | k in db.sessions ensures k in db2.sessions && SameWords(db.sessions[k], db2.sessions[k]) {
      assert SameWords(db1.sessions[k], db2.sessions[k]);
    }
  }

  lemma UnlinkingKeepsWords(db: Db, sid: Id, s: Session, now: Time)
    ensures AllWordsKept(db.sessions, LinkedTo(db, sid, s, None, now).sessions)
  {
    forall k | k in db.sessions ensures SameWords(db.sessions[k], db.sessions[k]) {
      SameRow(db.sessions[k], db.sessions[k].contact, db.sessions[k].updatedAt);
    }
    if sid in db.sessions {
      SameRow(db.sessions[sid], None, now);
      RowKeepsWords(db.sessions, sid, db.sessions[sid].(contact := None, updatedAt := now));
    }
  }

  lemma SameRow(row: Session, contact: Option<Id>, now: Time)
    ensures SameWords(row, row.(contact := contact, updatedAt := now))
    ensures row.(contact := row.contact, updatedAt := row.updatedAt) == row
  {}

  lemma RowKeepsWords(sessions: map<Id, Session>, sid: Id, row: Session)
    requires sid in sessions && SameWords(sessions[sid], row)
    requires forall k :: k in sessions ==> SameWords(sessions[k], sessions[k])
    ensures AllWordsKept(sessions, sessions[sid := row])
  {}

  lemma SavingKeepsAllWords(
    db: Db, sid: Id, s: Session, id: Id, proven: bool, email: string, source: ProofSource, now: Time)
    ensures AllWordsKept(db.sessions, SessionSaved(db, sid, s, id, proven, email, source, now).0.sessions)
  {
    forall k | k in db.sessions
      ensures var after := SessionSaved(db, sid, s, id, proven, email, source, now).0.sessions;
        k in after && SameWords(db.sessions[k], after[k])
    {
      SavingKeepsWords(db, sid, s, id, proven, email, source, now, k);
    }
  }

  lemma FoundKeepsWords(
    env: Env, db: Db, sid: Id, s: Session, k: Claims, p: Payload, now: Time, ids: NewIds, f: Lookup)
    requires f == LookedUp(db.contacts, k, p, now, ids.contact) && f.Found? && !f.draft.anonymized
    ensures AllWordsKept(db.sessions, Resolve(env, db, sid, s, k, p, now, ids).db.sessions)
  {
    var settled := Settle(env, db, f, k, p, now, ids.company);
    SettlingMovesRows(env, db, f, k, p, now, ids.company);
    SavingKeepsAllWords(settled.db, sid, s, f.id, settled.proven, k.email, p.source, now);
    MovingKeepsWords(db, settled.db, SessionSaved(settled.db, sid, s, f.id, settled.proven, k.email, p.source, now).0,
                     Taken(f, k, p), f.id);
  }

  lemma PassKeepsWords(env: Env, db: Db, sid: Id, s: Session, k: Claims, p: Payload, now: Time, ids: NewIds)
    ensures AllWordsKept(db.sessions, Resolve(env, db, sid, s, k, p, now, ids).db.sessions)
  {
    var f := LookedUp(db.contacts, k, p, now, ids.contact);
    if f.Found? && !f.draft.anonymized {
      FoundKeepsWords(env, db, sid, s, k, p, now, ids, f);
    } else {
      UnlinkingKeepsWords(db, sid, s, now);
      NobodyUnlinks(env, db, sid, s, k, p, now, ids, f);
    }
  }

  lemma LinkingKeepsWords(env: Env, host: Host, db: Db, sid: Id, r: Request, now: Time, ids: NewIds)
    requires sid in db.sessions
    ensures var after := LinkedDb(env, host, db, sid, r, now, ids).sessions;
      sid in after && SameWords(db.sessions[sid], after[sid])
  {
    var s := db.sessions[sid];
    var p := LinkPayload(host, s, r.claim.(code := false));
    PassKeepsWords(env, db, sid, s, ClaimsOf(env, s), p, now, ids);
    TicketsOnly(ResolveOnce(env, db, sid, s, p, now, ids), sid, s);
  }

  /** The session that answers is what it was resumed with, or what the page sent, but for its contact and its proof. */
  ghost predicate Says(host: Host, db: Db, r: Request, now: Time, after: Db, sid: Id) {
    && sid in after.sessions
    && SameWords(
         if sid in db.sessions then Resumed(host, db.sessions[sid], r, now)
         else Session(r.org, if HasUserHash(host, r) then r.externalId else "", r.name, r.email, r.userAgent, None,
                      None, "", NoProof, now, now, now),
         after.sessions[sid])
  }

  lemma AnswerSays(env: Env, host: Host, db: Db, r: Request, digest: string, now: Time, keys: Keys)
    requires keys.session !in db.sessions
    ensures var (after, response) := Initialized(env, host, db, r, digest, now, keys);
      response.Opened? ==> Says(host, db, r, now, after, response.session)
  {
    if GoesOn(host, db, r) {
      ResumedAnswerSays(env, host, db, r, digest, now, keys);
    } else if SignsUser(host, r) {
      UserAnswerSays(env, host, db, r, digest, now, keys);
    } else if r.externalId == "" || r.userHash == "" {
      NewAnswerSays(env, host, db, r, digest, now, keys);
    }
  }

  lemma ResumedAnswerSays(env: Env, host: Host, db: Db, r: Request, digest: string, now: Time, keys: Keys)
    requires GoesOn(host, db, r)
    ensures Says(host, db, r, now, Initialized(env, host, db, r, digest, now, keys).0, r.stored.value)
  {
    var sid := r.stored.value;
    LinkingKeepsWords(env, host, WithSession(db, sid, Resumed(host, db.sessions[sid], r, now)), sid, r, now, keys.ids);
  }

  lemma NewAnswerSays(env: Env, host: Host, db: Db, r: Request, digest: string, now: Time, keys: Keys)
    requires keys.session !in db.sessions && !GoesOn(host, db, r) && (r.externalId == "" || r.userHash == "")
    ensures Says(host, db, r, now, Initialized(env, host, db, r, digest, now, keys).0, keys.session)
  {
    var db1 := WithSession(db, keys.session, NewSession(r.org, "", r.name, r.email, r.userAgent, now));
    LinkingKeepsWords(env, host, db1, keys.session, r, now, keys.ids);
  }

  lemma UserAnswerSays(env: Env, host: Host, db: Db, r: Request, digest: string, now: Time, keys: Keys)
    requires keys.session !in db.sessions && SignsUser(host, r)
    ensures var (after, response) := Initialized(env, host, db, r, digest, now, keys);
      response.Opened? && Says(host, db, r, now, after, response.session)
  {
    UserSessionIs(host, db, r, now, keys.session);
    var (db1, sid) := UserSession(host, db, r, now, keys.session);
    LinkingKeepsWords(env, host, db1, sid, r, now, keys.ids);
    LinkedUserSession(env, host, db1, sid, r, now, keys.ids);
    var db2 := LinkedDb(env, host, db1, sid, r, now, keys.ids);
    var stored := Stored(db, r);
    if IsAnonymous(db, stored) {
      assert stored.value != sid;
      assert Moved(db2, LoginOf(db2, digest, stored.value, sid), now).sessions[sid] == db2.sessions[sid];
    }
  }

  /** What the session is linked with: its address is proven if the host app signed it, or a code did. */
  lemma PayloadIs(host: Host, s: Session, claim: Claim)
    ensures var p := LinkPayload(host, s, claim);
      && (p.verified <==>
            || claim.code
            || (&& Normalized(s.email) != "" && claim.emailHash != ""
                && host.signsEmail(s.org, Normalized(s.email), claim.emailHash)))
      && p.source == (if claim.code then Code else Signed)
      && p.traits == claim.traits && p.company == claim.company && p.companyVerified == claim.companySigned
  {}

  // What a login moves

  /** The session stored in the browser, of the organization and nobody's. */
  predicate IsBrowsers(db: Db, r: Request, anonymous: Id) {
    && r.stored == Some(anonymous) && anonymous in db.sessions
    && db.sessions[anonymous].org == r.org && db.sessions[anonymous].externalId == ""
  }

  /** What a login is, just before it moves anything: the rows, and the session that answers. */
  ghost predicate IsBeforeMove(db: Db, before: Db, r: Request, answer: Id) {
    && answer in before.sessions && before.sessions[answer].org == r.org
    && before.sessions[answer].externalId == r.externalId
    && before.tickets.Keys == db.tickets.Keys && before.messages == db.messages
    && (forall k :: k in db.tickets ==> before.tickets[k] == db.tickets[k].(contact := before.tickets[k].contact))
  }

  lemma BeforeMoveIs(env: Env, host: Host, db: Db, db1: Db, before: Db, r: Request, now: Time, keys: Keys, sid: Id)
    requires keys.session !in db.sessions && (db1, sid) == UserSession(host, db, r, now, keys.session)
    requires sid in db1.sessions && before == LinkedDb(env, host, db1, sid, r, now, keys.ids)
    ensures IsBeforeMove(db, before, r, sid)
    ensures forall k :: k in db.sessions ==> k in before.sessions
  {
    UserSessionIs(host, db, r, now, keys.session);
    LinkedUserSession(env, host, db1, sid, r, now, keys.ids);
    LinkingKeepsUsers(env, host, db1, sid, r, now, keys.ids);
    LinkingKeepsRest(env, db1, sid, db1.sessions[sid],
                     LinkPayload(host, db1.sessions[sid], r.claim.(code := false)), now, keys.ids);
  }

  /** A conversation of the browser is on the user's session after the login, and on its contact, marked. */
  predicate IsLoggedIn(t: Ticket, t1: Ticket, answer: Id, s: Session, digest: string) {
    && t1.session == Some(answer) && t1.externalId == s.externalId && (s.contact.Some? ==> t1.contact == s.contact)
    && t1.metadata.Dict? && PRE_LOGIN_ANONYMOUS in t1.metadata.entries && PRE_LOGIN_SESSION_HASH in t1.metadata.entries
    && t1.metadata.entries[PRE_LOGIN_ANONYMOUS] == JTrue
    && t1.metadata.entries[PRE_LOGIN_SESSION_HASH] == JString(digest)
    && t1 == t.(session := t1.session, externalId := t1.externalId, contact := t1.contact, metadata := t1.metadata)
  }

  /** Every conversation of the browser's session is on the one that answers, and every other ticket where it was. */
  predicate AllLoggedIn(db: Db, after: Db, org: Id, anonymous: Id, answer: Id, digest: string) {
    && answer in after.sessions && after.tickets.Keys == db.tickets.Keys && after.messages.Keys == db.messages.Keys
    && (forall k :: k in db.tickets ==>
          if db.tickets[k].org == org && db.tickets[k].session == Some(anonymous) then
            IsLoggedIn(db.tickets[k], after.tickets[k], answer, after.sessions[answer], digest)
          else after.tickets[k] == db.tickets[k].(contact := after.tickets[k].contact))
    && (forall k :: k in db.messages ==>
          after.messages[k] == if IsItsMessage(db, db.messages[k], org, anonymous)
                               then db.messages[k].(session := Some(answer)) else db.messages[k])
  }

  predicate IsItsMessage(db: Db, m: Message, org: Id, anonymous: Id) {
    m.session == Some(anonymous) && m.ticket in db.tickets && db.tickets[m.ticket].org == org
  }

  lemma MovedTicketIsLoggedIn(t: Ticket, before: Ticket, t1: Ticket, l: Login, s: Session)
    requires before == t.(contact := before.contact) && IsMovedTicket(l, before, t1)
    requires s.externalId == l.externalId && s.contact == l.contact
    ensures IsLoggedIn(t, t1, l.identified, s, l.digest)
  {}

  lemma MovedIsLoggedIn(db: Db, before: Db, r: Request, l: Login, now: Time)
    requires IsBeforeMove(db, before, r, l.identified) && l.anonymous in before.sessions && l.anonymous != l.identified
    requires l.org == r.org && l.externalId == r.externalId && l.contact == before.sessions[l.identified].contact
    ensures AllLoggedIn(db, Moved(before, l, now), r.org, l.anonymous, l.identified, l.digest)
  {
    MovedRowsAre(before, l, now);
    var after := Moved(before, l, now);
    forall k | k in db.tickets
      ensures if db.tickets[k].org == r.org && db.tickets[k].session == Some(l.anonymous) then
                IsLoggedIn(db.tickets[k], after.tickets[k], l.identified, after.sessions[l.identified], l.digest)
              else after.tickets[k] == db.tickets[k].(contact := after.tickets[k].contact)
    {
      assert before.tickets[k] == db.tickets[k].(contact := before.tickets[k].contact);
      if WasOn(l, before.tickets[k]) {
        MovedTicketIsLoggedIn(db.tickets[k], before.tickets[k], after.tickets[k], l, after.sessions[l.identified]);
      }
    }
    forall k | k in db.messages
      ensures after.messages[k] == if IsItsMessage(db, db.messages[k], r.org, l.anonymous)
                                   then db.messages[k].(session := Some(l.identified)) else db.messages[k]
    {
      MovedMessagesAre(before, l, now, k);
    }
  }

  /** A login moves the rows it has linked, and no other init moves any. */
  lemma LoginIsMove(
    env: Env, host: Host, db: Db, db1: Db, before: Db, r: Request, digest: string, now: Time, keys: Keys, sid: Id,
    anonymous: Id)
    requires (db1, sid) == UserSession(host, db, r, now, keys.session)
    requires sid in db1.sessions && before == LinkedDb(env, host, db1, sid, r, now, keys.ids)
    requires HasUserHash(host, r) && IsBrowsers(db, r, anonymous) && sid in before.sessions
    ensures Initialized(env, host, db, r, digest, now, keys)
         == (Moved(before, LoginOf(before, digest, anonymous, sid), now), Opened(sid))
  {}

  /**
   A login takes every conversation of the browser's anonymous session, and its messages,
   to the session that answers, and leaves those of every other ticket as they were.
   */
  lemma LoginMoves(env: Env, host: Host, db: Db, r: Request, digest: string, now: Time, keys: Keys, anonymous: Id)
    requires keys.session !in db.sessions && HasUserHash(host, r) && IsBrowsers(db, r, anonymous)
    ensures var (after, response) := Initialized(env, host, db, r, digest, now, keys);
      response.Opened? && AllLoggedIn(db, after, r.org, anonymous, response.session, digest)
  {
    UserSessionIs(host, db, r, now, keys.session);
    var (db1, sid) := UserSession(host, db, r, now, keys.session);
    var before := LinkedDb(env, host, db1, sid, r, now, keys.ids);
    BeforeMoveIs(env, host, db, db1, before, r, now, keys, sid);
    LoginIsMove(env, host, db, db1, before, r, digest, now, keys, sid, anonymous);
    MovedIsLoggedIn(db, before, r, LoginOf(before, digest, anonymous, sid), now);
  }

  /** The anonymous session, or a conversation of it, was on the contact. */
  predicate WasOfBrowser(before: Db, r: Request, anonymous: Id, contact: Id) {
    || (anonymous in before.sessions && before.sessions[anonymous].contact == Some(contact))
    || exists k :: k in before.tickets && IsOnIt(before.tickets[k], r.org, anonymous, contact)
  }

  predicate IsOnIt(t: Ticket, org: Id, anonymous: Id, contact: Id) {
    t.org == org && t.session == Some(anonymous) && t.contact == Some(contact)
  }

  lemma LeftAre(before: Db, r: Request, l: Login, contact: Id)
    requires l.anonymous in before.sessions && l.org == r.org
    ensures contact in LeftContacts(before, l) <==> l.contact != Some(contact) && WasOfBrowser(before, r, l.anonymous, contact)
  {}

  /**
   The contacts that may go after an init: those the browser's conversations, or its
   session, were on just before a login moved them, but for the one they are on then.
   */
  lemma LoginEmpties(
    env: Env, host: Host, db: Db, db1: Db, before: Db, r: Request, digest: string, now: Time, keys: Keys, sid: Id,
    contact: Id)
    requires keys.session !in db.sessions && (db1, sid) == UserSession(host, db, r, now, keys.session)
    requires sid in db1.sessions && before == LinkedDb(env, host, db1, sid, r, now, keys.ids)
    ensures contact in InitLeaves(env, host, db, r, digest, now, keys) <==>
      && HasUserHash(host, r) && r.stored.Some? && IsBrowsers(db, r, r.stored.value)
      && sid in before.sessions && before.sessions[sid].contact != Some(contact)
      && WasOfBrowser(before, r, r.stored.value, contact)
  {
    BeforeMoveIs(env, host, db, db1, before, r, now, keys, sid);
    if HasUserHash(host, r) && r.stored.Some? && IsBrowsers(db, r, r.stored.value) {
      LeftAre(before, r, LoginOf(before, digest, r.stored.value, sid), contact);
    }
  }
}
