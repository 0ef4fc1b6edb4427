/**
 Who sees a contact's history, and which contacts are verified, in terms of what
 happened in the run: the signatures checked, the codes redeemed and the links opened.
 */
module Proofs {
  import opened Text
  import opened Rows
  import opened Reach
  import opened Access
  import opened DeskWork
  import opened Machine
  import opened Safety

  // Evidence

  /** The host app's signature of the user's id started the session. */
  predicate SignedIn(host: Host, step: Step, sid: Id, org: Id, externalId: string) {
    && step.StartIdentified? && step.sid == sid && step.org == org && step.externalId == externalId
    && host.signsUser(org, externalId, step.hash)
  }

  /** The host app's signature of the address came with a request of the session. */
  predicate SignedAddress(host: Host, step: Step, sid: Id, org: Id, email: string) {
    && step.Link? && step.sid == sid && step.read.org == org && Normalized(step.read.email) == email
    && host.signsEmail(org, email, step.claim.emailHash)
  }

  predicate MailedCode(step: Step, code: Id, sid: Id, email: string) {
    step.MailCode? && step.code == code && step.sid == sid && Normalized(step.email) == email
  }

  predicate RedeemedCode(step: Step, code: Id, sid: Id) {
    step.RedeemCode? && step.code == code && step.sid == sid
  }

  predicate OpenedLink(host: Host, step: Step, cid: Id, link: string) {
    step.OpenLink? && step.contact == cid && step.link == link
  }

  /** The event's step took place: its guard held in the state the events before it led to. */
  ghost predicate TookPlace(env: Env, host: Host, events: seq<Event>, i: nat)
    requires i < |events|
  {
    Enabled(env, host, Run(env, host, EMPTY, events[..i]), events[i].step)
  }

  /** A code mailed to the address for the session, and redeemed by it later. */
  ghost predicate RedeemedFor(env: Env, host: Host, events: seq<Event>, sid: Id, email: string) {
    exists i, j, code :: 0 <= i < j < |events|
      && TookPlace(env, host, events, i) && MailedCode(events[i].step, code, sid, email)
      && TookPlace(env, host, events, j) && RedeemedCode(events[j].step, code, sid)
  }

  /** What took place in the run that makes a proof one. */
  ghost predicate Happened(env: Env, host: Host, events: seq<Event>, proof: Proof) {
    match proof
    case OfUser(sid, org, externalId) =>
      exists i :: 0 <= i < |events|
        && TookPlace(env, host, events, i) && SignedIn(host, events[i].step, sid, org, externalId)
    case OfAddress(sid, org, email) =>
      || (exists i :: 0 <= i < |events|
            && TookPlace(env, host, events, i) && SignedAddress(host, events[i].step, sid, org, email))
      || RedeemedFor(env, host, events, sid, email)
    case OfMailbox(cid, link) =>
      exists i :: 0 <= i < |events|
        && TookPlace(env, host, events, i) && OpenedLink(host, events[i].step, cid, link)
  }

  ghost predicate CodeMailed(env: Env, host: Host, events: seq<Event>, code: Id, row: OneTimeCode) {
    exists i :: 0 <= i < |events|
      && TookPlace(env, host, events, i)
      && row.session.Some? && MailedCode(events[i].step, code, row.session.value, row.email)
  }

  // A run, one more event at its end

  lemma StillTookPlace(env: Env, host: Host, events: seq<Event>, e: Event, i: nat)
    requires i < |events| && TookPlace(env, host, events, i)
    ensures TookPlace(env, host, events + [e], i) && (events + [e])[i] == events[i]
  {
    assert (events + [e])[..i] == events[..i];
  }

  lemma LastTakesPlace(env: Env, host: Host, events: seq<Event>, e: Event)
    requires Enabled(env, host, Run(env, host, EMPTY, events), e.step)
    ensures TookPlace(env, host, events + [e], |events|) && (events + [e])[|events|] == e
  {
    assert (events + [e])[..|events|] == events;
  }

  lemma StillHappened(env: Env, host: Host, events: seq<Event>, e: Event, proof: Proof)
    requires Happened(env, host, events, proof)
    ensures Happened(env, host, events + [e], proof)
  {
    match proof
    case OfUser(sid, org, externalId) =>
      var i :| 0 <= i < |events|
        && TookPlace(env, host, events, i) && SignedIn(host, events[i].step, sid, org, externalId);
      StillTookPlace(env, host, events, e, i);
    case OfAddress(sid, org, email) =>
      if RedeemedFor(env, host, events, sid, email) {
        var i, j, code :| 0 <= i < j < |events|
          && TookPlace(env, host, events, i) && MailedCode(events[i].step, code, sid, email)
          && TookPlace(env, host, events, j) && RedeemedCode(events[j].step, code, sid);
        StillTookPlace(env, host, events, e, i);
        StillTookPlace(env, host, events, e, j);
        assert RedeemedFor(env, host, events + [e], sid, email);
      } else {
        var i :| 0 <= i < |events|
          && TookPlace(env, host, events, i) && SignedAddress(host, events[i].step, sid, org, email);
        StillTookPlace(env, host, events, e, i);
      }
    case OfMailbox(cid, link) =>
      var i :| 0 <= i < |events|
        && TookPlace(env, host, events, i) && OpenedLink(host, events[i].step, cid, link);
      StillTookPlace(env, host, events, e, i);
  }

  /** Only a mail adds a code. */
  lemma CodesComeFromMail(env: Env, host: Host, st: State, e: Event, code: Id)
    requires Enabled(env, host, st, e.step) && code in Written(env, host, st, e.step, e.at).codes
    ensures || (code in st.db.codes && Written(env, host, st, e.step, e.at).codes[code] == st.db.codes[code])
            || (var row := Written(env, host, st, e.step, e.at).codes[code];
                row.session.Some? && MailedCode(e.step, code, row.session.value, row.email))
  {
    match e.step
    case Link(sid, s, claim, ids) => LinkingKeepsRest(env, st.db, sid, s, LinkPayload(host, s, claim), e.at, ids);
    case BackfillContacts(r) => BackfillLaws.BackfillKeepsRest(env, st.db, r, e.at);
    case Handle(work) => WorkLeavesPeople(st.db, st.ticketKeys, work, e.at);
    case _ =>
  }

  /** Every code was mailed, to its address and for its session, by a step that took place. */
  lemma {:induction false} CodesWereMailed(env: Env, host: Host, events: seq<Event>, code: Id)
    requires code in Run(env, host, EMPTY, events).db.codes
    ensures CodeMailed(env, host, events, code, Run(env, host, EMPTY, events).db.codes[code])
    decreases |events|
  {
    if events != [] {
      var init, e := events[..|events| - 1], events[|events| - 1];
      assert events == init + [e];
      var st := Run(env, host, EMPTY, init);
      RunOneMore(env, host, EMPTY, init, e);
      var row := Apply(env, host, st, e).db.codes[code];
      if code in st.db.codes && row == st.db.codes[code] {
        CodesWereMailed(env, host, init, code);
        var i :| 0 <= i < |init|
          && TookPlace(env, host, init, i)
          && row.session.Some? && MailedCode(init[i].step, code, row.session.value, row.email);
        StillTookPlace(env, host, init, e, i);
      } else {
        assert Enabled(env, host, st, e.step);
        CodesComeFromMail(env, host, st, e, code);
        LastTakesPlace(env, host, init, e);
      }
    }
  }

  /** What a step was given happened, now or, for a code, with its mail before. */
  lemma GivenHappened(env: Env, host: Host, init: seq<Event>, e: Event, proof: Proof)
    requires var st := Run(env, host, EMPTY, init);
      Enabled(env, host, st, e.step) && proof in Given(env, host, st, e.step)
    ensures Happened(env, host, init + [e], proof)
  {
    var events := init + [e];
    var last := |init|;
    var st := Run(env, host, EMPTY, init);
    LastTakesPlace(env, host, init, e);
    match e.step
    case StartIdentified(sid, org, _, _, _, externalId, _) =>
      assert SignedIn(host, events[last].step, sid, org, externalId);
    case RedeemCode(code, sid) =>
      CodesWereMailed(env, host, init, code);
      var row := st.db.codes[code];
      var i :| 0 <= i < |init|
        && TookPlace(env, host, init, i)
        && row.session.Some? && MailedCode(init[i].step, code, row.session.value, row.email);
      StillTookPlace(env, host, init, e, i);
      assert MailedCode(events[i].step, code, sid, row.email) && RedeemedCode(events[last].step, code, sid);
      assert RedeemedFor(env, host, events, sid, row.email);
    case Link(sid, s, _, _) =>
      assert SignedAddress(host, events[last].step, sid, s.org, Normalized(s.email));
    case OpenLink(cid, link) =>
      assert OpenedLink(host, events[last].step, cid, link);
    case _ => assert false;
  }

  /** Every proof on record was given in the run. */
  lemma {:induction false} ProofsHappened(env: Env, host: Host, events: seq<Event>, proof: Proof)
    requires proof in Run(env, host, EMPTY, events).proofs
    ensures Happened(env, host, events, proof)
    decreases |events|
  {
    if events != [] {
      var init, e := events[..|events| - 1], events[|events| - 1];
      assert events == init + [e];
      RunOneMore(env, host, EMPTY, init, e);
      if proof in Run(env, host, EMPTY, init).proofs {
        ProofsHappened(env, host, init, proof);
        StillHappened(env, host, init, e, proof);
      } else {
        GivenHappened(env, host, init, e, proof);
      }
    }
  }

  // The theorems

  lemma EmptyIsSound(host: Host)
    ensures Invariant(host, EMPTY)
  {}

  /**
   A contact's history opens to a session that the host app signed in as that contact's
   user, or that proved, itself, the address the contact holds now.
   */
  lemma HistoryOpensOnProof(env: Env, host: Host, events: seq<Event>, sid: Id)
    requires var db := Run(env, host, EMPTY, events).db;
      sid in db.sessions && ContactHistoryOpens(db, db.sessions[sid])
    ensures var db := Run(env, host, EMPTY, events).db;
      var s := db.sessions[sid];
      var c := db.contacts[s.contact.value];
      && c.org == s.org
      && if s.externalId != ""
         then c.externalId == s.externalId && Happened(env, host, events, OfUser(sid, c.org, c.externalId))
         else Happened(env, host, events, OfAddress(sid, c.org, c.email))
  {
    var st := Run(env, host, EMPTY, events);
    EmptyIsSound(host);
    RunKeepsInvariant(env, host, EMPTY, events);
    var s := st.db.sessions[sid];
    var c := st.db.contacts[s.contact.value];
    assert LinkHolds(st.db.contacts, s) && SessionHonest(st.proofs, sid, s);
    assert ContactHonest(host, st.proofs, s.contact.value, c);
    ProofsHappened(env, host, events,
      if s.externalId != "" then OfUser(sid, c.org, c.externalId) else OfAddress(sid, c.org, c.email));
  }

  /** A verified contact holds an address a session of its organization proved, or whose link was opened. */
  lemma VerifiedEmailIsProven(env: Env, host: Host, events: seq<Event>, cid: Id)
    requires var db := Run(env, host, EMPTY, events).db; cid in db.contacts && db.contacts[cid].verifiedAt.Some?
    ensures var c := Run(env, host, EMPTY, events).db.contacts[cid];
      && c.email != "" && !c.anonymized
      && (|| (exists sid :: Happened(env, host, events, OfAddress(sid, c.org, c.email)))
          || (exists link :: Happened(env, host, events, OfMailbox(cid, link)) && Proves(host, link, c.email)))
  {
    var st := Run(env, host, EMPTY, events);
    EmptyIsSound(host);
    RunKeepsInvariant(env, host, EMPTY, events);
    var c := st.db.contacts[cid];
    assert ContactHonest(host, st.proofs, cid, c);
    if sid :| OfAddress(sid, c.org, c.email) in st.proofs {
      ProofsHappened(env, host, events, OfAddress(sid, c.org, c.email));
    } else {
      var link :| OfMailbox(cid, link) in st.proofs && Proves(host, link, c.email);
      ProofsHappened(env, host, events, OfMailbox(cid, link));
    }
  }

  /** An identified session is only ever on the contact of its own external id, in its organization. */
  lemma IdentifiedSessionIsOnItsContact(env: Env, host: Host, events: seq<Event>, sid: Id)
    requires var db := Run(env, host, EMPTY, events).db;
      sid in db.sessions && db.sessions[sid].externalId != "" && db.sessions[sid].contact.Some?
    ensures var db := Run(env, host, EMPTY, events).db;
      var s := db.sessions[sid];
      && HoldsExternalId(db.contacts, s.org, s.externalId, s.contact.value)
      && (forall o :: HoldsExternalId(db.contacts, s.org, s.externalId, o) ==> o == s.contact.value)
      && Happened(env, host, events, OfUser(sid, s.org, s.externalId))
  {
    var st := Run(env, host, EMPTY, events);
    EmptyIsSound(host);
    RunKeepsInvariant(env, host, EMPTY, events);
    var s := st.db.sessions[sid];
    assert LinkHolds(st.db.contacts, s) && SessionHonest(st.proofs, sid, s);
    ProofsHappened(env, host, events, OfUser(sid, s.org, s.externalId));
    forall o | HoldsExternalId(st.db.contacts, s.org, s.externalId, o) ensures o == s.contact.value {
      assert !ContactsClash(st.db.contacts, o, s.contact.value);
    }
  }
}
