/** Which tickets a session sees, and which sessions see a ticket (backend/apps/tickets/access.py). */
module Access {
  import opened Text
  import opened Rows

  /** A signed external id on the session's contact, or a proof of the address it holds. */
  predicate ContactHistoryOpens(db: Db, s: Session) {
    && s.contact.Some? && s.contact.value in db.contacts
    && var c := db.contacts[s.contact.value];
       && !c.anonymized
       && if s.externalId != "" then c.externalId == s.externalId else ProofHolds(s, c)
  }

  predicate Sees(db: Db, sid: Id, tid: Id) {
    && sid in db.sessions && tid in db.tickets
    && var s, t := db.sessions[sid], db.tickets[tid];
       && t.org == s.org
       && (|| t.session == Some(sid)
           || (s.externalId != "" && t.externalId == s.externalId)
           || (ContactHistoryOpens(db, s) && t.contact == s.contact))
  }

  /** A condition on sessions, as `ticket_session_ids` puts one to the database. */
  datatype Query =
    | WithKey(sid: Id)
    | WithExternalId(externalId: string)
    | OnContactAs(contact: Id, externalId: string)
    | ProvenOnContact(contact: Id, email: string)

  predicate Matches(sid: Id, s: Session, q: Query) {
    match q
    case WithKey(id) => sid == id
    case WithExternalId(externalId) => s.externalId == externalId
    case OnContactAs(contact, externalId) => s.contact == Some(contact) && s.externalId == externalId
    case ProvenOnContact(contact, email) =>
      s.contact == Some(contact) && s.externalId == "" && s.verifiedAt.Some? && s.verifiedFor == email
  }

  predicate MatchesAny(sid: Id, s: Session, queries: seq<Query>) {
    exists i :: 0 <= i < |queries| && Matches(sid, s, queries[i])
  }

  /**
   The sessions where a ticket's replies show: those that see it, and no other. The
   queries only narrow what is then checked by the rule itself.
   */
  method TicketSessionIds(db: Db, tid: Id) returns (ids: set<Id>)
    requires tid in db.tickets
    requires db.tickets[tid].contact.Some? ==> db.tickets[tid].contact.value in db.contacts
    ensures ids == set sid | sid in db.sessions && Sees(db, sid, tid)
  {
    var t := db.tickets[tid];
    var queries := Queries(db, t);
    ids := set sid | sid in db.sessions && MatchesAny(sid, db.sessions[sid], queries)
      && db.sessions[sid].org == t.org && Kept(db, sid, t);
    forall sid | sid in db.sessions ensures sid in ids <==> Sees(db, sid, tid) {
      NarrowingIsExact(db, sid, tid, queries);
    }
  }

  /** Those of them that the ticket has something for. */
  method Queries(db: Db, t: Ticket) returns (queries: seq<Query>)
    requires t.contact.Some? ==> t.contact.value in db.contacts
    ensures queries == QueriesOf(db, t)
  {
    queries := [];
    if t.session.Some? {
      queries := queries + [WithKey(t.session.value)];
    }
    if t.externalId != "" {
      queries := queries + [WithExternalId(t.externalId)];
    }
    if t.contact.Some? && !db.contacts[t.contact.value].anonymized {
      var c := db.contacts[t.contact.value];
      if c.externalId != "" {
        queries := queries + [OnContactAs(t.contact.value, c.externalId)];
      }
      if Normalized(c.email) != "" {
        queries := queries + [ProvenOnContact(t.contact.value, Normalized(c.email))];
      }
    }
  }

  /** The check made of each session the queries found. */
  predicate Kept(db: Db, sid: Id, t: Ticket)
    requires sid in db.sessions
  {
    var s := db.sessions[sid];
    t.session == Some(sid) || (t.externalId != "" && s.externalId == t.externalId) || ContactHistoryOpens(db, s)
  }

  /** The queries of a ticket. */
  function QueriesOf(db: Db, t: Ticket): seq<Query>
    requires t.contact.Some? ==> t.contact.value in db.contacts
  {
    (if t.session.Some? then [WithKey(t.session.value)] else [])
    + (if t.externalId != "" then [WithExternalId(t.externalId)] else [])
    + (if t.contact.Some? && !db.contacts[t.contact.value].anonymized then
         var c := db.contacts[t.contact.value];
         (if c.externalId != "" then [OnContactAs(t.contact.value, c.externalId)] else [])
         + (if Normalized(c.email) != "" then [ProvenOnContact(t.contact.value, Normalized(c.email))] else [])
       else [])
  }

  /** Found by the queries and kept by the check, exactly when the session sees the ticket. */
  lemma NarrowingIsExact(db: Db, sid: Id, tid: Id, queries: seq<Query>)
    requires tid in db.tickets && sid in db.sessions
    requires db.tickets[tid].contact.Some? ==> db.tickets[tid].contact.value in db.contacts
    requires queries == QueriesOf(db, db.tickets[tid])
    ensures MatchesAny(sid, db.sessions[sid], queries)
        && db.sessions[sid].org == db.tickets[tid].org && Kept(db, sid, db.tickets[tid])
      <==> Sees(db, sid, tid)
  {
    var s, t := db.sessions[sid], db.tickets[tid];
    if Sees(db, sid, tid) {
      if t.session == Some(sid) {
        assert Matches(sid, s, queries[0]);
      } else if s.externalId != "" && t.externalId == s.externalId {
        var i := if t.session.Some? then 1 else 0;
        assert Matches(sid, s, queries[i]);
      } else {
        var c := db.contacts[t.contact.value];
        var last := if Normalized(c.email) != "" then |queries| - 1 else |queries|;
        if s.externalId != "" {
          assert Matches(sid, s, queries[last - 1]);
        } else {
          assert Matches(sid, s, queries[|queries| - 1]);
        }
      }
    }
  }
}
