/**
 A requester's message, and the mail and links that name a contact, as they write the
 rows (backend/apps/tickets/messages.py:17-87, backend/apps/contacts/services.py:203-230 and 687-707).
 */
module Messages {
  import opened Rows
  import opened Resolution
  import opened Desk
  import opened LoginMove
  import opened Machine
  import opened Safety

  const LOCK_ATTEMPTS: nat := 3

  datatype Locked = Gone | Changing | Held(contact: Option<Id>)

  /**
   The tables as others leave them, in turn: before each attempt reads the ticket's
   contact, and before it locks that contact and the ticket.
   */
  datatype Others = Others(reading: seq<Db>, locking: seq<Db>)

  ghost predicate ForEachAttempt(others: Others) {
    |others.reading| == 3 && |others.locking| == 3
  }

  function ContactOf(db: Db, tid: Id): Option<Id> {
    if tid in db.tickets then db.tickets[tid].contact else None
  }

  /** The ticket is there, on another contact than the attempt read. */
  ghost predicate MovedOn(others: Others, tid: Id, attempt: nat)
    requires ForEachAttempt(others) && attempt < 3
  {
    && tid in others.locking[attempt].tickets
    && others.locking[attempt].tickets[tid].contact != ContactOf(others.reading[attempt], tid)
  }

  /** The attempt that ends it: the first on a ticket that stayed, or else the last one. */
  ghost predicate EndsAt(others: Others, tid: Id, attempt: nat)
    requires ForEachAttempt(others)
  {
    && attempt < 3
    && (forall k :: 0 <= k < attempt ==> MovedOn(others, tid, k))
    && (MovedOn(others, tid, attempt) ==> attempt == 2)
  }

  /**
   `lock_ticket_with_contact`: each attempt reads the ticket's contact, then locks that
   contact and the ticket, which may have changed contact meanwhile, or be gone.
   */
  method LockTicketWithContact(db: Tables, tid: Id, others: Others) returns (lock: Locked, ghost attempt: nat)
    requires ForEachAttempt(others)
    modifies db
    ensures EndsAt(others, tid, attempt) && db.Contents() == others.locking[attempt]
    ensures lock.Gone? <==> tid !in db.tickets
    ensures lock.Changing? <==> MovedOn(others, tid, attempt)
    ensures lock.Held? ==>
      tid in db.tickets && lock.contact == db.tickets[tid].contact == ContactOf(others.reading[attempt], tid)
  {
    attempt := 0;
    var n := 0;
    while n < LOCK_ATTEMPTS
      invariant n <= LOCK_ATTEMPTS && attempt == (if n == 0 then 0 else n - 1)
      invariant forall k :: 0 <= k < n ==> MovedOn(others, tid, k)
      invariant n > 0 ==> db.Contents() == others.locking[n - 1] && tid in db.tickets
    {
      attempt := n;
      db.Become(others.reading[n]);
      var seen := None;
      if tid in db.tickets {
        seen := db.tickets[tid].contact;
      }
      db.Become(others.locking[n]);
      if tid !in db.tickets {
        return Gone, attempt;
      }
      if db.tickets[tid].contact == seen {
        return Held(seen), attempt;
      }
      n := n + 1;
    }
    return Changing, attempt;
  }

  /** `create_user_message`: true if it was written, on the session the ticket is on under the lock. */
  method CreateUserMessage(db: Tables, d: Draft, newId: Id, now: Time, others: Others)
    returns (written: bool, ghost attempt: nat)
    requires ForEachAttempt(others)
    modifies db
    ensures EndsAt(others, d.ticket, attempt)
    ensures written <==> !MovedOn(others, d.ticket, attempt) && !Refused(others.locking[attempt], d)
    ensures written ==>
      db.Contents() == Posted(others.locking[attempt], d, newId, now)
    ensures !written ==> db.Contents() == others.locking[attempt]
  {
    var lock;
    lock, attempt := LockTicketWithContact(db, d.ticket, others);
    if !lock.Held? {
      return false, attempt;
    }
    if lock.contact.Some? && lock.contact.value in db.contacts && db.contacts[lock.contact.value].anonymized {
      return false, attempt;
    }
    var t := db.tickets[d.ticket];
    var session := t.session;
    if d.writer.Some? && d.foundOn != d.writer {
      session := d.writer;
    }
    if d.onlyContacts && session.Some? {
      var itsContacts := session.value in db.sessions && t.contact.Some? && db.sessions[session.value].contact == t.contact;
      if !itsContacts {
        session := None;
      }
    }
    db.messages := db.messages[newId := Message(d.ticket, session, FromUser, None, d.body, d.isText, "", "", now)];
    return true, attempt;
  }

  /** `resolve_contact_for_email`: the contact of a declared address, whose only write on one that exists is its company. */
  method ResolveContactForEmail(db: Tables, env: Env, org: Id, address: string, name: string, now: Time, newId: Id)
    returns (contact: Option<Id>)
    requires db.Valid() && newId !in db.contacts
    modifies db`contacts
    ensures CleanEmail(env, address) == "" ==> contact.None? && db.Contents() == old(db.Contents())
    ensures CleanEmail(env, address) != "" ==>
      db.Contents() == Received(env, old(db.Contents()), org, CleanEmail(env, address), name, now, newId)
    ensures CleanEmail(env, address) != "" ==>
      var holder := ByEmail(old(db.contacts), org, CleanEmail(env, address));
      contact.None? <==> holder.Some? && old(db.contacts)[holder.value].anonymized
    ensures contact.Some? ==>
      contact.value in db.contacts && !db.contacts[contact.value].anonymized && db.contacts[contact.value].org == org
      && db.contacts[contact.value].email == CleanEmail(env, address)
  {
    var email := CleanEmail(env, address);
    if email == "" {
      return None;
    }
    ghost var before := db.Contents();
    var id, created, loaded, draft := db.FindOrCreateByEmail(org, email, CleanName(env, name), now, newId);
    ReceivedFrom(env, before, org, email, name, now, newId, Found(db.contacts, id, created, loaded, draft),
                 CompanyFilled(env, before.companies, draft, now));
    FillingLinksCompany(env, before.companies, draft, now);
    if draft.anonymized {
      return None;
    }
    if draft.externalId == "" || draft.verifiedAt.Some? {
      var linked := db.AutolinkCompany(env, draft);
      db.contacts := db.contacts[id := Saved(draft, linked, now)];
    }
    return Some(id);
  }

  /** `mark_email_proven`: of the address the contact has now, keeping the first date. */
  method MarkEmailProven(db: Tables, host: Host, id: Id, link: string, now: Time) returns (verified: bool)
    modifies db`contacts
    ensures verified <==>
      id in old(db.contacts) && !old(db.contacts[id]).anonymized && Proves(host, link, old(db.contacts[id]).email)
    ensures id in old(db.contacts) ==>
      db.contacts == old(db.contacts)[id := EmailProvenByLink(host, old(db.contacts[id]), link, now)]
    ensures id !in old(db.contacts) ==> db.contacts == old(db.contacts)
    ensures verified ==> db.contacts[id].verifiedAt.Some?
  {
    verified := false;
    if id in db.contacts {
      var c := db.contacts[id];
      assert db.contacts[id := c] == db.contacts;
      if !c.anonymized && Proves(host, link, c.email) {
        verified := true;
        if c.verifiedAt.None? {
          db.contacts := db.contacts[id := c.(verifiedAt := Some(now), updatedAt := now)];
        }
      }
    }
  }
}
