/**
 What an anonymization leaves of every row, by the rows alone: which are the contact's,
 and what is put in place of what they held (backend/apps/contacts/gdpr.py:20-345).
 */
module ErasureFacts {
  import opened Text
  import opened Rows
  import opened Anonymization

  // The contact's own

  /** On the contact, or in its organization and of one of its sessions, on nobody, or of its external id. */
  predicate IsIts(db: Db, cid: Id, t: Ticket)
    requires cid in db.contacts
  {
    var c := db.contacts[cid];
    || t.contact == Some(cid)
    || (t.org == c.org && c.externalId != "" && t.externalId == c.externalId)
    || (&& t.org == c.org && t.contact.None?
        && t.session.Some? && t.session.value in db.sessions && db.sessions[t.session.value].contact == Some(cid))
  }

  /** The account is that of the ticket's requester, and nobody's of the organization's staff. */
  predicate IsRequester(db: Db, account: Option<Id>, t: Ticket) {
    && account.Some? && account.value in db.users && t.requester == account
    && (db.users[account.value].role.EndUser? || db.users[account.value].org != Some(t.org))
  }

  predicate OnIts(db: Db, cid: Id, ticket: Id)
    requires cid in db.contacts
  {
    ticket in db.tickets && IsIts(db, cid, db.tickets[ticket])
  }

  // What is left

  const NO_PROFILE := Profile("Anonymized contact", "", "", "", "", "")

  /** The contact's row: its visits, its organization and whether it unsubscribed, and nothing it said. */
  lemma ContactIs(env: Env, db: Db, cid: Id, newEmail: string, now: Time)
    requires cid in db.contacts
    ensures var c, c1 := db.contacts[cid], Anonymized(env, db, cid, newEmail, now).contacts[cid];
      && c1.email == (if c.anonymized && EndsWith(c.email, "@example.invalid") then c.email else newEmail)
      && c1 == Contact(c.org, None, c1.email, None, "", "", NO_PROFILE, c.firstSeen, c.lastSeen, None, c.unsubscribed, true,
                       Dict(map[]), c1.updatedAt)
      && c1.updatedAt == (if c1.(updatedAt := c.updatedAt) == c then c.updatedAt else now)
  {}

  /** Each session that was on it is on none, and blank. No other is touched. */
  lemma SessionsAre(env: Env, db: Db, cid: Id, newEmail: string, now: Time)
    requires cid in db.contacts
    ensures var after := Anonymized(env, db, cid, newEmail, now).sessions;
      && after.Keys == db.sessions.Keys
      && forall k :: k in db.sessions ==>
           var s := db.sessions[k];
           after[k] == if s.contact == Some(cid)
                       then Session(s.org, "", "", "", "", None, None, "", NoProof, s.lastSeenAt, s.updatedAt, s.createdAt)
                       else s
  {}

  /** What may stay of a ticket's metadata: a ticket's id, or a short word on the visitor's browser. */
  predicate MayStay(env: Env, key: string, value: Json) {
    && value.JString?
    && if key == "previous_ticket" then env.isUuid(value.text)
       else && key in {"browser", "os", "language", "timezone", "screen_resolution"}
            && |value.text| <= 100 && '@' !in value.text
  }

  /** A ticket of the contact: its place, source and dates, who of the staff filed it, and what may stay of its metadata. */
  ghost predicate IsBlanked(env: Env, db: Db, cid: Id, email: string, t: Ticket, t1: Ticket, now: Time) {
    && t1.org == t.org && t1.source == t.source && t1.createdAt == t.createdAt
    && t1.session.None? && t1.contact == (if t.contact.Some? then Some(cid) else None)
    && t1.requester == (if && t.requester.Some? && t.requester.value in db.users
                           && db.users[t.requester.value].role.EndUser? && !db.users[t.requester.value].superuser
                        then None else t.requester)
    && t1.title == "[Removed at the contact's request]" && t1.description == "[Content removed at the contact's request]"
    && t1.requesterName == "Anonymized contact" && t1.requesterEmail == email
    && t1.externalId == "" && t1.contextUrl == "" && t1.contextUserAgent == ""
    && t1.metadata.Dict?
    && (forall key :: key in t1.metadata.entries <==> key in Entries(t.metadata) && MayStay(env, key, Entries(t.metadata)[key]))
    && (forall key :: key in t1.metadata.entries ==> t1.metadata.entries[key] == Entries(t.metadata)[key])
    && t1.updatedAt == (if t1.(updatedAt := t.updatedAt) == t then t.updatedAt else now)
  }

  lemma TicketIs(env: Env, db: Db, cid: Id, email: string, t: Ticket, now: Time)
    ensures IsBlanked(env, db, cid, email, t, ScrubbedTicket(env, db, cid, email, t, now), now)
  {}

  lemma SameIts(db: Db, cid: Id, t: Ticket)
    requires cid in db.contacts
    ensures IsIts(db, cid, t) == IsTicketOf(db, cid, db.contacts[cid], t)
  {}

  lemma SameRequester(db: Db, account: Option<Id>, t: Ticket)
    ensures IsRequester(db, account, t) == TheRequester(db, account, t)
  {}

  lemma TicketsAre(env: Env, db: Db, cid: Id, newEmail: string, now: Time)
    requires cid in db.contacts
    ensures var after := Anonymized(env, db, cid, newEmail, now);
      && after.tickets.Keys == db.tickets.Keys
      && forall k :: k in db.tickets ==>
           if IsIts(db, cid, db.tickets[k])
           then IsBlanked(env, db, cid, after.contacts[cid].email, db.tickets[k], after.tickets[k], now)
           else after.tickets[k] == db.tickets[k]
  {
    var after := Anonymized(env, db, cid, newEmail, now);
    forall k | k in db.tickets
      ensures if IsIts(db, cid, db.tickets[k])
              then IsBlanked(env, db, cid, after.contacts[cid].email, db.tickets[k], after.tickets[k], now)
              else after.tickets[k] == db.tickets[k]
    {
      SameIts(db, cid, db.tickets[k]);
      TicketIs(env, db, cid, after.contacts[cid].email, db.tickets[k], now);
    }
  }

  /** Its own messages, and those of its requester's account, are emptied, and its address is no message's sender. */
  predicate IsSilenced(db: Db, cid: Id, m: Message, m1: Message, now: Time)
    requires cid in db.contacts
  {
    var email := db.contacts[cid].email;
    var its := OnIts(db, cid, m.ticket) && (m.sender.FromUser? || IsRequester(db, m.author, db.tickets[m.ticket]));
    var names :=
      && email != "" && m.ticket in db.tickets && db.tickets[m.ticket].org == db.contacts[cid].org
      && (|| Lower(m.externalSender) == Lower(email) || EndsWith(Lower(m.externalSender), Lower("<" + email + ">")));
    && m1.ticket == m.ticket && m1.sender == m.sender && m1.author == m.author
    && (its ==> m1.body == "[Content removed at the contact's request]" && m1.isText && m1.session.None?
                && m1.externalId == "")
    && (!its ==> m1.body == m.body && m1.isText == m.isText && m1.session == m.session && m1.externalId == m.externalId)
    && m1.externalSender == (if its || names then "" else m.externalSender)
    && m1.updatedAt == (if m1.(updatedAt := m.updatedAt) == m && !names then m.updatedAt else now)
  }

  lemma MessagesAre(env: Env, db: Db, cid: Id, newEmail: string, now: Time)
    requires cid in db.contacts
    ensures var after := Anonymized(env, db, cid, newEmail, now).messages;
      && after.Keys == db.messages.Keys
      && forall k :: k in db.messages ==> IsSilenced(db, cid, db.messages[k], after[k], now)
  {
    var after := Anonymized(env, db, cid, newEmail, now).messages;
    forall k | k in db.messages ensures IsSilenced(db, cid, db.messages[k], after[k], now) {
      MessageIs(db, cid, db.messages[k], now);
    }
  }

  lemma MessageIs(db: Db, cid: Id, m: Message, now: Time)
    requires cid in db.contacts
    ensures IsSilenced(db, cid, m, AnonymizedMessage(db, cid, db.contacts[cid], m, now), now)
  {
    if m.ticket in db.tickets {
      SameIts(db, cid, db.tickets[m.ticket]);
      SameRequester(db, m.author, db.tickets[m.ticket]);
    }
  }

  // What goes

  /** Uploaded on its tickets by the widget, by an account since gone, or by the requester's. */
  predicate IsItsUpload(db: Db, cid: Id, u: Upload)
    requires cid in db.contacts
  {
    OnIts(db, cid, u.ticket) && (u.uploadedBy.None? || IsRequester(db, u.uploadedBy, db.tickets[u.ticket]))
  }

  /** Of its tickets, or from its address to the organization. */
  predicate IsItsMail(db: Db, cid: Id, mail: StoredMail)
    requires cid in db.contacts
  {
    var c := db.contacts[cid];
    || (mail.ticket.Some? && OnIts(db, cid, mail.ticket.value))
    || (&& c.email != "" && mail.sender == c.email
        && (|| mail.mailboxOrg == Some(c.org)
            || (mail.ticket.Some? && mail.ticket.value in db.tickets && db.tickets[mail.ticket.value].org == c.org)))
  }

  /** A widget's, of the organization, mailed to its address or for one of its sessions. */
  predicate IsItsCode(db: Db, cid: Id, code: OneTimeCode)
    requires cid in db.contacts
  {
    var c := db.contacts[cid];
    && code.forWidget && code.org == Some(c.org)
    && (|| (c.email != "" && code.email == c.email)
        || (code.session.Some? && code.session.value in db.sessions && db.sessions[code.session.value].contact == Some(cid)))
  }

  /** Exactly its notes, uploads, mails and codes go, and what stays is as it was. */
  lemma TracesAre(env: Env, db: Db, cid: Id, newEmail: string, now: Time)
    requires cid in db.contacts
    ensures var after := Anonymized(env, db, cid, newEmail, now);
      && (forall k :: k in after.notes <==> k in db.notes && db.notes[k].contact != cid)
      && (forall k :: k in after.uploads <==> k in db.uploads && !IsItsUpload(db, cid, db.uploads[k]))
      && (forall k :: k in after.mails <==> k in db.mails && !IsItsMail(db, cid, db.mails[k]))
      && (forall k :: k in after.codes <==> k in db.codes && !IsItsCode(db, cid, db.codes[k]))
      && (forall k :: k in after.notes ==> after.notes[k] == db.notes[k])
      && (forall k :: k in after.uploads ==> after.uploads[k] == db.uploads[k])
      && (forall k :: k in after.mails ==> after.mails[k] == db.mails[k])
      && (forall k :: k in after.codes ==> after.codes[k] == db.codes[k])
      && after.users == db.users && after.companies == db.companies
      && after.contacts == db.contacts[cid := after.contacts[cid]]
  {
    forall t ensures IsIts(db, cid, t) == IsTicketOf(db, cid, db.contacts[cid], t) {
      SameIts(db, cid, t);
    }
    forall account, t ensures IsRequester(db, account, t) == TheRequester(db, account, t) {
      SameRequester(db, account, t);
    }
  }
}
