/**
 The database as the services write it, row by row: each method is a transaction, or a
 part of one, and is proved to leave what the functions of the model say.
 (backend/apps/contacts/services.py)
 */
module Desk {
  import opened Text
  import opened Rows
  import opened Resolution
  import opened Uniqueness

  lemma SettlingReadsFoundContacts(env: Env, db: Db, f: Lookup, k: Claims, p: Payload, now: Time, newId: Id)
    requires f.Found?
    ensures Settle(env, db.(contacts := f.contacts), f, k, p, now, newId) == Settle(env, db, f, k, p, now, newId)
  {}

  lemma FoundResolves(
    env: Env, db: Db, sid: Id, s: Session, k: Claims, p: Payload, now: Time, ids: NewIds, f: Lookup, settled: Settled)
    requires f == LookedUp(db.contacts, k, p, now, ids.contact) && f.Found? && !f.draft.anonymized
    requires settled == Settle(env, db, f, k, p, now, ids.company)
    ensures var (db1, s1) := SessionSaved(settled.db, sid, s, f.id, settled.proven, k.email, p.source, now);
      Resolve(env, db, sid, s, k, p, now, ids) == Outcome(db1, Some(f.id), s1)
  {}

  class Tables {
    var contacts: Contacts
    var sessions: map<Id, Session>
    var tickets: map<Id, Ticket>
    var messages: map<Id, Message>
    var companies: Companies
    var notes: map<Id, Note>
    var uploads: map<Id, Upload>
    var mails: map<Id, StoredMail>
    var codes: map<Id, OneTimeCode>
    var users: map<Id, User>

    ghost function Contents(): Db
      reads this
    {
      Db(contacts, sessions, tickets, messages, companies, notes, uploads, mails, codes, users)
    }

    /** The unique constraints hold. */
    ghost predicate Valid()
      reads this
    {
      Unique(Contents())
    }

    /** The tables as they are. */
    method Snapshot() returns (view: Db)
      ensures view == Contents()
    {
      view := Db(contacts, sessions, tickets, messages, companies, notes, uploads, mails, codes, users);
    }

    /** The transactions of others, as this one sees the tables once they committed. */
    method Become(other: Db)
      modifies this
      ensures Contents() == other
    {
      contacts := other.contacts;
      sessions := other.sessions;
      tickets := other.tickets;
      messages := other.messages;
      companies := other.companies;
      notes := other.notes;
      uploads := other.uploads;
      mails := other.mails;
      codes := other.codes;
      users := other.users;
    }

    // Lookups

    method FindByEmail(org: Id, email: string) returns (found: Option<Id>)
      requires UniqueContacts(contacts) && email != ""
      ensures found == ByEmail(contacts, org, email)
    {
      found := None;
      if id :| id in contacts && HoldsEmail(contacts, org, email, id) {
        ByEmailIs(contacts, org, email, id);
        found := Some(id);
      }
    }

    method FindByExternalId(org: Id, externalId: string) returns (found: Option<Id>)
      requires UniqueContacts(contacts) && externalId != ""
      ensures found == ByExternalId(contacts, org, externalId)
    {
      found := None;
      if id :| id in contacts && HoldsExternalId(contacts, org, externalId, id) {
        ByExternalIdIs(contacts, org, externalId, id);
        found := Some(id);
      }
    }

    method FindEmailOnlyHolder(org: Id, email: string) returns (found: Option<Id>)
      requires UniqueContacts(contacts) && email != ""
      ensures found == EmailOnlyHolder(contacts, org, email)
    {
      found := None;
      if id :| id in contacts && HoldsEmailOnly(contacts, org, email, id) {
        forall o | HoldsEmailOnly(contacts, org, email, o) ensures o == id {
          assert !ContactsClash(contacts, o, id);
        }
        found := Some(id);
      }
    }

    // Finding the contact

    /** `_find_identified`: the contact of the external id, an email-only one it takes over, or a new one. */
    method FindIdentified(org: Id, externalId: string, provenEmail: string, now: Time, newId: Id)
      returns (id: Id, loaded: Contact, draft: Contact)
      requires UniqueContacts(contacts) && externalId != ""
      modifies this`contacts
      ensures Found(contacts, id, false, loaded, draft)
           == Resolution.FindIdentified(old(contacts), org, externalId, provenEmail, now, newId)
    {
      var found := FindByExternalId(org, externalId);
      if found.Some? {
        return found.value, contacts[found.value], contacts[found.value];
      }
      if provenEmail != "" {
        found := FindEmailOnlyHolder(org, provenEmail);
        if found.Some? {
          return found.value, contacts[found.value], contacts[found.value].(externalId := externalId);
        }
      }
      draft := NewContact(org, "", externalId, "", now);
      contacts := contacts[newId := draft];
      return newId, draft, draft;
    }

    /** `_get_or_create_locked` on an email. */
    method FindOrCreateByEmail(org: Id, email: string, name: string, now: Time, newId: Id)
      returns (id: Id, created: bool, loaded: Contact, draft: Contact)
      requires UniqueContacts(contacts) && email != ""
      modifies this`contacts
      ensures Found(contacts, id, created, loaded, draft)
           == Resolution.FindOrCreateByEmail(old(contacts), org, email, name, now, newId)
    {
      var found := FindByEmail(org, email);
      if found.Some? {
        return found.value, false, contacts[found.value], contacts[found.value];
      }
      draft := NewContact(org, email, "", name, now);
      contacts := contacts[newId := draft];
      return newId, true, draft, draft;
    }

    // Its email

    /** What a contact takes of an email-only one: its blanks, the extreme dates, then its email. */
    method TakeValues(contact: Contact, theirs: Contact) returns (draft: Contact)
      ensures draft == Absorbing(contact, theirs)
    {
      draft := contact.(profile := FilledProfile(contact.profile, theirs.profile));
      if theirs.company.Some? && draft.company.None? {
        draft := draft.(company := theirs.company);
      }
      if Entries(theirs.attributes) != map[] && draft.attributes.Dict? {
        draft := draft.(attributes := Dict(Entries(theirs.attributes) + draft.attributes.entries));
      }
      if theirs.unsubscribed {
        draft := draft.(unsubscribed := true);
      }
      draft := draft.(firstSeen := Earliest(draft.firstSeen, theirs.firstSeen),
                      lastSeen := Latest(draft.lastSeen, theirs.lastSeen),
                      lastContacted := Latest(draft.lastContacted, theirs.lastContacted));
      // The date it was verified at, if any, was of the email it had before.
      draft := draft.(email := theirs.email, verifiedAt := None);
    }

    /** `_absorb_email_only_contact`: sessions before tickets, then the row goes, which frees its email. */
    method AbsorbEmailOnlyContact(id: Id, contact: Contact, other: Id) returns (draft: Contact)
      requires other in contacts
      modifies this`contacts, this`sessions, this`tickets, this`notes
      ensures Contents() == AbsorbedInto(old(Contents()), id, other)
      ensures draft == Absorbing(contact, old(contacts[other]))
    {
      draft := TakeValues(contact, contacts[other]);
      sessions := map k | k in sessions ::
        if sessions[k].contact == Some(other) then sessions[k].(contact := Some(id)) else sessions[k];
      tickets := map k | k in tickets ::
        if tickets[k].contact == Some(other) then tickets[k].(contact := Some(id)) else tickets[k];
      notes := map k | k in notes :: if notes[k].contact == other then notes[k].(contact := id) else notes[k];
      contacts := contacts - {other};
    }

    /** `_record_identified_email`. */
    method RecordIdentifiedEmail(id: Id, contact: Contact, email: string, verified: bool) returns (draft: Contact)
      requires UniqueContacts(contacts) && email != ""
      modifies this`contacts, this`sessions, this`tickets, this`notes
      ensures (Contents(), draft) == RecordedEmail(old(Contents()), id, contact, email, verified)
    {
      draft := contact;
      if !verified {
        draft := draft.(declared := if email == contact.email then "" else email);
      } else if contact.email == "" {
        var other := FindEmailOnlyHolder(contact.org, email);
        if other.Some? {
          draft := AbsorbEmailOnlyContact(id, contact, other.value);
        } else {
          var owner := FindByEmail(contact.org, email);
          if owner.None? {
            draft := draft.(email := email, verifiedAt := None);
          }
        }
      }
    }

    /** What a proof, or an identified session, may say of the contact. */
    method TakeClaims(contact: Contact, k: Claims, p: Payload, now: Time) returns (draft: Contact)
      ensures draft == Claimed(contact, k, p, now)
    {
      draft := contact;
      // The visitor's own address, not one this contact was given otherwise.
      var proven := p.verified && k.email != "" && contact.email == k.email;
      if proven {
        draft := draft.(verifiedAt := if draft.verifiedAt.Some? then draft.verifiedAt else Some(now));
        if draft.declared == k.email {
          draft := draft.(declared := "");
        }
      }
      if k.identified || proven {
        if k.name != "" && draft.profile.name == "" {
          draft := draft.(profile := draft.profile.(name := k.name));
        }
        draft := draft.(attributes := Merged(draft.attributes, p.traits));
      }
    }

    /** Its email declared, or proven, and what the browser says of it then. */
    method Identify(id: Id, contact: Contact, k: Claims, p: Payload, now: Time) returns (draft: Contact)
      requires UniqueContacts(contacts)
      modifies this`contacts, this`sessions, this`tickets, this`notes
      ensures (Contents(), draft) == Identified(old(Contents()), id, contact, k, p, now)
    {
      draft := contact;
      if k.identified && k.email != "" {
        draft := RecordIdentifiedEmail(id, contact, k.email, p.verified);
      }
      draft := TakeClaims(draft, k, p, now);
    }

    // Its company

    method FindCompany(org: Id, externalId: string) returns (found: Option<Id>)
      requires UniqueCompanies(companies) && externalId != ""
      ensures found == CompanyByExternalId(companies, org, externalId)
    {
      found := None;
      if id :| id in companies && IsCompany(companies, org, externalId, id) {
        CompanyIs(companies, org, externalId, id);
        found := Some(id);
      }
    }

    method FindOnDomain(org: Id, domain: string) returns (found: Option<Id>)
      requires UniqueCompanies(companies) && domain != ""
      ensures found == CompanyOnDomain(companies, org, domain)
    {
      found := None;
      if id :| id in companies && OnDomain(companies, org, domain, id) {
        forall o | OnDomain(companies, org, domain, o) ensures o == id {
          assert !CompaniesClash(companies, o, id);
        }
        found := Some(id);
      }
    }

    /** `_upsert_signed_company`. */
    method UpsertSignedCompany(org: Id, claim: CompanyClaim, now: Time, newId: Id) returns (id: Id)
      requires UniqueCompanies(companies) && newId !in companies && claim.externalId != ""
      modifies this`companies
      ensures (companies, Some(id)) == SignedCompany(old(companies), org, claim, now, newId)
      ensures UniqueCompanies(companies)
    {
      SignedCompanyIsUnique(companies, org, claim, now, newId);
      var found := FindCompany(org, claim.externalId);
      if found.Some? {
        id := found.value;
        assert companies[id := companies[id]] == companies;
      } else {
        id := newId;
        var created := Company(org, claim.externalId, claim.name, "", Dict(claim.traits), now);
        CompanySavingKeepsUnique(companies, id, created);
        companies := companies[id := created];
      }
      var row := companies[id];
      var edited := row.(name := claim.name);
      if claim.domain != "" && claim.domain != row.domain {
        var owner := FindOnDomain(org, claim.domain);
        if owner.None? {
          edited := edited.(domain := claim.domain);
        }
      }
      var saved := if edited == row then row else edited.(updatedAt := now);
      assert companies[id := saved] == old(companies)[id := saved];
      companies := companies[id := saved];
    }

    /** `_get_or_create_unsigned_company`. */
    method LinkUnsignedCompany(env: Env, org: Id, claim: CompanyClaim, provenEmail: string, now: Time, newId: Id)
      returns (id: Id)
      requires UniqueCompanies(companies) && newId !in companies && claim.externalId != ""
      modifies this`companies
      ensures (companies, Some(id)) == UnsignedCompany(env, old(companies), org, claim, provenEmail, now, newId)
    {
      var found := FindCompany(org, claim.externalId);
      if found.Some? {
        return found.value;
      }
      var domain := claim.domain;
      if domain == "" || domain != EmailDomain(provenEmail) || env.publicDomain(domain) {
        domain := "";
      } else {
        var owner := FindOnDomain(org, domain);
        if owner.Some? {
          domain := "";
        }
      }
      companies := companies[newId := Company(org, claim.externalId, claim.name, domain, Dict(claim.traits), now)];
      return newId;
    }

    /** `_resolve_company`, and the link it may move. */
    method LinkCompany(env: Env, contact: Contact, k: Claims, p: Payload, now: Time, newId: Id)
      returns (draft: Contact)
      requires UniqueCompanies(companies) && newId !in companies
      modifies this`companies
      ensures (companies, draft) == WithCompany(env, old(companies), contact, k, p, now, newId)
      ensures UniqueCompanies(companies)
    {
      CompanyIsUnique(env, companies, contact, k, p, now, newId);
      draft := contact;
      if && k.identified && (p.companyVerified || contact.company.None?)
         && p.company.Some? && p.company.value.externalId != "" && p.company.value.name != "" {
        var proven := p.verified && k.email != "" && contact.email == k.email;
        var id;
        if p.companyVerified {
          id := UpsertSignedCompany(k.org, p.company.value, now, newId);
        } else {
          id := LinkUnsignedCompany(env, k.org, p.company.value, if proven then k.email else "", now, newId);
        }
        draft := draft.(company := Some(id));
      }
    }

    /** `_autolink_company`. */
    method AutolinkCompany(env: Env, contact: Contact) returns (draft: Contact)
      requires UniqueCompanies(companies)
      ensures draft == Autolinked(env, companies, contact)
    {
      draft := contact;
      if contact.company.None? && contact.email != "" {
        var domain := EmailDomain(contact.email);
        if domain != "" && !env.publicDomain(domain) {
          var company := FindOnDomain(contact.org, domain);
          draft := draft.(company := company);
        }
      }
    }

    // The pass

    /** The company of its email's domain, the visit, and what is then saved, if anything changed. */
    method FinishContact(env: Env, f: Lookup, contact: Contact, k: Claims, p: Payload, now: Time)
      returns (draft: Contact)
      requires f.Found? && UniqueCompanies(companies)
      ensures draft == Saved(f.loaded, Finished(env, companies, contact, k, p, f.created, now), now)
    {
      draft := contact;
      if f.created || (k.identified && contact.verifiedAt.Some?) {
        draft := AutolinkCompany(env, contact);
      }
      if f.created || k.identified || (p.verified && k.email != "" && contact.email == k.email) {
        draft := Touched(draft, now);
      }
      draft := Saved(f.loaded, draft, now);
    }

    /** The found contact settled: its email, claims, company and visit, then its row saved. */
    method SettleContact(env: Env, f: Lookup, k: Claims, p: Payload, now: Time, newId: Id)
      returns (draft: Contact, proven: bool)
      requires f.Found? && UniqueContacts(f.contacts) && contacts == f.contacts
      requires UniqueCompanies(companies) && newId !in companies
      modifies this`contacts, this`sessions, this`tickets, this`notes, this`companies
      ensures Settled(Contents(), draft, proven) == Settle(env, old(Contents()), f, k, p, now, newId)
    {
      draft := Identify(f.id, f.draft, k, p, now);
      proven := p.verified && k.email != "" && draft.email == k.email;
      draft := LinkCompany(env, draft, k, p, now, newId);
      draft := FinishContact(env, f, draft, k, p, now);
      contacts := contacts[f.id := draft];
    }

    /** The row has a proof of that address: dated now, unless it had one, whose label then only gains a signature. */
    ghost predicate Proves(was: Session, row: Session, email: string, source: ProofSource, now: Time) {
      && row.verifiedFor == email
      && row.verifiedAt == (if was.verifiedFor == email then was.verifiedAt else Some(now))
      && (was.verifiedFor != email ==> row.proofSource == source)
      && (was.verifiedFor == email && row.proofSource != was.proofSource ==> source.Signed?)
      && (source.Signed? ==> row.proofSource.Signed?)
    }

    /** Nothing but the proof differs, and the row is dated exactly when it does. */
    ghost predicate OnlyProofDiffers(was: Session, row: Session, now: Time) {
      && row == was.(verifiedAt := row.verifiedAt, verifiedFor := row.verifiedFor, proofSource := row.proofSource,
                     updatedAt := row.updatedAt)
      && row.updatedAt == (if row.(updatedAt := was.updatedAt) == was then was.updatedAt else now)
    }

    /** `_record_session_proof`: conditional updates of the row as it is now. */
    method RecordSessionProof(sid: Id, email: string, source: ProofSource, now: Time)
      requires sid in sessions
      modifies this`sessions
      ensures sessions == old(sessions)[sid := ProofRecorded(old(sessions[sid]), email, source, now)]
      ensures Lower(old(sessions[sid]).email) != email ==> sessions == old(sessions)
      ensures Lower(old(sessions[sid]).email) == email ==> Proves(old(sessions[sid]), sessions[sid], email, source, now)
      ensures OnlyProofDiffers(old(sessions[sid]), sessions[sid], now)
      ensures forall k :: k in old(sessions) && k != sid ==> k in sessions && sessions[k] == old(sessions[k])
      ensures sessions.Keys == old(sessions.Keys)
    {
      var row := sessions[sid];
      if Lower(row.email) == email {
        if row.verifiedFor != email {
          row := row.(verifiedAt := Some(now), verifiedFor := email, proofSource := source, updatedAt := now);
        } else if source.Signed? && !row.proofSource.Signed? {
          row := row.(proofSource := Signed, updatedAt := now);
        }
      }
      sessions := sessions[sid := row];
    }

    /** The link and the proof, where the request's session object doesn't hold them. */
    method SaveSessionLink(sid: Id, s: Session, id: Id, proven: bool, email: string, source: ProofSource, now: Time)
      returns (s1: Session)
      modifies this`sessions
      ensures (Contents(), s1) == SessionSaved(old(Contents()), sid, s, id, proven, email, source, now)
    {
      s1 := s.(contact := Some(id));
      if sid in sessions {
        ghost var before := sessions;
        if s.contact != Some(id) {
          sessions := sessions[sid := sessions[sid].(contact := Some(id), updatedAt := now)];
        }
        if proven && (s.verifiedFor != email || (source.Signed? && !s.proofSource.Signed?)) {
          RecordSessionProof(sid, email, source, now);
          var row := sessions[sid];
          s1 := s1.(verifiedAt := row.verifiedAt, verifiedFor := row.verifiedFor, proofSource := row.proofSource);
        }
        assert sessions == before[sid := SavedRow(before[sid], s, id, proven, email, source, now)];
      }
    }

    /** Whoever the session's claims lead to: its row, and the edits a proof makes of it, yet to be saved. */
    method LookUp(k: Claims, p: Payload, now: Time, newId: Id) returns (f: Lookup)
      requires UniqueContacts(contacts) && newId !in contacts
      modifies this`contacts
      ensures f == LookedUp(old(contacts), k, p, now, newId)
      ensures contacts == if f.Found? then f.contacts else old(contacts)
    {
      f := Nobody;
      if k.identified {
        if k.externalId != "" {
          var id, loaded, draft := FindIdentified(k.org, k.externalId, if p.verified then k.email else "", now, newId);
          f := Found(contacts, id, false, loaded, draft);
        }
      } else if k.email != "" {
        var id, created, loaded, draft := FindOrCreateByEmail(k.org, k.email, k.name, now, newId);
        f := Found(contacts, id, created, loaded, draft);
      }
    }

    method Unlink(sid: Id, s: Session, now: Time) returns (s1: Session)
      modifies this`sessions
      ensures Contents() == LinkedTo(old(Contents()), sid, s, None, now) && s1 == s.(contact := None)
    {
      s1 := s.(contact := None);
      if s.contact.Some? && sid in sessions {
        sessions := sessions[sid := sessions[sid].(contact := None, updatedAt := now)];
      }
    }

    /** The rest of a pass that found somebody, on tables that were `before` when it began. */
    method ResolveFound(
      env: Env, f: Lookup, sid: Id, s: Session, k: Claims, p: Payload, now: Time, ids: NewIds, ghost before: Db)
      returns (s1: Session)
      requires f == LookedUp(before.contacts, k, p, now, ids.contact) && f.Found? && !f.draft.anonymized
      requires Contents() == before.(contacts := f.contacts) && UniqueContacts(contacts)
      requires UniqueCompanies(companies) && ids.company !in companies
      modifies this`contacts, this`sessions, this`tickets, this`notes, this`companies
      ensures Outcome(Contents(), Some(f.id), s1) == Resolve(env, before, sid, s, k, p, now, ids)
    {
      SettlingReadsFoundContacts(env, before, f, k, p, now, ids.company);
      var draft, proven := SettleContact(env, f, k, p, now, ids.company);
      ghost var settled := Settled(Contents(), draft, proven);
      s1 := SaveSessionLink(sid, s, f.id, proven, k.email, p.source, now);
      FoundResolves(env, before, sid, s, k, p, now, ids, f, settled);
    }

    /** A pass that found nobody it may write. */
    method ResolveNobody(
      env: Env, f: Lookup, sid: Id, s: Session, k: Claims, p: Payload, now: Time, ids: NewIds)
      returns (s1: Session)
      requires f == LookedUp(contacts, k, p, now, ids.contact) && (f.Nobody? || f.draft.anonymized)
      modifies this`sessions
      ensures Outcome(Contents(), None, s1) == Resolve(env, old(Contents()), sid, s, k, p, now, ids)
    {
      NobodyUnlinks(env, Contents(), sid, s, k, p, now, ids, f);
      s1 := Unlink(sid, s, now);
    }

    lemma PassIsReady(env: Env, sid: Id, s: Session, k: Claims, p: Payload, now: Time, ids: NewIds)
      requires Valid() && ids.contact !in contacts && ids.company !in companies
      ensures Unique(Resolve(env, Contents(), sid, s, k, p, now, ids).db)
      ensures var f := LookedUp(contacts, k, p, now, ids.contact);
        && (f.Found? ==> UniqueContacts(f.contacts))
        && (f.Found? && f.draft.anonymized ==> f.contacts == contacts)
    {
      PassKeepsUnique(env, Contents(), sid, s, k, p, now, ids);
      FoundIsSettleable(contacts, k, p, now, ids.contact);
      LookupFinds(contacts, k, p, now, ids.contact);
    }

    /** `_resolve_session_once`. */
    method ResolveSessionOnce(env: Env, sid: Id, s: Session, p: Payload, now: Time, ids: NewIds)
      returns (contact: Option<Id>, s1: Session)
      requires Valid() && ids.contact !in contacts && ids.company !in companies
      modifies this`contacts, this`sessions, this`tickets, this`notes, this`companies
      ensures Outcome(Contents(), contact, s1) == ResolveOnce(env, old(Contents()), sid, s, p, now, ids)
      ensures Valid()
    {
      ghost var before := Contents();
      var k := ClaimsOf(env, s);
      PassIsReady(env, sid, s, k, p, now, ids);
      var f := LookUp(k, p, now, ids.contact);
      if f.Nobody? || f.draft.anonymized {
        s1 := ResolveNobody(env, f, sid, s, k, p, now, ids);
        contact := None;
      } else {
        s1 := ResolveFound(env, f, sid, s, k, p, now, ids, before);
        contact := Some(f.id);
      }
    }

    method LinkTickets(org: Id, sid: Id, contact: Option<Id>)
      modifies this`tickets
      ensures Contents() == TicketsLinked(old(Contents()), org, sid, contact)
    {
      tickets := map k | k in tickets ::
        if tickets[k].org == org && tickets[k].session == Some(sid) && tickets[k].contact.None?
        then tickets[k].(contact := contact) else tickets[k];
    }

    /** `_link_session_contact`: the pass, and the tickets the session opened before it had a contact. */
    method LinkSessionContact(env: Env, sid: Id, s: Session, p: Payload, now: Time, ids: NewIds)
      returns (contact: Option<Id>, s1: Session)
      requires Valid() && ids.contact !in contacts && ids.company !in companies
      modifies this`contacts, this`sessions, this`tickets, this`notes, this`companies
      ensures Outcome(Contents(), contact, s1) == LinkSession(env, old(Contents()), sid, s, p, now, ids)
      ensures Valid()
    {
      contact, s1 := ResolveSessionOnce(env, sid, s, p, now, ids);
      if contact.Some? && contact != s.contact {
        LinkTickets(s.org, sid, contact);
      }
    }
  }
}
