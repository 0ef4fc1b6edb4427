/** Whether a ticket's sender proved being its contact (backend/apps/tickets/models.py). */
module Senders {
  import opened Rows

  predicate HasOutsideSender(t: Ticket) {
    && t.source in {Widget, Email}
    && (t.session.Some? || t.requesterEmail != "" || t.requester.Some?)
  }

  /** The mark a login leaves in a ticket's metadata. */
  predicate HasMark(metadata: Attributes) {
    HasLoginKey(metadata) && metadata.entries[PRE_LOGIN_ANONYMOUS] == JTrue
  }

  predicate WrittenBeforeLogin(t: Ticket) {
    HasMark(t.metadata)
  }

  /** None when there is no outside sender to verify. */
  function SenderVerified(db: Db, t: Ticket): Option<bool> {
    if !HasOutsideSender(t) then None
    else if WrittenBeforeLogin(t) || t.session.None? || t.contact.None? then Some(false)
    else if t.session.value !in db.sessions || t.contact.value !in db.contacts then Some(false)
    else
      var s := db.sessions[t.session.value];
      if s.contact != t.contact then Some(false)
      else if s.externalId != "" then Some(true)
      else Some(ProofHolds(s, db.contacts[t.contact.value]) && t.createdAt >= s.verifiedAt.value)
  }
}
