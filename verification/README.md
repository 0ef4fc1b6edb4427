# Identity, mail and rate rules of a support desk

A Dafny model of three parts of the Django backend, and proofs of what they promise.

**Who is who.** A widget session, a contact, a ticket and a message are rows of one
database (`Rows`). `Resolution` is one pass of the identity service as a function of
that database, and `Desk` the same pass as it writes the tables. `PassRules`,
`Uniqueness`, `Idempotence` and `Absorption` prove what one pass may change and keeps. `Access`, `Senders` and
`Replies` are the rules of who sees a ticket, whose sender is verified, where its mail
goes and who may answer. `Anonymization` and `Erasure` are the erasure of a contact,
`LoginMove`, `WidgetInit` and `WidgetRequests` a login and the widget's init,
`Messages` a requester's message, an inbound address and an opened link, and `DeskWork`
what staff, channels and cleaning jobs write besides: tickets edited or deleted,
messages, notes, companies, accounts, files, mails. `EmailProof` is the prediction of
what a proof would show. `Machine` puts all of their transactions, and the back-fill's,
in one state machine: requests overlap, and a step may work from a session as it was
read before other steps. `Safety`, `Proofs` and `Permanence` hold over every sequence of
those steps, and `InitRun` shows that an init is one. `Backfill`, `BackfillLaws` and
`BackfillRun` are the back-fill of contacts.

**Mail.** `InboundPipeline` is the life of a stored inbound mail under workers that
overlap and stop anywhere, and of whoever deletes mails, messages and files meanwhile.
`InboundProcess` is the code of one worker among others.
`ReplyMail` is what a reply mail carries and stands down for, and `ReplyTask` the Celery
task that sends it.

**Algorithms.** `MailText`, `QuotedHistory` and `ReplyTextLaws` strip quoted history,
`InboundFiles` and `Attachments` bound files by size, `Tokens` prints and reads signed
addresses and Message-IDs, `RateLimit` is the sliding limit on inbound mail, and `Otp`
the one-time code under parallel submissions.

The modules named `...Facts` say of each operation what it leaves, field by field, in
terms of the rows and the request alone: `PassFacts`, `InitFacts`, `MoveFacts`,
`ReplyFacts`, `MachineFacts`, `ErasureFacts`, `BackfillFacts`, `InboundFacts`,
`MailTextFacts`, `ReplyTextFacts`, `AttachmentFacts`, `TokenFacts` and `OtpFacts`.

A transaction under its row locks is one step. Conditional updates outside of one, and
files stored or deleted, are steps of their own. Where code runs between two such steps
(`redeem`, `process`, a reply mail), its method takes as a parameter what others do
there, and is proved to be a run of the machine whatever that is.

Signatures, hashes, regular expressions, e-mail validation and the keys of new rows are
parameters. What is assumed of them is stated where it is used: a signature has a fixed
length, a new key is new, an attribution line ends in ":", a pattern of `content.py`
does not match a blank line.

## Where the code and its documentation differ

The model follows the code. Each difference is proved, with the exact condition:

- "No sender becomes verified" by an absorption
  (`backend/apps/contacts/services.py:425-427`) fails where an agent had put a ticket on
  the one contact and its session is on the other, or where the session of a ticket
  already on the absorbing contact had proved the address it takes. `Absorption.Gains` is
  the condition, `Absorption.ReunionVerifiesNobodyElse` and
  `Absorption.PassVerifiesNobodyElse` hold of every ticket, and
  `Absorption.ASenderBecomesVerified` has a database for each.
- A replay of a mail does not always get the same rate verdict
  (`backend/apps/email_channel/filters.py:280`): mails received at the same instant count
  for one another, and those to no mailbox stop counting once rejected.
  `RateLimit.ReplayVerdict`, `RateLimit.ATieFlipsTheVerdict`,
  `RateLimit.ARejectionFlipsTheVerdict`.
- "The bytes stored count, not the size recorded"
  (`backend/apps/email_channel/outbound.py:175`) holds exactly of the files whose recorded
  size takes no more than their own once encoded: `Attachments.FittingIsAttached`. One
  recorded as larger can be left out unread: `Attachments.ARecordedSizeLeavesAFileOut`.
- The sender of a ticket a login moved should never count as verified
  (`backend/apps/tickets/models.py:276-277`), but a staff edit can take the mark off the
  ticket: `Permanence.MovedSenderOverRuns` says over which runs, and
  `Permanence.AnEditVerifiesTheSender` has one.
- A moved ticket's `sender_verified` is None, not false, for one filed by an agent or
  through the API: `LoginMove.MovedSenderIsUnverified`, `LoginMove.AMovedTicketMayHaveNoSender`.
- Deleting a message is meant to delete its files on the storage
  (`backend/apps/tickets/views.py:1618`), but deletes their rows alone:
  `InboundPipeline.DeletedMessageLeavesItsFiles`. `InboundPipeline.NoFileIsLeftOver` has
  every way a file can be left.
- The first line of a forward loses its indent when nothing is shown above it:
  `ReplyTextLaws.OnlyLinesAreDropped`, `ReplyTextLaws.AnIndentedForwardLosesItsIndent`.
- A resolution dated before 1970 would get a Message-ID that doesn't read back:
  `Tokens.ResolutionReads`.
- A reply can be in two mails after a bounce marked it failed:
  `ReplyMail.NoReplyIsMailedTwice` counts them exactly, and
  `ReplyMail.ABouncedReplyIsMailedTwice` is such a run.

## Model

| member | source | states |
|---|---|---|
| Proofs.HistoryOpensOnProof | backend/apps/tickets/access.py:28-40 | After any run of overlapping requests from an empty database, a session to which its contact's history opens is identified, started under a valid hash of exactly the external id its contact holds; or that very session signed, or redeemed a code mailed to, the address the contact holds now |
| Proofs.VerifiedEmailIsProven | backend/apps/contacts/services.py:6-27 | After any run, a contact with a verification date is not anonymized and holds an address that a session of its organization proved by signature or code, or whose mailed link was opened for this contact |
| Proofs.IdentifiedSessionIsOnItsContact | backend/apps/contacts/services.py:364-383 | After any run, a linked identified session is on the one contact of its organization with its external id, and was started under a valid hash of it |
| Proofs.ProofsHappened | backend/apps/tickets/views.py:269-335 | Every proof on record comes from events that took place in the run, their guard held by the state they came to: a checked signature, a code mailed for the session and redeemed by it later, or an opened link |
| Proofs.CodesWereMailed | backend/apps/organizations/models.py:622-646 | Every code that exists was mailed, by a step of the run that took place, to its address for its session |
| Safety.StepKeepsInvariant | backend/apps/contacts/services.py:29-43 | Each transaction, even from a session read before other transactions, and whatever staff edit or delete, keeps: links to live contacts of the same organization and external id, proofs behind every verification date, normal addresses, blank anonymized rows, and the unique constraints |
| Safety.RunKeepsInvariant | backend/apps/contacts/services.py:29-43 | So does every run |
| Safety.SettlementIsSound | backend/apps/contacts/services.py:459-551 | What a pass makes of the contact it found, whichever branch it takes, keeps every session's link and every verification date honest |
| Safety.EditingIsSound | backend/apps/contacts/serializers.py:151-156 | An agent's edit of a contact keeps the invariant: a changed email drops its verification date |
| Safety.ErasingIsSound | backend/apps/contacts/gdpr.py:300-345 | So does an anonymization: nobody is left linked to the erased contact |
| Safety.BackfillIsSound | backend/apps/contacts/backfill.py:8-38 | So does the back-fill, run on a live system: it links sessions to live contacts of their identity, and proves nothing |
| Safety.OpeningIsSound | backend/apps/contacts/services.py:687-707 | So does an opened conversation link, which only proves the address the contact has at that moment |
| Permanence.ErasureIsForGood | backend/apps/contacts/services.py:39-43 | Once a contact is anonymized, whatever requests or back-fills follow, its row never changes again and no session is ever linked to it, and its key is not given to another contact |
| Permanence.OnlyAdminsDelete | backend/apps/contacts/views.py:280-288 | The erased row itself only goes by an admin's deletion of that contact |
| Permanence.MovedSenderOverRuns | backend/apps/tickets/models.py:462-494 | After a login moved a ticket, over any later run, its sender reads as verified exactly if the last step that wrote the mark is a staff edit of its metadata without it, and the sender would be verified without the mark |
| Permanence.MovedTicketIsNeverVerified | backend/apps/tickets/models.py:276-278 | So it never does while every edit of the ticket's metadata keeps the mark, not even after its contact's anonymization and what follows |
| Permanence.AnEditVerifiesTheSender | backend/apps/tickets/serializers.py:367-379 | Two steps, a login and an edit that empties the metadata: the sender of a widget's ticket, unverified after the one, is verified after both |
| InitLaws.OnlyAHashOpensIdentified | backend/apps/tickets/views.py:528-549 | An init answers with an identified session exactly when it carries a valid user hash, and then with the session of that external id and organization |
| InitLaws.NoHashTouchesNoOther | backend/apps/tickets/views.py:540-549 | Without a valid hash, no session but the one answered changes, and an identified one is never the answer: a logout leaves the stored session as it was |
| InitLaws.LostProofStartsAnew | backend/apps/tickets/views.py:534-539 | A stored session whose proof the init loses, as `InitFacts.GoesOnExactly` says, is neither answered nor written |
| InitLaws.LoginLeavesNothing | backend/apps/tickets/views.py:589-602 | After a login none of the organization's tickets is on the anonymous session, which has no contact any more |
| InitLaws.ResumingKeepsUser | backend/apps/tickets/views.py:189-248 | Resuming keeps who the session is of and its contact, fills only a blank name, takes another email only when it may, and keeps a proof only for the email the session has |
| InitRun.InitIsARun | backend/apps/tickets/views.py:528-618 | Whatever an init leaves is reached by steps of the machine, so that every theorem on runs covers it |
| Replies.AnswersReachTheEntitled | backend/apps/tickets/access.py:53-79 | In any reachable state, a session that may write on a ticket another one opened reaches a session of the same user, or one that proved being the person of the ticket's contact |
| Replies.MailIsAnsweredByTheEntitled | backend/apps/tickets/access.py:65-75 | On a ticket without a session, only a session entitled to its contact may write, and only where replies go to that contact's address |
| Replies.ErasedGetsNoMail | backend/apps/tickets/models.py:170-201 | After an anonymization, no ticket of the contact has an address a reply would be mailed to |
| Replies.MovedTicketMailsItsOwn | backend/apps/tickets/models.py:183-201 | Over any later run, a ticket a login moved is only mailed to the address written on it, or to an erased contact's, while no staff edit writes its address or takes the login's key off it |
| Replies.LinkProvesItsAddress | backend/apps/email_channel/outbound.py:305-324 | A link given for an address proves, under the current key or a rotated one, the address of its contact exactly while it is that one, unless two addresses share a hash |
| Replies.LinkOpensItsTicket | backend/apps/email_channel/conversation_views.py:69-97 | Such a link opens its ticket and no other, exactly while it is not too old, the ticket is on that contact and unmoved, and the contact is not erased and holds that address, or one with the same hash |
| PassRules.UnprovenClaimWritesNothing | backend/apps/contacts/services.py:20-24 | A pass of an anonymous session whose email isn't proven changes no existing contact and no company, ticket or note: at most the session's own row |
| PassRules.UnprovenEmailIsOnlyDeclared | backend/apps/contacts/services.py:9-11 | An identified session's unproven email never becomes its contact's: it is declared, no verification date changes, and nobody is absorbed |
| PassRules.EmailIsNeverReplaced | backend/apps/contacts/services.py:12-15 | A contact that has an email keeps it, whatever is proven |
| PassRules.UnsignedCompanyChangesNone | backend/apps/contacts/services.py:31-34 | Without a valid company hash no company changes, a contact with a company stays there, and a new company's domain is that of the proven email, not a public one, or blank |
| PassRules.SignedCompanyOnlyRenames | backend/apps/contacts/services.py:34-37 | With a valid hash only the company of the signed id changes, its name and maybe its domain but never its attributes, and nobody's domain is taken |
| PassRules.NameIsOnlyFilled | backend/apps/contacts/services.py:514-526 | A name already there stays, and nothing is said of a contact that the session is not, or didn't prove to be |
| Uniqueness.PassKeepsUnique | backend/apps/contacts/services.py:144-155 | One pass of the identity service, in any branch, leaves contact emails and external ids, and company external ids and domains, unique per organization: only a race can make the retry needed |
| Uniqueness.SettlingKeepsUnique | backend/apps/contacts/services.py:386-456 | So do the email recorded, the contact absorbed and the company resolved |
| Uniqueness.SignedCompanyIsUnique | backend/apps/contacts/services.py:275-295 | A signed company takes no other company's domain |
| Idempotence.SecondPassOnlyDatesTheVisit | backend/apps/contacts/services.py:459-551 | A second pass with the same payload changes no row but the contact's last visit: every branch, with a proof or without, signed or not, absorbing or not |
| Idempotence.SettlingIsStable | backend/apps/contacts/services.py:479-538 | A settled contact is settled again into itself, but for its last visit |
| Absorption.ReunionConserves | backend/apps/contacts/services.py:419-456 | Every session, ticket and note of the email-only contact ends on the absorbing one, nothing else is re-pointed or changed, and nothing names the deleted row |
| Absorption.ReunionKeepsValues | backend/apps/contacts/services.py:431-456 | The contact's own values win and the other's fill its blanks, attributes are united, an unsubscription is kept, dates are the extremes, and nothing it takes is verified |
| Absorption.ReunionVerifiesNobodyElse | backend/apps/tickets/models.py:462-494 | Every ticket's `sender_verified` is the same before and after, but of one that gains: it and its session are on the two contacts, not both on the absorbed one, and the session is identified and on the other of the two, or had proved the address before the ticket was written; that one goes from false to true |
| Absorption.ReunionKeepsSenderOfMovedSession | backend/apps/contacts/services.py:424-430 | For a ticket whose session moved with it, `sender_verified` is always kept |
| Absorption.PassVerifiesNobodyElse | backend/apps/contacts/services.py:459-551 | And so over the whole pass of an identified session, whichever contact it is on: the pass is the link of its session, then the reunion |
| Absorption.LinkLeavesOtherSenders | backend/apps/contacts/services.py:540-551 | That link tells nothing of the tickets of other sessions |
| EmailProof.ProofOpensAsPredicted | backend/apps/tickets/access.py:119-150 | The prediction that proving the session's email would show conversations it can't see is right: the pass that proves it shows the session a new ticket exactly when it says so |
| Absorption.ASenderBecomesVerified | backend/apps/contacts/services.py:424-430 | Two concrete databases where a pass makes a sender verified, against the docstring: an agent put an identified session's ticket on the email-only contact, or a proven anonymous session's ticket on the absorbing one |
| Absorption.PassAbsorbsOnlyEmailOnly | backend/apps/contacts/services.py:23-26 | Two contacts are never merged but in one case: a pass that loses a contact is of an identified session proving the address of an email-only one, into a contact with no email |
| Access.TicketSessionIds | backend/apps/tickets/access.py:82-116 | The prefiltered lookup returns exactly the sessions that see the ticket by the direct rule, for every database |
| Access.NarrowingIsExact | backend/apps/tickets/access.py:104-116 | The queries find, and the filter keeps, a session exactly when it sees the ticket |
| Anonymization.AnonymizingTwice | backend/apps/contacts/gdpr.py:300-345 | Anonymizing again changes nothing, not even a date, exactly if the first run left no mail, message or code from the new address, as it does whenever none was from it before |
| Anonymization.AnonymizingConserves | backend/apps/contacts/gdpr.py:300-345 | No ticket, message, session or contact row goes, other contacts' rows and tickets are untouched, and a message the contact didn't write keeps its body |
| Anonymization.AnonymizingSparesStaff | backend/apps/contacts/gdpr.py:52-63 | A message by an agent or admin of the organization keeps its body, whoever filed the ticket |
| Anonymization.AnonymizingErases | backend/apps/contacts/gdpr.py:270-345 | Nothing personal is left on the contact, on its tickets (title, description, requester, page, user agent, metadata) and in its own messages, and no session or note is on it |
| Erasure.AnonymizeContact | backend/apps/contacts/gdpr.py:300-345 | The statements in their order, from tables only partly scrubbed, leave exactly that erasure, or nothing if the row is gone |
| Erasure.ScrubTickets | backend/apps/contacts/gdpr.py:171-185 | The loop over tickets writes those that need it, and only those |
| LoginMove.MovingConserves | backend/apps/tickets/views.py:453-506 | A login move keeps every ticket and message, leaves none on the anonymous session, re-points nothing else, and keeps the rest of a ticket's metadata |
| LoginMove.MovedSenderIsUnverified | backend/apps/tickets/models.py:477-484 | A moved ticket's `sender_verified` is false exactly when it has an outside sender by its source, and None for one filed by an agent or the API |
| LoginMove.AMovedTicketMayHaveNoSender | backend/apps/tickets/models.py:477-484 | A concrete moved and marked ticket of each of those sources, with None |
| LoginMove.MovingTwice | backend/apps/tickets/views.py:453-458 | Repeated, the move finds no ticket and no message, and only dates the anonymous session |
| LoginMove.MessageAfterMove | backend/apps/tickets/messages.py:44-87 | A message found on the anonymous session's ticket, committed after the move, is on the session its ticket is on |
| LoginMove.MessageBeforeMove | backend/apps/tickets/messages.py:49-51 | Committed before it, the move takes it there too |
| LoginMove.OrdersAgree | backend/apps/tickets/messages.py:44-87 | Both commit orders end in the same rows, when neither refuses the message |
| WidgetRequests.MoveConversation | backend/apps/tickets/views.py:453-506 | The loop over tickets, the messages and the session, written in order, leave that move, and tell which contacts it may have emptied |
| WidgetRequests.DeleteContactsLeftEmpty | backend/apps/contacts/services.py:648-684 | Of the contacts a login left, exactly the email-only ones with nothing of their own go, in whatever order |
| WidgetRequests.RecordSessionResume | backend/apps/tickets/views.py:189-218 | The fields set one by one leave the resumed session, its stale proof dropped |
| WidgetRequests.DropProofOfAnotherEmail | backend/apps/tickets/views.py:221-248 | The row loses a proof of another email, and a proof of this one landed meanwhile stays |
| WidgetRequests.OpenSession | backend/apps/tickets/views.py:528-618 | Every branch of the init, from the stored session to a refusal, writes what the function of the database says, and hands on exactly the contacts of the conversations a login moved |
| WidgetRequests.CreateOrResumeSession | backend/apps/tickets/views.py:507-525 | Of those, exactly the ones left with nothing go afterwards |
| Messages.LockTicketWithContact | backend/apps/tickets/messages.py:17-41 | Whatever others commit before each read and each lock, the first attempt whose ticket stayed on the contact read holds it with that contact, or finds the ticket gone; it gives up exactly if the ticket changed contact at all three |
| Messages.CreateUserMessage | backend/apps/tickets/messages.py:44-87 | A message is written on the session the ticket is on under the lock, or the writer's own, and refused exactly when the lock was not held, the ticket is gone or its contact is anonymized by then |
| Messages.ResolveContactForEmail | backend/apps/contacts/services.py:203-230 | The contact returned holds the declared address and is not anonymized, and an existing one only gets a missing company |
| Messages.MarkEmailProven | backend/apps/contacts/services.py:687-707 | A link verifies the contact exactly if it is of the address held now and the contact isn't anonymized, keeping the first date |
| Desk.Tables.FindIdentified | backend/apps/contacts/services.py:364-383 | The contact of the external id, else the email-only one holding the proven address, which takes the id, else a new one |
| Desk.Tables.AbsorbEmailOnlyContact | backend/apps/contacts/services.py:419-456 | The updates, in their order, leave the reunion of the two contacts |
| Desk.Tables.RecordIdentifiedEmail | backend/apps/contacts/services.py:386-399 | An unproven email is declared, a proven one absorbs or fills, and a taken one is left alone |
| Desk.Tables.UpsertSignedCompany | backend/apps/contacts/services.py:275-295 | The company of the signed id, renamed, on its domain unless another has it |
| Desk.Tables.LinkUnsignedCompany | backend/apps/contacts/services.py:298-326 | An existing company is linked untouched, and a new one only takes the domain of the proven email |
| Desk.Tables.RecordSessionProof | backend/apps/contacts/services.py:557-580 | The row is untouched unless it still has that email; then it is proven for it, a proof of it keeps its date and changes label only for a signature, and nothing else of the row or of others changes |
| Desk.Tables.ResolveSessionOnce | backend/apps/contacts/services.py:459-551 | The whole pass, step by step on the tables, leaves what the function of the database says and the unique constraints |
| Desk.Tables.LinkSessionContact | backend/apps/tickets/views.py:269-335 | The pass, and the session's tickets without a contact linked once it gets another |
| BackfillLaws.BackfillOnlyFillsIn | backend/apps/contacts/backfill.py:36-38 | A linked session or ticket, and a contact that was there, never change; an unlinked row only gets its link, and an anonymous session its tickets' email |
| BackfillLaws.SecondBackfillIsIdle | backend/apps/contacts/backfill.py:36-38 | A second run creates no contact, links no row and writes nothing, if its order gives each session the email of its tickets that the first one did |
| BackfillLaws.LatestFirstReadsAlike | backend/apps/contacts/backfill.py:237-262 | Any two orders latest first do, unless tickets of the very same date give a session two emails |
| BackfillLaws.SessionEndsOnItsContact | backend/apps/contacts/backfill.py:265-291 | Every unlinked session with an identity ends on the contact that holds it, which there is, or on none if that one is anonymized; which identity is in `BackfillFacts.SessionsEnd` |
| BackfillLaws.TicketEndsOnItsContact | backend/apps/contacts/backfill.py:310-373 | So does every ticket no session decides for, so that rows with the same organization and identity end on the same contact; which identity is in `BackfillFacts.TicketsEnd` |
| BackfillLaws.SessionsInTwo | backend/apps/contacts/backfill.py:265-291 | Linking sessions in one batch after another is linking them all at once |
| BackfillLaws.TicketsInTwo | backend/apps/contacts/backfill.py:310-373 | And so for tickets |
| BackfillLaws.FillingInTwo | backend/apps/contacts/backfill.py:376-457 | And for the values of new contacts |
| BackfillLaws.LinkedWhereItBelongs | backend/apps/contacts/backfill.py:8-38 | A session it links is on a live contact of its organization and, if it is identified, of its external id |
| BackfillLaws.NewAreUnproven | backend/apps/contacts/backfill.py:11-15 | A contact it creates is not verified, and its email is in canonical form |
| BackfillLaws.WithNewIsUnique | backend/apps/contacts/backfill.py:172-197 | New contacts, one for each identity nobody holds, never clash with one another or with those that were there |
| BackfillRun.Run | backend/apps/contacts/backfill.py:472-495 | For any cut into batches, the back-fill leaves the same database, up to the keys of new contacts, and counts the contacts it created |
| BackfillRun.ContactIds | backend/apps/contacts/backfill.py:172-197 | Each identity's contact is found or created, and left out if anonymized |
| BackfillRun.EmailsFromTickets | backend/apps/contacts/backfill.py:237-262 | The latest usable email of each session's own tickets, never one that is only its filing agent's |
| BackfillRun.LinkSessions | backend/apps/contacts/backfill.py:265-291 | The batched loop links what linking all at once links |
| BackfillRun.LinkTickets | backend/apps/contacts/backfill.py:310-373 | And so for tickets |
| BackfillRun.FillContacts | backend/apps/contacts/backfill.py:376-457 | The rows read latest first give each new contact its name, declared email and dates, whatever the batches |
| InboundPipeline.OneMessagePerMail | backend/apps/email_channel/pipeline.py:146-183 | Over any interleaving of workers, crashes, retries, replays, requeues, purges and anonymizations, a mail becomes at most one message, and is processed exactly when it did |
| InboundPipeline.OutcomesAreForGood | backend/apps/email_channel/tasks.py:40-71 | A processed, ignored or rejected mail keeps its status for good, unless its row is deleted, and names its message exactly until that one is |
| InboundPipeline.DeletedMailIsNeverWritten | backend/apps/contacts/gdpr.py:210-225 | A mail deleted before it became a message, by an anonymization say, never becomes one, not even by a run that had taken it |
| InboundPipeline.RawIsThereToReplay | backend/apps/email_channel/tasks.py:99-136 | A pending or failed mail always has its raw bytes |
| InboundPipeline.AttachmentsHaveTheirFiles | backend/apps/email_channel/pipeline.py:172-183 | Every file an attachment row names exists, and neither a run nor a deletion still to come would delete it |
| InboundPipeline.NoFileIsLeftOver | backend/apps/email_channel/pipeline.py:214-235 | Over any run every file is an attachment's, in the hands of a worker, or about to be deleted, exactly unless a worker stopped holding files, a deletion failed, or a message with attachments was deleted |
| InboundPipeline.DeletedMessageLeavesItsFiles | backend/apps/tickets/views.py:1617-1620 | The files of a deleted message stay on the storage for good, whatever follows |
| InboundPipeline.UnfinishedMailCanBeWritten | backend/apps/email_channel/pipeline.py:146-183 | In any reachable state a pending or failed mail can still become one message with all its files, and nothing else changes |
| InboundPipeline.RunKeepsInvariant | backend/apps/email_channel/pipeline.py:127-143 | Each step of each worker keeps rows, messages, raw files and attachment files consistent |
| InboundProcess.Channel.Process | backend/apps/email_channel/pipeline.py:146-183 | The code of `process`, whatever fails and whatever others do between its steps, is a run of that machine: it begins the mail unless that is finished by then, gives up only for the failure at hand, deletes what it stored and marks the mail, or writes it, and never just stops holding files; it lands the message when nothing goes wrong |
| InboundProcess.Channel.StoreFiles | backend/apps/email_channel/pipeline.py:214-226 | The files stored one by one, and the run turned to deleting them if one fails |
| InboundProcess.Channel.SecondTransaction | backend/apps/email_channel/pipeline.py:173-183 | The write lands, on a mail still to process, or the run keeps its files to delete |
| ReplyMail.UnreadIsNested | backend/apps/email_channel/outbound.py:124-153 | What a mail of a reply would carry, any mail that carries the reply carries too |
| ReplyMail.NewsIsAfterMarks | backend/apps/email_channel/outbound.py:130-147 | A reply is unread exactly when it is after the last reading and after every message of the requester, or mailed one, before the mail's own |
| ReplyMail.StandingDownLosesNothing | backend/apps/email_channel/outbound.py:100-115 | Following the replies that stand down for the next ends at one that doesn't, whose mail carries all they would have |
| ReplyMail.StandingDownIsSafe | backend/apps/email_channel/outbound.py:100-115 | A reply that stood down is, whatever is written, read, mailed, bounced or deleted by the requester later, read in the widget, mailed, or still carried by the reply it stood down for |
| ReplyMail.NoReplyIsMailedTwice | backend/apps/tickets/tasks.py:251-265 | Over any run a reply is in exactly as many recorded mails as bounces undid its sending, and in one more if it reads as sent |
| ReplyMail.ABouncedReplyIsMailedTwice | backend/apps/tickets/tasks.py:251-265 | A concrete run where it is in two |
| ReplyTask.CarriedByLaterReply | backend/apps/email_channel/outbound.py:100-115 | The search finds whether the first agent's reply after it carries the message |
| ReplyTask.Ticket.SendUnreadReply | backend/apps/tickets/tasks.py:439-460 | The job stands down exactly when the reply was mailed, read or is carried by a later one, and else mails all that is unread unless the ticket is busy or the server refuses, whatever happens meanwhile; a reply refused at the last try, and no other, is marked failed, and the ticket is always given back |
| Otp.AttemptsAreBounded | backend/apps/organizations/models.py:575-646 | However submissions and new codes interleave at each update, a code is compared at most five times, redeemed at most once, and never once cancelled |
| Otp.RedeemedWasTyped | backend/apps/organizations/models.py:586-619 | A redeemed code was typed, by a call for the very email, purpose, organization and session it was mailed to |
| Otp.Table.Redeem | backend/apps/organizations/models.py:586-619 | `redeem`, with anything others do between its updates, is the whole of a call on its scope's latest active code, the attempt counted before anything is compared, or nothing if there is none; it returns a code only once redeemed by the right text, and succeeds when alone with the right text and an attempt left |
| MailText.CleanTextIdempotent | backend/apps/email_channel/content.py:29-32 | Cleaning a cleaned text changes nothing |
| MailText.CleanTextIsClean | backend/apps/email_channel/content.py:29-32 | What comes out has no control character, no space before a newline, no two blank lines in a row and nothing to strip |
| MailText.RStripLinesIs | backend/apps/email_channel/content.py:31-31 | Stripping each line is done in one pass from the left |
| ReplyTextLaws.StripHistoryIdempotent | backend/apps/email_channel/content.py:246-269 | Stripping what was stripped changes nothing |
| ReplyTextLaws.NothingTurnsBlank | backend/apps/email_channel/content.py:246-269 | A mail with any text shows some |
| ReplyTextLaws.OnlyLinesAreDropped | backend/apps/email_channel/content.py:246-269 | The lines shown are the mail's own in order, with at most one blank line added before a forward, exactly unless the forward starts indented with nothing shown above it |
| ReplyTextLaws.AnIndentedForwardLosesItsIndent | backend/apps/email_channel/content.py:262-269 | Under any patterns, a bare quote, then an indented line that marks a forward: that line is shown without its indent, which is none of the mail's lines |
| ReplyTextLaws.AppleMarkIsOne | backend/apps/email_channel/content.py:185-188 | The line Apple Mail puts above a forward is such a mark |
| ReplyTextLaws.ShownIs | backend/apps/email_channel/content.py:246-269 | What is shown is the reply's own lines, then what it forwards, or all of the text if nothing else is left |
| QuotedHistory.ReplyText | backend/apps/email_channel/content.py:246-269 | The loops over lines compute it |
| QuotedHistory.FindHistoryStart | backend/apps/email_channel/content.py:223-236 | The first line that starts the history, and up past what is above a header block |
| QuotedHistory.HasHeaderBlock | backend/apps/email_channel/content.py:210-220 | Whether three header lines or more start there, From first, then Sent, To |
| InboundFiles.ExtractAttachments | backend/apps/email_channel/content.py:331-362 | Every part of a mail is kept or reported, exactly one of them and in order, and what is kept is within both limits |
| InboundFiles.KeptIffItFits | backend/apps/email_channel/content.py:331-362 | A part is kept exactly when it is a file of an allowed type, fewer than fifty are kept before it, and their total size with its own is within the limit |
| InboundFiles.DroppedWouldNotFit | backend/apps/email_channel/content.py:357-359 | A file dropped for its size would have taken the files kept before it over the limit |
| Attachments.EncodedSizeIs | backend/apps/email_channel/outbound.py:164-167 | The computed size is, to the byte, that of the file in base64 in lines of 76 characters and CRLF, section 6.8 of RFC 2045 |
| Attachments.EncodedReads | backend/apps/email_channel/outbound.py:164-167 | The encoding it is measured against decodes back to the file |
| Attachments.EncodedSizeMonotone | backend/apps/email_channel/outbound.py:164-167 | A longer file is never smaller once encoded |
| Attachments.ReadableIsTooMuch | backend/apps/email_channel/outbound.py:186-187 | A file read to the bound does not fit: the bytes read always suffice to tell |
| Attachments.AttachOne | backend/apps/email_channel/outbound.py:180-206 | One file's status, and its content whole if attached, though it is read no further than the bound |
| Attachments.MailAttachments | backend/apps/email_channel/outbound.py:170-207 | Each file has one status and no other has any, those that fit are attached whole and in order, and their encodings together never exceed the limit |
| Attachments.LeftOutWouldNotFit | backend/apps/email_channel/outbound.py:173-176 | A readable file left for its size, not recorded as larger than it is once encoded, would have taken the mail over its limit; if it would not have, its recorded size did |
| Attachments.FittingIsAttached | backend/apps/email_channel/outbound.py:173-191 | A readable file is attached within every budget it fits in, exactly if its recorded size takes no more than its own once encoded |
| Attachments.FittingIsAttachedWithin | backend/apps/email_channel/outbound.py:173-191 | And within one budget, exactly unless it fits by its size and not by the one recorded |
| Attachments.ARecordedSizeLeavesAFileOut | backend/apps/email_channel/outbound.py:182-184 | A file that fits is left out when its recorded size doesn't, against the docstring |
| Attachments.NothingFitsBelowZero | backend/apps/email_channel/outbound.py:177-177 | Under a negative limit nothing is attached, not even an empty file |
| Tokens.ReplyAddressReads | backend/apps/email_channel/tokens.py:59-85 | A reply address reads as its ticket, under any current or rotated key, exactly when the inbound domain is set and doesn't end with a space |
| Tokens.ReadReplyIsSigned | backend/apps/email_channel/tokens.py:68-85 | An address that reads as a ticket has the very form of a reply address, with a signature of that id under one of the keys |
| Tokens.ReplyAddressesDiffer | backend/apps/email_channel/tokens.py:59-65 | Two tickets never share a reply address, under whatever keys and domain |
| Tokens.MessageIdReads | backend/apps/email_channel/tokens.py:185-203 | A signed Message-ID reads as its ticket exactly when its stamp and domain are ones the pattern takes |
| Tokens.GroupsRead | backend/apps/email_channel/tokens.py:24-27 | The pattern matches what is printed of well-formed parts and gives each part back, and nothing printed of others |
| Tokens.ResolutionReads | backend/apps/email_channel/tokens.py:166-173 | A resolution's Message-ID reads back exactly for a time from 1970 on |
| Tokens.LinkReads | backend/apps/email_channel/tokens.py:176-182 | A link's Message-ID reads back whatever its key |
| Tokens.ReadMessageIdIsSigned | backend/apps/email_channel/tokens.py:185-203 | A Message-ID that reads as a ticket is signed, under one of the keys, for that kind, ticket and stamp |
| Tokens.MessageIdsDiffer | backend/apps/email_channel/tokens.py:53-56 | Two such mails share a Message-ID only if their kind, ticket and stamp are the same |
| RateLimit.NoHourExceedsTheLimit | backend/apps/email_channel/filters.py:279-308 | Of any 3600 seconds, at most the limit of mails to a mailbox, and of a sender to it or to none, get past the limits, whatever order they are evaluated in and however often; of those to none, the ones rejected since are not counted |
| RateLimit.ReplayVerdict | backend/apps/email_channel/filters.py:279-284 | A replay's verdict is that of the first count, less the mails to no mailbox rejected since, plus those that arrived since at the very same time; to a mailbox, a mail once limited stays so |
| RateLimit.ATieFlipsTheVerdict | backend/apps/email_channel/filters.py:279-284 | A concrete log where a replay changes the verdict, against the comment in the code |
| RateLimit.ARejectionFlipsTheVerdict | backend/apps/email_channel/filters.py:287-301 | And one where a rejection does |
| PassFacts.PassFinds | backend/apps/contacts/services.py:364-383 | A pass finds the contact of the session's external id, else the email-only one of the address it proves, or, anonymous, the one of its address, else a new one; and none exactly if it says nothing usable or the contact is erased |
| PassFacts.PassDoes | backend/apps/contacts/services.py:459-551 | Which contact a pass finds, and each of its fields, its company and the other contacts afterwards: the verification date and the declared address a proof clears, the blank name filled, the traits over the stored entries, first and last visit, the company named or of a private domain, the domain a signed company takes, and the contact taken in |
| PassFacts.PassDates | backend/apps/contacts/services.py:479-538 | The contact is dated now exactly if anything of it but its visits changed |
| PassFacts.PassSavesSessions | backend/apps/contacts/services.py:540-580 | The session's row is put on the contact and given the proof, if that is news and the row still has the address, with its date; what the request then holds of it; the sessions of the contact taken in move along, and no other row changes |
| PassFacts.LinkMovesTickets | backend/apps/tickets/views.py:269-335 | Each ticket afterwards: with the contact taken in, or, opened by a session that gets another contact, on that one if it had none |
| PassFacts.ClaimsAre | backend/apps/contacts/services.py:90-117 | What of a session is used: an address and an external id within 254 and 255 characters, valid, not of a reserved form, and the first 255 of its name |
| PassFacts.DomainIsAfterAt | backend/apps/organizations/models.py:70-74 | An address's domain is what follows its last @, trimmed and in lower case |
| InitFacts.GoesOnExactly | backend/apps/tickets/views.py:528-549 | Without a valid user hash, an init goes on with a session exactly if it is the one stored, anonymous and of the organization, and has no verification date, or one by code and the init declares no other address, or the init carries the hash of the address declared, or else of its own |
| InitFacts.SignsInExactly | backend/apps/tickets/views.py:550-602 | With one, exactly with the session of that user and organization, or else a new one |
| InitFacts.OthersExactly | backend/apps/tickets/views.py:550-573 | Any other init is refused with an invalid user hash, and otherwise answered by a new session |
| InitFacts.ResumedIs | backend/apps/tickets/views.py:189-248 | Each field of a resumed session: its name filled if blank; another address taken only if it has none, or is a user's, or that address is signed; a proof kept only for the address it then has |
| InitFacts.AnswerSays | backend/apps/tickets/views.py:528-618 | What the session that answers says of its user, whatever the pass that follows makes of its contact |
| InitFacts.LoginMoves | backend/apps/tickets/views.py:453-506 | A login takes every conversation of the browser's anonymous session, and its messages, to the session that answers, marked, on its contact if it has one, and leaves those of every other ticket as they were |
| InitFacts.LoginEmpties | backend/apps/tickets/views.py:463-516 | The contacts that may go after an init are those the browser's session, or a conversation of it, was on just before a login moved them, but for the one of the session that answers |
| InitFacts.PayloadIs | backend/apps/tickets/views.py:269-300 | A pass proves the session's address exactly if a code did, or the host app signed that very address |
| MoveFacts.MovedRowsAre | backend/apps/tickets/views.py:453-506 | Each field of a moved ticket, with both marks of the login, and of the anonymous session, which keeps its key and dates alone; nothing else is written |
| MoveFacts.MovedMessagesAre | backend/apps/tickets/views.py:490-492 | A message of the anonymous session on a ticket of the organization is on the other session, and no other changes |
| MoveFacts.MessageIs | backend/apps/tickets/messages.py:44-87 | A message is written as it came, on the writer's session if the ticket was found through another, else on the ticket's, or on none where only the contact's may have it and that one isn't |
| MoveFacts.SenderIs | backend/apps/tickets/models.py:462-494 | A sender from outside is verified exactly if the ticket's session is on its contact, and a user's or proved before the ticket the address both have, and no login moved it |
| ErasureFacts.ContactIs | backend/apps/contacts/gdpr.py:270-297 | Each field of the erased contact: the new address, "Anonymized contact", and blanks |
| ErasureFacts.SessionsAre | backend/apps/contacts/gdpr.py:300-345 | Each session that was on it, or its user's, is blank and on nobody, and no other changes |
| ErasureFacts.TicketsAre | backend/apps/contacts/gdpr.py:117-185 | Each field of its tickets: title, description, requester name, page and user agent are removed values, an end user's account is no longer the requester, and of the metadata are kept the listed keys with a short text without @ and a previous ticket's key |
| ErasureFacts.MessagesAre | backend/apps/contacts/gdpr.py:188-207 | The bodies of the messages the contact wrote are removed, and no other message loses its body |
| ErasureFacts.TracesAre | backend/apps/contacts/gdpr.py:79-103 | Exactly its notes, its uploads, its mails and the codes mailed to it go |
| BackfillFacts.SessionsEnd | backend/apps/contacts/backfill.py:265-291 | An unlinked session ends on the contact of its usable external id, or, anonymous, of its cleaned address or the latest of its own tickets', unless that contact is erased, and else on none |
| BackfillFacts.TicketsEnd | backend/apps/contacts/backfill.py:294-373 | A ticket that no session decides for ends on the contact of its external id, exactly if some session of its organization had that id; else of its cleaned address, unless it is the filing staff member's; else, without a session, of its end user's account; an erased contact gives none |
| BackfillFacts.NewContactIs | backend/apps/contacts/backfill.py:172-197 | A new contact has one identity and a declared address from its sessions, and nothing else but the name and the dates of the rows now on it |
| ReplyFacts.HistoryOpensWhen | backend/apps/tickets/access.py:28-40 | A contact's history opens to a session on it, if the contact is not erased, and has the session's external id, or holds the address the anonymous session proved and has |
| ReplyFacts.SeesWhen | backend/apps/tickets/access.py:43-50 | A session sees the tickets of its organization that are its own, its user's, or of a contact whose history it sees, and no other |
| ReplyFacts.RepliesGoTo | backend/apps/tickets/models.py:170-201 | A reply goes to the ticket's address, unless its contact is erased or that address is an erased one's; without one to the contact's, or the one it declared, unless a login moved the ticket or the contact is erased |
| ReplyFacts.MayWriteWhen | backend/apps/tickets/access.py:53-79 | A session may write on its own ticket; on a mail's, of a contact whose history it sees and whose address the replies go to; on the ticket of another session of the same user, or of one that sees the history of the ticket's contact; and on no other |
| ReplyFacts.LinkIsGivenWhen | backend/apps/email_channel/outbound.py:305-324 | A link is given for the address a contact that is not erased holds, on a ticket no login moved, and for no other |
| ReplyFacts.TokenIsRead | backend/apps/email_channel/tokens.py:128-147 | A token is read if it is a claim signed under a known key, and not too old |
| ReplyFacts.ClaimOpensWhen | backend/apps/email_channel/conversation_views.py:69-97 | A claim opens its ticket while that is on the contact it names, not moved by a login, and the contact is not erased and holds the address of the hash |
| MachineFacts.KnownSenderIs | backend/apps/contacts/services.py:203-230 | Of the contact that has the address, a mail writes no more than a missing company, that of the address's private domain, and nothing of an erased one, or of an identified one whose email isn't proven |
| MachineFacts.NewSenderIs | backend/apps/contacts/services.py:203-230 | From an address nobody has, it makes a contact of that address and name, unverified, with its domain's company |
| MachineFacts.EditedIs | backend/apps/contacts/serializers.py:121-170 | Each field after an agent's edit: what it sets, the verification date gone with the address, the entries merged, dated if anything changed |
| MachineFacts.EmptiedIs | backend/apps/contacts/services.py:648-684 | Which contacts a login may delete, field by field |
| MachineFacts.DeletedIs | backend/apps/contacts/views.py:280-288 | A contact deleted takes its notes along and leaves its sessions and tickets on nobody, otherwise as they were |
| MachineFacts.StepsProve | backend/apps/contacts/services.py:6-27 | Which proof each step may give, and under which hash or mailed link |
| InboundFacts.BeginDoes | backend/apps/email_channel/pipeline.py:146-200 | A mail the filters reject is Rejected, one they drop Ignored, with the run over; one they accept has its files stored next, and what can't be read, or raises, is left for the run to mark; nothing else changes |
| InboundFacts.FilteredMailIsNeverWritten | backend/apps/email_channel/pipeline.py:186-200 | A mail rejected or ignored keeps that status for as long as it has a row, over any later run, and becomes no message |
| InboundFacts.MessageHasAllFiles | backend/apps/email_channel/pipeline.py:214-285 | Whatever happens while a run stores the files of an accepted mail, it writes no message before all are stored, and then one with every one of them |
| InboundFacts.GivingUpLeavesNoFile | backend/apps/email_channel/pipeline.py:214-235 | A run that fails at any file or at the write, or finds the mail finished, deletes every file it stored, and leaves rows and files as they were |
| InboundFacts.GivingUpOnlyMarks | backend/apps/email_channel/pipeline.py:137-143 | And then marks the mail Failed, if it failed, and nothing else |
| InboundFacts.DeletingMessageDoes | backend/apps/tickets/views.py:1617-1620 | A message deleted is named by no mail, and its attachments' rows alone go |
| OtpFacts.CallAlone | backend/apps/organizations/models.py:586-619 | Alone, a call tries its scope's newest unused code of at most 600 seconds, wins it exactly with its text and an attempt left, counts every attempt up to five, uses the code up with the right text or the fifth, and touches no other |
| OtpFacts.NewCodeReplaces | backend/apps/organizations/models.py:622-646 | A new code uses up those of its scope, and is its scope's only usable one for 600 seconds |
| OtpFacts.CountDoes | backend/apps/organizations/models.py:609-612 | An attempt is counted exactly on a code not used yet with fewer than five, and the call is over otherwise |
| TokenFacts.MessageIdIs | backend/apps/email_channel/tokens.py:42-56 | A Message-ID letter by letter: its kind, the id in groups, the stamp, the signature of all three, and the domain |
| TokenFacts.LinkStampIs | backend/apps/email_channel/tokens.py:176-182 | A link's stamp is its key in lower case without other characters than letters and digits, up to 64, and a new id only where nothing is left |
| TokenFacts.DecimalReads | backend/apps/email_channel/tokens.py:166-173 | A resolution's stamp is the number of its date in digits |
| TokenFacts.WellFormedIs | backend/apps/email_channel/tokens.py:24-27 | What the pattern takes: 32 hexadecimal digits, a stamp of 1 to 64 letters and digits, 16 of signature, and a domain |
| AttachmentFacts.StatusIs | backend/apps/email_channel/outbound.py:170-207 | A file is attached exactly if it can be read and both its bytes and its recorded size, encoded, fit in what the files before it left; unavailable without a file, or unreadable and recorded small enough; and else too large |
| AttachmentFacts.SizeIs | backend/apps/email_channel/outbound.py:164-167 | Four characters for each three bytes begun, and two for each line of 76 begun |
| AttachmentFacts.LinesAre | backend/apps/email_channel/outbound.py:164-167 | The encoding measured has lines of exactly 76 characters but the last, each ended by CRLF |
| MailTextFacts.CleanExactly | backend/apps/email_channel/content.py:25-34 | Cleaning leaves exactly the texts of printable characters, tabs and newlines with no space before a newline, nothing to strip and no three newlines in a row |
| MailTextFacts.LineEndsAgree | backend/apps/email_channel/content.py:29-32 | A text is cleaned alike whether its lines end in LF, CRLF or CR |
| ReplyTextFacts.HistoryGoes | backend/apps/email_channel/content.py:223-269 | From the first line, before any forward, that has the marker's very words, is an attribution on one line or two, or starts three header names of the three groups within eight lines, nothing is shown, nor the blank and quoted lines above; if nothing is left then, the whole text is |
| ReplyTextFacts.TrailingQuoteGoes | backend/apps/email_channel/content.py:239-269 | With no such line and no forward, exactly the blank and quoted lines at the end go |
| ReplyTextFacts.ForwardStays | backend/apps/email_channel/content.py:246-269 | What is forwarded stays, below what is left above it |
| ReplyTextFacts.LinesAreSeen | backend/apps/email_channel/content.py:192-194 | A line as the patterns see it: trimmed, of at most 300 characters, non-breaking spaces plain |
| ReplyMail.StandsDownWhen | backend/apps/email_channel/outbound.py:100-153 | A reply stands down exactly if an agent's reply follows it, and between them the requester neither read, wrote nor was mailed |
| ReplyMail.DeliverDoes | backend/apps/tickets/tasks.py:340-347 | A mail that went marks sent exactly the replies it carried, and frees the ticket |
| RateLimit.PassesExactly | backend/apps/email_channel/filters.py:268-308 | A mail gets through exactly if no more than its sender's limit came from the sender in the 3600 seconds before it, itself among them, and, to a mailbox, no more than the mailbox's; one rejected before does not count, to no mailbox |
| AttachmentFacts.ReadsNoFurther | backend/apps/email_channel/outbound.py:186-191 | Of a file is read at most three quarters of the room and a byte |
| AttachmentFacts.AttachedAre | backend/apps/email_channel/outbound.py:201-207 | The contents attached are those of the files with that status, whole and in order |
| InboundFacts.FinishedIsNotBegun | backend/apps/email_channel/pipeline.py:127-134 | A mail finished, or gone, is left alone by a run that would begin it |
| InboundFacts.MarkingDoes | backend/apps/email_channel/pipeline.py:137-143 | A run that could not write marks the mail Failed, unless another finished it or it is gone |
| InboundFacts.ReplayDoes | backend/apps/email_channel/tasks.py:99-136 | A replay makes a failed mail Pending, and no other |
| InboundFacts.PurgingRawDoes | backend/apps/email_channel/tasks.py:40-71 | A finished mail's raw file is taken off its row and deleted, an unfinished one's never |
| InboundFacts.DeletingMailDoes | backend/apps/contacts/gdpr.py:210-225 | A mail deleted by an anonymization, or once finished by the purge of the log, takes its raw file along |
| InboundFacts.CleaningDoes | backend/apps/email_channel/pipeline.py:229-235 | Each file is let go once, and a run goes on only with none left |
| InboundFacts.DeletingFilesDoes | backend/apps/contacts/gdpr.py:79-103 | A file's row goes at once, and the file once that is committed |
| InboundFacts.StoringMailDoes | backend/apps/email_channel/tasks.py:99-136 | A mail is stored under a key of its own, pending with its bytes, or rejected at once |
| MachineFacts.OpenedIs | backend/apps/contacts/services.py:687-707 | A link mailed to the address the contact has dates its verification, unless it has a date or is erased |
| MachineFacts.DroppedIs | backend/apps/tickets/views.py:221-248 | A proof, or half of one, that is not of the email at hand goes, and another stays as it is |
| MachineFacts.CompanyDeletedIs | backend/apps/contacts/views.py:318-361 | A company deleted leaves its contacts without one, otherwise as they were |
| MachineFacts.TicketDeletedIs | backend/apps/tickets/views.py:641-707 | A ticket deleted takes its messages and uploads along, and leaves its mails on none |
| MachineFacts.UserDeletedIs | backend/apps/contacts/gdpr.py:136-146 | An account deleted is named by no ticket, message or upload |
| MachineFacts.EditedTicketIs | backend/apps/tickets/serializers.py:367-379 | An edit of a ticket sets what it names and leaves the rest |
| MachineFacts.FilledTicketIs | backend/apps/tickets/views.py:352-362 | What a session's user says fills the blanks of its tickets, but of those a login moved there |
| MachineFacts.StepsWrite | backend/apps/contacts/services.py:6-27 | What the steps that start sessions, mail codes, open links or work on contacts write |
| MailTextFacts.ControlGoes | backend/apps/email_channel/content.py:25-32 | A control character is as if it were not there |
| MoveFacts.NoMessageWithoutTicket | backend/apps/tickets/messages.py:66-68 | A ticket that is gone takes no message |
| OtpFacts.CompareDoes | backend/apps/organizations/models.py:613-615 | Only a call whose attempt was counted compares, once, with the text typed |
| OtpFacts.ConsumeDoes | backend/apps/organizations/models.py:614-615 | Only the right text uses the code, and wins it if nobody used it meanwhile |
| OtpFacts.CloseDoes | backend/apps/organizations/models.py:617-619 | A wrong one uses it up once five attempts are counted |
| OtpFacts.CancelDoes | backend/apps/organizations/models.py:634-638 | A new code cancels those of its scope not used yet, and no other |
| ReplyMail.BuildDoes | backend/apps/tickets/tasks.py:207-265 | A mail is built for an agent's reply not mailed, of what is unread then, while no other of the ticket is on its way |
| ReplyMail.FailuresDo | backend/apps/tickets/tasks.py:198-204 | A reply is marked failed unless it was sent, and a bounce marks any message but the requester's |
| ReplyMail.OthersDo | backend/apps/email_channel/outbound.py:124-153 | What is written, read and deleted meanwhile |
| Text.StripDropsSpaces | backend/apps/contacts/services.py:90-104 | Trimming drops spaces at both ends, and nothing else |
| Text.LowerIs | backend/apps/contacts/services.py:107-109 | Lower case turns each capital of ASCII into its small letter, and nothing else |
| TokenFacts.ReplyAddressIs | backend/apps/email_channel/tokens.py:59-65 | A reply address letter by letter, the id being what is signed |
| TokenFacts.SameLinkSameId | backend/apps/email_channel/tokens.py:176-182 | The same key gives the same Message-ID however often it is mailed, if it has a letter or a digit |

## Left out

Weaker than the code, or than what it says, on purpose:

- ReplyMail.StandingDownIsSafe: takes messages of a ticket to be written at increasing times; two agent replies at the very same microsecond are not told apart by the code. Deleting an agent's reply, which goes only with its ticket, is left out.
- ReplyMail.NoReplyIsMailedTwice: counts recorded mails; a worker stopped between the SMTP answer and the update of the rows, and a lock that outlives its five minutes, are left out.
- InboundPipeline.NoFileIsLeftOver: a commit that fails after the write is left out.
- EmailProof.ProofOpensAsPredicted: for an instance that receives mail, a session whose address the service uses and that is stored without spaces around it, and an identified session that the pass of its init put on its own contact.
- InboundPipeline.OneMessagePerMail: is about one row; two rows of the same mail processed at once are not told apart, as the duplicate check is only made at triage.
- RateLimit.NoHourExceedsTheLimit: the log's own purge, and the deletion of a mailbox with its log, are left out.
- Tokens.ReplyAddressReads: for ids of 32 hexadecimal digits, as a ticket's are; what else Python's `UUID` reads as an id is a parameter.
- BackfillRun.Run: the order of rows with the same date is a parameter, the same for all batches.
- Safety.BackfillIsSound: the back-fill, one transaction, is one step; what requests commit between two of its statements is left out.
- InboundPipeline.DeletedMailIsNeverWritten: which mails and files an anonymization deletes is any; the video recordings it deletes too are left out.
- Replies.LinkProvesItsAddress: asks that the two addresses at hand do not share a hash.
- Replies.LinkOpensItsTicket: how a token is signed and dated is a parameter, read back faithfully; an expired link's renewal is left out.
- Desk.Tables.ResolveSessionOnce: the contact's changed fields are compared with the row as locked, where the service keeps a set of their names; under the lock both write the same.
- WidgetRequests.CreateOrResumeSession: the request's session object is the row; overlapping requests, where it may be older, are the machine's.

Not modelled:

- Lower case beyond ASCII, Unicode normalization, and the length limits of columns other than those the identity service checks itself.
- The cleaning of traits and attributes against their definitions, and of a company's payload: both arrive cleaned.
- `resolve_contact_for_ticket`, `is_staff_address` and tickets filed through the API: which address becomes a contact is a parameter.
- `store` and its duplicate and rejected-row rules, the order of `classify`, forwarding confirmations and the reading of bounces: easy next to what is proved, or checked once without a lock.
- Thread matching, reopening, ticket creation from mail, the text of HTML mail, file names, the parsing of MIME.
- Database deadlocks and lock timeouts, which roll a transaction back: a step that does not happen.
- HTTP, permissions, throttles, task queues, websockets, rendering, storage back ends and DNS.
- Renewed conversation links, the sending domains, the Django admin site, and the deletion of an organization.
- The lifetime of a code after it was picked: expiry is checked when `redeem` picks it, as in the code.
