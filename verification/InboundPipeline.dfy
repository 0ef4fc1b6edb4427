/**
 The life of a stored inbound mail (backend/apps/email_channel/pipeline.py and tasks.py):
 stored, queued any number of times, triaged in one transaction and written in another
 by workers that overlap and may stop anywhere, then retried, replayed and purged. At any
 time an anonymization may delete a mail, or what it attached
 (backend/apps/contacts/gdpr.py:80-103 and 210-225), and a message may go, alone
 (backend/apps/tickets/views.py:1617-1620) or with its ticket.

 A transaction is one step, so is a conditional update, and so is each file stored or
 deleted between them. Any worker may take any mail at any time, which covers every
 queuing, retry and requeue; one that finds its row locked by another does nothing.
 */
module InboundPipeline {
  import opened Rows

  type Name = nat

  datatype Status = Pending | Processed | Ignored | Rejected | Failed

  predicate Processable(status: Status) {
    status.Pending? || status.Failed?
  }

  /** A stored mail: the file of its raw bytes, and the message it became. */
  datatype Mail = Mail(status: Status, raw: Option<Name>, message: Option<Id>)

  datatype Attachment = Attachment(message: Id, file: Name)

  /** Where a run of `process` is, and the files it stored so far. */
  datatype Worker =
    | Storing(mail: Id, names: set<Name>, left: nat)
    | Unprocessable(mail: Id)
    | Cleaning(mail: Id, names: set<Name>, failed: bool)
    | Failing(mail: Id)

  /**
   The mails, each message ever written with the mail it was made from, those of them
   deleted since, the attachments, the attachment files and the raw files that exist,
   those of each that no row names any more but yet to be deleted, the keys mails ever
   had, and the runs in progress.
   */
  datatype State = State(
    mails: map<Id, Mail>,
    messages: map<Id, Id>,
    gone: set<Id>,
    attachments: set<Attachment>,
    files: set<Name>,
    dropped: set<Name>,
    rawFiles: set<Name>,
    doomed: set<Name>,
    keys: set<Id>,
    workers: map<Id, Worker>)

  datatype Triage = Accepted(files: nat) | Finished(rejected: bool) | Unreadable | Raised

  datatype Step =
    | Store(mail: Id, raw: Name)
    | StoreRejected(mail: Id, kept: Option<Name>)
    | Begin(worker: Id, mail: Id, triage: Triage)
    | MarkUnprocessable(worker: Id)
    | StoreFile(worker: Id, name: Name)
    | StoreFails(worker: Id)
    | Write(worker: Id, message: Id)
    | WriteFails(worker: Id)
    | WriteSkips(worker: Id)
    | DeleteFile(worker: Id, name: Name, deleted: bool)
    | Cleaned(worker: Id)
    | MarkFailed(worker: Id)
    | Stop(worker: Id)
    | Replay(mail: Id)
    | PurgeRaw(mail: Id)
    | DeleteRaw(name: Name)
    | PurgeLog(mail: Id)
    | EraseMail(mail: Id)
    | DeleteMessage(message: Id)
    | EraseUpload(attachment: Attachment)
    | DeleteUpload(name: Name, deleted: bool)

  predicate StillProcessable(st: State, mail: Id) {
    mail in st.mails && Processable(st.mails[mail].status)
  }

  predicate HasRaw(st: State, mail: Id)
    requires mail in st.mails
  {
    st.mails[mail].raw.Some? && st.mails[mail].raw.value in st.rawFiles
  }

  predicate Runs(st: State, w: Id) {
    w in st.workers
  }

  predicate Enabled(st: State, step: Step) {
    match step
    case Store(mail, raw) => mail !in st.keys && raw !in st.rawFiles
    case StoreRejected(mail, raw) => mail !in st.keys && (raw.Some? ==> raw.value !in st.rawFiles)
    case Begin(w, mail, _) => !Runs(st, w) && StillProcessable(st, mail)
    case MarkUnprocessable(w) => Runs(st, w) && st.workers[w].Unprocessable?
    case StoreFile(w, name) => Runs(st, w) && st.workers[w].Storing? && st.workers[w].left > 0 && name !in st.files
    case StoreFails(w) => Runs(st, w) && st.workers[w].Storing? && st.workers[w].left > 0
    case Write(w, message) =>
      && Runs(st, w) && st.workers[w].Storing? && st.workers[w].left == 0
      && StillProcessable(st, st.workers[w].mail) && message !in st.messages
    case WriteFails(w) =>
      Runs(st, w) && st.workers[w].Storing? && st.workers[w].left == 0 && StillProcessable(st, st.workers[w].mail)
    case WriteSkips(w) => Runs(st, w) && st.workers[w].Storing? && st.workers[w].left == 0
    case DeleteFile(w, name, _) => Runs(st, w) && st.workers[w].Cleaning? && name in st.workers[w].names
    case Cleaned(w) => Runs(st, w) && st.workers[w].Cleaning? && st.workers[w].names == {}
    case MarkFailed(w) => Runs(st, w) && st.workers[w].Failing?
    case Stop(w) => Runs(st, w)
    case Replay(mail) => mail in st.mails && st.mails[mail].status.Failed?
    case PurgeRaw(mail) => mail in st.mails && !Processable(st.mails[mail].status) && st.mails[mail].raw.Some?
    case DeleteRaw(name) => name in st.doomed
    case PurgeLog(mail) => mail in st.mails && !Processable(st.mails[mail].status)
    case EraseMail(mail) => mail in st.mails
    case DeleteMessage(message) => message in st.messages && message !in st.gone
    case EraseUpload(a) => a in st.attachments
    case DeleteUpload(name, _) => name in st.dropped
  }

  /** What a mail still names of the message it became, once those are deleted. */
  function Remaining(gone: set<Id>, message: Option<Id>): Option<Id> {
    if message.Some? && message.value in gone then None else message
  }

  function WithMail(st: State, mail: Id, row: Mail): State {
    st.(mails := st.mails[mail := row])
  }

  function WithWorker(st: State, w: Id, worker: Worker): State {
    st.(workers := st.workers[w := worker])
  }

  function WithoutWorker(st: State, w: Id): State {
    st.(workers := st.workers - {w})
  }

  /** A conditional update of the status: nothing on a row that is finished, or gone. */
  function WithStatus(st: State, mail: Id, status: Status): State {
    if StillProcessable(st, mail) then WithMail(st, mail, st.mails[mail].(status := status)) else st
  }

  /** The first transaction: the filters under the row's lock, or the reason not to go on. */
  function Begun(st: State, w: Id, mail: Id, triage: Triage): State
    requires StillProcessable(st, mail)
  {
    if !HasRaw(st, mail) then WithWorker(st, w, Unprocessable(mail))
    else
      match triage
      case Accepted(files) => WithWorker(st, w, Storing(mail, {}, files))
      case Finished(rejected) => WithStatus(st, mail, if rejected then Rejected else Ignored)
      case Unreadable => WithWorker(st, w, Unprocessable(mail))
      case Raised => WithWorker(st, w, Failing(mail))
  }

  /** The second: the message and its attachments, and the row processed, all or nothing. */
  function Written(st: State, w: Id, message: Id): State
    requires Enabled(st, Write(w, message))
  {
    var worker := st.workers[w];
    var row := st.mails[worker.mail].(status := Processed, message := Some(message));
    WithoutWorker(WithMail(st, worker.mail, row), w).(
      messages := st.messages[message := worker.mail],
      attachments := st.attachments + set name | name in worker.names :: Attachment(message, name))
  }

  function DoomedRaw(row: Mail): set<Name> {
    if row.raw.Some? then {row.raw.value} else {}
  }

  /** The row deleted: its raw file goes once that is committed. */
  function WithoutMail(st: State, mail: Id): State
    requires mail in st.mails
  {
    st.(mails := st.mails - {mail}, doomed := st.doomed + DoomedRaw(st.mails[mail]))
  }

  function AttachmentsOf(attachments: set<Attachment>, message: Id): set<Attachment> {
    set a | a in attachments && a.message == message
  }

  /** The message's row deleted with those of its attachments, whose files nobody deletes. Its mail names none then. */
  function WithoutMessage(st: State, message: Id): State {
    st.(gone := st.gone + {message},
        attachments := st.attachments - AttachmentsOf(st.attachments, message),
        mails := map m | m in st.mails :: st.mails[m].(message := Remaining({message}, st.mails[m].message)))
  }

  function Apply(st: State, step: Step): State {
    if !Enabled(st, step) then st
    else
      match step
      case Store(mail, raw) =>
        WithMail(st, mail, Mail(Pending, Some(raw), None)).(rawFiles := st.rawFiles + {raw}, keys := st.keys + {mail})
      case StoreRejected(mail, raw) =>
        var row := Mail(Rejected, raw, None);
        WithMail(st, mail, row).(rawFiles := st.rawFiles + DoomedRaw(row), keys := st.keys + {mail})
      case Begin(w, mail, triage) => Begun(st, w, mail, triage)
      case MarkUnprocessable(w) => WithStatus(WithoutWorker(st, w), st.workers[w].mail, Failed)
      case StoreFile(w, name) =>
        var worker := st.workers[w];
        WithWorker(st, w, worker.(names := worker.names + {name}, left := worker.left - 1)).(files := st.files + {name})
      case StoreFails(w) => WithWorker(st, w, Cleaning(st.workers[w].mail, st.workers[w].names, true))
      case Write(w, message) => Written(st, w, message)
      case WriteFails(w) => WithWorker(st, w, Cleaning(st.workers[w].mail, st.workers[w].names, true))
      case WriteSkips(w) => WithWorker(st, w, Cleaning(st.workers[w].mail, st.workers[w].names, false))
      case DeleteFile(w, name, deleted) =>
        var worker := st.workers[w];
        WithWorker(st, w, worker.(names := worker.names - {name})).(
          files := if deleted then st.files - {name} else st.files)
      case Cleaned(w) =>
        if st.workers[w].failed then WithWorker(st, w, Failing(st.workers[w].mail)) else WithoutWorker(st, w)
      case MarkFailed(w) => WithStatus(WithoutWorker(st, w), st.workers[w].mail, Failed)
      case Stop(w) => WithoutWorker(st, w)
      case Replay(mail) => WithMail(st, mail, st.mails[mail].(status := Pending))
      case PurgeRaw(mail) =>
        WithMail(st, mail, st.mails[mail].(raw := None)).(doomed := st.doomed + DoomedRaw(st.mails[mail]))
      case DeleteRaw(name) => st.(doomed := st.doomed - {name}, rawFiles := st.rawFiles - {name})
      case PurgeLog(mail) => WithoutMail(st, mail)
      case EraseMail(mail) => WithoutMail(st, mail)
      case DeleteMessage(message) => WithoutMessage(st, message)
      case EraseUpload(a) => st.(attachments := st.attachments - {a}, dropped := st.dropped + {a.file})
      case DeleteUpload(name, deleted) =>
        st.(dropped := st.dropped - {name}, files := if deleted then st.files - {name} else st.files)
  }

  function Run(st: State, steps: seq<Step>): State
    decreases |steps|
  {
    if steps == [] then st else Run(Apply(st, steps[0]), steps[1..])
  }

  const EMPTY: State := State(map[], map[], {}, {}, {}, {}, {}, {}, {}, map[])

  // The invariant

  predicate IsWritten(messages: map<Id, Id>, mail: Id, message: Id) {
    message in messages && messages[message] == mail
  }

  /** Processed, with a message of its own that it names until it is deleted, or neither. */
  ghost predicate MailHonest(messages: map<Id, Id>, gone: set<Id>, mail: Id, row: Mail) {
    if row.status.Processed? then
      exists x :: IsWritten(messages, mail, x) && row.message == Remaining(gone, Some(x))
    else
      row.message.None? && mail !in messages.Values
  }

  ghost predicate MailsHonest(messages: map<Id, Id>, gone: set<Id>, mails: map<Id, Mail>) {
    forall m :: m in mails ==> MailHonest(messages, gone, m, mails[m])
  }

  /** The raw file a row names is there for as long as it does, and what a replay needs is named. */
  predicate RawKept(rawFiles: set<Name>, doomed: set<Name>, row: Mail) {
    && (Processable(row.status) ==> row.raw.Some?)
    && (row.raw.Some? ==> row.raw.value in rawFiles && row.raw.value !in doomed)
  }

  predicate SameRaw(a: Mail, b: Mail) {
    a.raw.Some? && a.raw == b.raw
  }

  ghost predicate RawsKept(mails: map<Id, Mail>, rawFiles: set<Name>, doomed: set<Name>) {
    && (forall m :: m in mails ==> RawKept(rawFiles, doomed, mails[m]))
    && (forall m, n :: m in mails && n in mails && SameRaw(mails[m], mails[n]) ==> m == n)
    && doomed <= rawFiles
  }

  ghost predicate OneMessageEach(messages: map<Id, Id>, keys: set<Id>) {
    && (forall x, y :: x in messages && y in messages && messages[x] == messages[y] ==> x == y)
    && (forall x :: x in messages ==> messages[x] in keys)
  }

  function Held(worker: Worker): set<Name> {
    if worker.Storing? || worker.Cleaning? then worker.names else {}
  }

  /** Every file an attachment names is there, and neither a run nor a deletion yet to come would delete it. */
  predicate Safe(files: set<Name>, dropped: set<Name>, workers: map<Id, Worker>, a: Attachment) {
    a.file in files && a.file !in dropped && forall w :: w in workers ==> a.file !in Held(workers[w])
  }

  ghost predicate OneFileEach(attachments: set<Attachment>) {
    forall a, b :: a in attachments && b in attachments && a.file == b.file ==> a == b
  }

  /** Those of a run are its own. */
  ghost predicate HeldAlone(files: set<Name>, dropped: set<Name>, workers: map<Id, Worker>) {
    && (forall w :: w in workers ==> Held(workers[w]) <= files && Held(workers[w]) !! dropped)
    && (forall v, w :: v in workers && w in workers && v != w ==> Held(workers[v]) !! Held(workers[w]))
  }

  /** No two runs hold the same file, and none holds one that an attachment names, or named. */
  ghost predicate FilesKept(st: State) {
    && OneFileEach(st.attachments) && st.dropped <= st.files
    && (forall a :: a in st.attachments ==> Safe(st.files, st.dropped, st.workers, a))
    && HeldAlone(st.files, st.dropped, st.workers)
  }

  ghost predicate MailsKept(st: State) {
    && MailsHonest(st.messages, st.gone, st.mails)
    && RawsKept(st.mails, st.rawFiles, st.doomed)
    && OneMessageEach(st.messages, st.keys)
    && st.mails.Keys <= st.keys && st.gone <= st.messages.Keys
  }

  ghost predicate Invariant(st: State) {
    MailsKept(st) && FilesKept(st)
  }

  // Each step keeps it: the mails

  predicate MailStep(step: Step) {
    || step.Store? || step.StoreRejected? || step.Begin? || step.MarkUnprocessable? || step.MarkFailed?
    || step.Replay? || step.PurgeRaw? || step.DeleteRaw? || step.PurgeLog? || step.EraseMail? || step.DeleteMessage?
    || step.Write?
  }

  lemma OthersLeaveMails(st: State, step: Step)
    requires !MailStep(step)
    ensures var after := Apply(st, step);
      && after.mails == st.mails && after.messages == st.messages && after.gone == st.gone
      && after.rawFiles == st.rawFiles && after.doomed == st.doomed && after.keys == st.keys
  {}

  lemma StatusKeepsMails(st: State, m: Id, status: Status)
    requires MailsKept(st) && !status.Processed?
    ensures MailsKept(WithStatus(st, m, status))
  {}

  lemma NewMailKeepsMails(st: State, m: Id, row: Mail)
    requires MailsKept(st) && m !in st.keys
    requires row.message.None? && !row.status.Processed? && (Processable(row.status) ==> row.raw.Some?)
    requires row.raw.Some? ==> row.raw.value !in st.rawFiles
    ensures MailsKept(WithMail(st, m, row).(rawFiles := st.rawFiles + DoomedRaw(row), keys := st.keys + {m}))
  {}

  lemma ReplayKeepsMails(st: State, m: Id)
    requires MailsKept(st) && m in st.mails && st.mails[m].status.Failed?
    ensures MailsKept(WithMail(st, m, st.mails[m].(status := Pending)))
  {}

  lemma PurgingKeepsMails(st: State, m: Id)
    requires MailsKept(st) && Enabled(st, PurgeRaw(m))
    ensures MailsKept(Apply(st, PurgeRaw(m)))
  {}

  lemma DeletingRawKeepsMails(st: State, name: Name)
    requires MailsKept(st) && name in st.doomed
    ensures MailsKept(st.(doomed := st.doomed - {name}, rawFiles := st.rawFiles - {name}))
  {}

  lemma DeletingMailKeepsMails(st: State, m: Id)
    requires MailsKept(st) && m in st.mails
    ensures MailsKept(WithoutMail(st, m))
  {}

  lemma DeletingMessageKeepsMails(st: State, message: Id)
    requires MailsKept(st) && message in st.messages
    ensures MailsKept(WithoutMessage(st, message))
  {
    var after := WithoutMessage(st, message);
    forall m | m in after.mails ensures MailHonest(after.messages, after.gone, m, after.mails[m]) {
      assert MailHonest(st.messages, st.gone, m, st.mails[m]);
      if st.mails[m].status.Processed? {
        var x :| IsWritten(st.messages, m, x) && st.mails[m].message == Remaining(st.gone, Some(x));
        assert IsWritten(after.messages, m, x) && after.mails[m].message == Remaining(after.gone, Some(x));
      }
    }
    forall m, n | m in after.mails && n in after.mails && SameRaw(after.mails[m], after.mails[n]) ensures m == n {
      assert SameRaw(st.mails[m], st.mails[n]);
    }
    forall m | m in after.mails ensures RawKept(after.rawFiles, after.doomed, after.mails[m]) {
      assert RawKept(st.rawFiles, st.doomed, st.mails[m]);
    }
  }

  lemma WritingKeepsMails(st: State, w: Id, message: Id)
    requires MailsKept(st) && Enabled(st, Write(w, message))
    ensures MailsKept(Written(st, w, message))
  {}

  /** The steps of a run that at most give a mail another status. */
  lemma StatusStepKeepsMails(st: State, step: Step)
    requires MailsKept(st) && Enabled(st, step) && (step.Begin? || step.MarkUnprocessable? || step.MarkFailed?)
    ensures MailsKept(Apply(st, step))
  {
    match step
    case Begin(w, m, triage) =>
      if HasRaw(st, m) && triage.Finished? {
        StatusKeepsMails(st, m, if triage.rejected then Rejected else Ignored);
      }
    case MarkUnprocessable(w) => StatusKeepsMails(WithoutWorker(st, w), st.workers[w].mail, Failed);
    case MarkFailed(w) => StatusKeepsMails(WithoutWorker(st, w), st.workers[w].mail, Failed);
  }

  predicate Deletes(step: Step) {
    step.PurgeRaw? || step.DeleteRaw? || step.PurgeLog? || step.EraseMail? || step.DeleteMessage?
  }

  lemma DeletionKeepsMails(st: State, step: Step)
    requires MailsKept(st) && Enabled(st, step) && Deletes(step)
    ensures MailsKept(Apply(st, step))
  {
    match step
    case PurgeRaw(m) => PurgingKeepsMails(st, m);
    case DeleteRaw(name) => DeletingRawKeepsMails(st, name);
    case PurgeLog(m) => DeletingMailKeepsMails(st, m);
    case EraseMail(m) => DeletingMailKeepsMails(st, m);
    case DeleteMessage(message) => DeletingMessageKeepsMails(st, message);
  }

  lemma RowStepKeepsMails(st: State, step: Step)
    requires MailsKept(st) && Enabled(st, step) && (step.Store? || step.StoreRejected? || step.Replay? || step.Write?)
    ensures MailsKept(Apply(st, step))
  {
    match step
    case Store(m, raw) => NewMailKeepsMails(st, m, Mail(Pending, Some(raw), None));
    case StoreRejected(m, raw) => NewMailKeepsMails(st, m, Mail(Rejected, raw, None));
    case Replay(m) => ReplayKeepsMails(st, m);
    case Write(w, message) => WritingKeepsMails(st, w, message);
  }

  lemma IdleStepKeepsMails(st: State, step: Step)
    requires MailsKept(st) && (!Enabled(st, step) || !MailStep(step))
    ensures MailsKept(Apply(st, step))
  {
    if !MailStep(step) {
      OthersLeaveMails(st, step);
    }
  }

  lemma StepKeepsMails(st: State, step: Step)
    requires MailsKept(st)
    ensures MailsKept(Apply(st, step))
  {
    if !Enabled(st, step) || !MailStep(step) {
      IdleStepKeepsMails(st, step);
    } else if Deletes(step) {
      DeletionKeepsMails(st, step);
    } else if step.Begin? || step.MarkUnprocessable? || step.MarkFailed? {
      StatusStepKeepsMails(st, step);
    } else {
      RowStepKeepsMails(st, step);
    }
  }

  // And the files

  function HeldBy(st: State, w: Id): set<Name> {
    if w in st.workers then Held(st.workers[w]) else {}
  }

  /** The runs but `w` are where they were. */
  predicate OnlyRun(st: State, after: State, w: Id) {
    after.workers - {w} == st.workers - {w}
  }

  predicate SameShelf(st: State, after: State) {
    after.attachments == st.attachments && after.files == st.files && after.dropped == st.dropped
  }

  lemma OtherRunKept(st: State, after: State, w: Id, v: Id)
    requires OnlyRun(st, after, w) && v != w
    ensures v in after.workers <==> v in st.workers
    ensures v in after.workers ==> after.workers[v] == st.workers[v]
  {
    assert v in after.workers - {w} <==> v in st.workers - {w};
    if v in after.workers {
      assert (after.workers - {w})[v] == (st.workers - {w})[v];
    }
  }

  /** A run goes on, or stops, with no other file than those it holds. */
  lemma HoldingLessKeepsFiles(st: State, after: State, w: Id)
    requires FilesKept(st) && SameShelf(st, after) && OnlyRun(st, after, w) && HeldBy(after, w) <= HeldBy(st, w)
    ensures FilesKept(after)
  {
    forall v ensures HeldBy(after, v) <= HeldBy(st, v) && (v in after.workers && v != w ==> v in st.workers) {
      if v != w {
        OtherRunKept(st, after, w, v);
      }
    }
    LessIsKept(st, after);
  }

  lemma LessIsKept(st: State, after: State)
    requires FilesKept(st) && SameShelf(st, after) && forall v :: HeldBy(after, v) <= HeldBy(st, v)
    ensures FilesKept(after)
  {
    forall a | a in after.attachments ensures Safe(after.files, after.dropped, after.workers, a) {
      forall v | v in after.workers ensures a.file !in Held(after.workers[v]) {
        assert HeldBy(after, v) <= HeldBy(st, v);
      }
    }
    forall v | v in after.workers
      ensures Held(after.workers[v]) <= after.files && Held(after.workers[v]) !! after.dropped
    {
      assert HeldBy(after, v) <= HeldBy(st, v);
    }
    forall v, w | v in after.workers && w in after.workers && v != w
      ensures Held(after.workers[v]) !! Held(after.workers[w])
    {
      assert HeldBy(after, v) <= HeldBy(st, v) && HeldBy(after, w) <= HeldBy(st, w);
    }
  }

  lemma StoringKeepsFiles(st: State, w: Id, worker: Worker, name: Name)
    requires FilesKept(st) && w in st.workers && name !in st.files
    requires Held(worker) == Held(st.workers[w]) + {name}
    ensures FilesKept(WithWorker(st, w, worker).(files := st.files + {name}))
  {}

  lemma DeletingKeepsFiles(st: State, w: Id, worker: Worker, name: Name)
    requires FilesKept(st) && w in st.workers && name in Held(st.workers[w])
    requires Held(worker) == Held(st.workers[w]) - {name}
    ensures FilesKept(WithWorker(st, w, worker).(files := st.files - {name}))
    ensures FilesKept(WithWorker(st, w, worker).(files := st.files))
  {}

  lemma AttachingKeepsFiles(st: State, w: Id, message: Id)
    requires FilesKept(st) && Enabled(st, Write(w, message))
    ensures FilesKept(Written(st, w, message))
  {}

  lemma ErasingKeepsFiles(st: State, a: Attachment)
    requires FilesKept(st) && a in st.attachments
    ensures FilesKept(st.(attachments := st.attachments - {a}, dropped := st.dropped + {a.file}))
  {}

  lemma DeletingUploadKeepsFiles(st: State, name: Name)
    requires FilesKept(st) && name in st.dropped
    ensures FilesKept(st.(dropped := st.dropped - {name}, files := st.files))
    ensures FilesKept(st.(dropped := st.dropped - {name}, files := st.files - {name}))
  {}

  /** The run a step belongs to. */
  function WorkerOf(step: Step): Option<Id> {
    match step
    case Begin(w, _, _) => Some(w)
    case MarkUnprocessable(w) => Some(w)
    case StoreFile(w, _) => Some(w)
    case StoreFails(w) => Some(w)
    case WriteFails(w) => Some(w)
    case WriteSkips(w) => Some(w)
    case DeleteFile(w, _, _) => Some(w)
    case Cleaned(w) => Some(w)
    case MarkFailed(w) => Some(w)
    case _ => None
  }

  lemma DeletingMessageKeepsFiles(st: State, message: Id)
    requires FilesKept(st)
    ensures FilesKept(WithoutMessage(st, message))
  {}

  /** The steps of a run that store and delete no file. */
  predicate LetsGo(step: Step) {
    WorkerOf(step).Some? && !step.StoreFile? && !step.DeleteFile?
  }

  lemma LettingGoHoldsLess(st: State, step: Step)
    requires LetsGo(step) && Enabled(st, step)
    ensures var after := Apply(st, step); var w := WorkerOf(step).value;
      SameShelf(st, after) && OnlyRun(st, after, w) && HeldBy(after, w) <= HeldBy(st, w)
  {}

  predicate LeavesShelf(step: Step) {
    && WorkerOf(step).None? && !step.Write? && !step.Stop?
    && !step.EraseUpload? && !step.DeleteUpload? && !step.DeleteMessage?
  }

  lemma OthersLeaveFiles(st: State, step: Step)
    requires LeavesShelf(step)
    ensures SameShelf(st, Apply(st, step)) && Apply(st, step).workers == st.workers
  {}

  lemma StepKeepsFiles(st: State, step: Step)
    requires FilesKept(st)
    ensures FilesKept(Apply(st, step))
  {
    if Enabled(st, step) {
      if LeavesShelf(step) {
        OthersLeaveFiles(st, step);
      } else if LetsGo(step) {
        LettingGoHoldsLess(st, step);
        HoldingLessKeepsFiles(st, Apply(st, step), WorkerOf(step).value);
      } else {
        FileStepKeepsFiles(st, step);
      }
    }
  }

  lemma FileStepKeepsFiles(st: State, step: Step)
    requires FilesKept(st) && Enabled(st, step) && !LeavesShelf(step) && !LetsGo(step)
    ensures FilesKept(Apply(st, step))
  {
    match step
    case StoreFile(w, name) => StoringKeepsFiles(st, w, Apply(st, step).workers[w], name);
    case DeleteFile(w, name, _) => DeletingKeepsFiles(st, w, Apply(st, step).workers[w], name);
    case Write(w, message) => AttachingKeepsFiles(st, w, message);
    case Stop(w) => HoldingLessKeepsFiles(st, WithoutWorker(st, w), w);
    case EraseUpload(a) => ErasingKeepsFiles(st, a);
    case DeleteUpload(name, _) => DeletingUploadKeepsFiles(st, name);
    case DeleteMessage(message) => DeletingMessageKeepsFiles(st, message);
  }

  lemma {:induction false} RunKeepsInvariant(st: State, steps: seq<Step>)
    requires Invariant(st)
    ensures Invariant(Run(st, steps))
    decreases |steps|
  {
    if steps != [] {
      StepKeepsMails(st, steps[0]);
      StepKeepsFiles(st, steps[0]);
      RunKeepsInvariant(Apply(st, steps[0]), steps[1..]);
    }
  }

  // What holds of every run

  lemma EmptyHolds()
    ensures Invariant(EMPTY)
  {}

  /** At most one message is made of a mail, and a mail is processed exactly when one was. */
  lemma OneMessagePerMail(steps: seq<Step>)
    ensures var st := Run(EMPTY, steps);
      && (forall x, y :: x in st.messages && y in st.messages && st.messages[x] == st.messages[y] ==> x == y)
      && (forall m :: m in st.mails ==> (st.mails[m].status.Processed? <==> m in st.messages.Values))
      && (forall m :: m in st.mails && st.mails[m].message.Some? ==>
            st.mails[m].message.value in st.messages && st.messages[st.mails[m].message.value] == m)
  {
    EmptyHolds();
    RunKeepsInvariant(EMPTY, steps);
    var st := Run(EMPTY, steps);
    forall m | m in st.mails ensures MailHonest(st.messages, st.gone, m, st.mails[m]) {}
  }

  /** A mail that is pending or failed still has its raw bytes: a run never finds them missing. */
  lemma RawIsThereToReplay(steps: seq<Step>, m: Id)
    requires StillProcessable(Run(EMPTY, steps), m)
    ensures HasRaw(Run(EMPTY, steps), m)
  {
    EmptyHolds();
    RunKeepsInvariant(EMPTY, steps);
    var st := Run(EMPTY, steps);
    assert RawKept(st.rawFiles, st.doomed, st.mails[m]);
  }

  /** No attachment names a file that a run deleted, or may yet delete. */
  lemma AttachmentsHaveTheirFiles(steps: seq<Step>, a: Attachment)
    requires a in Run(EMPTY, steps).attachments
    ensures var st := Run(EMPTY, steps); Safe(st.files, st.dropped, st.workers, a)
  {
    EmptyHolds();
    RunKeepsInvariant(EMPTY, steps);
  }

  // Finished for good

  /**
   A mail that is processed, ignored or rejected keeps its status, unless its row is
   deleted, and names its message exactly until that one is.
   */
  ghost predicate Settled(st: State, m: Id, row: Mail) {
    && m in st.keys
    && (m in st.mails ==>
          st.mails[m].status == row.status && st.mails[m].message == Remaining(st.gone, row.message))
  }

  lemma StepKeepsSettled(st: State, step: Step, m: Id, row: Mail)
    requires Settled(st, m, row) && !Processable(row.status)
    ensures Settled(Apply(st, step), m, row)
  {}

  lemma {:induction false} OutcomesAreForGood(st: State, steps: seq<Step>, m: Id, row: Mail)
    requires Settled(st, m, row) && !Processable(row.status)
    ensures Settled(Run(st, steps), m, row)
    decreases |steps|
  {
    if steps != [] {
      StepKeepsSettled(st, steps[0], m, row);
      OutcomesAreForGood(Apply(st, steps[0]), steps[1..], m, row);
    }
  }

  /** A mail that was never written, and is deleted, never is, by a run that took it before or any other. */
  lemma {:induction false} DeletedMailIsNeverWritten(st: State, steps: seq<Step>, m: Id)
    requires m in st.keys && m !in st.mails && m !in st.messages.Values
    ensures var end := Run(st, steps); m in end.keys && m !in end.mails && m !in end.messages.Values
    decreases |steps|
  {
    if steps != [] {
      DeletedStaysUnwritten(st, steps[0], m);
      DeletedMailIsNeverWritten(Apply(st, steps[0]), steps[1..], m);
    }
  }

  lemma DeletedStaysUnwritten(st: State, step: Step, m: Id)
    requires m in st.keys && m !in st.mails && m !in st.messages.Values
    ensures var after := Apply(st, step); m in after.keys && m !in after.mails && m !in after.messages.Values
  {}

  // No file is left over, but by a run that stopped or a deletion that failed

  /** An attachment's, in the hands of a run, or yet to be deleted. */
  ghost predicate Owned(st: State, name: Name) {
    || (exists a :: a in st.attachments && a.file == name)
    || (exists w :: w in st.workers && name in Held(st.workers[w]))
    || name in st.dropped
  }

  ghost predicate AllOwned(st: State) {
    forall name :: name in st.files ==> Owned(st, name)
  }

  /** The step leaves a file that nobody will delete. */
  predicate LeavesFile(st: State, step: Step) {
    Enabled(st, step) &&
    match step
    case Stop(w) => Held(st.workers[w]) != {}
    case DeleteFile(_, _, deleted) => !deleted
    case DeleteUpload(_, deleted) => !deleted
    case DeleteMessage(message) => AttachmentsOf(st.attachments, message) != {}
    case _ => false
  }

  /** A file of nobody's stays one: it is never attached, held or deleted. */
  lemma LeftForGood(st: State, step: Step, name: Name)
    requires name in st.files && !Owned(st, name)
    ensures name in Apply(st, step).files && !Owned(Apply(st, step), name)
  {}

  lemma {:induction false} LeftOverRuns(st: State, steps: seq<Step>, name: Name)
    requires name in st.files && !Owned(st, name)
    ensures name in Run(st, steps).files && !Owned(Run(st, steps), name)
    decreases |steps|
  {
    if steps != [] {
      LeftForGood(st, steps[0], name);
      LeftOverRuns(Apply(st, steps[0]), steps[1..], name);
    }
  }

  /** What such a step leaves: nobody else held or named it. */
  lemma LeftBy(st: State, step: Step) returns (name: Name)
    requires FilesKept(st) && LeavesFile(st, step)
    ensures name in Apply(st, step).files && !Owned(Apply(st, step), name)
  {
    var after := Apply(st, step);
    match step
    case Stop(w) =>
      name :| name in Held(st.workers[w]);
      forall v | v in after.workers ensures name !in Held(after.workers[v]) {
        assert Held(st.workers[v]) !! Held(st.workers[w]);
      }
    case DeleteFile(w, file, _) =>
      name := file;
      forall v | v in after.workers ensures name !in Held(after.workers[v]) {
        assert v != w ==> Held(st.workers[v]) !! Held(st.workers[w]);
      }
    case DeleteUpload(file, _) => name := file;
    case DeleteMessage(message) =>
      var a :| a in AttachmentsOf(st.attachments, message);
      name := a.file;
      assert Safe(st.files, st.dropped, st.workers, a);
  }

  /** Still owned, where the run that changes holds it still. */
  lemma StillOwned(st: State, after: State, w: Id, name: Name)
    requires Owned(st, name) && after.workers - {w} == st.workers - {w}
    requires after.attachments == st.attachments && after.dropped == st.dropped
    requires w in st.workers && name in Held(st.workers[w]) ==> w in after.workers && name in Held(after.workers[w])
    ensures Owned(after, name)
  {
    if v :| v in st.workers && name in Held(st.workers[v]) {
      assert v != w ==> v in after.workers - {w} && (after.workers - {w})[v] == (st.workers - {w})[v];
      assert v in after.workers && name in Held(after.workers[v]);
    }
  }

  lemma WritingOwnsAll(st: State, w: Id, message: Id)
    requires AllOwned(st) && Enabled(st, Write(w, message))
    ensures AllOwned(Written(st, w, message))
  {
    var after := Written(st, w, message);
    forall name | name in after.files ensures Owned(after, name) {
      assert Owned(st, name);
      if name in st.workers[w].names {
        assert Attachment(message, name) in after.attachments;
      } else if a :| a in st.attachments && a.file == name {
        assert a in after.attachments;
      } else if v :| v in st.workers && name in Held(st.workers[v]) {
        assert v in after.workers;
      }
    }
  }

  lemma ErasingOwnsAll(st: State, a: Attachment)
    requires AllOwned(st) && a in st.attachments
    ensures AllOwned(st.(attachments := st.attachments - {a}, dropped := st.dropped + {a.file}))
  {
    var after := st.(attachments := st.attachments - {a}, dropped := st.dropped + {a.file});
    forall name | name in after.files ensures Owned(after, name) {
      assert Owned(st, name);
      if b :| b in st.attachments && b.file == name {
        assert b != a ==> b in after.attachments;
      }
    }
  }

  lemma DeletingUploadOwnsAll(st: State, name: Name)
    requires AllOwned(st) && name in st.dropped
    ensures AllOwned(st.(dropped := st.dropped - {name}, files := st.files - {name}))
  {
    var after := st.(dropped := st.dropped - {name}, files := st.files - {name});
    forall other | other in after.files ensures Owned(after, other) {
      assert Owned(st, other);
    }
  }

  lemma WorkerStepOwns(st: State, step: Step, name: Name)
    requires AllOwned(st) && Enabled(st, step) && !LeavesFile(st, step) && WorkerOf(step).Some?
    requires name in Apply(st, step).files
    ensures Owned(Apply(st, step), name)
  {
    var w := WorkerOf(step).value;
    var after := Apply(st, step);
    if step.StoreFile? && name == step.name {
      assert name in Held(after.workers[w]);
    } else {
      StillOwned(st, after, w, name);
    }
  }

  lemma OthersOwnAll(st: State, step: Step)
    requires AllOwned(st) && LeavesShelf(step)
    ensures AllOwned(Apply(st, step))
  {
    OthersLeaveFiles(st, step);
    var after := Apply(st, step);
    forall name | name in after.files ensures Owned(after, name) {
      assert Owned(st, name);
    }
  }

  lemma StoppingOwnsAll(st: State, w: Id)
    requires AllOwned(st) && w in st.workers && Held(st.workers[w]) == {}
    ensures AllOwned(WithoutWorker(st, w))
  {
    forall name | name in st.files ensures Owned(WithoutWorker(st, w), name) {
      StillOwned(st, WithoutWorker(st, w), w, name);
    }
  }

  lemma DeletingMessageOwnsAll(st: State, message: Id)
    requires AllOwned(st) && AttachmentsOf(st.attachments, message) == {}
    ensures AllOwned(WithoutMessage(st, message))
  {
    forall name | name in st.files ensures Owned(WithoutMessage(st, message), name) {
      assert Owned(st, name);
    }
  }

  lemma StepOwnsAll(st: State, step: Step)
    requires AllOwned(st) && Enabled(st, step) && !LeavesFile(st, step)
    ensures AllOwned(Apply(st, step))
  {
    if LeavesShelf(step) {
      OthersOwnAll(st, step);
    } else if WorkerOf(step).Some? {
      forall name | name in Apply(st, step).files ensures Owned(Apply(st, step), name) {
        WorkerStepOwns(st, step, name);
      }
    } else {
      match step
      case Write(w, message) => WritingOwnsAll(st, w, message);
      case EraseUpload(a) => ErasingOwnsAll(st, a);
      case DeleteUpload(name, _) => DeletingUploadOwnsAll(st, name);
      case Stop(w) => StoppingOwnsAll(st, w);
      case DeleteMessage(message) => DeletingMessageOwnsAll(st, message);
    }
  }

  /** One of the steps, where it is taken, leaves a file. */
  predicate LeavesSome(st: State, steps: seq<Step>)
    decreases |steps|
  {
    steps != [] && (LeavesFile(st, steps[0]) || LeavesSome(Apply(st, steps[0]), steps[1..]))
  }

  /**
   Every file is an attachment's, in the hands of a run, or about to be deleted, exactly
   unless a run stopped with files, a deletion failed, or a message with attachments was
   deleted.
   */
  lemma {:induction false} NoFileIsLeftOver(st: State, steps: seq<Step>)
    requires FilesKept(st) && AllOwned(st)
    ensures AllOwned(Run(st, steps)) <==> !LeavesSome(st, steps)
    decreases |steps|
  {
    if steps != [] {
      if LeavesFile(st, steps[0]) {
        var name := LeftBy(st, steps[0]);
        LeftOverRuns(Apply(st, steps[0]), steps[1..], name);
      } else {
        if Enabled(st, steps[0]) {
          StepOwnsAll(st, steps[0]);
        }
        StepKeepsFiles(st, steps[0]);
        NoFileIsLeftOver(Apply(st, steps[0]), steps[1..]);
      }
    }
  }

  /** The files of a deleted message stay on the storage for good, whatever follows. */
  lemma DeletedMessageLeavesItsFiles(st: State, message: Id, a: Attachment, steps: seq<Step>)
    requires FilesKept(st) && Enabled(st, DeleteMessage(message)) && a in st.attachments && a.message == message
    ensures var end := Run(Apply(st, DeleteMessage(message)), steps); a.file in end.files && !Owned(end, a.file)
  {
    var after := Apply(st, DeleteMessage(message));
    assert Safe(st.files, st.dropped, st.workers, a);
    LeftOverRuns(after, steps, a.file);
  }

  // A mail that isn't finished can always be

  function Names(names: seq<Name>): set<Name> {
    set i | 0 <= i < |names| :: names[i]
  }

  predicate NewFiles(st: State, names: seq<Name>) {
    && (forall i :: 0 <= i < |names| ==> names[i] !in st.files)
    && (forall i, j :: 0 <= i < j < |names| ==> names[i] != names[j])
  }

  function StoreSteps(w: Id, names: seq<Name>): seq<Step> {
    if names == [] then [] else [StoreFile(w, names[0])] + StoreSteps(w, names[1..])
  }

  lemma {:induction false} RunTwice(st: State, first: seq<Step>, second: seq<Step>)
    ensures Run(st, first + second) == Run(Run(st, first), second)
    decreases |first|
  {
    if first == [] {
      assert [] + second == second;
    } else {
      assert (first + second)[1..] == first[1..] + second;
      RunTwice(Apply(st, first[0]), first[1..], second);
    }
  }

  lemma NamesCons(names: seq<Name>)
    requires names != []
    ensures Names(names) == {names[0]} + Names(names[1..])
  {}

  /** The run holds those files too, and has `left` more to store. */
  function Stored(st: State, w: Id, m: Id, held: set<Name>, names: seq<Name>, left: nat): State {
    WithWorker(st, w, Storing(m, held + Names(names), left)).(files := st.files + Names(names))
  }

  lemma StoringNone(st: State, w: Id, m: Id, held: set<Name>, left: nat)
    requires w in st.workers && st.workers[w] == Storing(m, held, left)
    ensures Stored(st, w, m, held, [], left) == st
  {
    assert Names([]) == {};
    assert held + {} == held;
    assert st.files + {} == st.files;
    assert st.workers[w := st.workers[w]] == st.workers;
  }

  lemma StoringOne(st: State, next: State, w: Id, m: Id, held: set<Name>, names: seq<Name>, left: nat)
    requires names != [] && w in st.workers && st.workers[w] == Storing(m, held, |names| + left)
    requires next == WithWorker(st, w, Storing(m, held + {names[0]}, |names| + left - 1)).(files := st.files + {names[0]})
    ensures Stored(next, w, m, held + {names[0]}, names[1..], left) == Stored(st, w, m, held, names, left)
  {
    NamesCons(names);
    var done := Storing(m, held + Names(names), left);
    assert held + {names[0]} + Names(names[1..]) == held + Names(names);
    assert st.files + {names[0]} + Names(names[1..]) == st.files + Names(names);
    assert next.workers[w := done] == st.workers[w := done];
  }

  lemma {:induction false} StoringAll(st: State, w: Id, m: Id, held: set<Name>, names: seq<Name>, left: nat)
    requires w in st.workers && st.workers[w] == Storing(m, held, |names| + left) && NewFiles(st, names)
    ensures Run(st, StoreSteps(w, names)) == Stored(st, w, m, held, names, left)
    decreases |names|
  {
    if names == [] {
      StoringNone(st, w, m, held, left);
    } else {
      var next := Apply(st, StoreFile(w, names[0]));
      forall i | 0 <= i < |names[1..]| ensures names[1..][i] !in next.files {
        assert names[1..][i] == names[i + 1];
      }
      StoringAll(next, w, m, held + {names[0]}, names[1..], left);
      StoringOne(st, next, w, m, held, names, left);
      assert StoreSteps(w, names)[1..] == StoreSteps(w, names[1..]);
    }
  }

  /** What a run that goes well leaves: one message with all its files, and nothing else changed. */
  function Landed(st: State, m: Id, names: set<Name>, message: Id): State
    requires m in st.mails
  {
    st.(mails := st.mails[m := st.mails[m].(status := Processed, message := Some(message))],
        messages := st.messages[message := m],
        attachments := st.attachments + (set name | name in names :: Attachment(message, name)),
        files := st.files + names)
  }

  lemma WritingLands(st: State, w: Id, m: Id, names: seq<Name>, message: Id)
    requires StillProcessable(st, m) && w !in st.workers && message !in st.messages
    ensures Apply(Stored(st, w, m, {}, names, 0), Write(w, message)) == Landed(st, m, Names(names), message)
  {}

  lemma RunOne(st: State, step: Step)
    ensures Run(st, [step]) == Apply(st, step)
  {}

  /** The steps of a run that nothing goes wrong in. */
  function WholeRun(w: Id, m: Id, names: seq<Name>, message: Id): seq<Step> {
    [Begin(w, m, Accepted(|names|))] + StoreSteps(w, names) + [Write(w, message)]
  }

  /** In any reachable state, a mail that isn't finished can be: nothing stands in the way of a run of it. */
  lemma UnfinishedMailCanBeWritten(st: State, w: Id, m: Id, names: seq<Name>, message: Id)
    requires Invariant(st) && StillProcessable(st, m) && w !in st.workers
    requires NewFiles(st, names) && message !in st.messages
    ensures Run(st, WholeRun(w, m, names, message)) == Landed(st, m, Names(names), message)
  {
    assert RawKept(st.rawFiles, st.doomed, st.mails[m]);
    var begin, write := Begin(w, m, Accepted(|names|)), Write(w, message);
    var begun := WithWorker(st, w, Storing(m, {}, |names|));
    RunTwice(st, [begin] + StoreSteps(w, names), [write]);
    RunTwice(st, [begin], StoreSteps(w, names));
    RunOne(st, begin);
    StoringAll(begun, w, m, {}, names, 0);
    var done := Storing(m, {} + Names(names), 0);
    assert begun.workers[w := done] == st.workers[w := done];
    assert Stored(begun, w, m, {}, names, 0) == Stored(st, w, m, {}, names, 0);
    RunOne(Stored(st, w, m, {}, names, 0), write);
    WritingLands(st, w, m, names, message);
  }
}
