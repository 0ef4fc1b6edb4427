/**
 What a run of a stored mail does, step by step and as a whole, in the rows and the files
 alone (backend/apps/email_channel/pipeline.py:87-330).
 */
module InboundFacts {
  import opened Rows
  import opened InboundPipeline
  import opened InboundProcess

  /** Only mails' statuses and the runs in progress may differ. */
  predicate SameTables(st: State, after: State) {
    && after.messages == st.messages && after.gone == st.gone && after.attachments == st.attachments
    && after.files == st.files && after.dropped == st.dropped
    && after.rawFiles == st.rawFiles && after.doomed == st.doomed && after.keys == st.keys
  }

  predicate IsUnfinished(st: State, m: Id) {
    m in st.mails && (st.mails[m].status == Pending || st.mails[m].status == Failed)
  }

  predicate RawIsThere(st: State, m: Id)
    requires m in st.mails
  {
    st.mails[m].raw.Some? && st.mails[m].raw.value in st.rawFiles
  }

  function GivenStatus(st: State, m: Id, status: Status): map<Id, Mail>
    requires m in st.mails
  {
    st.mails[m := Mail(status, st.mails[m].raw, st.mails[m].message)]
  }

  /**
   The first transaction: a mail the filters reject is Rejected, one they drop is
   Ignored, and the run is over; one they accept is not written yet, but its files are
   next. What cannot be read, or raises, is left for the run to mark.
   */
  lemma BeginDoes(st: State, w: Id, m: Id, triage: Triage)
    requires IsUnfinished(st, m) && w !in st.workers
    ensures var after := Apply(st, Begin(w, m, triage));
      && SameTables(st, after)
      && (RawIsThere(st, m) && triage == Finished(true) ==>
            after.mails == GivenStatus(st, m, Rejected) && after.workers == st.workers)
      && (RawIsThere(st, m) && triage == Finished(false) ==>
            after.mails == GivenStatus(st, m, Ignored) && after.workers == st.workers)
      && (RawIsThere(st, m) && triage.Accepted? ==>
            after.mails == st.mails && after.workers == st.workers[w := Storing(m, {}, triage.files)])
      && (RawIsThere(st, m) && triage == Raised ==>
            after.mails == st.mails && after.workers == st.workers[w := Failing(m)])
      && (!RawIsThere(st, m) || triage == Unreadable ==>
            after.mails == st.mails && after.workers == st.workers[w := Unprocessable(m)])
  {}

  /** A mail that is finished, or gone, is not begun again. */
  lemma FinishedIsNotBegun(st: State, w: Id, m: Id, triage: Triage)
    requires !IsUnfinished(st, m)
    ensures Apply(st, Begin(w, m, triage)) == st
  {}

  /** The last update of a run that could not write: Failed, unless another run finished the mail, or it is gone. */
  lemma MarkingDoes(st: State, w: Id, step: Step)
    requires w in st.workers && (st.workers[w].Unprocessable? || st.workers[w].Failing?)
    requires step == if st.workers[w].Unprocessable? then MarkUnprocessable(w) else MarkFailed(w)
    ensures var after, m := Apply(st, step), st.workers[w].mail;
      && SameTables(st, after) && after.workers == st.workers - {w}
      && after.mails == if IsUnfinished(st, m) then GivenStatus(st, m, Failed) else st.mails
  {}

  /** A replay makes a failed mail Pending, and no other. */
  lemma ReplayDoes(st: State, m: Id)
    requires m in st.mails
    ensures Apply(st, Replay(m))
         == if st.mails[m].status == Failed then st.(mails := GivenStatus(st, m, Pending)) else st
  {}

  /** The raw file of a finished mail is taken off its row, and deleted. */
  lemma PurgingRawDoes(st: State, m: Id)
    requires m in st.mails
    ensures IsUnfinished(st, m) || st.mails[m].raw == None ==> Apply(st, PurgeRaw(m)) == st
    ensures !IsUnfinished(st, m) && st.mails[m].raw.Some? ==>
      Apply(st, PurgeRaw(m)) == st.(mails := st.mails[m := Mail(st.mails[m].status, None, st.mails[m].message)],
                                    doomed := st.doomed + {st.mails[m].raw.value})
  {}

  /** An anonymization deletes a mail's row and its raw file, a purge of the log only a finished one's. */
  lemma DeletingMailDoes(st: State, m: Id)
    requires m in st.mails
    ensures Apply(st, EraseMail(m)) == st.(
      mails := st.mails - {m},
      doomed := st.doomed + if st.mails[m].raw.Some? then {st.mails[m].raw.value} else {})
    ensures Apply(st, PurgeLog(m)) == if IsUnfinished(st, m) then st else Apply(st, EraseMail(m))
  {}

  // A run, a step at a time

  predicate IsStoring(st: State, w: Id) {
    w in st.workers && st.workers[w].Storing?
  }

  /** A file stored is the run's, which has one less to store; under a name no file has. */
  lemma StoringDoes(st: State, w: Id, name: Name)
    requires IsStoring(st, w)
    ensures var worker := st.workers[w];
      && Apply(st, StoreFile(w, name))
         == (if worker.left > 0 && name !in st.files then
               st.(files := st.files + {name},
                   workers := st.workers[w := Storing(worker.mail, worker.names + {name}, worker.left - 1)])
             else st)
      && Apply(st, StoreFails(w))
         == if worker.left > 0 then st.(workers := st.workers[w := Cleaning(worker.mail, worker.names, true)]) else st
  {}

  /** With every file stored, and the mail still unfinished, the message is written with all of them, or fails; else it is skipped. */
  lemma WritingDoes(st: State, w: Id, message: Id)
    requires IsStoring(st, w)
    ensures var worker := st.workers[w];
      var stored, open := worker.left == 0, IsUnfinished(st, worker.mail);
      && Apply(st, Write(w, message))
         == (if stored && open && message !in st.messages then
               Landed(st.(workers := st.workers - {w}), worker.mail, worker.names, message).(files := st.files)
             else st)
      && Apply(st, WriteFails(w))
         == (if stored && open then st.(workers := st.workers[w := Cleaning(worker.mail, worker.names, true)]) else st)
      && Apply(st, WriteSkips(w))
         == (if stored then st.(workers := st.workers[w := Cleaning(worker.mail, worker.names, false)]) else st)
  {}

  /** Files to delete are let go one by one, whether the storage deletes them or not. */
  lemma CleaningDoes(st: State, w: Id, name: Name, deleted: bool)
    requires w in st.workers && st.workers[w].Cleaning?
    ensures var worker := st.workers[w];
      && Apply(st, DeleteFile(w, name, deleted))
         == (if name in worker.names then
               st.(workers := st.workers[w := Cleaning(worker.mail, worker.names - {name}, worker.failed)],
                   files := if deleted then st.files - {name} else st.files)
             else st)
      && Apply(st, Cleaned(w))
         == if worker.names != {} then st
            else if worker.failed then st.(workers := st.workers[w := Failing(worker.mail)])
            else st.(workers := st.workers - {w})
  {}

  /** A message deleted is named by no mail, and its attachments alone go, without their files. */
  lemma DeletingMessageDoes(st: State, message: Id)
    requires message in st.messages && message !in st.gone
    ensures var after := Apply(st, DeleteMessage(message));
      && after == st.(gone := st.gone + {message}, attachments := after.attachments, mails := after.mails)
      && (forall a :: a in after.attachments <==> a in st.attachments && a.message != message)
      && after.mails.Keys == st.mails.Keys
      && forall m :: m in st.mails ==>
           after.mails[m] == Mail(st.mails[m].status, st.mails[m].raw,
                                  if st.mails[m].message == Some(message) then None else st.mails[m].message)
  {}

  /** A row deleted goes at once, and its file later, if the storage deletes it. */
  lemma DeletingFilesDoes(st: State, a: Attachment, name: Name, deleted: bool)
    ensures a in st.attachments ==>
      Apply(st, EraseUpload(a)) == st.(attachments := st.attachments - {a}, dropped := st.dropped + {a.file})
    ensures name in st.dropped ==>
      Apply(st, DeleteUpload(name, deleted))
      == st.(dropped := st.dropped - {name}, files := if deleted then st.files - {name} else st.files)
    ensures name in st.doomed ==>
      Apply(st, DeleteRaw(name)) == st.(doomed := st.doomed - {name}, rawFiles := st.rawFiles - {name})
  {}

  /** A mail is stored once under its key, pending with its bytes, or rejected at once, with or without them. */
  lemma StoringMailDoes(st: State, m: Id, raw: Name)
    requires m !in st.keys && raw !in st.rawFiles
    ensures var with := st.(rawFiles := st.rawFiles + {raw}, keys := st.keys + {m});
      && Apply(st, Store(m, raw)) == with.(mails := st.mails[m := Mail(Pending, Some(raw), None)])
      && Apply(st, StoreRejected(m, Some(raw))) == with.(mails := st.mails[m := Mail(Rejected, Some(raw), None)])
      && Apply(st, StoreRejected(m, None)) == st.(mails := st.mails[m := Mail(Rejected, None, None)], keys := st.keys + {m})
  {
    assert st.rawFiles + {} == st.rawFiles;
  }

  // A message has all of its mail's files

  /** A run with `files` to store in all: those stored, and those left. */
  predicate StoresInAll(st: State, w: Id, m: Id, files: nat) {
    IsStoring(st, w) && st.workers[w].mail == m && |st.workers[w].names| + st.workers[w].left == files
  }

  lemma StepStoresInAll(st: State, step: Step, w: Id, m: Id, files: nat)
    requires FilesKept(st) && StoresInAll(st, w, m, files) && (NotOurs(step, w) || step.StoreFile?)
    ensures StoresInAll(Apply(st, step), w, m, files)
  {
    if NotOurs(step, w) {
      OtherLeavesWorker(st, step, w);
    } else {
      assert Held(st.workers[w]) <= st.files;
      StoringDoes(st, w, step.name);
    }
  }

  lemma {:induction false} RunStoresInAll(st: State, steps: seq<Step>, w: Id, m: Id, files: nat)
    requires FilesKept(st) && StoresInAll(st, w, m, files)
    requires forall i :: 0 <= i < |steps| ==> NotOurs(steps[i], w) || steps[i].StoreFile?
    ensures FilesKept(Run(st, steps)) && StoresInAll(Run(st, steps), w, m, files)
    decreases |steps|
  {
    if steps != [] {
      StepStoresInAll(st, steps[0], w, m, files);
      StepKeepsFiles(st, steps[0]);
      RunStoresInAll(Apply(st, steps[0]), steps[1..], w, m, files);
    }
  }

  lemma AttachmentsOfNew(attachments: set<Attachment>, names: set<Name>, message: Id)
    requires forall a :: a in attachments ==> a.message != message
    ensures var added := set name | name in names :: Attachment(message, name);
      AttachmentsOf(attachments + added, message) == added && |added| == |names|
  {
    var added := set name | name in names :: Attachment(message, name);
    assert AttachmentsOf(attachments + added, message) == added;
    NamesAreCounted(names, message);
  }

  lemma {:induction false} NamesAreCounted(names: set<Name>, message: Id)
    ensures |set name | name in names :: Attachment(message, name)| == |names|
    decreases names
  {
    if names == {} {
      assert (set name | name in names :: Attachment(message, name)) == {};
    } else {
      var one :| one in names;
      var rest := names - {one};
      NamesAreCounted(rest, message);
      assert (set name | name in names :: Attachment(message, name))
          == (set name | name in rest :: Attachment(message, name)) + {Attachment(message, one)};
    }
  }

  /** Whatever happens while a run stores the files of an accepted mail, the message it writes has every one of them. */
  lemma MessageHasAllFiles(st: State, w: Id, m: Id, files: nat, steps: seq<Step>, message: Id)
    requires FilesKept(st) && IsUnfinished(st, m) && RawIsThere(st, m) && w !in st.workers
    requires forall i :: 0 <= i < |steps| ==> NotOurs(steps[i], w) || steps[i].StoreFile?
    requires var end := Run(Apply(st, Begin(w, m, Accepted(files))), steps);
      IsUnfinished(end, m) && message !in end.messages && forall a :: a in end.attachments ==> a.message != message
    ensures var end := Run(Apply(st, Begin(w, m, Accepted(files))), steps);
      var after := Apply(end, Write(w, message));
      w in end.workers && end.workers[w].Storing?
      && if end.workers[w].left > 0 then after == end
         else message in after.messages && |AttachmentsOf(after.attachments, message)| == files
  {
    BeginDoes(st, w, m, Accepted(files));
    StepKeepsFiles(st, Begin(w, m, Accepted(files)));
    var begun := Apply(st, Begin(w, m, Accepted(files)));
    RunStoresInAll(begun, steps, w, m, files);
    var end := Run(begun, steps);
    WritingDoes(end, w, message);
    AttachmentsOfNew(end.attachments, end.workers[w].names, message);
  }

  // A run that does not write

  function DeleteSteps(w: Id, names: seq<Name>): seq<Step> {
    if names == [] then [] else [DeleteFile(w, names[0], true)] + DeleteSteps(w, names[1..])
  }

  function Emptied(st: State, w: Id, m: Id, failed: bool, names: seq<Name>): State {
    WithWorker(st, w, Cleaning(m, {}, failed)).(files := st.files - Names(names))
  }

  lemma DeletingOne(st: State, w: Id, m: Id, failed: bool, names: seq<Name>)
    requires names != [] && w in st.workers && st.workers[w] == Cleaning(m, Names(names), failed)
    requires names[0] !in Names(names[1..])
    ensures var next := Apply(st, DeleteFile(w, names[0], true));
      && w in next.workers && next.workers[w] == Cleaning(m, Names(names[1..]), failed)
      && Emptied(next, w, m, failed, names[1..]) == Emptied(st, w, m, failed, names)
  {
    NamesCons(names);
    assert Names(names) - {names[0]} == Names(names[1..]);
    assert st.files - {names[0]} - Names(names[1..]) == st.files - Names(names);
    var next := Apply(st, DeleteFile(w, names[0], true));
    assert next.workers[w := Cleaning(m, {}, failed)] == st.workers[w := Cleaning(m, {}, failed)];
  }

  lemma {:induction false} DeletingAll(st: State, w: Id, m: Id, failed: bool, names: seq<Name>)
    requires w in st.workers && st.workers[w] == Cleaning(m, Names(names), failed)
    requires forall i, j :: 0 <= i < j < |names| ==> names[i] != names[j]
    ensures Run(st, DeleteSteps(w, names)) == Emptied(st, w, m, failed, names)
    decreases |names|
  {
    if names == [] {
      assert Names([]) == {};
      assert st.files - {} == st.files;
      assert st.workers[w := st.workers[w]] == st.workers;
    } else {
      DeletingOne(st, w, m, failed, names);
      DeletingAll(Apply(st, DeleteFile(w, names[0], true)), w, m, failed, names[1..]);
      assert DeleteSteps(w, names)[1..] == DeleteSteps(w, names[1..]);
    }
  }

  /** The steps of a run that stores some files and then cannot go on. */
  function GivingUp(w: Id, m: Id, files: nat, names: seq<Name>, last: Step): seq<Step> {
    (([Begin(w, m, Accepted(files))] + StoreSteps(w, names)) + [last]) + DeleteSteps(w, names)
  }

  /** A file, or the write, fails; or another run finished the mail meanwhile. */
  predicate GivesUp(w: Id, files: nat, names: seq<Name>, last: Step) {
    || (last == StoreFails(w) && |names| < files)
    || ((last == WriteFails(w) || last == WriteSkips(w)) && |names| == files)
  }

  lemma AcceptedBegins(st: State, w: Id, m: Id, files: nat)
    requires IsUnfinished(st, m) && RawIsThere(st, m) && w !in st.workers
    ensures Run(st, [Begin(w, m, Accepted(files))]) == WithWorker(st, w, Storing(m, {}, files))
  {
    RunOne(st, Begin(w, m, Accepted(files)));
  }

  lemma StoredAfterBegin(st: State, w: Id, m: Id, files: nat, names: seq<Name>, left: nat)
    ensures Stored(WithWorker(st, w, Storing(m, {}, files)), w, m, {}, names, left) == Stored(st, w, m, {}, names, left)
  {
    var begun, done := WithWorker(st, w, Storing(m, {}, files)), Storing(m, {} + Names(names), left);
    assert begun.workers[w := done] == st.workers[w := done];
  }

  lemma BegunThenStores(st: State, begun: State, w: Id, m: Id, files: nat, names: seq<Name>, left: nat)
    requires begun == WithWorker(st, w, Storing(m, {}, files)) && files == |names| + left && NewFiles(begun, names)
    ensures Run(begun, StoreSteps(w, names)) == Stored(st, w, m, {}, names, left)
  {
    StoringAll(begun, w, m, {}, names, left);
    StoredAfterBegin(st, w, m, files, names, left);
  }

  lemma SameNewFiles(st: State, w: Id, worker: Worker, names: seq<Name>)
    requires NewFiles(st, names)
    ensures NewFiles(WithWorker(st, w, worker), names)
  {}

  lemma Chained(st: State, first: seq<Step>, mid: State, second: seq<Step>, end: State)
    requires Run(st, first) == mid && Run(mid, second) == end
    ensures Run(st, first + second) == end
  {
    RunTwice(st, first, second);
  }

  lemma BegunStores(st: State, w: Id, m: Id, files: nat, names: seq<Name>, left: nat)
    requires IsUnfinished(st, m) && RawIsThere(st, m) && w !in st.workers
    requires NewFiles(st, names) && files == |names| + left
    ensures Run(st, [Begin(w, m, Accepted(files))] + StoreSteps(w, names)) == Stored(st, w, m, {}, names, left)
  {
    var begun := WithWorker(st, w, Storing(m, {}, files));
    SameNewFiles(st, w, Storing(m, {}, files), names);
    BegunThenStores(st, begun, w, m, files, names, left);
    AcceptedBegins(st, w, m, files);
    Chained(st, [Begin(w, m, Accepted(files))], begun, StoreSteps(w, names), Stored(st, w, m, {}, names, left));
  }

  /** The run has all those files to delete. */
  function GivenUp(st: State, w: Id, m: Id, names: seq<Name>, last: Step): State {
    WithWorker(st, w, Cleaning(m, Names(names), last != WriteSkips(w))).(files := st.files + Names(names))
  }

  lemma StoredGivesUp(st: State, w: Id, m: Id, files: nat, names: seq<Name>, left: nat, last: Step)
    requires IsUnfinished(st, m) && files == |names| + left && GivesUp(w, files, names, last)
    ensures Run(Stored(st, w, m, {}, names, left), [last]) == GivenUp(st, w, m, names, last)
  {
    RunOne(Stored(st, w, m, {}, names, left), last);
    var done, cleaning := Storing(m, {} + Names(names), left), Cleaning(m, Names(names), last != WriteSkips(w));
    assert {} + Names(names) == Names(names);
    assert st.workers[w := done][w := cleaning] == st.workers[w := cleaning];
  }

  lemma GivenUpIsCleaned(st: State, w: Id, m: Id, names: seq<Name>, last: Step)
    requires NewFiles(st, names)
    ensures Run(GivenUp(st, w, m, names, last), DeleteSteps(w, names))
         == WithWorker(st, w, Cleaning(m, {}, last != WriteSkips(w)))
  {
    var given, failed := GivenUp(st, w, m, names, last), last != WriteSkips(w);
    DeletingAll(given, w, m, failed, names);
    assert st.files + Names(names) - Names(names) == st.files;
    assert given.workers[w := Cleaning(m, {}, failed)] == st.workers[w := Cleaning(m, {}, failed)];
  }

  /** Whether a run fails at a file or at the write, or finds the mail finished, none of its files stay. */
  lemma GivingUpLeavesNoFile(st: State, w: Id, m: Id, files: nat, names: seq<Name>, last: Step)
    requires IsUnfinished(st, m) && RawIsThere(st, m) && w !in st.workers
    requires NewFiles(st, names) && GivesUp(w, files, names, last)
    ensures Run(st, GivingUp(w, m, files, names, last))
         == WithWorker(st, w, Cleaning(m, {}, last != WriteSkips(w)))
  {
    var left: nat := files - |names|;
    var first, given := [Begin(w, m, Accepted(files))] + StoreSteps(w, names), GivenUp(st, w, m, names, last);
    BegunStores(st, w, m, files, names, left);
    StoredGivesUp(st, w, m, files, names, left, last);
    Chained(st, first, Stored(st, w, m, {}, names, left), [last], given);
    GivenUpIsCleaned(st, w, m, names, last);
    Chained(st, first + [last], given, DeleteSteps(w, names), WithWorker(st, w, Cleaning(m, {}, last != WriteSkips(w))));
  }

  /** Then a run that failed leaves nothing but the mail's status, Failed, to be replayed; another, nothing at all. */
  lemma GivingUpOnlyMarks(st: State, w: Id, m: Id, failed: bool)
    requires IsUnfinished(st, m) && w !in st.workers
    ensures Run(WithWorker(st, w, Cleaning(m, {}, failed)), [Cleaned(w)] + if failed then [MarkFailed(w)] else [])
         == if failed then st.(mails := GivenStatus(st, m, Failed)) else st
  {
    var given := WithWorker(st, w, Cleaning(m, {}, failed));
    RunTwice(given, [Cleaned(w)], if failed then [MarkFailed(w)] else []);
    RunOne(given, Cleaned(w));
    assert st.workers[w := Cleaning(m, {}, failed)] - {w} == st.workers;
    if failed {
      assert given.workers[w := Failing(m)] - {w} == st.workers;
      RunOne(Apply(given, Cleaned(w)), MarkFailed(w));
    }
  }

  /** Of that status, if it still has a row, and never written. */
  ghost predicate IsFiltered(st: State, m: Id, status: Status) {
    && m in st.keys && m !in st.messages.Values
    && (m in st.mails ==> st.mails[m].status == status)
  }

  lemma StepKeepsFiltered(st: State, step: Step, m: Id, status: Status)
    requires IsFiltered(st, m, status) && (status == Rejected || status == Ignored)
    ensures IsFiltered(Apply(st, step), m, status)
  {
    if !MailStep(step) {
      OthersLeaveMails(st, step);
    }
  }

  lemma {:induction false} FilteredForGood(st: State, steps: seq<Step>, m: Id, status: Status)
    requires IsFiltered(st, m, status) && (status == Rejected || status == Ignored)
    ensures IsFiltered(Run(st, steps), m, status)
    decreases |steps|
  {
    if steps != [] {
      StepKeepsFiltered(st, steps[0], m, status);
      FilteredForGood(Apply(st, steps[0]), steps[1..], m, status);
    }
  }

  /** A mail the filters reject is Rejected, one they drop Ignored, for as long as it has a row, and becomes no message. */
  lemma FilteredMailIsNeverWritten(st: State, w: Id, m: Id, rejected: bool, steps: seq<Step>)
    requires Invariant(st) && IsUnfinished(st, m) && w !in st.workers
    ensures IsFiltered(Run(Apply(st, Begin(w, m, Finished(rejected))), steps), m, if rejected then Rejected else Ignored)
  {
    assert MailHonest(st.messages, st.gone, m, st.mails[m]) && RawKept(st.rawFiles, st.doomed, st.mails[m]);
    BeginDoes(st, w, m, Finished(rejected));
    FilteredForGood(
      Apply(st, Begin(w, m, Finished(rejected))), steps, m, if rejected then Rejected else Ignored);
  }
}
