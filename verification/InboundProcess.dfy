/**
 `process` itself, with whatever other runs do between any two of its steps
 (backend/apps/email_channel/pipeline.py:127-235 and tasks.py:17-51).
 */
module InboundProcess {
  import opened Rows
  import opened InboundPipeline

  /** A step of another run, or of none. */
  predicate NotOurs(step: Step, w: Id) {
    match step
    case Begin(v, _, _) => v != w
    case MarkUnprocessable(v) => v != w
    case StoreFile(v, _) => v != w
    case StoreFails(v) => v != w
    case Write(v, _) => v != w
    case WriteFails(v) => v != w
    case WriteSkips(v) => v != w
    case DeleteFile(v, _, _) => v != w
    case Cleaned(v) => v != w
    case MarkFailed(v) => v != w
    case Stop(v) => v != w
    case _ => true
  }

  predicate AllOthers(steps: seq<Step>, w: Id) {
    forall i :: 0 <= i < |steps| ==> NotOurs(steps[i], w)
  }

  /** The run is where it was. */
  predicate WorkerKept(st: State, end: State, w: Id) {
    (w in end.workers <==> w in st.workers) && (w in st.workers ==> end.workers[w] == st.workers[w])
  }

  lemma OtherLeavesWorker(st: State, step: Step, w: Id)
    requires NotOurs(step, w)
    ensures WorkerKept(st, Apply(st, step), w)
  {}

  lemma {:induction false} OthersLeaveWorker(st: State, steps: seq<Step>, w: Id)
    requires AllOthers(steps, w)
    ensures WorkerKept(st, Run(st, steps), w)
    decreases |steps|
  {
    if steps != [] {
      OtherLeavesWorker(st, steps[0], w);
      OthersLeaveWorker(Apply(st, steps[0]), steps[1..], w);
    }
  }

  /** What goes wrong in a run, if anything: a file that can't be stored, the second transaction, or its lock taken. */
  datatype Fault = NoFault | StoringFails(after: nat) | WritingFails | LockTaken

  /** What `process` is called for, what goes wrong meanwhile, and which of its files the storage would delete. */
  datatype Call = Call(worker: Id, mail: Id, message: Id, fault: Fault, deletes: Name -> bool)

  /**
   A step of ours in a run has its reason: a failure is the fault's, and nothing is written
   then; the write is only skipped if the lock is taken or the mail finished or gone, and
   the run never just stops.
   */
  predicate Meant(before: State, trace: seq<Step>, i: nat, call: Call)
    requires i < |trace|
  {
    match trace[i]
    case Stop(v) => v != call.worker
    case StoreFails(v) => v == call.worker ==> call.fault.StoringFails?
    case Write(v, message) =>
      v == call.worker ==> message == call.message && !call.fault.WritingFails? && !call.fault.LockTaken?
    case WriteFails(v) =>
      v == call.worker ==> call.fault.WritingFails? || call.message in Run(before, trace[..i]).messages
    case WriteSkips(v) =>
      v == call.worker ==> call.fault.LockTaken? || !StillProcessable(Run(before, trace[..i]), call.mail)
    case DeleteFile(v, name, deleted) => v == call.worker ==> deleted == call.deletes(name)
    case _ => true
  }

  /** A run of the machine up to `st`, each of our steps in it with its reason. */
  ghost predicate IsRunOf(before: State, trace: seq<Step>, st: State, call: Call) {
    st == Run(before, trace) && forall i :: 0 <= i < |trace| ==> Meant(before, trace, i, call)
  }

  lemma StillMeant(before: State, trace: seq<Step>, more: seq<Step>, i: nat, call: Call)
    requires i < |trace| && Meant(before, trace, i, call)
    ensures Meant(before, trace + more, i, call)
  {
    assert (trace + more)[..i] == trace[..i] && (trace + more)[i] == trace[i];
  }

  lemma OthersAreMeant(before: State, trace: seq<Step>, st: State, others: seq<Step>, call: Call)
    requires IsRunOf(before, trace, st, call) && AllOthers(others, call.worker)
    ensures IsRunOf(before, trace + others, Run(st, others), call)
  {
    RunTwice(before, trace, others);
    forall i | 0 <= i < |trace + others| ensures Meant(before, trace + others, i, call) {
      if i < |trace| {
        StillMeant(before, trace, others, i, call);
      } else {
        assert (trace + others)[i] == others[i - |trace|] && NotOurs(others[i - |trace|], call.worker);
      }
    }
  }

  lemma OneIsMeant(before: State, trace: seq<Step>, st: State, step: Step, call: Call)
    requires IsRunOf(before, trace, st, call) && Meant(before, trace + [step], |trace|, call)
    ensures IsRunOf(before, trace + [step], Apply(st, step), call)
  {
    RunTwice(before, trace, [step]);
    RunOne(st, step);
    forall i | 0 <= i < |trace| ensures Meant(before, trace + [step], i, call) {
      StillMeant(before, trace, [step], i, call);
    }
  }

  predicate Alone(others: seq<seq<Step>>) {
    forall k :: 0 <= k < |others| ==> others[k] == []
  }

  /** Nothing goes wrong, nobody else is at work, and the filters let the mail through. */
  predicate GoesWell(st: State, mail: Id, triage: Triage, fault: Fault, message: Id, others: seq<seq<Step>>) {
    && Alone(others) && fault.NoFault? && triage.Accepted?
    && StillProcessable(st, mail) && HasRaw(st, mail) && message !in st.messages
  }

  class Channel {
    var st: State

    /** What others do, at most once in a while. */
    method Interfere(others: seq<Step>, call: Call, ghost before: State, ghost trace: seq<Step>)
      returns (ghost longer: seq<Step>)
      requires AllOthers(others, call.worker) && IsRunOf(before, trace, st, call)
      modifies this
      ensures IsRunOf(before, longer, st, call) && longer == trace + others && st == Run(old(st), others)
      ensures WorkerKept(old(st), st, call.worker) && (others == [] ==> st == old(st))
    {
      longer := trace + others;
      OthersAreMeant(before, trace, st, others, call);
      OthersLeaveWorker(st, others, call.worker);
      st := Run(st, others);
    }

    method Take(step: Step, call: Call, ghost before: State, ghost trace: seq<Step>) returns (ghost longer: seq<Step>)
      requires IsRunOf(before, trace, st, call) && Meant(before, trace + [step], |trace|, call)
      modifies this
      ensures IsRunOf(before, longer, st, call) && longer == trace + [step] && st == Apply(old(st), step)
    {
      longer := trace + [step];
      OneIsMeant(before, trace, st, step, call);
      st := Apply(st, step);
    }

    /** A name no file has. */
    method NewName() returns (name: Name)
      ensures name !in st.files
    {
      name := 0;
      var left := st.files;
      while left != {}
        invariant left <= st.files
        invariant forall n :: n in st.files && n !in left ==> n < name
        decreases left
      {
        var n :| n in left;
        name := if n < name then name else n + 1;
        left := left - {n};
      }
    }

    /** `_store_files`: one after the other, others at work in between. False if one can't be. */
    method StoreFiles(call: Call, others: seq<seq<Step>>, ghost before: State, ghost trace: seq<Step>)
      returns (stored: bool, ghost longer: seq<Step>)
      requires IsRunOf(before, trace, st, call)
      requires call.worker in st.workers && st.workers[call.worker].Storing? && |others| >= st.workers[call.worker].left
      requires forall k :: 0 <= k < |others| ==> AllOthers(others[k], call.worker)
      modifies this
      ensures IsRunOf(before, longer, st, call) && trace <= longer && call.worker in st.workers
      ensures var worker := st.workers[call.worker];
        && worker.mail == old(st.workers[call.worker].mail)
        && if stored then worker.Storing? && worker.left == 0 else worker.Cleaning? && worker.failed
      ensures stored <==> !(call.fault.StoringFails? && call.fault.after < old(st.workers[call.worker].left))
      ensures Alone(others) ==> st.mails == old(st.mails) && st.messages == old(st.messages)
    {
      longer := trace;
      var w := call.worker;
      var k := 0;
      while st.workers[w].left > 0
        invariant IsRunOf(before, longer, st, call) && trace <= longer && w in st.workers && st.workers[w].Storing?
        invariant k + st.workers[w].left <= |others| && st.workers[w].mail == old(st.workers[w].mail)
        invariant k + st.workers[w].left == old(st.workers[w].left)
        invariant call.fault.StoringFails? ==> call.fault.after >= k
        invariant Alone(others) ==> st.mails == old(st.mails) && st.messages == old(st.messages)
        decreases |others| - k
      {
        longer := Interfere(others[k], call, before, longer);
        if call.fault == StoringFails(k) {
          longer := Take(InboundPipeline.StoreFails(w), call, before, longer);
          return false, longer;
        }
        var name := NewName();
        longer := Take(StoreFile(w, name), call, before, longer);
        k := k + 1;
      }
      stored := true;
    }

    /** `_delete_files`, whichever of them the storage deletes. */
    method DeleteFiles(call: Call, ghost before: State, ghost trace: seq<Step>) returns (ghost longer: seq<Step>)
      requires IsRunOf(before, trace, st, call) && call.worker in st.workers && st.workers[call.worker].Cleaning?
      modifies this
      ensures IsRunOf(before, longer, st, call) && trace <= longer && call.worker in st.workers
      ensures st.workers[call.worker] == old(st.workers[call.worker]).(names := {})
    {
      longer := trace;
      var w := call.worker;
      while st.workers[w].names != {}
        invariant IsRunOf(before, longer, st, call) && trace <= longer && w in st.workers && st.workers[w].Cleaning?
        invariant st.workers[w] == old(st.workers[w]).(names := st.workers[w].names)
        decreases st.workers[w].names
      {
        var name :| name in st.workers[w].names;
        longer := Take(DeleteFile(w, name, call.deletes(name)), call, before, longer);
      }
    }

    /** The second transaction: true if it landed. */
    method SecondTransaction(call: Call, ghost before: State, ghost trace: seq<Step>)
      returns (landed: bool, ghost longer: seq<Step>)
      requires IsRunOf(before, trace, st, call) && call.worker in st.workers
      requires var worker := st.workers[call.worker]; worker.Storing? && worker.left == 0 && worker.mail == call.mail
      modifies this
      ensures IsRunOf(before, longer, st, call) && trace <= longer
      ensures landed ==> st == Apply(old(st), Write(call.worker, call.message)) && call.worker !in st.workers
      ensures landed ==> call.message in st.messages && st.messages[call.message] == call.mail
      ensures !landed ==>
        && call.worker in st.workers && st.workers[call.worker].Cleaning?
        && st.workers[call.worker].names == old(st.workers[call.worker].names)
        && st == old(st).(workers := st.workers)
      ensures landed <==>
        && !call.fault.LockTaken? && !call.fault.WritingFails?
        && StillProcessable(old(st), call.mail) && call.message !in old(st.messages)
    {
      landed := false;
      var w := call.worker;
      assert (trace + [WriteSkips(w)])[..|trace|] == trace && (trace + [InboundPipeline.WriteFails(w)])[..|trace|] == trace;
      if call.fault.LockTaken? || !StillProcessable(st, call.mail) {
        longer := Take(WriteSkips(w), call, before, trace);
      } else if call.fault.WritingFails? || call.message in st.messages {
        longer := Take(InboundPipeline.WriteFails(w), call, before, trace);
      } else {
        longer := Take(Write(w, call.message), call, before, trace);
        landed := true;
      }
    }

    /** What a run that didn't land leaves: its files deleted, and the mail failed if something raised. */
    method CleanUp(call: Call, others: seq<Step>, ghost before: State, ghost trace: seq<Step>)
      returns (ghost longer: seq<Step>)
      requires IsRunOf(before, trace, st, call) && AllOthers(others, call.worker)
      requires call.worker in st.workers && st.workers[call.worker].Cleaning?
      modifies this
      ensures IsRunOf(before, longer, st, call) && trace <= longer && call.worker !in st.workers
    {
      longer := DeleteFiles(call, before, trace);
      longer := Take(InboundPipeline.Cleaned(call.worker), call, before, longer);
      if call.worker in st.workers {
        longer := GiveUp(call, others, before, longer);
      }
    }

    /** From the files on. */
    method StoreAndWrite(call: Call, others: seq<seq<Step>>, ghost before: State, ghost trace: seq<Step>)
      returns (landed: bool, ghost longer: seq<Step>)
      requires IsRunOf(before, trace, st, call) && call.worker in st.workers
      requires var worker := st.workers[call.worker];
        worker.Storing? && worker.mail == call.mail && |others| >= worker.left + 2
      requires forall k :: 0 <= k < |others| ==> AllOthers(others[k], call.worker)
      modifies this
      ensures IsRunOf(before, longer, st, call) && trace <= longer && call.worker !in st.workers
      ensures landed ==> call.message in st.messages && st.messages[call.message] == call.mail
      ensures (&& Alone(others) && call.fault.NoFault? && call.message !in old(st.messages)
               && StillProcessable(old(st), call.mail)) ==> landed
    {
      var stored;
      landed := false;
      stored, longer := StoreFiles(call, others[2..], before, trace);
      if stored {
        longer := Interfere(others[0], call, before, longer);
        landed, longer := SecondTransaction(call, before, longer);
      }
      if !landed {
        longer := CleanUp(call, others[1], before, longer);
      }
    }

    /**
     `process`, and the mark of a failure: whatever others do between its steps, and
     whatever goes wrong, what it does is a run of the machine, which ends. It begins the
     mail unless that is finished, gone or being written, and does all a run then has to:
     without `Stop`, what it holds is only let go written, or deleted and marked.
     */
    method Process(call: Call, triage: Triage, others: seq<seq<Step>>) returns (landed: bool, ghost trace: seq<Step>)
      requires call.worker !in st.workers && |others| >= 3 + (if triage.Accepted? then triage.files else 0)
      requires forall k :: 0 <= k < |others| ==> AllOthers(others[k], call.worker)
      modifies this
      ensures IsRunOf(old(st), trace, st, call) && call.worker !in st.workers
      ensures if StillProcessable(Run(old(st), others[0]), call.mail)
        then others[0] + [Begin(call.worker, call.mail, triage)] <= trace
        else trace == others[0] && !landed
      ensures landed ==> call.message in st.messages && st.messages[call.message] == call.mail
      ensures GoesWell(old(st), call.mail, triage, call.fault, call.message, others) ==> landed
    {
      ghost var before := st;
      landed, trace := false, [];
      trace := Interfere(others[0], call, before, trace);
      if !StillProcessable(st, call.mail) {
        return;
      }
      trace := Take(Begin(call.worker, call.mail, triage), call, before, trace);
      if call.worker in st.workers {
        if st.workers[call.worker].Storing? {
          landed, trace := StoreAndWrite(call, others[1..], before, trace);
        } else {
          trace := GiveUp(call, others[1], before, trace);
        }
      }
    }

    /** The mail marked failed, unless it is finished or gone meanwhile. */
    method GiveUp(call: Call, others: seq<Step>, ghost before: State, ghost trace: seq<Step>) returns (ghost longer: seq<Step>)
      requires IsRunOf(before, trace, st, call) && AllOthers(others, call.worker)
      requires call.worker in st.workers
      requires var worker := st.workers[call.worker]; worker.Unprocessable? || worker.Failing?
      modifies this
      ensures IsRunOf(before, longer, st, call) && trace <= longer && call.worker !in st.workers
    {
      longer := Interfere(others, call, before, trace);
      var w := call.worker;
      longer := Take(if st.workers[w].Unprocessable? then MarkUnprocessable(w) else MarkFailed(w), call, before, longer);
    }
  }
}
