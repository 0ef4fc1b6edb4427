/**
 One-time codes under parallel submissions: each database update of `redeem` and
 `generate` is one step, and any number of calls interleave
 (backend/apps/organizations/models.py:574-646).
 */
module Otp {
  import opened Rows

  const OTP_MAX_ATTEMPTS: nat := 5
  const OTP_EXPIRY: nat := 600

  /** Whom a code was mailed to, what for, and for which organization and session. */
  datatype Scope = Scope(email: string, purpose: string, org: Option<Id>, session: Option<Id>)

  datatype MailedCode = MailedCode(scope: Scope, text: string, createdAt: Time, attempts: nat, usedAt: Option<Time>)

  /** Where a call of `redeem` is: it picked a code, or counted its attempt, or found the text equal or not. */
  datatype Call = Picked(code: Id, typed: string) | Counted(code: Id, typed: string) | Right(code: Id) | Wrong(code: Id)

  /** The codes, the calls in progress, and what became of each code: how often compared, redeemed, cancelled. */
  datatype State = State(
    codes: map<Id, MailedCode>,
    calls: map<Id, Call>,
    compared: map<Id, nat>,
    redeemed: map<Id, nat>,
    cancelled: set<Id>)

  datatype Step =
    | Pick(call: Id, scope: Scope, typed: string, code: Id, now: Time)
    | Count(call: Id)
    | Compare(call: Id)
    | Consume(call: Id, now: Time)
    | Close(call: Id, now: Time)
    | Stop(call: Id)
    | Cancel(scope: Scope, now: Time)
    | Create(code: Id, scope: Scope, text: string, now: Time)

  predicate Active(c: MailedCode, scope: Scope, now: Time) {
    c.scope == scope && c.usedAt.None? && now <= c.createdAt + OTP_EXPIRY
  }

  /** The latest active code of the scope. */
  predicate IsLatestActive(codes: map<Id, MailedCode>, scope: Scope, now: Time, id: Id) {
    && id in codes && Active(codes[id], scope, now)
    && forall o :: o in codes && Active(codes[o], scope, now) ==> codes[o].createdAt <= codes[id].createdAt
  }

  predicate At(st: State, call: Id) {
    call in st.calls && st.calls[call].code in st.codes
  }

  predicate Enabled(st: State, step: Step) {
    match step
    case Pick(call, scope, _, code, now) => call !in st.calls && IsLatestActive(st.codes, scope, now, code)
    case Count(call) => At(st, call) && st.calls[call].Picked?
    case Compare(call) => At(st, call) && st.calls[call].Counted?
    case Consume(call, _) => At(st, call) && st.calls[call].Right?
    case Close(call, _) => At(st, call) && st.calls[call].Wrong?
    case Stop(call) => call in st.calls
    case Cancel(_, _) => true
    case Create(code, _, _, _) => code !in st.codes
  }

  function WithCode(st: State, id: Id, c: MailedCode): State {
    st.(codes := st.codes[id := c])
  }

  function Ended(st: State, call: Id): State {
    st.(calls := st.calls - {call})
  }

  function Tally(counts: map<Id, nat>, id: Id): nat {
    if id in counts then counts[id] else 0
  }

  /** The attempt counted, unless the code was used or its attempts are, in which case the call ends. */
  function AfterCount(st: State, call: Id): State
    requires Enabled(st, Count(call))
  {
    var Picked(id, typed) := st.calls[call];
    var c := st.codes[id];
    if c.usedAt.None? && c.attempts < OTP_MAX_ATTEMPTS
    then WithCode(st, id, c.(attempts := c.attempts + 1)).(calls := st.calls[call := Counted(id, typed)])
    else Ended(st, call)
  }

  function AfterCompare(st: State, call: Id): State
    requires Enabled(st, Compare(call))
  {
    var Counted(id, typed) := st.calls[call];
    st.(compared := st.compared[id := Tally(st.compared, id) + 1],
        calls := st.calls[call := if st.codes[id].text == typed then Right(id) else Wrong(id)])
  }

  function AfterConsume(st: State, call: Id, now: Time): State
    requires Enabled(st, Consume(call, now))
  {
    var id := st.calls[call].code;
    var c := st.codes[id];
    if c.usedAt.None?
    then Ended(WithCode(st, id, c.(usedAt := Some(now))), call).(redeemed := st.redeemed[id := Tally(st.redeemed, id) + 1])
    else Ended(st, call)
  }

  function AfterClose(st: State, call: Id, now: Time): State
    requires Enabled(st, Close(call, now))
  {
    var id := st.calls[call].code;
    var c := st.codes[id];
    var closed := if c.usedAt.None? && c.attempts >= OTP_MAX_ATTEMPTS then c.(usedAt := Some(now)) else c;
    Ended(WithCode(st, id, closed), call)
  }

  function AfterCancel(st: State, scope: Scope, now: Time): State {
    st.(codes := map id | id in st.codes ::
          if st.codes[id].scope == scope && st.codes[id].usedAt.None?
          then st.codes[id].(usedAt := Some(now)) else st.codes[id],
        cancelled := st.cancelled
          + set id | id in st.codes && st.codes[id].scope == scope && st.codes[id].usedAt.None?)
  }

  function Apply(st: State, step: Step): State {
    if !Enabled(st, step) then st
    else
      match step
      case Pick(call, _, typed, code, _) => st.(calls := st.calls[call := Picked(code, typed)])
      case Count(call) => AfterCount(st, call)
      case Compare(call) => AfterCompare(st, call)
      case Consume(call, now) => AfterConsume(st, call, now)
      case Close(call, now) => AfterClose(st, call, now)
      case Stop(call) => Ended(st, call)
      case Cancel(scope, now) => AfterCancel(st, scope, now)
      case Create(code, scope, text, now) => WithCode(st, code, MailedCode(scope, text, now, 0, None))
  }

  function Run(st: State, steps: seq<Step>): State
    decreases |steps|
  {
    if steps == [] then st else Run(Apply(st, steps[0]), steps[1..])
  }

  const EMPTY: State := State(map[], map[], map[], map[], {})

  // The invariant

  /** The calls that counted an attempt on the code and are yet to compare. */
  function Pending(calls: map<Id, Call>, id: Id): set<Id> {
    set k | k in calls && calls[k].Counted? && calls[k].code == id
  }

  /** Every comparison, made or to come, was counted as an attempt, and a use is a redemption, a cancellation or an end. */
  ghost predicate CodeHolds(st: State, id: Id) {
    if id in st.codes then
      && Tally(st.compared, id) + |Pending(st.calls, id)| <= st.codes[id].attempts <= OTP_MAX_ATTEMPTS
      && Tally(st.redeemed, id) <= 1
      && (Tally(st.redeemed, id) > 0 ==> st.codes[id].usedAt.Some? && id !in st.cancelled)
      && (id in st.cancelled ==> st.codes[id].usedAt.Some?)
    else
      Tally(st.compared, id) == 0 && Tally(st.redeemed, id) == 0 && id !in st.cancelled && Pending(st.calls, id) == {}
  }

  ghost predicate Invariant(st: State) {
    && (forall id :: CodeHolds(st, id))
    && (forall k :: k in st.calls ==> st.calls[k].code in st.codes)
  }

  lemma PendingAdd(calls: map<Id, Call>, call: Id, now: Call, id: Id)
    requires call in calls && !calls[call].Counted?
    ensures |Pending(calls[call := now], id)|
         == |Pending(calls, id)| + if now.Counted? && now.code == id then 1 else 0
  {
    if now.Counted? && now.code == id {
      assert Pending(calls[call := now], id) == Pending(calls, id) + {call};
    } else {
      assert Pending(calls[call := now], id) == Pending(calls, id);
    }
  }

  lemma PendingDrop(calls: map<Id, Call>, call: Id, now: Call, id: Id)
    requires call in calls && calls[call].Counted? && !now.Counted?
    ensures |Pending(calls[call := now], id)|
         == |Pending(calls, id)| - if calls[call].code == id then 1 else 0
  {
    if calls[call].code == id {
      assert Pending(calls, id) == Pending(calls[call := now], id) + {call};
    } else {
      assert Pending(calls[call := now], id) == Pending(calls, id);
    }
  }

  lemma PendingNew(calls: map<Id, Call>, call: Id, now: Call, id: Id)
    requires call !in calls && !now.Counted?
    ensures Pending(calls[call := now], id) == Pending(calls, id)
  {}

  lemma PendingEnd(calls: map<Id, Call>, call: Id, id: Id)
    ensures |Pending(calls - {call}, id)| <= |Pending(calls, id)|
  {
    var less, all := Pending(calls - {call}, id), Pending(calls, id);
    assert less <= all;
    assert all == less + (all - less);
  }

  lemma StepKeepsCode(st: State, step: Step, id: Id)
    requires Invariant(st) && Enabled(st, step)
    ensures CodeHolds(Apply(st, step), id)
  {
    assert CodeHolds(st, id);
    match step
    case Pick(call, _, typed, code, _) => PendingNew(st.calls, call, Picked(code, typed), id);
    case Count(call) =>
      var Picked(code, typed) := st.calls[call];
      PendingAdd(st.calls, call, Counted(code, typed), id);
      PendingEnd(st.calls, call, id);
    case Compare(call) => PendingDrop(st.calls, call, Apply(st, step).calls[call], id);
    case Consume(call, _) => PendingEnd(st.calls, call, id);
    case Close(call, _) => PendingEnd(st.calls, call, id);
    case Stop(call) => PendingEnd(st.calls, call, id);
    case Cancel(_, _) =>
    case Create(_, _, _, _) =>
  }

  lemma {:induction false} RunKeepsInvariant(st: State, steps: seq<Step>)
    requires Invariant(st)
    ensures Invariant(Run(st, steps))
    decreases |steps|
  {
    if steps != [] {
      if Enabled(st, steps[0]) {
        forall id ensures CodeHolds(Apply(st, steps[0]), id) {
          StepKeepsCode(st, steps[0], id);
        }
      }
      RunKeepsInvariant(Apply(st, steps[0]), steps[1..]);
    }
  }

  /**
   However submissions interleave with one another and with new codes, a code is
   compared at most five times, redeemed at most once, and never once
   cancelled.
   */
  lemma AttemptsAreBounded(steps: seq<Step>, id: Id)
    ensures var st := Run(EMPTY, steps);
      && (id in st.compared ==> st.compared[id] <= 5)
      && (id in st.redeemed ==> st.redeemed[id] <= 1)
      && !(id in st.cancelled && id in st.redeemed && st.redeemed[id] > 0)
  {
    RunKeepsInvariant(EMPTY, steps);
    assert CodeHolds(Run(EMPTY, steps), id);
  }

  // Who redeems a code typed it

  lemma {:induction false} RunTwice(st: State, first: seq<Step>, second: seq<Step>)
    ensures Run(st, first + second) == Run(Run(st, first), second)
    decreases |first|
  {
    if first == [] {
      assert [] + second == second;
    } else {
      assert (first + second)[1..] == first[1..] + second;
      RunTwice(Apply(st, first[0]), first[1..], second);
    }
  }

  lemma RunOne(st: State, step: Step)
    ensures Run(st, [step]) == Apply(st, step)
  {}

  /** A call picked the code, as its scope's latest active one, with that text typed. */
  predicate Typed(step: Step, id: Id, scope: Scope, text: string) {
    step.Pick? && step.code == id && step.scope == scope && step.typed == text
  }

  ghost predicate WasTyped(steps: seq<Step>, id: Id, scope: Scope, text: string) {
    exists i :: 0 <= i < |steps| && Typed(steps[i], id, scope, text)
  }

  lemma StillTyped(steps: seq<Step>, step: Step, id: Id, scope: Scope, text: string)
    requires WasTyped(steps, id, scope, text)
    ensures WasTyped(steps + [step], id, scope, text)
  {
    var i :| 0 <= i < |steps| && Typed(steps[i], id, scope, text);
    assert Typed((steps + [step])[i], id, scope, text);
  }

  /** What a call holds of its code was typed in the run. */
  ghost predicate CallHolds(steps: seq<Step>, codes: map<Id, MailedCode>, c: Call) {
    c.code in codes ==>
      match c
      case Picked(id, typed) => WasTyped(steps, id, codes[id].scope, typed)
      case Counted(id, typed) => WasTyped(steps, id, codes[id].scope, typed)
      case Right(id) => WasTyped(steps, id, codes[id].scope, codes[id].text)
      case Wrong(_) => true
  }

  ghost predicate RedemptionHolds(steps: seq<Step>, st: State, id: Id) {
    id in st.codes && Tally(st.redeemed, id) > 0 ==> WasTyped(steps, id, st.codes[id].scope, st.codes[id].text)
  }

  ghost predicate History(steps: seq<Step>, st: State) {
    && (forall k :: k in st.calls ==> CallHolds(steps, st.codes, st.calls[k]))
    && (forall id :: RedemptionHolds(steps, st, id))
  }

  lemma CallStillHolds(steps: seq<Step>, step: Step, codes: map<Id, MailedCode>, codes1: map<Id, MailedCode>, c: Call)
    requires CallHolds(steps, codes, c) && c.code in codes
    requires c.code in codes1 && codes1[c.code].scope == codes[c.code].scope && codes1[c.code].text == codes[c.code].text
    ensures CallHolds(steps + [step], codes1, c)
  {
    match c
    case Picked(id, typed) => StillTyped(steps, step, id, codes[id].scope, typed);
    case Counted(id, typed) => StillTyped(steps, step, id, codes[id].scope, typed);
    case Right(id) => StillTyped(steps, step, id, codes[id].scope, codes[id].text);
    case Wrong(_) =>
  }

  lemma StepKeepsCalls(steps: seq<Step>, st: State, step: Step, k: Id)
    requires Invariant(st) && History(steps, st) && Enabled(st, step) && k in Apply(st, step).calls
    ensures CallHolds(steps + [step], Apply(st, step).codes, Apply(st, step).calls[k])
  {
    var st1 := Apply(st, step);
    if k in st.calls && st1.calls[k] == st.calls[k] {
      assert CallHolds(steps, st.codes, st.calls[k]);
      CallStillHolds(steps, step, st.codes, st1.codes, st.calls[k]);
    } else if step.Pick? {
      assert Typed((steps + [step])[|steps|], step.code, step.scope, step.typed);
    } else {
      MovedCallHolds(steps, st, step, k);
    }
  }

  lemma MovedCallHolds(steps: seq<Step>, st: State, step: Step, k: Id)
    requires (step.Count? || step.Compare?) && Enabled(st, step) && step.call == k && k in Apply(st, step).calls
    requires CallHolds(steps, st.codes, st.calls[k])
    ensures CallHolds(steps + [step], Apply(st, step).codes, Apply(st, step).calls[k])
  {
    CallStillHolds(steps, step, st.codes, Apply(st, step).codes, st.calls[k]);
  }

  lemma StepKeepsRedemptions(steps: seq<Step>, st: State, step: Step, id: Id)
    requires Invariant(st) && History(steps, st) && Enabled(st, step)
    ensures RedemptionHolds(steps + [step], Apply(st, step), id)
  {
    assert CodeHolds(st, id) && RedemptionHolds(steps, st, id);
    if id in st.codes {
      var c := st.codes[id];
      if Tally(st.redeemed, id) > 0 {
        StillTyped(steps, step, id, c.scope, c.text);
      } else if step.Consume? && st.calls[step.call].code == id {
        assert CallHolds(steps, st.codes, st.calls[step.call]);
        StillTyped(steps, step, id, c.scope, c.text);
      }
    }
  }

  lemma {:induction false} RunHasHistory(steps: seq<Step>)
    ensures Invariant(Run(EMPTY, steps)) && History(steps, Run(EMPTY, steps))
    decreases |steps|
  {
    if steps != [] {
      var init, step := steps[..|steps| - 1], steps[|steps| - 1];
      assert steps == init + [step];
      RunHasHistory(init);
      RunKeepsInvariant(EMPTY, steps);
      RunTwice(EMPTY, init, [step]);
      var st := Run(EMPTY, init);
      RunOne(st, step);
      if Enabled(st, step) {
        forall k | k in Apply(st, step).calls ensures CallHolds(steps, Apply(st, step).codes, Apply(st, step).calls[k]) {
          StepKeepsCalls(init, st, step, k);
        }
        forall id ensures RedemptionHolds(steps, Apply(st, step), id) {
          StepKeepsRedemptions(init, st, step, id);
        }
      } else {
        UnchangedHistory(init, step, st);
      }
    }
  }

  lemma UnchangedHistory(steps: seq<Step>, step: Step, st: State)
    requires Invariant(st) && History(steps, st)
    ensures History(steps + [step], st)
  {
    forall k | k in st.calls ensures CallHolds(steps + [step], st.codes, st.calls[k]) {
      assert CallHolds(steps, st.codes, st.calls[k]);
      CallStillHolds(steps, step, st.codes, st.codes, st.calls[k]);
    }
    forall id ensures RedemptionHolds(steps + [step], st, id) {
      assert RedemptionHolds(steps, st, id);
      if id in st.codes && Tally(st.redeemed, id) > 0 {
        StillTyped(steps, step, id, st.codes[id].scope, st.codes[id].text);
      }
    }
  }

  /** A redeemed code was typed, by a call for the very scope it was mailed to. */
  lemma RedeemedWasTyped(steps: seq<Step>, id: Id)
    requires var st := Run(EMPTY, steps); id in st.codes && id in st.redeemed && st.redeemed[id] > 0
    ensures var c := Run(EMPTY, steps).codes[id];
      exists i :: 0 <= i < |steps| && steps[i].Pick? && steps[i].code == id && steps[i].scope == c.scope && steps[i].typed == c.text
  {
    RunHasHistory(steps);
    assert RedemptionHolds(steps, Run(EMPTY, steps), id);
  }

  // The call itself, others at work between any two of its updates

  predicate NotOurs(step: Step, call: Id) {
    match step
    case Pick(k, _, _, _, _) => k != call
    case Count(k) => k != call
    case Compare(k) => k != call
    case Consume(k, _) => k != call
    case Close(k, _) => k != call
    case Stop(k) => k != call
    case Cancel(_, _) => true
    case Create(_, _, _, _) => true
  }

  /** The call is where it was, and the codes are the same but for their use. */
  ghost predicate CallKept(st: State, end: State, call: Id) {
    && (call in end.calls <==> call in st.calls) && (call in st.calls ==> end.calls[call] == st.calls[call])
    && (forall id :: id in st.codes ==> CodeKept(st.codes[id], end.codes, id))
  }

  predicate CodeKept(c: MailedCode, codes: map<Id, MailedCode>, id: Id) {
    id in codes && codes[id].scope == c.scope && codes[id].text == c.text
  }

  lemma OtherLeavesCall(st: State, step: Step, call: Id)
    requires NotOurs(step, call)
    ensures CallKept(st, Apply(st, step), call)
  {}

  lemma {:induction false} OthersLeaveCall(st: State, steps: seq<Step>, call: Id)
    requires forall i :: 0 <= i < |steps| ==> NotOurs(steps[i], call)
    ensures CallKept(st, Run(st, steps), call)
    decreases |steps|
  {
    if steps != [] {
      var st1 := Apply(st, steps[0]);
      OtherLeavesCall(st, steps[0], call);
      OthersLeaveCall(st1, steps[1..], call);
      var end := Run(st1, steps[1..]);
      forall id | id in st.codes ensures CodeKept(st.codes[id], end.codes, id) {
        assert CodeKept(st.codes[id], st1.codes, id) && CodeKept(st1.codes[id], end.codes, id);
      }
    }
  }

  /** The scope has an active code, and its latest is the text typed, with an attempt left. */
  ghost predicate Redeemable(codes: map<Id, MailedCode>, scope: Scope, typed: string, now: Time) {
    && (exists id :: IsLatestActive(codes, scope, now, id))
    && (forall id :: IsLatestActive(codes, scope, now, id) ==>
          codes[id].text == typed && codes[id].attempts < OTP_MAX_ATTEMPTS)
  }

  /** Our steps up to the attempt that is counted, and to the comparison, with what others did before each. */
  function UpToCount(call: Id, scope: Scope, typed: string, id: Id, now: Time, others: seq<Step>): seq<Step> {
    [Pick(call, scope, typed, id, now)] + others + [Count(call)]
  }

  /**
   A whole call that picked that code: over once no attempt is left, else the typed text
   is compared, and the code consumed or, with no attempt left then, closed. It is won if
   the text is the code's, and nobody used it first.
   */
  ghost predicate WholeCall(
    before: State, call: Id, scope: Scope, typed: string, id: Id, now: Time, others: seq<seq<Step>>,
    trace: seq<Step>, won: Option<Id>)
    requires |others| == 3
  {
    var counting := UpToCount(call, scope, typed, id, now, others[0]);
    var comparing := counting + others[1] + [Compare(call)] + others[2];
    && id in before.codes
    && if call !in Run(before, counting).calls then trace == counting && won.None?
       else if before.codes[id].text != typed then trace == comparing + [Close(call, now)] && won.None?
       else
         && trace == comparing + [Consume(call, now)]
         && var codes := Run(before, comparing).codes;
            id in codes && won == if codes[id].usedAt.None? then Some(id) else None
  }

  class Table {
    var st: State

    /** Whatever others do. */
    method Interfere(others: seq<Step>, call: Id, ghost before: State, ghost trace: seq<Step>)
      returns (ghost longer: seq<Step>)
      requires forall i :: 0 <= i < |others| ==> NotOurs(others[i], call)
      requires st == Run(before, trace)
      modifies this
      ensures st == Run(before, longer) && longer == trace + others && CallKept(old(st), st, call)
      ensures others == [] ==> st == old(st)
    {
      longer := trace + others;
      RunTwice(before, trace, others);
      OthersLeaveCall(st, others, call);
      st := Run(st, others);
    }

    /** One update of ours. */
    method Update(mine: Step, ghost before: State, ghost trace: seq<Step>) returns (ghost longer: seq<Step>)
      requires st == Run(before, trace)
      modifies this
      ensures st == Apply(old(st), mine) && st == Run(before, longer) && longer == trace + [mine]
    {
      longer := trace + [mine];
      RunTwice(before, trace, [mine]);
      RunOne(st, mine);
      st := Apply(st, mine);
    }

    /** The latest active code of the scope, if there is one. */
    method Latest(scope: Scope, now: Time) returns (found: Option<Id>)
      ensures found.Some? ==> IsLatestActive(st.codes, scope, now, found.value)
      ensures found.None? ==> forall id :: !IsLatestActive(st.codes, scope, now, id)
    {
      found := None;
      if id :| id in st.codes && IsLatestActive(st.codes, scope, now, id) {
        found := Some(id);
      }
    }

    /** The attempt, counted before the comparison. */
    method CountAttempt(
      call: Id, id: Id, typed: string, others: seq<Step>, ghost before: State, ghost trace: seq<Step>)
      returns (counted: bool, ghost longer: seq<Step>)
      requires forall i :: 0 <= i < |others| ==> NotOurs(others[i], call)
      requires st == Run(before, trace) && call in st.calls && st.calls[call] == Picked(id, typed) && id in st.codes
      modifies this
      ensures st == Run(before, longer) && longer == trace + others + [Count(call)]
      ensures CodeKept(old(st).codes[id], st.codes, id)
      ensures if counted then call in st.calls && st.calls[call] == Counted(id, typed) else call !in st.calls
      ensures others == [] ==>
        && (counted <==> old(st).codes[id].usedAt.None? && old(st).codes[id].attempts < OTP_MAX_ATTEMPTS)
        && st.codes[id].usedAt == old(st).codes[id].usedAt
    {
      longer := Interfere(others, call, before, trace);
      assert CodeKept(old(st).codes[id], st.codes, id);
      counted := st.codes[id].usedAt.None? && st.codes[id].attempts < OTP_MAX_ATTEMPTS;
      longer := Update(Count(call), before, longer);
    }

    method CompareTyped(
      call: Id, id: Id, typed: string, others: seq<Step>, ghost before: State, ghost trace: seq<Step>)
      returns (equal: bool, ghost longer: seq<Step>)
      requires forall i :: 0 <= i < |others| ==> NotOurs(others[i], call)
      requires st == Run(before, trace) && call in st.calls && st.calls[call] == Counted(id, typed) && id in st.codes
      modifies this
      ensures st == Run(before, longer) && longer == trace + others + [Compare(call)]
      ensures CodeKept(old(st).codes[id], st.codes, id)
      ensures equal <==> old(st).codes[id].text == typed
      ensures others == [] ==> st.codes == old(st).codes
      ensures call in st.calls && st.calls[call] == if equal then Right(id) else Wrong(id)
    {
      longer := Interfere(others, call, before, trace);
      assert CodeKept(old(st).codes[id], st.codes, id);
      equal := st.codes[id].text == typed;
      longer := Update(Compare(call), before, longer);
    }

    /** The end of a call: the code consumed if the text is its own, unless it was used meanwhile. */
    method Settle(
      call: Id, id: Id, equal: bool, now: Time, others: seq<Step>, ghost before: State, ghost trace: seq<Step>)
      returns (won: Option<Id>, ghost longer: seq<Step>)
      requires forall i :: 0 <= i < |others| ==> NotOurs(others[i], call)
      requires st == Run(before, trace) && id in st.codes
      requires call in st.calls && st.calls[call] == if equal then Right(id) else Wrong(id)
      modifies this
      ensures st == Run(before, longer) && call !in st.calls && CodeKept(old(st).codes[id], st.codes, id)
      ensures longer == trace + others + [if equal then Consume(call, now) else Close(call, now)]
      ensures won.Some? ==> equal && won.value == id && Tally(st.redeemed, id) > 0
      ensures var codes := Run(before, trace + others).codes;
        id in codes && (won.Some? <==> equal && codes[id].usedAt.None?)
      ensures others == [] && equal && old(st).codes[id].usedAt.None? ==> won.Some?
    {
      longer := Interfere(others, call, before, trace);
      assert CodeKept(old(st).codes[id], st.codes, id);
      won := None;
      if equal {
        var unused := st.codes[id].usedAt.None?;
        longer := Update(Consume(call, now), before, longer);
        won := if unused then Some(id) else None;
      } else {
        longer := Update(Close(call, now), before, longer);
      }
    }

    /**
     `redeem`, with whatever others do before each of its updates. What it does is a run
     of the machine: all of a call on the scope's latest active code, or nothing at all if
     there is none. It returns a code only once redeemed, which is what was typed.
     */
    method Redeem(call: Id, scope: Scope, typed: string, now: Time, others: seq<seq<Step>>)
      returns (won: Option<Id>, ghost picked: Option<Id>, ghost trace: seq<Step>)
      requires |others| == 3 && call !in st.calls
      requires forall k, i :: 0 <= k < 3 && 0 <= i < |others[k]| ==> NotOurs(others[k][i], call)
      modifies this
      ensures st == Run(old(st), trace) && call !in st.calls
      ensures picked.None? ==> trace == [] && won.None? && forall id :: !IsLatestActive(old(st).codes, scope, now, id)
      ensures picked.Some? ==>
        && IsLatestActive(old(st).codes, scope, now, picked.value)
        && WholeCall(old(st), call, scope, typed, picked.value, now, others, trace, won)
      ensures won.Some? ==>
        && won.value in st.codes && st.codes[won.value].scope == scope && st.codes[won.value].text == typed
        && Tally(st.redeemed, won.value) > 0
      ensures others == [[], [], []] && Redeemable(old(st).codes, scope, typed, now) ==> won.Some?
    {
      ghost var before := st;
      trace := [];
      won := None;
      var found := Latest(scope, now);
      picked := found;
      if found.Some? {
        var id := found.value;
        trace := Update(Pick(call, scope, typed, id, now), before, trace);
        var counted;
        counted, trace := CountAttempt(call, id, typed, others[0], before, trace);
        assert trace == UpToCount(call, scope, typed, id, now, others[0]);
        if counted {
          var equal;
          equal, trace := CompareTyped(call, id, typed, others[1], before, trace);
          won, trace := Settle(call, id, equal, now, others[2], before, trace);
        }
        assert WholeCall(before, call, scope, typed, id, now, others, trace, won);
      }
    }
  }
}
