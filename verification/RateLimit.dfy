/**
 The one-hour sliding limits on inbound mail, per mailbox and per sender to a mailbox or
 to none (backend/apps/email_channel/filters.py:55-83 and 268-308), on a log filled in
 the order mails arrive and evaluated in any.
 */
module RateLimit {
  import opened Rows

  const HOUR: nat := 3600

  /** A mail to a ticket's reply address may be to no mailbox. */
  datatype Mail = Mail(mailbox: Option<Id>, sender: string, receivedAt: Time)

  /** What is counted together: all the mail of a mailbox, or one sender's. */
  datatype Scope = ToMailbox | FromSender

  predicate Together(scope: Scope, a: Mail, b: Mail) {
    a.mailbox == b.mailbox && (scope.FromSender? ==> a.sender == b.sender)
  }

  /** Received in the hour up to `until`, which is part of it. */
  predicate InHourTo(m: Mail, until: int) {
    until - HOUR < m.receivedAt <= until
  }

  /** The log, and the mails of it that are rejected. Those to no mailbox no longer count then. */
  datatype Log = Log(mails: seq<Mail>, rejected: set<nat>)

  predicate Counts(log: Log, j: nat)
    requires j < |log.mails|
  {
    log.mails[j].mailbox.None? ==> j !in log.rejected
  }

  /** The mails of the hour before `i` arrived, itself among them. */
  function LastHour(log: Log, scope: Scope, i: nat): set<nat>
    requires i < |log.mails|
  {
    set j: nat | j < |log.mails| && Counts(log, j)
      && Together(scope, log.mails[j], log.mails[i]) && InHourTo(log.mails[j], log.mails[i].receivedAt)
  }

  predicate IsLimited(log: Log, scope: Scope, limit: nat, i: nat)
    requires i < |log.mails|
  {
    Applies(scope, log.mails[i]) && |LastHour(log, scope, i)| > limit
  }

  predicate Applies(scope: Scope, m: Mail) {
    scope.ToMailbox? ==> m.mailbox.Some?
  }

  // The machine

  /** The limits of the instance, over all mail of a mailbox and over a sender's. */
  datatype Limits = Limits(mailbox: nat, sender: nat)

  function LimitOf(limits: Limits, scope: Scope): nat {
    if scope.ToMailbox? then limits.mailbox else limits.sender
  }

  datatype State = State(log: Log, passed: set<nat>)

  datatype Step = Arrive(mail: Mail) | Evaluate(index: nat) | Reject(index: nat)

  predicate Enabled(st: State, step: Step) {
    var mails := st.log.mails;
    match step
    case Arrive(mail) => mails == [] || mails[|mails| - 1].receivedAt <= mail.receivedAt
    case Evaluate(i) => i < |mails| && i !in st.log.rejected
    case Reject(i) => i < |mails|
  }

  predicate Passes(log: Log, limits: Limits, i: nat)
    requires i < |log.mails|
  {
    !IsLimited(log, ToMailbox, limits.mailbox, i) && !IsLimited(log, FromSender, limits.sender, i)
  }

  function Apply(limits: Limits, st: State, step: Step): State {
    if !Enabled(st, step) then st
    else
      match step
      case Arrive(mail) => st.(log := st.log.(mails := st.log.mails + [mail]))
      case Evaluate(i) => if Passes(st.log, limits, i) then st.(passed := st.passed + {i}) else st
      case Reject(i) => st.(log := st.log.(rejected := st.log.rejected + {i}))
  }

  function Run(limits: Limits, st: State, steps: seq<Step>): State
    decreases |steps|
  {
    if steps == [] then st else Run(limits, Apply(limits, st, steps[0]), steps[1..])
  }

  const EMPTY: State := State(Log([], {}), {})

  /** Every mail that arrives no earlier than the last is logged, last, and every rejection kept, at any point of a run. */
  lemma {:induction false} RunLogs(limits: Limits, st: State, steps: seq<Step>, step: Step)
    ensures var before, after := Run(limits, st, steps), Run(limits, st, steps + [step]);
      match step
      case Arrive(mail) =>
        (forall i :: 0 <= i < |before.log.mails| ==> before.log.mails[i].receivedAt <= mail.receivedAt) ==>
          after.log.mails == before.log.mails + [mail]
      case Reject(i) => i < |before.log.mails| ==> after.log.rejected == before.log.rejected + {i}
      case Evaluate(_) => after.log == before.log
    decreases |steps|
  {
    if steps == [] {
      assert Run(limits, st, [step]) == Run(limits, Apply(limits, st, step), [step][1..]);
      assert [] + [step] == [step];
    } else {
      assert (steps + [step])[1..] == steps[1..] + [step];
      RunLogs(limits, Apply(limits, st, steps[0]), steps[1..], step);
    }
  }

  predicate Ordered(mails: seq<Mail>) {
    forall j, k :: 0 <= j <= k < |mails| ==> mails[j].receivedAt <= mails[k].receivedAt
  }

  /** Those up to `i`, of the hour before it: what an evaluation counts at the least. */
  function UpTo(log: Log, scope: Scope, i: nat): set<nat>
    requires i < |log.mails|
  {
    set j: nat | j <= i && Counts(log, j)
      && Together(scope, log.mails[j], log.mails[i]) && InHourTo(log.mails[j], log.mails[i].receivedAt)
  }

  ghost predicate WithinLimits(limits: Limits, log: Log, i: nat) {
    && i < |log.mails|
    && forall scope :: Applies(scope, log.mails[i]) ==> |UpTo(log, scope, i)| <= LimitOf(limits, scope)
  }

  ghost predicate Invariant(limits: Limits, st: State) {
    && Ordered(st.log.mails)
    && (forall i :: i in st.passed ==> WithinLimits(limits, st.log, i))
  }

  lemma Fewer(a: set<nat>, b: set<nat>)
    requires a <= b
    ensures |a| <= |b|
  {
    assert b == a + (b - a);
  }

  /** What an evaluation counted only gets less: later mails are after it, and a rejected one may go. */
  lemma StaysWithin(limits: Limits, log: Log, log1: Log, i: nat)
    requires WithinLimits(limits, log, i)
    requires |log1.mails| >= |log.mails| && log1.mails[..|log.mails|] == log.mails && log.rejected <= log1.rejected
    ensures WithinLimits(limits, log1, i)
  {
    assert forall j :: 0 <= j <= i ==> log1.mails[j] == log.mails[j];
    forall scope | Applies(scope, log1.mails[i]) ensures |UpTo(log1, scope, i)| <= LimitOf(limits, scope) {
      Fewer(UpTo(log1, scope, i), UpTo(log, scope, i));
    }
  }

  lemma PassingIsWithin(limits: Limits, log: Log, i: nat)
    requires i < |log.mails| && Passes(log, limits, i)
    ensures WithinLimits(limits, log, i)
  {
    forall scope | Applies(scope, log.mails[i]) ensures |UpTo(log, scope, i)| <= LimitOf(limits, scope) {
      Fewer(UpTo(log, scope, i), LastHour(log, scope, i));
      assert scope.ToMailbox? || scope.FromSender?;
    }
  }

  lemma StepKeepsInvariant(limits: Limits, st: State, step: Step)
    requires Invariant(limits, st)
    ensures Invariant(limits, Apply(limits, st, step))
  {
    if Enabled(st, step) {
      var st1 := Apply(limits, st, step);
      assert st1.log.mails[..|st.log.mails|] == st.log.mails;
      forall i | i in st1.passed ensures WithinLimits(limits, st1.log, i) {
        if i in st.passed {
          StaysWithin(limits, st.log, st1.log, i);
        } else {
          PassingIsWithin(limits, st.log, i);
        }
      }
    }
  }

  lemma {:induction false} RunKeepsInvariant(limits: Limits, st: State, steps: seq<Step>)
    requires Invariant(limits, st)
    ensures Invariant(limits, Run(limits, st, steps))
    decreases |steps|
  {
    if steps != [] {
      StepKeepsInvariant(limits, st, steps[0]);
      RunKeepsInvariant(limits, Apply(limits, st, steps[0]), steps[1..]);
    }
  }

  /** Counted with `like`: to its mailbox or none, or by its sender alone. */
  predicate IsLike(scope: Scope, m: Mail, like: Mail) {
    m.mailbox == like.mailbox && (scope == ToMailbox || m.sender == like.sender)
  }

  /** The mails counted with `like` that got through, in the 3600 seconds up to `until`. */
  function PassedInHour(st: State, scope: Scope, like: Mail, until: int): set<nat> {
    set i | i in st.passed && i < |st.log.mails| && Counts(st.log, i)
      && IsLike(scope, st.log.mails[i], like) && until - 3600 < st.log.mails[i].receivedAt <= until
  }

  /** Those that arrived in the 3600 seconds before `i` did, and count: to no mailbox, only those not rejected. */
  function Recent(log: Log, scope: Scope, i: nat): set<nat>
    requires i < |log.mails|
  {
    var at := log.mails[i].receivedAt;
    set j: nat | j < |log.mails| && (log.mails[j].mailbox == None ==> j !in log.rejected)
      && IsLike(scope, log.mails[j], log.mails[i]) && at - 3600 < log.mails[j].receivedAt <= at
  }

  lemma {:induction false} HasLast(s: set<nat>) returns (last: nat)
    requires s != {}
    ensures last in s && forall i :: i in s ==> i <= last
    decreases s
  {
    var i :| i in s;
    if s == {i} {
      last := i;
    } else {
      var rest := HasLast(s - {i});
      last := if i > rest then i else rest;
      assert forall k :: k in s ==> k == i || k in s - {i};
    }
  }

  /**
   In any hour, at most the limit of mails get through, of a mailbox and of a sender to
   it or to none, whatever order they are evaluated in, and however often. Of those to no
   mailbox, one that was rejected after all is not among them.
   */
  lemma NoHourExceedsTheLimit(limits: Limits, steps: seq<Step>, scope: Scope, like: Mail, until: int)
    requires scope == ToMailbox ==> like.mailbox.Some?
    ensures |PassedInHour(Run(limits, EMPTY, steps), scope, like, until)|
         <= if scope == ToMailbox then limits.mailbox else limits.sender
  {
    RunKeepsInvariant(limits, EMPTY, steps);
    var st := Run(limits, EMPTY, steps);
    var passed := PassedInHour(st, scope, like, until);
    if passed != {} {
      var last := HasLast(passed);
      assert passed <= UpTo(st.log, scope, last);
      Fewer(passed, UpTo(st.log, scope, last));
    }
  }

  /**
   An evaluation lets a mail through exactly when no more than its sender's limit came
   from the sender, and, to a mailbox, no more than the mailbox's to it.
   */
  lemma PassesExactly(limits: Limits, st: State, i: nat)
    requires i < |st.log.mails| && i !in st.log.rejected
    ensures i in Apply(limits, st, Evaluate(i)).passed
       <==> i in st.passed
            || (&& |Recent(st.log, FromSender, i)| <= limits.sender
                && (st.log.mails[i].mailbox.Some? ==> |Recent(st.log, ToMailbox, i)| <= limits.mailbox))
  {
    forall scope ensures LastHour(st.log, scope, i) == Recent(st.log, scope, i) {}
  }

  // A replay

  /** The log later on: more mails, and more of them rejected. */
  predicate Later(log: Log, after: Log) {
    && |after.mails| >= |log.mails| && after.mails[..|log.mails|] == log.mails
    && log.rejected <= after.rejected && Ordered(after.mails)
  }

  /** The later mails that arrived at the very same time as `i`. */
  function Tied(log: Log, after: Log, scope: Scope, i: nat): set<nat>
    requires Later(log, after) && i < |log.mails|
  {
    set k: nat | |log.mails| <= k < |after.mails| && Counts(after, k)
      && Together(scope, after.mails[k], log.mails[i]) && after.mails[k].receivedAt == log.mails[i].receivedAt
  }

  /** Those counted then that were rejected since, and count no longer. */
  function Gone(log: Log, after: Log, scope: Scope, i: nat): set<nat>
    requires i < |log.mails|
  {
    set j | j in LastHour(log, scope, i) && log.mails[j].mailbox.None? && j in after.rejected
  }

  lemma CountedBefore(log: Log, after: Log, scope: Scope, i: nat, j: nat)
    requires Later(log, after) && i < |log.mails| && j < |log.mails|
    ensures j in LastHour(after, scope, i) <==> j in LastHour(log, scope, i) && j !in Gone(log, after, scope, i)
  {
    assert after.mails[i] == log.mails[i] && after.mails[j] == log.mails[j];
  }

  lemma CountedSince(log: Log, after: Log, scope: Scope, i: nat, k: nat)
    requires Later(log, after) && i < |log.mails| <= k < |after.mails|
    ensures k in LastHour(after, scope, i) <==> k in Tied(log, after, scope, i)
  {
    assert after.mails[i] == log.mails[i];
    assert after.mails[i].receivedAt <= after.mails[k].receivedAt;
  }

  /** Evaluated again, a mail counts those that arrived with it since, no longer those rejected, and no other. */
  lemma ReplayCounts(log: Log, after: Log, scope: Scope, i: nat)
    requires Later(log, after) && i < |log.mails|
    ensures |LastHour(after, scope, i)|
         == |LastHour(log, scope, i)| - |Gone(log, after, scope, i)| + |Tied(log, after, scope, i)|
  {
    var all, before := LastHour(after, scope, i), LastHour(log, scope, i);
    var gone, tied := Gone(log, after, scope, i), Tied(log, after, scope, i);
    forall j: nat | j < |log.mails| ensures j in all <==> j in before && j !in gone {
      CountedBefore(log, after, scope, i, j);
    }
    forall k: nat | k >= |log.mails| ensures k in all <==> k in tied {
      if k < |after.mails| {
        CountedSince(log, after, scope, i, k);
      }
    }
    assert all == (before - gone) + tied && before == (before - gone) + gone;
  }

  /**
   A replay gives the same verdict unless mails came at the very same time since, or some
   it counted were rejected: the count then decides. A mail to a mailbox, once limited,
   stays so.
   */
  lemma ReplayVerdict(log: Log, after: Log, scope: Scope, limit: nat, i: nat)
    requires Later(log, after) && i < |log.mails| && Applies(scope, log.mails[i])
    ensures IsLimited(after, scope, limit, i)
       <==> |LastHour(log, scope, i)| - |Gone(log, after, scope, i)| + |Tied(log, after, scope, i)| > limit
    ensures Tied(log, after, scope, i) == {} && Gone(log, after, scope, i) == {} ==>
      (IsLimited(after, scope, limit, i) <==> IsLimited(log, scope, limit, i))
    ensures log.mails[i].mailbox.Some? && IsLimited(log, scope, limit, i) ==> IsLimited(after, scope, limit, i)
  {
    ReplayCounts(log, after, scope, i);
    assert after.mails[i] == log.mails[i];
    if log.mails[i].mailbox.Some? {
      assert Gone(log, after, scope, i) == {};
    }
  }

  /** With a limit of one, a mail to a mailbox passes, and a replay of it doesn't once another came at the same time. */
  lemma ATieFlipsTheVerdict(m: Mail)
    requires m.mailbox.Some?
    ensures var log, after := Log([m], {}), Log([m, m], {});
      && Later(log, after)
      && !IsLimited(log, ToMailbox, 1, 0) && IsLimited(after, ToMailbox, 1, 0)
  {
    var log, after := Log([m], {}), Log([m, m], {});
    assert LastHour(log, ToMailbox, 0) == {0};
    ReplayCounts(log, after, ToMailbox, 0);
    assert Gone(log, after, ToMailbox, 0) == {} && Tied(log, after, ToMailbox, 0) == {1};
  }

  /** And a mail to no mailbox is limited, until the one counted with it is rejected. */
  lemma ARejectionFlipsTheVerdict(m: Mail)
    requires m.mailbox.None?
    ensures var log, after := Log([m, m], {}), Log([m, m], {0});
      && Later(log, after)
      && IsLimited(log, FromSender, 1, 1) && !IsLimited(after, FromSender, 1, 1)
  {
    var log, after := Log([m, m], {}), Log([m, m], {0});
    assert LastHour(log, FromSender, 1) == {0, 1} && LastHour(after, FromSender, 1) == {1};
  }
}
