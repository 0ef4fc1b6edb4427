/**
 The Celery task that mails a reply left unread, with whatever is written, read or bounced
 meanwhile (backend/apps/tickets/tasks.py:198-265 and 438-460, backend/apps/email_channel/outbound.py:100-119).
 */
module ReplyTask {
  import opened Rows
  import opened ReplyMail

  /** Whichever of the replies first after `i` is looked at, it tells the same. */
  lemma AnyNextTells(t: Thread, i: nat, n: nat, m: nat)
    requires IsNextReply(t, i, n) && IsNextReply(t, i, m)
    ensures i in UnreadReplies(t, n) <==> i in UnreadReplies(t, m)
  {}

  /** `carried_by_later_reply`, looking for the first agent's reply after `i`. */
  method CarriedByLaterReply(t: Thread, i: nat) returns (carried: bool)
    requires i < |t.posts|
    ensures carried <==> StandsDown(t, i)
  {
    var next: Option<nat> := None;
    var k := 0;
    while k < |t.posts|
      invariant k <= |t.posts|
      invariant next.Some? ==>
        && next.value < k && t.posts[next.value].kind.AgentReply?
        && t.posts[i].createdAt < t.posts[next.value].createdAt
      invariant forall j: nat :: j < k && t.posts[j].kind.AgentReply? && t.posts[i].createdAt < t.posts[j].createdAt ==>
        next.Some? && t.posts[next.value].createdAt <= t.posts[j].createdAt
    {
      var p := t.posts[k];
      if && p.kind.AgentReply? && t.posts[i].createdAt < p.createdAt
         && (next.None? || p.createdAt < t.posts[next.value].createdAt) {
        next := Some(k);
      }
      k := k + 1;
    }
    if next.None? {
      assert forall n :: !IsNextReply(t, i, n);
      return false;
    }
    assert IsNextReply(t, i, next.value);
    carried := i in UnreadReplies(t, next.value);
    if carried {
      assert CarriedBy(t, i, next.value);
    }
    forall n | CarriedBy(t, i, n) ensures carried {
      AnyNextTells(t, i, n, next.value);
    }
  }

  /** What goes on while a mail holds the ticket's lock: no other mail of the ticket. */
  predicate IsOutside(step: Step) {
    step.Write? || step.Read? || step.MarkFailed? || step.Bounce? || step.Remove?
  }

  lemma {:induction false} OutsideKeepsLock(st: State, steps: seq<Step>)
    requires forall k :: 0 <= k < |steps| ==> IsOutside(steps[k])
    ensures Run(st, steps).lock == st.lock && Run(st, steps).mails == st.mails
    decreases |steps|
  {
    if steps != [] {
      OutsideKeepsLock(Apply(st, steps[0]), steps[1..]);
    }
  }

  lemma {:induction false} RunTwice(st: State, first: seq<Step>, second: seq<Step>)
    ensures Run(st, first + second) == Run(Run(st, first), second)
    decreases |first|
  {
    if first == [] {
      assert [] + second == second;
    } else {
      assert (first + second)[1..] == first[1..] + second;
      RunTwice(Apply(st, first[0]), first[1..], second);
    }
  }

  lemma RunOne(st: State, step: Step)
    ensures Run(st, [step]) == Apply(st, step)
  {}

  datatype Outcome = StoodDown | Busy | AlreadySent | Mailed | GivenUp | ToRetry

  /** What the job does to the ticket, by its outcome: a mail refused for good is marked failed, and the lock given back. */
  function TaskSteps(n: nat, outcome: Outcome, meanwhile: seq<Step>): seq<Step> {
    match outcome
    case StoodDown => []
    case Busy => []
    case AlreadySent => []
    case Mailed => [Build(n)] + meanwhile + [Deliver]
    case GivenUp => [Build(n)] + meanwhile + [MarkFailed(n)] + [Release]
    case ToRetry => [Build(n)] + meanwhile + [Release]
  }

  class Ticket {
    var st: State

    method Take(step: Step, ghost before: State, ghost trace: seq<Step>) returns (ghost longer: seq<Step>)
      requires st == Run(before, trace)
      modifies this
      ensures st == Apply(old(st), step) && st == Run(before, longer) && longer == trace + [step]
    {
      longer := trace + [step];
      RunTwice(before, trace, [step]);
      RunOne(st, step);
      st := Apply(st, step);
    }

    /** `_send_requester_mail`, once the lock is held: built, then delivered unless the server refuses it. */
    method SendLocked(n: nat, refused: bool, lastTry: bool, meanwhile: seq<Step>)
      returns (outcome: Outcome)
      requires st.lock.None? && n < |st.thread.posts| && st.thread.posts[n].kind.AgentReply?
      requires forall k :: 0 <= k < |meanwhile| ==> IsOutside(meanwhile[k])
      modifies this
      ensures outcome == if old(st).thread.posts[n].delivery.Sent? then AlreadySent
                         else if !refused then Mailed else if lastTry then GivenUp else ToRetry
      ensures st == Run(old(st), TaskSteps(n, outcome, meanwhile)) && st.lock.None?
      ensures st.mails == old(st).mails + if outcome.Mailed? then [UnreadReplies(old(st).thread, n)] else []
    {
      ghost var before := st;
      if st.thread.posts[n].delivery.Sent? {
        assert st.mails + [] == st.mails;
        return AlreadySent;
      }
      ghost var trace := Take(Build(n), before, []);
      RunTwice(before, trace, meanwhile);
      trace := trace + meanwhile;
      OutsideKeepsLock(st, meanwhile);
      st := Run(st, meanwhile);
      if !refused {
        trace := Take(Deliver, before, trace);
        assert trace == TaskSteps(n, Mailed, meanwhile);
        return Mailed;
      }
      if lastTry {
        trace := Take(MarkFailed(n), before, trace);
      }
      trace := Take(Release, before, trace);
      assert st.mails == old(st).mails + [];
      outcome := if lastTry then GivenUp else ToRetry;
      assert trace == TaskSteps(n, outcome, meanwhile);
    }

    /**
     `send_unread_reply_email`: nothing if the reply was read, mailed, or a later one
     carries it, and else its mail, if the ticket isn't busy with another.
     */
    method SendUnreadReply(n: nat, refused: bool, lastTry: bool, meanwhile: seq<Step>)
      returns (outcome: Outcome)
      requires n < |st.thread.posts| && st.thread.posts[n].kind.AgentReply?
      requires forall k :: 0 <= k < |meanwhile| ==> IsOutside(meanwhile[k])
      modifies this
      ensures st == Run(old(st), TaskSteps(n, outcome, meanwhile))
      ensures outcome.StoodDown? <==>
        var t := old(st).thread;
        || t.posts[n].delivery.Sent? || (t.lastRead.Some? && t.posts[n].createdAt <= t.lastRead.value)
        || StandsDown(t, n)
      ensures !outcome.StoodDown? ==>
        outcome == if old(st).lock.Some? then Busy
                   else if !refused then Mailed else if lastTry then GivenUp else ToRetry
      ensures st.mails == old(st).mails + if outcome.Mailed? then [UnreadReplies(old(st).thread, n)] else []
    {
      var carried := CarriedByLaterReply(st.thread, n);
      if st.thread.posts[n].delivery.Sent? || ReadInWidget(st.thread, n) || carried {
        assert st.mails + [] == st.mails;
        return StoodDown;
      }
      if st.lock.Some? {
        assert st.mails + [] == st.mails;
        return Busy;
      }
      outcome := SendLocked(n, refused, lastTry, meanwhile);
    }
  }
}
