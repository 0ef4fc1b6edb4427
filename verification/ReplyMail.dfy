/**
 The mail of an agent's reply, which carries every reply still unread, and stands down
 for a later one that will carry it (backend/apps/email_channel/outbound.py:100-153 and
 backend/apps/tickets/tasks.py:207-265, 345-347, 438-460).
 */
module ReplyMail {
  import opened Rows

  datatype Kind = AgentReply | FromRequester | OtherKind
  datatype Delivery = NoMail | Sent | Failed

  datatype Post = Post(createdAt: Time, kind: Kind, delivery: Delivery)

  /** A ticket's messages, in the order they were written, and when its requester last read them. */
  datatype Thread = Thread(posts: seq<Post>, lastRead: Option<Time>)

  // What a mail carries

  function Later(a: Option<Time>, b: Option<Time>): Option<Time> {
    if a.None? then b else if b.None? then a else Some(if a.value >= b.value then a.value else b.value)
  }

  /** A message of the requester, or one that was mailed to them: what came before is no news. */
  predicate IsMark(p: Post) {
    p.kind.FromRequester? || p.delivery.Sent?
  }

  /** The latest mark among `posts` before a date. */
  function LatestMark(posts: seq<Post>, before: Time): Option<Time> {
    if posts == [] then None
    else
      var p := posts[|posts| - 1];
      var rest := LatestMark(posts[..|posts| - 1], before);
      if IsMark(p) && p.createdAt < before then Later(rest, Some(p.createdAt)) else rest
  }

  function Since(t: Thread, n: nat): Option<Time>
    requires n < |t.posts|
  {
    Later(t.lastRead, LatestMark(t.posts, t.posts[n].createdAt))
  }

  predicate IsNews(t: Thread, n: nat, i: nat)
    requires n < |t.posts| && i < |t.posts|
  {
    && t.posts[i].kind.AgentReply? && t.posts[i].createdAt < t.posts[n].createdAt
    && (Since(t, n).Some? ==> Since(t, n).value < t.posts[i].createdAt)
  }

  /** `unread_replies`: the replies since the requester last read, wrote or was emailed, and `n` itself. */
  function UnreadReplies(t: Thread, n: nat): set<nat>
    requires n < |t.posts|
  {
    (set i: nat | i < |t.posts| && IsNews(t, n, i)) + {n}
  }

  /** The first agent's reply after `i`, if any. */
  predicate IsNextReply(t: Thread, i: nat, n: nat) {
    && i < |t.posts| && n < |t.posts|
    && t.posts[n].kind.AgentReply? && t.posts[i].createdAt < t.posts[n].createdAt
    && (forall j: nat :: j < |t.posts| && t.posts[j].kind.AgentReply? && t.posts[i].createdAt < t.posts[j].createdAt
          ==> t.posts[n].createdAt <= t.posts[j].createdAt)
  }

  /** `carried_by_later_reply`, whichever of the replies first after `i` is looked at. */
  ghost predicate CarriedBy(t: Thread, i: nat, n: nat) {
    IsNextReply(t, i, n) && i in UnreadReplies(t, n)
  }

  ghost predicate StandsDown(t: Thread, i: nat) {
    exists n :: CarriedBy(t, i, n)
  }

  lemma {:induction false} LatestMarkIs(posts: seq<Post>, before: Time)
    ensures var r := LatestMark(posts, before);
      && (r.Some? ==> r.value < before)
      && (forall k :: 0 <= k < |posts| && IsMark(posts[k]) && posts[k].createdAt < before ==>
            r.Some? && posts[k].createdAt <= r.value)
      && (r.Some? ==> exists k :: 0 <= k < |posts| && IsMark(posts[k]) && posts[k].createdAt == r.value)
  {
    if posts != [] {
      var init := posts[..|posts| - 1];
      LatestMarkIs(init, before);
      var rest := LatestMark(init, before);
      if rest.Some? {
        var k :| 0 <= k < |init| && IsMark(init[k]) && init[k].createdAt == rest.value;
        assert posts[k] == init[k];
      }
      assert forall k :: 0 <= k < |posts| - 1 ==> posts[k] == init[k];
    }
  }

  /** After the last reading, every message of the requester before `n`, and every one before it that was mailed. */
  predicate AfterMarks(t: Thread, n: nat, i: nat)
    requires n < |t.posts| && i < |t.posts|
  {
    && (t.lastRead.Some? ==> t.lastRead.value < t.posts[i].createdAt)
    && (forall k: nat :: k < |t.posts| && (t.posts[k].kind == FromRequester || t.posts[k].delivery == Sent) ==>
          t.posts[k].createdAt < t.posts[i].createdAt || t.posts[n].createdAt <= t.posts[k].createdAt)
  }

  lemma NewsIsAfterMarks(t: Thread, n: nat, i: nat)
    requires n < |t.posts| && i < |t.posts|
    ensures IsNews(t, n, i)
      <==> t.posts[i].kind.AgentReply? && t.posts[i].createdAt < t.posts[n].createdAt && AfterMarks(t, n, i)
  {
    LatestMarkIs(t.posts, t.posts[n].createdAt);
  }

  /** The reply `n` is the first of the agents' after `i`, or one written with it. */
  predicate IsFirstReplyAfter(t: Thread, i: nat, n: nat) {
    && i < |t.posts| && n < |t.posts| && t.posts[n].kind == AgentReply && t.posts[n].createdAt > t.posts[i].createdAt
    && forall j: nat :: j < |t.posts| && t.posts[j].kind == AgentReply ==>
         t.posts[j].createdAt <= t.posts[i].createdAt || t.posts[n].createdAt <= t.posts[j].createdAt
  }

  /** A reply stands down exactly if another follows, and it was not read, answered or mailed up to then. */
  lemma StandsDownWhen(t: Thread, i: nat)
    requires i < |t.posts|
    ensures StandsDown(t, i)
      <==> t.posts[i].kind == AgentReply && exists n :: IsFirstReplyAfter(t, i, n) && AfterMarks(t, n, i)
  {
    forall n: nat ensures CarriedBy(t, i, n)
      <==> t.posts[i].kind == AgentReply && IsFirstReplyAfter(t, i, n) && AfterMarks(t, n, i)
    {
      if IsNextReply(t, i, n) || IsFirstReplyAfter(t, i, n) {
        NewsIsAfterMarks(t, n, i);
      }
    }
  }

  // Standing down loses nothing

  /** What a mail of `i` would carry, a mail that carries `i` carries too. */
  lemma UnreadIsNested(t: Thread, i: nat, n: nat)
    requires i < |t.posts| && n < |t.posts| && i in UnreadReplies(t, n)
    ensures UnreadReplies(t, i) <= UnreadReplies(t, n)
  {
    if i != n {
      forall j | j in UnreadReplies(t, i) ensures j in UnreadReplies(t, n) {
        NewsIsAfterMarks(t, n, i);
        NewsIsAfterMarks(t, n, j);
        NewsIsAfterMarks(t, i, j);
      }
    }
  }

  /** How many messages are later than `i`. */
  function After(t: Thread, i: nat): set<nat>
    requires i < |t.posts|
  {
    set j: nat | j < |t.posts| && t.posts[i].createdAt < t.posts[j].createdAt
  }

  /** The reply that carries `i` in the end, each standing down for the next. */
  ghost function Heir(t: Thread, i: nat): (n: nat)
    requires i < |t.posts|
    ensures n < |t.posts|
    decreases After(t, i)
  {
    if StandsDown(t, i) then
      var n :| CarriedBy(t, i, n);
      assert After(t, n) < After(t, i) by {
        assert n in After(t, i) && n !in After(t, n);
      }
      Heir(t, n)
    else i
  }

  /** It doesn't stand down itself, is `i` or an agent's reply after it, and its mail carries all that `i`'s would have. */
  lemma {:induction false} StandingDownLosesNothing(t: Thread, i: nat)
    requires i < |t.posts|
    ensures !StandsDown(t, Heir(t, i))
    ensures var n := Heir(t, i);
      n == i || (t.posts[n].kind == AgentReply && t.posts[i].createdAt < t.posts[n].createdAt)
    ensures i in UnreadReplies(t, Heir(t, i)) && UnreadReplies(t, i) <= UnreadReplies(t, Heir(t, i))
    decreases After(t, i)
  {
    if StandsDown(t, i) {
      var n :| CarriedBy(t, i, n) && Heir(t, i) == Heir(t, n);
      assert After(t, n) < After(t, i) by {
        assert n in After(t, i) && n !in After(t, n);
      }
      StandingDownLosesNothing(t, n);
      UnreadIsNested(t, i, n);
    }
  }

  // Sending, one mail at a time per ticket

  /** A mail on its way: its reply, and what it was built to carry. */
  datatype Sending = Sending(reply: nat, carried: set<nat>)

  /** The thread, the mail that holds the ticket's lock, and those that went and were recorded. */
  datatype State = State(thread: Thread, lock: Option<Sending>, mails: seq<set<nat>>)

  datatype Step =
    | Write(kind: Kind, at: Time)
    | Read(at: Time)
    | Build(reply: nat)
    | Deliver
    | Release
    | MarkFailed(reply: nat)
    | Bounce(post: nat)
    | Remove(post: nat)

  predicate Latest(posts: seq<Post>, at: Time) {
    forall k :: 0 <= k < |posts| ==> posts[k].createdAt < at
  }

  predicate Enabled(st: State, step: Step) {
    match step
    case Write(_, at) => Latest(st.thread.posts, at)
    case Read(at) => st.thread.lastRead.Some? ==> st.thread.lastRead.value <= at
    case Build(n) =>
      && st.lock.None? && n < |st.thread.posts|
      && st.thread.posts[n].kind.AgentReply? && !st.thread.posts[n].delivery.Sent?
    case Deliver => st.lock.Some?
    case Release => st.lock.Some?
    case MarkFailed(n) => n < |st.thread.posts| && !st.thread.posts[n].delivery.Sent?
    case Bounce(k) => k < |st.thread.posts| && !st.thread.posts[k].kind.FromRequester?
    case Remove(k) => k < |st.thread.posts| && st.thread.posts[k].kind.FromRequester?
  }

  function Delivered(posts: seq<Post>, carried: set<nat>): (r: seq<Post>)
    ensures |r| == |posts|
  {
    seq(|posts|, k requires 0 <= k < |posts| =>
      if k in carried then posts[k].(delivery := Sent) else posts[k])
  }

  function WithDelivery(posts: seq<Post>, k: nat, delivery: Delivery): seq<Post>
    requires k < |posts|
  {
    posts[k := posts[k].(delivery := delivery)]
  }

  /** A requester deleted the message: its place stays, and marks nothing any more. */
  function WithoutPost(posts: seq<Post>, k: nat): seq<Post>
    requires k < |posts|
  {
    posts[k := posts[k].(kind := OtherKind)]
  }

  /** What the step makes of the ticket. The mail is read as it is built, and its replies marked once it went. */
  function Apply(st: State, step: Step): State {
    if !Enabled(st, step) then st
    else
      match step
      case Write(kind, at) =>
        st.(thread := st.thread.(posts := st.thread.posts + [Post(at, kind, NoMail)]))
      case Read(at) => st.(thread := st.thread.(lastRead := Some(at)))
      case Build(n) => st.(lock := Some(Sending(n, UnreadReplies(st.thread, n))))
      case Deliver =>
        var carried := st.lock.value.carried;
        State(st.thread.(posts := Delivered(st.thread.posts, carried)), None, st.mails + [carried])
      case Release => st.(lock := None)
      case MarkFailed(n) => st.(thread := st.thread.(posts := WithDelivery(st.thread.posts, n, Failed)))
      case Bounce(k) => st.(thread := st.thread.(posts := WithDelivery(st.thread.posts, k, Failed)))
      case Remove(k) => st.(thread := st.thread.(posts := WithoutPost(st.thread.posts, k)))
  }

  function Run(st: State, steps: seq<Step>): State
    decreases |steps|
  {
    if steps == [] then st else Run(Apply(st, steps[0]), steps[1..])
  }

  const EMPTY: State := State(Thread([], None), None, [])

  // What a step does

  /** A mail is built for an agent's reply not mailed, while no other of the ticket is on its way, of what is unread then. */
  lemma BuildDoes(st: State, n: nat)
    ensures Apply(st, Build(n))
         == if && n < |st.thread.posts| && st.thread.posts[n].kind == AgentReply && st.thread.posts[n].delivery != Sent
               && st.lock == None
            then State(st.thread, Some(Sending(n, UnreadReplies(st.thread, n))), st.mails) else st
  {}

  /** One that went is recorded, and what it carried marked sent, for the next to be built. */
  lemma DeliverDoes(st: State)
    ensures var after := Apply(st, Deliver);
      if st.lock == None then after == st
      else
        && after.lock == None && after.mails == st.mails + [st.lock.value.carried]
        && after.thread.lastRead == st.thread.lastRead && |after.thread.posts| == |st.thread.posts|
        && forall k :: 0 <= k < |st.thread.posts| ==>
             after.thread.posts[k] == st.thread.posts[k].(
               delivery := if k in st.lock.value.carried then Sent else st.thread.posts[k].delivery)
    ensures Apply(st, Release) == State(st.thread, None, st.mails)
  {}

  /** A failure is marked unless the reply was sent; a bounce, of any message but the requester's, whatever it was. */
  lemma FailuresDo(st: State, n: nat)
    requires n < |st.thread.posts|
    ensures var p := st.thread.posts[n];
      var failed := State(Thread(st.thread.posts[n := Post(p.createdAt, p.kind, Failed)], st.thread.lastRead), st.lock, st.mails);
      && Apply(st, MarkFailed(n)) == (if p.delivery != Sent then failed else st)
      && Apply(st, Bounce(n)) == (if p.kind != FromRequester then failed else st)
  {}

  /** Messages are written at later times, reading goes on from the last, and the requester's deleted ones are theirs no more. */
  lemma OthersDo(st: State, kind: Kind, at: Time, n: nat)
    ensures Apply(st, Write(kind, at))
         == if Latest(st.thread.posts, at) then
              State(Thread(st.thread.posts + [Post(at, kind, NoMail)], st.thread.lastRead), st.lock, st.mails)
            else st
    ensures Apply(st, Read(at))
         == if st.thread.lastRead == None || st.thread.lastRead.value <= at
            then State(Thread(st.thread.posts, Some(at)), st.lock, st.mails) else st
    ensures n < |st.thread.posts| ==>
      var p := st.thread.posts[n];
      Apply(st, Remove(n))
      == if p.kind == FromRequester then
           State(Thread(st.thread.posts[n := Post(p.createdAt, OtherKind, p.delivery)], st.thread.lastRead), st.lock, st.mails)
         else st
  {}

  // No reply is mailed twice

  /** How many of the mails carried `i`. */
  function Carrying(mails: seq<set<nat>>, i: nat): nat {
    if mails == [] then 0 else Carrying(mails[..|mails| - 1], i) + if i in mails[|mails| - 1] then 1 else 0
  }

  predicate Ordered(posts: seq<Post>) {
    forall j, k :: 0 <= j < k < |posts| ==> posts[j].createdAt < posts[k].createdAt
  }

  predicate IsReply(posts: seq<Post>, i: nat) {
    i < |posts| && posts[i].kind.AgentReply?
  }

  /** The mail being sent carries only replies of the thread, none of them mailed. */
  ghost predicate Invariant(st: State) {
    && Ordered(st.thread.posts)
    && (st.lock.Some? ==>
          forall i :: i in st.lock.value.carried ==>
            IsReply(st.thread.posts, i) && !st.thread.posts[i].delivery.Sent?)
  }

  /** A mail carries nothing already mailed. */
  lemma UnreadIsUnsent(t: Thread, n: nat)
    requires n < |t.posts| && t.posts[n].kind.AgentReply? && !t.posts[n].delivery.Sent?
    ensures forall i :: i in UnreadReplies(t, n) ==> IsReply(t.posts, i) && !t.posts[i].delivery.Sent?
  {
    forall i | i in UnreadReplies(t, n) ensures IsReply(t.posts, i) && !t.posts[i].delivery.Sent? {
      if i != n {
        NewsIsAfterMarks(t, n, i);
      }
    }
  }

  lemma StepKeepsInvariant(st: State, step: Step)
    requires Invariant(st)
    ensures Invariant(Apply(st, step))
  {
    if Enabled(st, step) && step.Build? {
      UnreadIsUnsent(st.thread, step.reply);
    }
  }

  predicate IsSent(st: State, i: nat) {
    i < |st.thread.posts| && st.thread.posts[i].delivery.Sent?
  }

  /** A bounce of the reply that finds it sent: one of a reply never mailed, or bounced already, undoes nothing. */
  predicate Undoes(st: State, step: Step, i: nat) {
    step == Bounce(i) && IsSent(st, i) && IsReply(st.thread.posts, i)
  }

  /** How often a bounce undid the sending of the reply. */
  function Undone(st: State, steps: seq<Step>, i: nat): nat
    decreases |steps|
  {
    if steps == [] then 0
    else Undone(Apply(st, steps[0]), steps[1..], i) + if Undoes(st, steps[0], i) then 1 else 0
  }

  /** In as many mails as sendings were undone, and one more if it reads as sent. */
  ghost predicate MailedExactly(st: State, i: nat, undone: nat) {
    && Carrying(st.mails, i) == undone + (if IsSent(st, i) then 1 else 0)
    && (IsSent(st, i) ==> IsReply(st.thread.posts, i))
    && (i >= |st.thread.posts| ==> Carrying(st.mails, i) == 0)
  }

  lemma StepMailsExactly(st: State, step: Step, i: nat, undone: nat)
    requires Invariant(st) && MailedExactly(st, i, undone)
    ensures MailedExactly(Apply(st, step), i, undone + if Undoes(st, step, i) then 1 else 0)
  {}

  lemma {:induction false} RunMailsExactly(st: State, steps: seq<Step>, i: nat, undone: nat)
    requires Invariant(st) && MailedExactly(st, i, undone)
    ensures MailedExactly(Run(st, steps), i, undone + Undone(st, steps, i))
    decreases |steps|
  {
    if steps != [] {
      StepKeepsInvariant(st, steps[0]);
      StepMailsExactly(st, steps[0], i, undone);
      RunMailsExactly(Apply(st, steps[0]), steps[1..], i, undone + if Undoes(st, steps[0], i) then 1 else 0);
    }
  }

  /**
   Over any run, a reply is in exactly as many recorded mails as bounces undid its
   sending, and in one more if it reads as sent: in two only after such a bounce.
   */
  lemma NoReplyIsMailedTwice(steps: seq<Step>, i: nat)
    ensures var end := Run(EMPTY, steps);
      Carrying(end.mails, i) == Undone(EMPTY, steps, i) + if IsSent(end, i) then 1 else 0
  {
    RunMailsExactly(EMPTY, steps, i, 0);
  }

  /** A reply written, mailed, bounced and mailed again. */
  const MAILED_TWICE: seq<Step> := [Write(AgentReply, 1), Build(0), Deliver, Bounce(0), Build(0), Deliver]

  lemma OnlyReplyIsUnread(t: Thread)
    requires |t.posts| == 1
    ensures UnreadReplies(t, 0) == {0}
  {}

  /** A ticket with that one reply, so delivered, and the mails that went. */
  function OneReply(delivery: Delivery, mails: seq<set<nat>>): State {
    State(Thread([Post(1, AgentReply, delivery)], None), None, mails)
  }

  lemma BuiltAndDelivered(delivery: Delivery, mails: seq<set<nat>>)
    requires !delivery.Sent?
    ensures Apply(Apply(OneReply(delivery, mails), Build(0)), Deliver) == OneReply(Sent, mails + [{0}])
  {
    OnlyReplyIsUnread(OneReply(delivery, mails).thread);
  }

  lemma MailedOnce(st: State)
    requires st == OneReply(NoMail, [])
    ensures Run(EMPTY, MAILED_TWICE) == Run(OneReply(Sent, [{0}]), MAILED_TWICE[3..])
  {
    assert Apply(EMPTY, Write(AgentReply, 1)) == st;
    BuiltAndDelivered(NoMail, []);
    assert [] + [{0}] == [{0}];
    assert MAILED_TWICE[0..] == MAILED_TWICE;
    RunsTo(EMPTY, MAILED_TWICE, 0, st);
    RunsTo(st, MAILED_TWICE, 1, Apply(st, Build(0)));
    RunsTo(Apply(st, Build(0)), MAILED_TWICE, 2, OneReply(Sent, [{0}]));
  }

  lemma MailedAgain(st: State)
    requires st == OneReply(Failed, [{0}])
    ensures Run(OneReply(Sent, [{0}]), MAILED_TWICE[3..]) == OneReply(Sent, [{0}] + [{0}])
  {
    var mailed, end := OneReply(Sent, [{0}]), OneReply(Sent, [{0}] + [{0}]);
    assert Apply(mailed, Bounce(0)) == st;
    BuiltAndDelivered(Failed, [{0}]);
    assert MAILED_TWICE[6..] == [];
    RunsTo(mailed, MAILED_TWICE, 3, st);
    RunsTo(st, MAILED_TWICE, 4, Apply(st, Build(0)));
    RunsTo(Apply(st, Build(0)), MAILED_TWICE, 5, end);
  }

  /** It is in two mails. */
  lemma ABouncedReplyIsMailedTwice()
    ensures Carrying(Run(EMPTY, MAILED_TWICE).mails, 0) == 2 && Undone(EMPTY, MAILED_TWICE, 0) == 1
  {
    MailedOnce(OneReply(NoMail, []));
    MailedAgain(OneReply(Failed, [{0}]));
    TwoMails();
    NoReplyIsMailedTwice(MAILED_TWICE, 0);
  }

  lemma TwoMails()
    ensures Carrying([{0}] + [{0}], 0) == 2
  {
    var one: seq<set<nat>> := [{0}];
    assert one[..0] == [] && Carrying([], 0) == 0;
    assert Carrying(one, 0) == 1;
    assert (one + one)[..1] == one && (one + one)[1] == {0};
  }

  /** One step of a list of them. */
  lemma RunsTo(st: State, steps: seq<Step>, k: nat, next: State)
    requires k < |steps| && Apply(st, steps[k]) == next
    ensures Run(st, steps[k..]) == Run(next, steps[k + 1..])
  {
    assert steps[k..][1..] == steps[k + 1..];
  }

  // A reply that stood down is taken care of, whatever happens next

  predicate ReadInWidget(t: Thread, i: nat)
    requires i < |t.posts|
  {
    t.lastRead.Some? && t.posts[i].createdAt <= t.lastRead.value
  }

  /** It was read, or mailed, or the reply it stood down for still carries it. */
  ghost predicate TakenCareOf(st: State, i: nat, n: nat) {
    && i < |st.thread.posts| && n < |st.thread.posts|
    && (ReadInWidget(st.thread, i) || Carrying(st.mails, i) > 0 || CarriedBy(st.thread, i, n))
  }

  lemma CarriedIsAfterMarks(t: Thread, i: nat, n: nat)
    requires i < |t.posts| && n < |t.posts|
    ensures CarriedBy(t, i, n) <==> IsNextReply(t, i, n) && t.posts[i].kind.AgentReply? && AfterMarks(t, n, i)
  {
    NewsIsAfterMarks(t, n, i);
  }

  /** Marks may only have been added from `n` on, or be gone. */
  predicate NoNewMark(t: Thread, t1: Thread, n: nat)
    requires n < |t.posts|
  {
    && |t.posts| <= |t1.posts| && t1.lastRead == t.lastRead
    && (forall k :: 0 <= k < |t.posts| ==>
          && t1.posts[k].createdAt == t.posts[k].createdAt
          && (t1.posts[k].kind.AgentReply? <==> t.posts[k].kind.AgentReply?))
    && (forall k :: |t.posts| <= k < |t1.posts| ==> t.posts[n].createdAt <= t1.posts[k].createdAt)
    && (forall k :: 0 <= k < |t.posts| && IsMark(t1.posts[k]) && t.posts[k].createdAt < t.posts[n].createdAt ==>
          IsMark(t.posts[k]))
  }

  lemma NoNewMarkKeepsCarried(t: Thread, t1: Thread, i: nat, n: nat)
    requires CarriedBy(t, i, n) && NoNewMark(t, t1, n)
    ensures CarriedBy(t1, i, n)
  {
    CarriedIsAfterMarks(t, i, n);
    CarriedIsAfterMarks(t1, i, n);
  }

  /** A mail that doesn't take `i` along marks nothing between `i` and its next reply. */
  lemma DeliveryMarksNothingBetween(t: Thread, carried: set<nat>, i: nat, n: nat, k: nat)
    requires IsNextReply(t, i, n) && AfterMarks(t, n, i) && i !in carried && Ordered(t.posts)
    requires k < |t.posts| && IsMark(Delivered(t.posts, carried)[k]) && t.posts[k].createdAt < t.posts[n].createdAt
    requires k in carried ==> t.posts[k].kind.AgentReply?
    ensures t.posts[k].createdAt < t.posts[i].createdAt
  {
    if k in carried {
      assert !(t.posts[i].createdAt < t.posts[k].createdAt);
      assert k < i || i < k;
    } else {
      assert IsMark(t.posts[k]);
    }
  }

  lemma DeliveryKeepsTimes(t: Thread, carried: set<nat>, i: nat, n: nat)
    requires IsNextReply(t, i, n)
    ensures IsNextReply(t.(posts := Delivered(t.posts, carried)), i, n)
  {}

  lemma DeliveryKeepsCarried(t: Thread, carried: set<nat>, i: nat, n: nat)
    requires Ordered(t.posts) && CarriedBy(t, i, n) && i !in carried
    requires forall k :: k in carried ==> IsReply(t.posts, k)
    ensures CarriedBy(t.(posts := Delivered(t.posts, carried)), i, n)
  {
    var t1 := t.(posts := Delivered(t.posts, carried));
    CarriedIsAfterMarks(t, i, n);
    CarriedIsAfterMarks(t1, i, n);
    DeliveryKeepsTimes(t, carried, i, n);
    forall k: nat | k < |t1.posts| && IsMark(t1.posts[k]) && t1.posts[k].createdAt < t1.posts[n].createdAt
      ensures t1.posts[k].createdAt < t1.posts[i].createdAt
    {
      DeliveryMarksNothingBetween(t, carried, i, n, k);
    }
  }

  lemma ReadingKeepsCare(t: Thread, i: nat, n: nat, at: Time)
    requires CarriedBy(t, i, n)
    ensures var t1 := t.(lastRead := Some(at)); ReadInWidget(t1, i) || CarriedBy(t1, i, n)
  {}

  lemma DeliveryTakesCare(st: State, i: nat, n: nat)
    requires Invariant(st) && TakenCareOf(st, i, n) && Enabled(st, Deliver)
    ensures TakenCareOf(Apply(st, Deliver), i, n)
  {
    assert Apply(st, Deliver).mails[..|st.mails|] == st.mails;
    if CarriedBy(st.thread, i, n) && i !in st.lock.value.carried {
      DeliveryKeepsCarried(st.thread, st.lock.value.carried, i, n);
    }
  }

  lemma StepTakesCare(st: State, step: Step, i: nat, n: nat)
    requires Invariant(st) && TakenCareOf(st, i, n)
    ensures TakenCareOf(Apply(st, step), i, n)
  {
    if Enabled(st, step) {
      if step.Deliver? {
        DeliveryTakesCare(st, i, n);
      } else if CarriedBy(st.thread, i, n) {
        if step.Read? {
          ReadingKeepsCare(st.thread, i, n, step.at);
        } else {
          NoNewMarkKeepsCarried(st.thread, Apply(st, step).thread, i, n);
        }
      }
    }
  }

  /**
   A reply that stood down for the next one is, at any later time, read in the widget,
   mailed, or still carried by that one's mail.
   */
  lemma {:induction false} StandingDownIsSafe(st: State, steps: seq<Step>, i: nat, n: nat)
    requires Invariant(st) && TakenCareOf(st, i, n)
    ensures TakenCareOf(Run(st, steps), i, n)
    decreases |steps|
  {
    if steps != [] {
      StepKeepsInvariant(st, steps[0]);
      StepTakesCare(st, steps[0], i, n);
      StandingDownIsSafe(Apply(st, steps[0]), steps[1..], i, n);
    }
  }
}
