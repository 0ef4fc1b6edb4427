/**
 What a call of `redeem`, alone, makes of the code it finds, and a new code of those
 before it, in the fields of the rows (backend/apps/organizations/models.py:574-646).
 */
module OtpFacts {
  import opened Rows
  import opened Otp

  /** Of that scope, not used, and no older than 600 seconds. */
  predicate IsUsable(c: MailedCode, scope: Scope, now: Time) {
    c.scope == scope && c.usedAt == None && c.createdAt >= now - 600
  }

  predicate IsNewest(codes: map<Id, MailedCode>, scope: Scope, now: Time, id: Id) {
    && id in codes && IsUsable(codes[id], scope, now)
    && forall o :: o in codes && IsUsable(codes[o], scope, now) ==> codes[o].createdAt <= codes[id].createdAt
  }

  lemma LatestIsNewest(codes: map<Id, MailedCode>, scope: Scope, now: Time, id: Id)
    ensures IsLatestActive(codes, scope, now, id) <==> IsNewest(codes, scope, now, id)
  {
    assert forall o :: o in codes ==> (Active(codes[o], scope, now) <==> IsUsable(codes[o], scope, now));
  }

  // What each update does

  predicate IsOn(st: State, call: Id, id: Id) {
    call in st.calls && st.calls[call].code == id && id in st.codes
  }

  /** An attempt is counted on a code not used yet that has one left, and else the call is over. */
  lemma CountDoes(st: State, call: Id, id: Id)
    requires IsOn(st, call, id)
    ensures var c := st.codes[id];
      Apply(st, Count(call))
      == if !st.calls[call].Picked? then st
         else if c.usedAt == None && c.attempts < 5 then
           st.(codes := st.codes[id := c.(attempts := c.attempts + 1)],
               calls := st.calls[call := Counted(id, st.calls[call].typed)])
         else st.(calls := st.calls - {call})
  {}

  /** Once counted, the texts are compared. */
  lemma CompareDoes(st: State, call: Id, id: Id)
    requires IsOn(st, call, id)
    ensures Apply(st, Compare(call))
         == if !st.calls[call].Counted? then st
            else st.(compared := st.compared[id := (if id in st.compared then st.compared[id] else 0) + 1],
                     calls := st.calls[call := if st.codes[id].text == st.calls[call].typed then Right(id) else Wrong(id)])
  {}

  /** The right text uses the code, if nobody used it meanwhile, and only then. */
  lemma ConsumeDoes(st: State, call: Id, id: Id, now: Time)
    requires IsOn(st, call, id)
    ensures Apply(st, Consume(call, now))
         == if !st.calls[call].Right? then st
            else if st.codes[id].usedAt == None then
              st.(codes := st.codes[id := st.codes[id].(usedAt := Some(now))], calls := st.calls - {call},
                  redeemed := st.redeemed[id := (if id in st.redeemed then st.redeemed[id] else 0) + 1])
            else st.(calls := st.calls - {call})
  {}

  /** A wrong one uses it up with its fifth attempt. */
  lemma CloseDoes(st: State, call: Id, id: Id, now: Time)
    requires IsOn(st, call, id)
    ensures Apply(st, Close(call, now))
         == if !st.calls[call].Wrong? then st
            else if st.codes[id].usedAt == None && st.codes[id].attempts >= 5 then
              st.(codes := st.codes[id := st.codes[id].(usedAt := Some(now))], calls := st.calls - {call})
            else st.(calls := st.calls - {call})
  {
    assert st.codes[id := st.codes[id]] == st.codes;
  }

  /** A code not used yet is cancelled with the others of its scope. */
  lemma CancelDoes(st: State, scope: Scope, now: Time, id: Id)
    requires id in st.codes
    ensures var c, after := st.codes[id], Apply(st, Cancel(scope, now));
      && id in after.codes
      && if c.scope == scope && c.usedAt == None then
           after.codes[id] == c.(usedAt := Some(now)) && id in after.cancelled
         else after.codes[id] == c && (id in after.cancelled <==> id in st.cancelled)
  {}

  // A call

  /**
   Five submissions are compared, each counted first: the right text uses the code up,
   and so does the fifth.
   */
  function Tried(c: MailedCode, typed: string, now: Time): MailedCode {
    if c.attempts >= 5 then c
    else if c.text == typed || c.attempts == 4 then c.(attempts := c.attempts + 1, usedAt := Some(now))
    else c.(attempts := c.attempts + 1)
  }

  lemma CountingAlone(st: State, call: Id, scope: Scope, typed: string, id: Id, now: Time)
    requires call !in st.calls && IsLatestActive(st.codes, scope, now, id)
    ensures var c, counted := st.codes[id], Run(st, UpToCount(call, scope, typed, id, now, []));
      if c.attempts < 5 then
        counted == st.(codes := st.codes[id := c.(attempts := c.attempts + 1)], calls := st.calls[call := Counted(id, typed)])
      else counted == st
  {
    var pick, count := Pick(call, scope, typed, id, now), Count(call);
    assert UpToCount(call, scope, typed, id, now, []) == [pick] + [count];
    RunTwice(st, [pick], [count]);
    RunOne(st, pick);
    var picked := Apply(st, pick);
    RunOne(picked, count);
    assert picked.calls[call := Counted(id, typed)] == st.calls[call := Counted(id, typed)];
    assert picked.calls - {call} == st.calls;
  }

  lemma ComparingAlone(st: State, call: Id, typed: string, id: Id, now: Time)
    requires id in st.codes && call in st.calls && st.calls[call] == Counted(id, typed)
    requires st.codes[id].usedAt.None? && 0 < st.codes[id].attempts <= 5
    ensures var last := if st.codes[id].text == typed then Consume(call, now) else Close(call, now);
      Run(st, [Compare(call)] + [last]).codes
      == st.codes[id := if st.codes[id].text == typed || st.codes[id].attempts == 5
                        then st.codes[id].(usedAt := Some(now)) else st.codes[id]]
  {
    var last := if st.codes[id].text == typed then Consume(call, now) else Close(call, now);
    RunTwice(st, [Compare(call)], [last]);
    RunOne(st, Compare(call));
    RunOne(Apply(st, Compare(call)), last);
  }

  /** With nobody else at work, the steps of a whole call are its own alone. */
  lemma WholeCallAlone(
    st: State, call: Id, scope: Scope, typed: string, id: Id, now: Time, trace: seq<Step>, won: Option<Id>)
    requires WholeCall(st, call, scope, typed, id, now, [[], [], []], trace, won)
    ensures var counting := UpToCount(call, scope, typed, id, now, []);
      if call !in Run(st, counting).calls then trace == counting && won == None
      else if st.codes[id].text != typed then trace == counting + ([Compare(call)] + [Close(call, now)]) && won == None
      else
        && trace == counting + ([Compare(call)] + [Consume(call, now)])
        && var codes := Run(st, counting + [Compare(call)]).codes;
           id in codes && won == if codes[id].usedAt.None? then Some(id) else None
  {
    var counting := UpToCount(call, scope, typed, id, now, []);
    assert counting + [] + [Compare(call)] + [] == counting + [Compare(call)];
    assert counting + [Compare(call)] + [Close(call, now)] == counting + ([Compare(call)] + [Close(call, now)]);
    assert counting + [Compare(call)] + [Consume(call, now)] == counting + ([Compare(call)] + [Consume(call, now)]);
  }

  lemma ComparedThere(st: State, call: Id, counting: seq<Step>)
    ensures Run(st, counting + [Compare(call)]).codes == Run(st, counting).codes
  {
    RunTwice(st, counting, [Compare(call)]);
    RunOne(Run(st, counting), Compare(call));
  }

  /** After the attempt is counted: the code as compared, used if the text is right or it was the fifth. */
  lemma ComparedAfterCount(st: State, counted: State, call: Id, typed: string, id: Id, now: Time, last: Step)
    requires id in st.codes && st.codes[id].attempts < 5 && st.codes[id].usedAt.None?
    requires counted == st.(codes := st.codes[id := st.codes[id].(attempts := st.codes[id].attempts + 1)],
                            calls := st.calls[call := Counted(id, typed)])
    requires last == if st.codes[id].text == typed then Consume(call, now) else Close(call, now)
    ensures Run(counted, [Compare(call)] + [last]).codes == st.codes[id := Tried(st.codes[id], typed, now)]
  {
    ComparingAlone(counted, call, typed, id, now);
  }

  /** Alone, a call tries its scope's newest usable code, wins it exactly with its text, and touches no other. */
  lemma CallAlone(
    st: State, call: Id, scope: Scope, typed: string, id: Id, now: Time, trace: seq<Step>, won: Option<Id>)
    requires call !in st.calls && IsNewest(st.codes, scope, now, id)
    requires WholeCall(st, call, scope, typed, id, now, [[], [], []], trace, won)
    ensures Run(st, trace).codes == st.codes[id := Tried(st.codes[id], typed, now)]
    ensures won == if st.codes[id].attempts < 5 && st.codes[id].text == typed then Some(id) else None
  {
    LatestIsNewest(st.codes, scope, now, id);
    WholeCallAlone(st, call, scope, typed, id, now, trace, won);
    CountingAlone(st, call, scope, typed, id, now);
    var counting := UpToCount(call, scope, typed, id, now, []);
    var last := if st.codes[id].text == typed then Consume(call, now) else Close(call, now);
    if st.codes[id].attempts < 5 {
      RunTwice(st, counting, [Compare(call)] + [last]);
      ComparedAfterCount(st, Run(st, counting), call, typed, id, now, last);
      ComparedThere(st, call, counting);
    }
  }

  /** A new code: those of its scope not used yet are from then on, and it is its scope's only one, for 600 seconds. */
  lemma NewCodeReplaces(st: State, code: Id, scope: Scope, text: string, now: Time, later: Time)
    requires code !in st.codes
    ensures var codes := Run(st, [Cancel(scope, now)] + [Create(code, scope, text, now)]).codes;
      && codes.Keys == st.codes.Keys + {code}
      && codes[code] == MailedCode(scope, text, now, 0, None)
      && (forall o :: o in st.codes ==>
            codes[o] == if st.codes[o].scope == scope && st.codes[o].usedAt == None
                        then st.codes[o].(usedAt := Some(now)) else st.codes[o])
      && (forall id :: IsNewest(codes, scope, later, id) <==> id == code && later <= now + 600)
  {
    var cancel, create := Cancel(scope, now), Create(code, scope, text, now);
    RunTwice(st, [cancel], [create]);
    RunOne(st, cancel);
    RunOne(Apply(st, cancel), create);
    var codes := Run(st, [cancel] + [create]).codes;
    assert forall o :: o in codes && IsUsable(codes[o], scope, later) ==> o == code;
  }
}
