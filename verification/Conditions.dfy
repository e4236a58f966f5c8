/** The status conditions of every managed resource: Ready, Reconciling and Stalled. */
module Conditions {
  import opened Basics

  datatype Truth = True | False | Unknown

  /** The condition types the operator writes, and any other. */
  datatype Kind = Ready | Reconciling | Stalled | Foreign(name: string)

  /** `since` is the last transition time; 0 is the zero time. */
  datatype Condition = Condition(kind: Kind, status: Truth, generation: int, since: nat, reason: Reason, message: Message)

  /** The fixed messages of the two derived conditions, and the message of a call. */
  datatype Message = Text(text: string) | Completed | Blocked | Waiting | MayContinue

  /** One call of `setCondition`, made at time `now`. */
  datatype Call = Call(generation: int, status: Truth, reason: Reason, message: Message, now: nat)
  {
    predicate Stalls() {
      status != True && reason.Stalls()
    }

    /** The status, reason and message the call reports under each condition type. */
    function Report(kind: Kind): (Truth, Reason, Message) {
      match kind
      case Ready => (status, reason, message)
      case Reconciling =>
        if status == True then (False, ReconciliationSucceeded, Completed)
        else if Stalls() then (False, BlockedByStall, Blocked)
        else (True, Progressing, Waiting)
      case _ =>
        if Stalls() then (True, reason, message)
        else (False, NotStalled, MayContinue)
    }

    predicate SameReport(other: Call) {
      generation == other.generation && status == other.status && reason == other.reason && message == other.message
    }

    function Fresh(kind: Kind, since: nat): Condition {
      Condition(kind, Report(kind).0, generation, since, Report(kind).1, Report(kind).2)
    }
  }

  /** One entry after a call: unchanged when it already says the same, and keeping its
      transition time when only the reason, the message or the generation moved. */
  function Updated(c: Condition, call: Call): Condition {
    if c == call.Fresh(c.kind, c.since) then c
    else call.Fresh(c.kind, if c.status == call.Report(c.kind).0 && c.since != 0 then c.since else call.now)
  }

  function Put(items: seq<Condition>, kind: Kind, call: Call): seq<Condition> {
    if items == [] then [call.Fresh(kind, call.now)]
    else if items[0].kind == kind then [Updated(items[0], call)] + items[1..]
    else [items[0]] + Put(items[1..], kind, call)
  }

  function After(items: seq<Condition>, call: Call): seq<Condition> {
    Put(Put(Put(items, Ready, call), Reconciling, call), Stalled, call)
  }

  /** The list after a sequence of calls, starting from no conditions. */
  function Run(calls: seq<Call>): seq<Condition> {
    if calls == [] then [] else After(Run(calls[..|calls| - 1]), calls[|calls| - 1])
  }

  lemma {:induction false} PutExisting(items: seq<Condition>, kind: Kind, call: Call, i: nat)
    requires i < |items| && items[i].kind == kind && forall k :: 0 <= k < i ==> items[k].kind != kind
    ensures Put(items, kind, call) == items[i := Updated(items[i], call)]
  {
    if i > 0 {
      PutExisting(items[1..], kind, call, i - 1);
    }
  }

  lemma {:induction false} PutNew(items: seq<Condition>, kind: Kind, call: Call)
    requires forall k :: 0 <= k < |items| ==> items[k].kind != kind
    ensures Put(items, kind, call) == items + [call.Fresh(kind, call.now)]
  {
    if items != [] {
      PutNew(items[1..], kind, call);
      assert items == [items[0]] + items[1..];
    }
  }

  /** The conditions slice of one resource, edited in place. */
  class ConditionList {
    var items: seq<Condition>

    constructor ()
      ensures items == Run([])
    {
      items := [];
    }

    /** `setSingleCondition`. */
    method SetSingle(kind: Kind, generation: int, status: Truth, reason: Reason, message: Message, now: nat, ghost call: Call)
      requires call.generation == generation && call.now == now && call.Report(kind) == (status, reason, message)
      modifies this
      ensures items == Put(old(items), kind, call)
    {
      for i := 0 to |items|
        invariant items == old(items)
        invariant forall k :: 0 <= k < i ==> items[k].kind != kind
      {
        var condition := items[i];
        if condition.kind != kind {
          continue;
        }
        PutExisting(items, kind, call, i);
        if condition.status == status && condition.reason == reason && condition.message == message && condition.generation == generation {
          assert items[i := items[i]] == items;
          return;
        }
        var transition := now;
        if condition.status == status && condition.since != 0 {
          transition := condition.since;
        }
        items := items[i := Condition(kind, status, generation, transition, reason, message)];
        return;
      }
      PutNew(items, kind, call);
      items := items + [Condition(kind, status, generation, now, reason, message)];
    }

    /** `setCondition`. */
    method Set(generation: int, status: Truth, reason: Reason, message: Message, now: nat)
      modifies this
      ensures items == After(old(items), Call(generation, status, reason, message, now))
    {
      ghost var call := Call(generation, status, reason, message, now);
      SetSingle(Ready, generation, status, reason, message, now, call);
      if status == True {
        SetSingle(Reconciling, generation, False, ReconciliationSucceeded, Completed, now, call);
        SetSingle(Stalled, generation, False, NotStalled, MayContinue, now, call);
        return;
      }
      if reason.Stalls() {
        SetSingle(Reconciling, generation, False, BlockedByStall, Blocked, now, call);
        SetSingle(Stalled, generation, True, reason, message, now, call);
        return;
      }
      SetSingle(Reconciling, generation, True, Progressing, Waiting, now, call);
      SetSingle(Stalled, generation, False, NotStalled, MayContinue, now, call);
    }
  }

  /** `conditionReady`. */
  method ConditionReady(items: seq<Condition>) returns (ready: bool)
    ensures ready <==> exists i :: 0 <= i < |items| && items[i].kind == Ready && items[i].status == True
  {
    for i := 0 to |items|
      invariant forall k :: 0 <= k < i ==> !(items[k].kind == Ready && items[k].status == True)
    {
      if items[i].kind == Ready && items[i].status == True {
        return true;
      }
    }
    ready := false;
  }

  /** The last call of a history that changed the status reported under a type. */
  function LastChange(calls: seq<Call>, kind: Kind): (k: nat)
    requires calls != []
    ensures k < |calls|
    ensures forall j :: k <= j < |calls| ==> calls[j].Report(kind).0 == calls[|calls| - 1].Report(kind).0
    ensures k > 0 ==> calls[k - 1].Report(kind).0 != calls[k].Report(kind).0
  {
    var n := |calls| - 1;
    if n == 0 || calls[n].Report(kind).0 != calls[n - 1].Report(kind).0 then n
    else LastChange(calls[..n], kind)
  }

  /** The entry a history leaves under a type: the latest report, dated by its last change. */
  function Entry(calls: seq<Call>, kind: Kind): Condition
    requires calls != []
  {
    calls[|calls| - 1].Fresh(kind, calls[LastChange(calls, kind)].now)
  }

  predicate Clocked(calls: seq<Call>) {
    calls != [] && forall i :: 0 <= i < |calls| ==> calls[i].now > 0
  }

  lemma {:induction false} EntryStep(calls: seq<Call>, kind: Kind)
    requires Clocked(calls) && |calls| > 1
    ensures Updated(Entry(calls[..|calls| - 1], kind), calls[|calls| - 1]) == Entry(calls, kind)
  {
    var n := |calls| - 1;
    var before := calls[..n];
    assert before[|before| - 1] == calls[n - 1];
    assert before[LastChange(before, kind)] == calls[LastChange(before, kind)];
  }

  lemma {:induction false} AfterThree(items: seq<Condition>, call: Call)
    requires |items| == 3 && items[0].kind == Ready && items[1].kind == Reconciling && items[2].kind == Stalled
    ensures After(items, call) == [Updated(items[0], call), Updated(items[1], call), Updated(items[2], call)]
  {
    PutExisting(items, Ready, call, 0);
    var one := items[0 := Updated(items[0], call)];
    PutExisting(one, Reconciling, call, 1);
    var two := one[1 := Updated(one[1], call)];
    PutExisting(two, Stalled, call, 2);
  }

  lemma {:induction false} AfterNone(call: Call)
    ensures After([], call) == [call.Fresh(Ready, call.now), call.Fresh(Reconciling, call.now), call.Fresh(Stalled, call.now)]
  {
    PutNew([], Ready, call);
    PutNew([call.Fresh(Ready, call.now)], Reconciling, call);
    PutNew([call.Fresh(Ready, call.now), call.Fresh(Reconciling, call.now)], Stalled, call);
  }

  /** After any non-empty history there are exactly three conditions, one per type; each
      repeats the latest call and dates from the call that last changed its status. */
  lemma {:induction false} Shape(calls: seq<Call>)
    requires Clocked(calls)
    ensures Run(calls) == [Entry(calls, Ready), Entry(calls, Reconciling), Entry(calls, Stalled)]
  {
    var n := |calls| - 1;
    if n == 0 {
      assert Run(calls) == After([], calls[0]);
      AfterNone(calls[0]);
    } else {
      Shape(calls[..n]);
      AfterThree(Run(calls[..n]), calls[n]);
      EntryStep(calls, Ready);
      EntryStep(calls, Reconciling);
      EntryStep(calls, Stalled);
    }
  }

  function TrueCount(items: seq<Condition>): nat {
    if items == [] then 0 else TrueCount(items[1..]) + if items[0].status == True then 1 else 0
  }

  lemma {:induction false} ThreeCount(a: Condition, b: Condition, c: Condition)
    ensures TrueCount([a, b, c]) == TrueCount([a]) + TrueCount([b]) + TrueCount([c])
  {
    assert [a, b, c][1..] == [b, c] && [b, c][1..] == [c];
  }

  /** Exactly one of the three is True, and Ready is the one exactly after a True call. */
  lemma {:induction false} ExactlyOneTrue(calls: seq<Call>)
    requires Clocked(calls)
    ensures |Run(calls)| == 3 && TrueCount(Run(calls)) == 1
    ensures Run(calls)[0].status == True <==> calls[|calls| - 1].status == True
  {
    Shape(calls);
    ThreeCount(Entry(calls, Ready), Entry(calls, Reconciling), Entry(calls, Stalled));
  }

  lemma {:induction false} UpdateChanges(last: Call, call: Call, kind: Kind, since: nat)
    ensures call.SameReport(last) ==> Updated(last.Fresh(kind, since), call) == last.Fresh(kind, since)
    ensures Updated(last.Fresh(Ready, since), call) == last.Fresh(Ready, since) ==> call.SameReport(last)
  {
  }

  /** A further call changes the list exactly when its report differs from the latest one, so
      repeating a call changes nothing and the Ready entry alone decides whether anything
      changes. */
  lemma {:induction false} ChangesExactlyOnNewReport(calls: seq<Call>, call: Call)
    requires Clocked(calls)
    ensures |After(Run(calls), call)| == |Run(calls)| == 3
    ensures After(Run(calls), call) == Run(calls) <==> call.SameReport(calls[|calls| - 1])
    ensures After(Run(calls), call)[0] == Run(calls)[0] <==> call.SameReport(calls[|calls| - 1])
  {
    Shape(calls);
    AfterThree(Run(calls), call);
    var last := calls[|calls| - 1];
    UpdateChanges(last, call, Ready, Entry(calls, Ready).since);
    UpdateChanges(last, call, Reconciling, Entry(calls, Reconciling).since);
    UpdateChanges(last, call, Stalled, Entry(calls, Stalled).since);
  }
}
