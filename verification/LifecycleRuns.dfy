/** Whole histories of one object: any number of reconciles, each failing or crashing anywhere,
    interleaved with edits by users. Every statement holds for each kind of resource, because
    each kind's reconcile is proved to be a `Step`. */
module LifecycleRuns {
  import opened Basics
  import opened Lifecycle

  datatype Event = Turned(act: Act) | Edited

  ghost predicate Linked<S, X>(needsParent: bool, o: Object<S, X>, e: Event, p: Object<S, X>) {
    match e
    case Turned(act) => Step(needsParent, o, act, p)
    case Edited => Edit(o, p)
  }

  ghost predicate Run<S, X>(needsParent: bool, os: seq<Object<S, X>>, es: seq<Event>) {
    |os| == |es| + 1 && forall i :: 0 <= i < |es| ==> Linked(needsParent, os[i], es[i], os[i + 1])
  }

  /** An object as users create it. */
  predicate Untouched<S, X>(o: Object<S, X>) {
    !o.meta.gone && !o.meta.finalizer && o.status.id == "" && o.status.observed == 0 && o.status.ready.None?
  }

  /** The stored ID moves only from empty to x, in a reconcile that stores Ready=True, and from
      x to empty, in a reconcile that found the entity missing and stores Ready=False. */
  lemma {:induction false} IdMoves<S, X>(needsParent: bool, o: Object<S, X>, e: Event, p: Object<S, X>)
    requires Linked(needsParent, o, e, p) && p.status.id != o.status.id
    ensures e.Turned? && p.status.ready.Some?
    ensures o.status.id == "" ==> e.act.outcome.Ready? && p.status.ready.value.ok
    ensures o.status.id != "" ==> p.status.id == "" && e.act.outcome.Missing? && !p.status.ready.value.ok
  {
  }

  /** Over any run, two different stored IDs are separated by a state that stores none. */
  lemma {:induction false} NeverJumps<S, X>(needsParent: bool, os: seq<Object<S, X>>, es: seq<Event>, i: nat, j: nat)
    requires Run(needsParent, os, es) && i < j < |os|
    requires os[i].status.id != "" && os[j].status.id != "" && os[i].status.id != os[j].status.id
    ensures exists k :: i < k < j && os[k].status.id == ""
    decreases j - i
  {
    assert Linked(needsParent, os[i], es[i], os[i + 1]);
    if os[i + 1].status.id != "" {
      NeverJumps(needsParent, os, es, i + 1, j);
      var k :| i + 1 < k < j && os[k].status.id == "";
    } else {
      assert i + 1 < j;
    }
  }

  predicate Creates(e: Event) {
    e.Turned? && e.act.created.Some?
  }

  /** The event took the stored ID from empty to a value. */
  predicate Acquires<S, X>(o: Object<S, X>, p: Object<S, X>) {
    o.status.id == "" && p.status.id != ""
  }

  function Count(flags: seq<bool>): nat {
    if flags == [] then 0 else Count(flags[..|flags| - 1]) + if flags[|flags| - 1] then 1 else 0
  }

  function Creations(es: seq<Event>): seq<bool> {
    seq(|es|, i requires 0 <= i < |es| => Creates(es[i]))
  }

  /** Creations whose ID the same reconcile stored, with Ready=True. */
  function Stored<S, X>(os: seq<Object<S, X>>, es: seq<Event>): seq<bool>
    requires |os| == |es| + 1
  {
    seq(|es|, i requires 0 <= i < |es| => Creates(es[i]) && os[i + 1].status.id == es[i].act.created.value)
  }

  /** Creations after which the reconcile did not store Ready=True. */
  function Leaked<S, X>(os: seq<Object<S, X>>, es: seq<Event>): seq<bool>
    requires |os| == |es| + 1
  {
    seq(|es|, i requires 0 <= i < |es| => Creates(es[i]) && os[i + 1].status.id == "")
  }

  /** Acquisitions of an ID that the same reconcile created. */
  function Acquisitions<S, X>(os: seq<Object<S, X>>, es: seq<Event>): seq<bool>
    requires |os| == |es| + 1
  {
    seq(|es|, i requires 0 <= i < |es| => Acquires(os[i], os[i + 1]) && Creates(es[i]))
  }

  lemma {:induction false} CountSplits(a: seq<bool>, b: seq<bool>, c: seq<bool>)
    requires |a| == |b| == |c|
    requires forall i :: 0 <= i < |a| ==> (a[i] <==> b[i] || c[i]) && !(b[i] && c[i])
    ensures Count(a) == Count(b) + Count(c)
  {
    if a != [] {
      var n := |a| - 1;
      CountSplits(a[..n], b[..n], c[..n]);
    }
  }

  /** Every entity created is accounted for: it was acquired as the stored ID, or it leaked
      because the reconcile that created it did not get to store Ready=True. */
  lemma {:induction false} CreationsAccountedFor<S, X>(needsParent: bool, os: seq<Object<S, X>>, es: seq<Event>)
    requires Run(needsParent, os, es)
    ensures Acquisitions(os, es) == Stored(os, es)
    ensures Count(Creations(es)) == Count(Acquisitions(os, es)) + Count(Leaked(os, es))
  {
    forall i | 0 <= i < |es| && Creates(es[i])
      ensures os[i].status.id == "" && es[i].act.created.value != ""
      ensures os[i + 1].status.id in {"", es[i].act.created.value}
    {
      assert Linked(needsParent, os[i], es[i], os[i + 1]);
    }
    assert Acquisitions(os, es) == Stored(os, es);
    CountSplits(Creations(es), Acquisitions(os, es), Leaked(os, es));
  }

  function ReadyGeneration<X>(s: Status<X>): nat {
    if s.ready.None? then 0 else s.ready.value.generation
  }

  /** The two generations a status carries, against the object's own. */
  predicate Booked<S, X>(o: Object<S, X>) {
    && o.status.observed <= ReadyGeneration(o.status) <= o.meta.generation
    && (o.status.ready.Some? && o.status.ready.value.ok ==> o.status.observed == o.status.ready.value.generation)
  }

  /** A history in which every change is a reconcile of any kind, or an edit. */
  ghost predicate TimelyRun<S, X>(os: seq<Object<S, X>>) {
    os != [] && forall i :: 0 <= i < |os| - 1 ==> TimelyOrEdit(os[i], os[i + 1])
  }

  ghost predicate TimelyOrEdit<S, X>(o: Object<S, X>, p: Object<S, X>) {
    Timely(o, p) || Edit(o, p)
  }

  lemma {:induction false} RunIsTimely<S, X>(needsParent: bool, os: seq<Object<S, X>>, es: seq<Event>)
    requires Run(needsParent, os, es)
    ensures TimelyRun(os)
  {
    forall i | 0 <= i < |os| - 1 ensures TimelyOrEdit(os[i], os[i + 1]) {
      assert Linked(needsParent, os[i], es[i], os[i + 1]);
    }
  }

  /** Over any run the observed generation never decreases and stays within the Ready
      condition's generation, which stays within the object's; Ready=True makes the first two
      equal. */
  lemma {:induction false} GenerationsBooked<S, X>(os: seq<Object<S, X>>, i: nat, j: nat)
    requires TimelyRun(os) && Untouched(os[0]) && i <= j < |os|
    ensures Booked(os[j]) && os[i].status.observed <= os[j].status.observed
    decreases j
  {
    if j > 0 {
      GenerationsBooked(os, if i < j then i else j - 1, j - 1);
      assert TimelyOrEdit(os[j - 1], os[j]);
    }
  }

  /** A stored ID is protected: the finalizer is there, and so is what the delete call needs. */
  predicate Protected<S, X>(needsParent: bool, o: Object<S, X>) {
    o.status.id != "" && !o.meta.gone ==> o.meta.finalizer && (needsParent ==> o.status.parent != "")
  }

  lemma {:induction false} ProtectedThroughout<S, X>(needsParent: bool, os: seq<Object<S, X>>, es: seq<Event>, j: nat)
    requires Run(needsParent, os, es) && Untouched(os[0]) && j < |os|
    requires forall k :: 0 <= k < |os| ==> os[k].deletion == Delete
    ensures Protected(needsParent, os[j])
  {
    if j > 0 {
      ProtectedThroughout(needsParent, os, es, j - 1);
      assert Linked(needsParent, os[j - 1], es[j - 1], os[j]);
      assert os[j - 1].deletion == Delete;
    }
  }

  /** With policy Delete throughout, the object disappears only when it stored no ID, or in the
      reconcile whose delete of exactly the stored ID the server confirmed (done, or 404). */
  lemma {:induction false} GoneOnlyAfterRemoteDelete<S, X>(needsParent: bool, os: seq<Object<S, X>>, es: seq<Event>, j: nat)
    requires Run(needsParent, os, es) && Untouched(os[0]) && j + 1 < |os|
    requires forall k :: 0 <= k < |os| ==> os[k].deletion == Delete
    requires !os[j].meta.gone && os[j + 1].meta.gone
    ensures os[j].status.id != "" ==> es[j].Turned? && es[j].act.sent == Some(os[j].status.id) && es[j].act.confirmed
  {
    ProtectedThroughout(needsParent, os, es, j);
    assert Linked(needsParent, os[j], es[j], os[j + 1]);
    assert os[j].deletion == Delete;
  }

  /** Without policy Delete no delete call is ever sent, and with it only for the stored ID. */
  lemma {:induction false} DeletesOnlyWhatIsStored<S, X>(needsParent: bool, os: seq<Object<S, X>>, es: seq<Event>, j: nat)
    requires Run(needsParent, os, es) && j < |es| && es[j].Turned? && es[j].act.sent.Some?
    ensures os[j].deletion == Delete && os[j].meta.deleting
    ensures es[j].act.sent.value == os[j].status.id != ""
  {
    assert Linked(needsParent, os[j], es[j], os[j + 1]);
  }
}
