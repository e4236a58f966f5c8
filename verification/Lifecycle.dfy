/** What the project, environment, identity and organization reconcilers share: the Kubernetes
    object, the finalizer gate, the three ways a reconcile writes status, and the relation
    between the object before and after one reconcile. */
module Lifecycle {
  import opened Basics

  datatype CreationPolicy = Unset | Create | Adopt | CreateOrAdopt {
    predicate CanAdopt() {
      Adopt? || CreateOrAdopt?
    }

    predicate CanCreate() {
      Unset? || Create? || CreateOrAdopt?
    }
  }

  /** An unset deletion policy means Orphan. */
  datatype DeletionPolicy = Unspecified | Orphan | Delete

  datatype Meta = Meta(generation: nat, finalizer: bool, deleting: bool, gone: bool)

  /** The Ready condition; it decides the other two conditions. */
  datatype Verdict = Verdict(ok: bool, reason: Reason, generation: nat)

  /** The observed external ID, the ID of the entity that owns it, and what else a kind keeps. */
  datatype Status<X> = Status(id: Id, parent: Id, observed: nat, ready: Option<Verdict>, rest: X)

  datatype Object<S, X> = Object(meta: Meta, creation: CreationPolicy, deletion: DeletionPolicy, spec: S, status: Status<X>)

  datatype Outcome = Idle | Finalizing | Releasing | Reported | Missing | Ready

  /** What one reconcile did outside the object: the entity it created, the ID it sent a delete
      for and whether the server confirmed it gone, and whether it sent any write at all. */
  datatype Act = Act(outcome: Outcome, created: Option<Id>, sent: Option<Id>, confirmed: bool, writes: bool)

  datatype Turn<S, X, R> = Turn(obj: Object<S, X>, remote: R, act: Act)

  /** What a reconcile holds between two calls: the in-memory status, the remote store, the
      entity created so far, whether anything was written, and the error that ends it. */
  datatype Progress<X, R> = Progress(status: Status<X>, remote: R, created: Option<Id>, wrote: bool, error: Option<Reason>)

  /** Nothing is lost of a status without lists when it is stored. */
  function Same<X>(rest: X): X {
    rest
  }

  /** What storing leaves of the rest of a status is for `omit` to say. */
  function MergePatch<X(==)>(omit: X -> X, before: Status<X>, after: Status<X>, stored: Status<X>): Status<X> {
    Status(Pick(before.id, after.id, stored.id), Pick(before.parent, after.parent, stored.parent),
           Pick(before.observed, after.observed, stored.observed), Pick(before.ready, after.ready, stored.ready),
           if before.rest == after.rest then stored.rest else omit(after.rest))
  }

  /** `persistStatus`: the stored status after the patch between two in-memory copies. */
  function Persist<S, X(==)>(omit: X -> X, o: Object<S, X>, before: Status<X>, after: Status<X>, patch: Reply): Object<S, X> {
    if patch.Reached() then o.(status := MergePatch(omit, before, after, o.status)) else o
  }

  function Judged<S, X>(o: Object<S, X>, m: Status<X>, ok: bool, reason: Reason): Status<X> {
    m.(ready := Some(Verdict(ok, reason, o.meta.generation)))
  }

  /** The error helpers: the patch starts from a copy of the status as it is in memory. */
  function Report<S, X(==), R>(omit: X -> X, o: Object<S, X>, g: Progress<X, R>, reason: Reason, patch: Reply): Turn<S, X, R> {
    var after := Judged(o, g.status.(observed := o.meta.generation), false, reason);
    Turn(Persist(omit, o, g.status, after, patch), g.remote, Act(Reported, g.created, None, false, g.wrote || after != g.status))
  }

  /** The remote entity is missing: the ID and what hangs on it are cleared. */
  function Forget<S, X(==), R>(omit: X -> X, o: Object<S, X>, g: Progress<X, R>, parent: Id, rest: X, reason: Reason, patch: Reply): Turn<S, X, R> {
    var after := Judged(o, Status("", parent, o.meta.generation, g.status.ready, rest), false, reason);
    Turn(Persist(omit, o, g.status, after, patch), g.remote, Act(Missing, g.created, None, false, g.wrote || after != g.status))
  }

  /** Success: the patch starts from the status as it was read. */
  function Succeed<S, X(==), R>(omit: X -> X, o: Object<S, X>, g: Progress<X, R>, patch: Reply): Turn<S, X, R> {
    var after := Judged(o, g.status, true, Reconciled);
    Turn(Persist(omit, o, o.status, after, patch), g.remote, Act(Ready, g.created, None, false, g.wrote || after != o.status))
  }

  predicate NeedsFinalizer<S, X>(o: Object<S, X>) {
    !o.meta.deleting && o.deletion == Delete && !o.meta.finalizer
  }

  function Start<S, X, R>(o: Object<S, X>, r: R): Progress<X, R> {
    Progress(o.status, r, None, false, None)
  }

  function Skip<S, X, R>(o: Object<S, X>, r: R): Turn<S, X, R> {
    Turn(o, r, Act(Idle, None, None, false, false))
  }

  function AddFinalizer<S, X, R>(o: Object<S, X>, r: R, update: Reply): Turn<S, X, R> {
    Turn(o.(meta := o.meta.(finalizer := update.Reached())), r, Act(Finalizing, None, None, false, true))
  }

  /** `removeFinalizer`: with it gone, Kubernetes lets the object go. */
  function Release<S, X, R>(o: Object<S, X>, r: R, sent: Option<Id>, update: Reply): Turn<S, X, R> {
    var obj := if o.meta.finalizer && update.Reached() then o.(meta := o.meta.(finalizer := false, gone := true)) else o;
    Turn(obj, r, Act(Releasing, None, sent, sent.Some?, sent.Some? || o.meta.finalizer))
  }

  /** Deletion of a resource that holds an ID: delete it remotely, then let the object go. */
  function DeleteRemote<S, X, R>(o: Object<S, X>, r: R, removed: R, delete: Reply, update: Reply): Turn<S, X, R> {
    var r' := if delete.Reached() then removed else r;
    if delete.Failed? then Turn(o, r', Act(Releasing, None, Some(o.status.id), false, true))
    else Release(o, r', Some(o.status.id), update)
  }

  /** The contract of one reconcile on its own object. `needsParent` says whether the delete
      call needs the ID of the owning entity. */
  ghost predicate Step<S, X>(needsParent: bool, o: Object<S, X>, act: Act, p: Object<S, X>) {
    && p.spec == o.spec && p.creation == o.creation && p.deletion == o.deletion
    && p.meta.generation == o.meta.generation && p.meta.deleting == o.meta.deleting
    && (act.created.Some? ==> o.status.id == "" && act.created.value != "" && act.outcome in {Reported, Missing, Ready})
    && (act.sent.Some? ==> act.outcome == Releasing)
    && match act.outcome
      case Idle => p == o && o.meta.gone
      case Finalizing => NeedsFinalizer(o) && p == o.(meta := o.meta.(finalizer := p.meta.finalizer))
      case Releasing =>
        && o.meta.deleting && p.status == o.status
        && (act.sent.Some? ==> o.deletion == Delete && act.sent.value == o.status.id && o.status.id != "")
        && (p.meta == o.meta || (
             && p.meta == o.meta.(finalizer := false, gone := true)
             && (o.deletion == Delete && o.status.id != "" && (needsParent ==> o.status.parent != "") ==>
                  act.sent == Some(o.status.id) && act.confirmed)))
      case Reported =>
        && Active(o) && p.meta == o.meta
        && p.status == o.status.(observed := p.status.observed, ready := p.status.ready)
        && (p.status == o.status || Refused(o, p.status))
      case Missing =>
        && Active(o) && p.meta == o.meta
        && (p.status == o.status || (Refused(o, p.status) && p.status.id == ""))
      case Ready =>
        && Active(o) && p.meta == o.meta
        && (p.status == o.status || Accepted(needsParent, o, act, p.status))
  }

  predicate Active<S, X>(o: Object<S, X>) {
    !o.meta.gone && !o.meta.deleting && !NeedsFinalizer(o)
  }

  ghost predicate Refused<S, X>(o: Object<S, X>, status: Status<X>) {
    && status.ready.Some? && !status.ready.value.ok && status.ready.value.generation == o.meta.generation
    && (status.observed == o.status.observed || status.observed == o.meta.generation)
  }

  ghost predicate Accepted<S, X>(needsParent: bool, o: Object<S, X>, act: Act, status: Status<X>) {
    && status.ready == Some(Verdict(true, Reconciled, o.meta.generation)) && status.observed == o.meta.generation
    && status.id != "" && (o.status.id == "" || status.id == o.status.id)
    && (act.created.Some? ==> status.id == act.created.value)
    && (needsParent ==> status.parent != "")
  }

  /** A user's edit of the object between reconciles: a new generation of the spec, or a
      request to delete, which takes effect at once on an object without a finalizer. */
  ghost predicate Edit<S, X>(o: Object<S, X>, p: Object<S, X>) {
    && p.status == o.status && p.meta.finalizer == o.meta.finalizer
    && p.meta.generation >= o.meta.generation && (o.meta.deleting ==> p.meta.deleting)
    && (o.meta.gone ==> p.meta.gone) && (p.meta.gone && !o.meta.gone ==> !o.meta.finalizer)
  }

  /** The three status writers keep the contract whatever the calls answered. */
  lemma {:induction false} ReportSteps<S, X, R>(omit: X -> X, needsParent: bool, o: Object<S, X>, g: Progress<X, R>, reason: Reason, patch: Reply)
    requires Active(o) && g.status.ready == o.status.ready
    requires g.created.Some? ==> o.status.id == "" && g.created.value != ""
    ensures var t := Report(omit, o, g, reason, patch); Step(needsParent, o, t.act, t.obj)
  {
  }

  lemma {:induction false} ForgetSteps<S, X, R>(omit: X -> X, needsParent: bool, o: Object<S, X>, g: Progress<X, R>, parent: Id, rest: X, reason: Reason, patch: Reply)
    requires Active(o) && g.status.ready == o.status.ready && g.status.id != ""
    requires g.created.Some? ==> o.status.id == "" && g.created.value != ""
    ensures var t := Forget(omit, o, g, parent, rest, reason, patch); Step(needsParent, o, t.act, t.obj)
  {
  }

  lemma {:induction false} SucceedSteps<S, X, R>(omit: X -> X, needsParent: bool, o: Object<S, X>, g: Progress<X, R>, patch: Reply)
    requires Active(o) && g.status.id != "" && g.status.observed == o.meta.generation
    requires o.status.id == "" || o.status.id == g.status.id
    requires needsParent ==> g.status.parent != ""
    requires g.created.Some? ==> o.status.id == "" && g.created.value != "" && g.status.id == g.created.value
    ensures var t := Succeed(omit, o, g, patch); Step(needsParent, o, t.act, t.obj)
  {
  }

  /** What a reconcile may do to the two generations in the status: leave both, or judge the
      object's generation, with the observed one left behind or brought up to it. */
  predicate Timely<S, X>(o: Object<S, X>, p: Object<S, X>) {
    && p.meta.generation == o.meta.generation
    && ((p.status.observed == o.status.observed && p.status.ready == o.status.ready) || (
          && p.status.ready.Some? && p.status.ready.value.generation == o.meta.generation
          && (p.status.observed == o.meta.generation || (p.status.observed == o.status.observed && !p.status.ready.value.ok))))
  }

  /** Progress whose status was read from the object and at most observed since. */
  predicate Current<S, X, R>(o: Object<S, X>, g: Progress<X, R>) {
    g.status.ready == o.status.ready && (g.status.observed == o.status.observed || g.status.observed == o.meta.generation)
  }

  lemma {:induction false} ReportTimely<S, X, R>(omit: X -> X, o: Object<S, X>, g: Progress<X, R>, reason: Reason, patch: Reply)
    requires Current(o, g)
    ensures Timely(o, Report(omit, o, g, reason, patch).obj)
  {
  }

  lemma {:induction false} ForgetTimely<S, X, R>(omit: X -> X, o: Object<S, X>, g: Progress<X, R>, parent: Id, rest: X, reason: Reason, patch: Reply)
    requires Current(o, g)
    ensures Timely(o, Forget(omit, o, g, parent, rest, reason, patch).obj)
  {
  }

  lemma {:induction false} SucceedTimely<S, X, R>(omit: X -> X, o: Object<S, X>, g: Progress<X, R>, patch: Reply)
    requires g.status.ready == o.status.ready && g.status.observed == o.meta.generation
    ensures Timely(o, Succeed(omit, o, g, patch).obj)
  {
  }
}
