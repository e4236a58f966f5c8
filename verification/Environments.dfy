/** The project-environment reconciler, with its restore of soft-deleted environments. */
module Environments {
  import opened Basics
  import opened Lifecycle

  datatype Spec = Spec(name: string, slug: string, position: Option<int>)

  datatype Environment = Environment(project: Id, name: string, slug: string, position: int, deleted: bool)

  /** What the status shows besides the ID and the project (the parent). */
  datatype Shown = Shown(name: string, slug: string, position: int)

  type EnvironmentObject = Object<Spec, Shown>

  datatype Store = Store(environments: map<Id, Environment>, issued: set<Id>)

  /** `project` is the observed project ID: None when the project could not be read, and empty
      when it is missing or has none yet. */
  datatype Answers = Answers(
    finalizer: Reply, project: Option<Id>, connected: bool,
    find: Reply, found: Option<Id>, revive: Reply,
    create: Reply, id: Id, position: int,
    get: Reply, restore: Reply, update: Reply, patch: Reply, delete: Reply)

  type EnvironmentTurn = Turn<Spec, Shown, Store>
  type EnvironmentProgress = Progress<Shown, Store>

  predicate Matching(spec: Spec, s: Store, project: Id, found: Option<Id>) {
    && found.Some? && found.value in s.environments && found.value != ""
    && s.environments[found.value].project == project && s.environments[found.value].slug == spec.slug
  }

  /** `setEnvironmentObservedState`. */
  function Observe(o: EnvironmentObject, m: Status<Shown>, id: Id, e: Environment, project: Id): Status<Shown> {
    Status(id, project, o.meta.generation, m.ready, Shown(e.name, e.slug, e.position))
  }

  /** `environmentNeedsUpdate`. */
  predicate NeedsUpdate(spec: Spec, e: Environment) {
    e.name != spec.name || (spec.position.Some? && e.position != spec.position.value)
  }

  function Patched(spec: Spec, e: Environment): Environment {
    e.(name := if spec.name != "" then spec.name else e.name,
       position := if spec.position.Some? then spec.position.value else e.position)
  }

  /** The environment `id` of the store, changed by a call. */
  function Change(s: Store, id: Id, e: Environment, reply: Reply): Store {
    if reply.Reached() then s.(environments := s.environments[id := e]) else s
  }

  function Acquire(o: EnvironmentObject, s: Store, a: Answers, project: Id): EnvironmentProgress {
    var g := Start(o, s);
    if o.status.id != "" then g
    else if o.creation.CanAdopt() && a.find.Failed? then g.(error := Some(ExternalReadFailed))
    else if o.creation.CanAdopt() && Matching(o.spec, s, project, a.found) then
      var id, e := a.found.value, s.environments[a.found.value];
      if !e.deleted then g.(status := Observe(o, g.status, id, e, project))
      else
        var h := g.(wrote := true, remote := Change(s, id, e.(deleted := false), a.revive));
        if a.revive.Failed? then h.(error := Some(ExternalRestoreFailed))
        else h.(status := Observe(o, g.status, id, e, project))
    else if !o.creation.CanCreate() then g.(error := Some(CreationNotAllowed))
    else if !(Usable(a.id, s.issued) && a.create.Reached()) then g.(wrote := true, error := Some(ExternalCreateFailed))
    else
      var e := Environment(project, o.spec.name, o.spec.slug, if o.spec.position.Some? then o.spec.position.value else a.position, false);
      var made := g.(remote := Store(s.environments[a.id := e], s.issued + {a.id}), created := Some(a.id), wrote := true);
      if a.create.Failed? then made.(error := Some(ExternalCreateFailed))
      else made.(status := Observe(o, g.status, a.id, e, project))
  }

  /** Read by ID, restore when soft-deleted, correct drift, and store the verdict. */
  function Settle(o: EnvironmentObject, g: EnvironmentProgress, a: Answers, project: Id): EnvironmentTurn {
    var id := g.status.id;
    if a.get.Failed? then Report(Same, o, g, ExternalReadFailed, a.patch)
    else if id !in g.remote.environments || g.remote.environments[id].project != project then
      Forget(Same, o, g, g.status.parent, g.status.rest, RemoteEnvironmentMissing, a.patch)
    else
      var e := g.remote.environments[id];
      if !e.deleted then Adjust(o, g, a, project, e)
      else
        var h := g.(wrote := true, remote := Change(g.remote, id, e.(deleted := false), a.restore));
        if a.restore.Failed? then Report(Same, o, h, ExternalRestoreFailed, a.patch)
        else Adjust(o, h, a, project, e.(deleted := false))
  }

  function Adjust(o: EnvironmentObject, g: EnvironmentProgress, a: Answers, project: Id, e: Environment): EnvironmentTurn {
    var id := g.status.id;
    if !NeedsUpdate(o.spec, e) then Succeed(Same, o, g.(status := Observe(o, g.status, id, e, project)), a.patch)
    else
      var f := Patched(o.spec, e);
      var h := g.(wrote := true, remote := Change(g.remote, id, f, a.update));
      if a.update.Failed? then Report(Same, o, h, ExternalUpdateFailed, a.patch)
      else Succeed(Same, o, h.(status := Observe(o, g.status, id, f, project)), a.patch)
  }

  function Sync(o: EnvironmentObject, s: Store, a: Answers): EnvironmentTurn {
    if a.project.None? then Report(Same, o, Start(o, s), ProjectReadFailed, a.patch)
    else if a.project.value == "" then Report(Same, o, Start(o, s), ProjectNotReady, a.patch)
    else if !a.connected then Report(Same, o, Start(o, s), ConnectionNotReady, a.patch)
    else
      var g := Acquire(o, s, a, a.project.value);
      if g.error.Some? then Report(Same, o, g, g.error.value, a.patch)
      else Settle(o, g, a, a.project.value)
  }

  /** `reconcileEnvironmentDeletion`: the delete is a soft one. */
  function Remove(o: EnvironmentObject, s: Store, a: Answers): EnvironmentTurn {
    if o.deletion != Delete || o.status.id == "" || o.status.parent == "" then Release(o, s, None, a.finalizer)
    else if !a.connected then Turn(o, s, Act(Releasing, None, None, false, false))
    else
      var id := o.status.id;
      var removed := if id in s.environments then s.(environments := s.environments[id := s.environments[id].(deleted := true)]) else s;
      DeleteRemote(o, s, removed, a.delete, a.finalizer)
  }

  /** One reconcile of one environment. */
  function Reconcile(o: EnvironmentObject, s: Store, a: Answers): EnvironmentTurn {
    if o.meta.gone then Skip(o, s)
    else if NeedsFinalizer(o) then AddFinalizer(o, s, a.finalizer)
    else if o.meta.deleting then Remove(o, s, a)
    else Sync(o, s, a)
  }

  lemma {:induction false} AcquireKeeps(o: EnvironmentObject, s: Store, a: Answers, project: Id)
    ensures var g := Acquire(o, s, a, project);
      && g.status.ready == o.status.ready
      && (g.created.Some? ==> o.status.id == "" && g.created.value != "")
      && (g.error.None? ==>
           && g.status.id != "" && (o.status.id == "" || g.status.id == o.status.id)
           && (g.created.Some? ==> g.status.id == g.created.value))
  {
  }

  /** Progress from which every way of ending keeps the contract. */
  predicate Sane(o: EnvironmentObject, g: EnvironmentProgress) {
    && Active(o) && g.status.ready == o.status.ready
    && g.status.id != "" && (o.status.id == "" || g.status.id == o.status.id)
    && (g.created.Some? ==> o.status.id == "" && g.created.value != "" && g.status.id == g.created.value)
  }

  lemma {:induction false} AdjustSteps(o: EnvironmentObject, g: EnvironmentProgress, a: Answers, project: Id, e: Environment)
    requires Sane(o, g) && project != ""
    ensures var t := Adjust(o, g, a, project, e); Step(true, o, t.act, t.obj)
  {
  }

  lemma {:induction false} SettleSteps(o: EnvironmentObject, g: EnvironmentProgress, a: Answers, project: Id)
    requires Sane(o, g) && project != ""
    ensures var t := Settle(o, g, a, project); Step(true, o, t.act, t.obj)
  {
    var id := g.status.id;
    if a.get.Answered? && id in g.remote.environments && g.remote.environments[id].project == project {
      var e := g.remote.environments[id];
      if e.deleted {
        var h := g.(wrote := true, remote := Change(g.remote, id, e.(deleted := false), a.restore));
        if a.restore.Failed? {
          ReportSteps(Same, true, o, h, ExternalRestoreFailed, a.patch);
        } else {
          AdjustSteps(o, h, a, project, e.(deleted := false));
        }
      } else {
        AdjustSteps(o, g, a, project, e);
      }
    }
  }

  /** Whatever the calls answer, a reconcile keeps the lifecycle contract; the delete call needs
      the project ID, and a stored environment ID always comes with one. */
  lemma {:induction false} ReconcileSteps(o: EnvironmentObject, s: Store, a: Answers)
    ensures var t := Reconcile(o, s, a); Step(true, o, t.act, t.obj)
  {
    if Active(o) && a.project.Some? && a.project.value != "" && a.connected {
      AcquireKeeps(o, s, a, a.project.value);
      var g := Acquire(o, s, a, a.project.value);
      if g.error.None? {
        SettleSteps(o, g, a, a.project.value);
      }
    }
  }

  /** Drift-patch law: after the patch the drift test is false unless the wanted name is blank
      and the remote one is not; an unset position and everything else keep their values. */
  lemma {:induction false} PatchSettlesDrift(spec: Spec, e: Environment)
    ensures NeedsUpdate(spec, Patched(spec, e)) <==> spec.name == "" && e.name != ""
    ensures spec.position.None? ==> Patched(spec, e).position == e.position
    ensures Patched(spec, e).project == e.project && Patched(spec, e).slug == e.slug && Patched(spec, e).deleted == e.deleted
  {
  }

  /** The environment is in the project, not soft-deleted, and as the spec wants it. */
  predicate Managed(spec: Spec, e: Environment, project: Id) {
    && e.project == project && !e.deleted && e.name == spec.name
    && (spec.position.Some? ==> e.position == spec.position.value)
  }

  /** The stored status and the server, after a reconcile that succeeded. */
  predicate Sound(o: EnvironmentObject, t: EnvironmentTurn, project: Id) {
    && t.obj.status.ready == Some(Verdict(true, Reconciled, o.meta.generation))
    && t.obj.status.id in t.remote.environments && t.obj.status.parent == project
    && var e := t.remote.environments[t.obj.status.id];
    && Managed(o.spec, e, project) && t.obj.status.rest == Shown(e.name, e.slug, e.position)
  }

  lemma {:induction false} AdjustIsSound(o: EnvironmentObject, g: EnvironmentProgress, a: Answers, project: Id, e: Environment)
    requires o.spec.name != "" && a.patch.Reached() && Adjust(o, g, a, project, e).act.outcome.Ready?
    requires g.status.id in g.remote.environments && g.remote.environments[g.status.id] == e && e.project == project && !e.deleted
    ensures Sound(o, Adjust(o, g, a, project, e), project)
  {
    PatchSettlesDrift(o.spec, e);
  }

  lemma {:induction false} SettleIsSound(o: EnvironmentObject, g: EnvironmentProgress, a: Answers, project: Id)
    requires o.spec.name != "" && a.patch.Reached()
    requires Settle(o, g, a, project).act.outcome.Ready?
    ensures Sound(o, Settle(o, g, a, project), project)
  {
    var id, e := g.status.id, g.remote.environments[g.status.id];
    if e.deleted {
      var f := e.(deleted := false);
      AdjustIsSound(o, g.(wrote := true, remote := Change(g.remote, id, f, a.restore)), a, project, f);
    } else {
      AdjustIsSound(o, g, a, project, e);
    }
  }

  /** Ready is sound: the environment exists in the project, is not soft-deleted, has the wanted
      name and position, and is what the status shows. */
  lemma {:induction false} ReadyIsSound(o: EnvironmentObject, s: Store, a: Answers)
    requires Reconcile(o, s, a).act.outcome.Ready? && a.patch.Reached() && o.spec.name != ""
    ensures a.project.Some? && Sound(o, Reconcile(o, s, a), a.project.value)
  {
    SettleIsSound(o, Acquire(o, s, a, a.project.value), a, a.project.value);
  }

  /** The environments that exist and are not soft-deleted. */
  function Alive(s: Store): set<Id> {
    set id | id in s.environments && !s.environments[id].deleted
  }

  /** What the reconcile reports about itself is what happened outside: exactly the entity it
      created is new, under an ID never issued before; without a delete call none is gone, and
      after a confirmed one exactly the entity it was sent for is. */
  lemma {:induction false} ActIsReal(o: EnvironmentObject, s: Store, a: Answers)
    ensures var t := Reconcile(o, s, a);
      && t.remote.issued == s.issued + (if t.act.created.Some? then {t.act.created.value} else {})
      && (t.act.created.Some? ==> t.act.created.value !in s.issued)
      && (t.act.sent.None? ==> Alive(s) <= Alive(t.remote))
      && (t.act.confirmed ==> t.act.sent.Some? && Alive(t.remote) == Alive(s) - {t.act.sent.value})
  {
    if Active(o) && a.project.Some? && a.connected {
      AcquireIsReal(o, s, a, a.project.value);
      SettleIsReal(o, Acquire(o, s, a, a.project.value), a, a.project.value);
    }
  }

  lemma {:induction false} AcquireIsReal(o: EnvironmentObject, s: Store, a: Answers, project: Id)
    ensures var g := Acquire(o, s, a, project);
      && g.remote.issued == s.issued + (if g.created.Some? then {g.created.value} else {})
      && (g.created.Some? ==> g.created.value !in s.issued) && Alive(s) <= Alive(g.remote)
  {
  }

  lemma {:induction false} SettleIsReal(o: EnvironmentObject, g: EnvironmentProgress, a: Answers, project: Id)
    ensures var t := Settle(o, g, a, project);
      t.remote.issued == g.remote.issued && Alive(g.remote) <= Alive(t.remote) && t.act.created == g.created && t.act.sent.None?
  {
  }
}
