/** The environment reconciler as it runs, proved to do what `Environments.Reconcile` says. */
module EnvironmentController {
  import opened Basics
  import opened Lifecycle
  import opened Environments
  import opened Reconcilers

  type Controller = Reconciler<Spec, Shown, Store>

  /** `setEnvironmentObservedState`. */
  method SetObservedState(c: Controller, id: Id, e: Environment, project: Id)
    modifies c`status
    ensures c.status == Observe(c.stored, old(c.status), id, e, project)
  {
    c.status := c.status.(id := id, parent := project, rest := Shown(e.name, e.slug, e.position), observed := c.stored.meta.generation);
  }

  /** `RestoreEnvironment` and `UpdateEnvironment`: the stored environment becomes `e`. */
  method Replace(c: Controller, id: Id, e: Environment, reply: Reply) returns (ok: bool)
    modifies c`remote, c`past, c`wrote
    ensures c.wrote && ok == reply.Answered? && c.remote == Change(old(c.remote), id, e, reply)
  {
    c.wrote := true;
    if reply.Reached() {
      c.Become(c.remote.(environments := c.remote.environments[id := e]));
    }
    ok := reply.Answered?;
  }

  /** The adopt and create steps; `error` ends the reconcile. */
  method AcquireEnvironment(c: Controller, a: Answers, project: Id) returns (error: Option<Reason>)
    requires c.Held() == Start(c.stored, c.remote)
    modifies c
    ensures c.stored == old(c.stored) && c.Held().(error := error) == Acquire(old(c.stored), old(c.remote), a, project)
  {
    var creation, spec := c.stored.creation, c.stored.spec;
    if c.status.id == "" && creation.CanAdopt() {
      if a.find.Failed? {
        return Some(ExternalReadFailed);
      }
      if Matching(spec, c.remote, project, a.found) {
        var adopted := c.remote.environments[a.found.value];
        if adopted.deleted {
          var restored := Replace(c, a.found.value, adopted.(deleted := false), a.revive);
          if !restored {
            return Some(ExternalRestoreFailed);
          }
        }
        SetObservedState(c, a.found.value, adopted, project);
      }
    }
    if c.status.id == "" {
      if !creation.CanCreate() {
        return Some(CreationNotAllowed);
      }
      c.wrote := true;
      if !Usable(a.id, c.remote.issued) || !a.create.Reached() {
        return Some(ExternalCreateFailed);
      }
      var e := Environment(project, spec.name, spec.slug, if spec.position.Some? then spec.position.value else a.position, false);
      c.Become(Store(c.remote.environments[a.id := e], c.remote.issued + {a.id}));
      c.created := Some(a.id);
      if a.create.Failed? {
        return Some(ExternalCreateFailed);
      }
      SetObservedState(c, a.id, e, project);
    }
    error := None;
  }

  /** The read-back, the restore, the drift correction and the verdict. */
  method SettleEnvironment(c: Controller, a: Answers, project: Id, before: Status<Shown>) returns (act: Act)
    requires before == c.stored.status
    modifies c
    ensures c.Ended(act) == Settle(old(c.stored), old(c.Held()), a, project)
  {
    var id := c.status.id;
    if a.get.Failed? {
      act := c.Fail(Same, ExternalReadFailed, a.patch);
      return;
    }
    if id !in c.remote.environments || c.remote.environments[id].project != project {
      act := c.Lose(Same, c.status.parent, c.status.rest, RemoteEnvironmentMissing, a.patch);
      return;
    }
    var current := c.remote.environments[id];
    if current.deleted {
      current := current.(deleted := false);
      var restored := Replace(c, id, current, a.restore);
      if !restored {
        act := c.Fail(Same, ExternalRestoreFailed, a.patch);
        return;
      }
    }
    if NeedsUpdate(c.stored.spec, current) {
      current := Patched(c.stored.spec, current);
      var updated := Replace(c, id, current, a.update);
      if !updated {
        act := c.Fail(Same, ExternalUpdateFailed, a.patch);
        return;
      }
    }
    SetObservedState(c, id, current, project);
    act := c.Finish(Same, before, a.patch);
  }

  /** `Reconcile`. */
  method ReconcileEnvironment(c: Controller, a: Answers) returns (act: Act)
    modifies c
    ensures c.Ended(act) == Reconcile(old(c.stored), old(c.remote), a)
  {
    c.Load();
    if c.stored.meta.gone {
      return Act(Idle, None, None, false, false);
    }
    if !c.stored.meta.deleting && c.stored.deletion == Delete {
      var added: bool;
      added, act := c.EnsureFinalizer(a.finalizer);
      if added {
        return;
      }
    }
    if c.stored.meta.deleting {
      act := ReconcileDeletion(c, a);
      return;
    }
    var before := c.status;
    if a.project.None? || a.project.value == "" {
      act := c.Fail(Same, if a.project.None? then ProjectReadFailed else ProjectNotReady, a.patch);
      return;
    }
    if !a.connected {
      act := c.Fail(Same, ConnectionNotReady, a.patch);
      return;
    }
    var error := AcquireEnvironment(c, a, a.project.value);
    if error.Some? {
      act := c.Fail(Same, error.value, a.patch);
      return;
    }
    act := SettleEnvironment(c, a, a.project.value, before);
  }

  /** `reconcileEnvironmentDeletion`. */
  method ReconcileDeletion(c: Controller, a: Answers) returns (act: Act)
    modifies c
    ensures c.Ended(act) == Remove(old(c.stored), old(c.remote), a)
  {
    var id := c.stored.status.id;
    if c.stored.deletion != Delete || id == "" || c.stored.status.parent == "" {
      act := c.RemoveFinalizer(None, a.finalizer);
      return;
    }
    if !a.connected {
      return Act(Releasing, None, None, false, false);
    }
    var removed := c.remote;
    if id in removed.environments {
      removed := removed.(environments := removed.environments[id := removed.environments[id].(deleted := true)]);
    }
    act := c.DeleteThenRelease(removed, a.delete, a.finalizer);
  }
}
