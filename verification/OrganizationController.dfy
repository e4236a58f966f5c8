/** The organization reconciler as it runs, proved to do what `Organizations.Reconcile` says. */
module OrganizationController {
  import opened Basics
  import opened Lifecycle
  import opened Organizations
  import opened Reconcilers

  type Controller = Reconciler<Spec, string, Store>

  /** `setOrganizationObservedState`. */
  method SetObservedState(c: Controller, id: Id, name: string)
    modifies c`status
    ensures c.status == Observe(c.stored, old(c.status), id, name)
  {
    c.status := c.status.(id := id, rest := name, parent := "", observed := c.stored.meta.generation);
  }

  /** The adopt and create steps; `error` ends the reconcile. */
  method AcquireOrganization(c: Controller, a: Answers) returns (justCreated: bool, error: Option<Reason>)
    requires c.Held() == Start(c.stored, c.remote)
    modifies c
    ensures c.stored == old(c.stored) && c.Held().(error := error) == Acquire(old(c.stored), old(c.remote), a)
    ensures error.None? ==> justCreated == c.created.Some?
  {
    var creation, spec := c.stored.creation, c.stored.spec;
    justCreated := false;
    if c.status.id == "" && creation.CanAdopt() {
      var adopted := Find(c.remote, spec.organizationID, spec.name, a.find, a);
      if adopted.LookupFailed? {
        return false, Some(ExternalReadFailed);
      }
      if adopted.Seen? {
        SetObservedState(c, adopted.id, adopted.name);
        return false, None;
      }
      if !creation.CanCreate() {
        return false, Some(RemoteOrganizationMissing);
      }
    }
    if c.status.id == "" {
      if !creation.CanCreate() {
        return false, Some(CreationNotAllowed);
      }
      c.wrote := true;
      if !a.user || !Usable(a.id, c.remote.issued) || !a.create.Reached() {
        return false, Some(ExternalCreateFailed);
      }
      c.Become(Store(c.remote.names[a.id := spec.name], c.remote.issued + {a.id}));
      c.created := Some(a.id);
      if a.create.Failed? {
        return false, Some(ExternalCreateFailed);
      }
      SetObservedState(c, a.id, spec.name);
      justCreated := true;
    }
    error := None;
  }

  /** `reconcileOrganization`. */
  method ReconcileOrganization(c: Controller, a: Answers) returns (act: Act)
    requires c.Held() == Start(c.stored, c.remote)
    modifies c
    ensures c.Ended(act) == Sync(old(c.stored), old(c.remote), a)
  {
    var before := c.status;
    if !ValidSpec(c.stored) {
      act := c.Fail(Same, ConfigurationInvalid, a.patch);
      return;
    }
    if !a.connected {
      act := c.Fail(Same, ConnectionNotReady, a.patch);
      return;
    }
    var justCreated, error := AcquireOrganization(c, a);
    if error.Some? {
      act := c.Fail(Same, error.value, a.patch);
      return;
    }
    if justCreated {
      act := c.Finish(Same, before, a.patch);
      return;
    }
    var current := Find(c.remote, c.status.id, "", a.get, a);
    if current.LookupFailed? {
      act := c.Fail(Same, ExternalReadFailed, a.patch);
      return;
    }
    if current.NotVisible? {
      act := c.Lose(Same, "", "", RemoteOrganizationMissing, a.patch);
      return;
    }
    if c.stored.spec.organizationID != "" && current.id != c.stored.spec.organizationID {
      act := c.Fail(Same, ExternalOrganizationMismatch, a.patch);
      return;
    }
    SetObservedState(c, current.id, current.name);
    act := c.Finish(Same, before, a.patch);
  }

  /** `Reconcile`. */
  method ReconcileRequest(c: Controller, a: Answers) returns (act: Act)
    modifies c
    ensures c.Ended(act) == Reconcile(old(c.stored), old(c.remote), a)
  {
    c.Load();
    if c.stored.meta.gone {
      return Act(Idle, None, None, false, false);
    }
    if !c.stored.meta.deleting && c.stored.deletion == Delete {
      var added: bool;
      added, act := c.EnsureFinalizer(a.finalizer);
      if added {
        return;
      }
    }
    if c.stored.meta.deleting {
      act := ReconcileDeletion(c, a);
      return;
    }
    act := ReconcileOrganization(c, a);
  }

  /** `reconcileOrganizationDeletion`. */
  method ReconcileDeletion(c: Controller, a: Answers) returns (act: Act)
    modifies c
    ensures c.Ended(act) == Remove(old(c.stored), old(c.remote), a)
  {
    if c.stored.deletion != Delete || c.stored.status.id == "" {
      act := c.RemoveFinalizer(None, a.finalizer);
      return;
    }
    if !a.connected {
      return Act(Releasing, None, None, false, false);
    }
    act := c.DeleteThenRelease(c.remote.(names := c.remote.names - {c.stored.status.id}), a.delete, a.finalizer);
  }
}
