/** The Kubernetes Auth reconciler as it runs, proved to do what `KubernetesAuths.Reconcile`
    says. */
module KubernetesAuthController {
  import opened Basics
  import opened Lifecycle
  import opened KubernetesAuths
  import opened Reconcilers

  type Controller = Reconciler<Spec, Shown, Store>

  /** `setKubernetesAuthObservedState`. */
  method SetObservedState(c: Controller, k: KubernetesAuth, identity: Id)
    modifies c`status
    ensures c.status == Observe(c.stored, old(c.status), k, identity)
  {
    c.status := c.status.(id := k.id, parent := identity, rest := Show(k), observed := c.stored.meta.generation);
  }

  /** The adopt and create steps, with the read of the referenced Secrets between them. */
  method AcquireAuth(c: Controller, a: Answers, identity: Id) returns (error: Option<Reason>)
    requires c.Held() == Start(c.stored, c.remote)
    modifies c
    ensures c.stored == old(c.stored) && c.Held().(error := error) == Acquire(old(c.stored), old(c.remote), a, identity)
  {
    var creation := c.stored.creation;
    if c.status.id == "" && creation.CanAdopt() {
      if a.find.Failed? {
        return Some(ExternalReadFailed);
      }
      if identity in c.remote {
        SetObservedState(c, c.remote[identity], identity);
      }
    }
    if a.secrets.None? {
      return Some(SecretNotReady);
    }
    if c.status.id == "" {
      if !creation.CanCreate() {
        return Some(CreationNotAllowed);
      }
      c.wrote := true;
      if identity in c.remote || a.id == "" || !a.attach.Reached() {
        return Some(ExternalCreateFailed);
      }
      var attached := Attached(c.stored.spec, a, a.secrets.value);
      c.Become(c.remote[identity := attached]);
      c.created := Some(a.id);
      if a.attach.Failed? {
        return Some(ExternalCreateFailed);
      }
      SetObservedState(c, attached, identity);
    }
    error := None;
  }

  /** The read-back, the drift correction and the verdict. */
  method SettleAuth(c: Controller, a: Answers, identity: Id, before: Status<Shown>) returns (act: Act)
    requires before == c.stored.status && a.secrets.Some?
    modifies c
    ensures c.Ended(act) == Settle(old(c.stored), old(c.Held()), a, identity)
  {
    if a.get.Failed? {
      act := c.Fail(Omit, ExternalReadFailed, a.patch);
      return;
    }
    if identity !in c.remote {
      act := c.Lose(Omit, c.status.parent, c.status.rest, RemoteKubernetesAuthMissing, a.patch);
      return;
    }
    var current := c.remote[identity];
    if NeedsUpdate(c.stored.spec, current, a.secrets.value) {
      current := Patched(c.stored.spec, current, a.secrets.value);
      c.wrote := true;
      if a.update.Reached() {
        c.Become(c.remote[identity := current]);
      }
      if a.update.Failed? {
        act := c.Fail(Omit, ExternalUpdateFailed, a.patch);
        return;
      }
    }
    SetObservedState(c, current, identity);
    act := c.Finish(Omit, before, a.patch);
  }

  /** `Reconcile`. */
  method ReconcileAuth(c: Controller, a: Answers) returns (act: Act)
    modifies c
    ensures c.Ended(act) == Reconcile(old(c.stored), old(c.remote), a)
  {
    c.Load();
    if c.stored.meta.gone {
      return Act(Idle, None, None, false, false);
    }
    if !c.stored.meta.deleting && c.stored.deletion == Delete {
      var added: bool;
      added, act := c.EnsureFinalizer(a.finalizer);
      if added {
        return;
      }
    }
    if c.stored.meta.deleting {
      act := ReconcileDeletion(c, a);
      return;
    }
    var before := c.status;
    if !ValidSpec(c.stored.spec) || !a.addresses {
      act := c.Fail(Omit, InvalidSpec, a.patch);
      return;
    }
    if a.identity.None? || a.identity.value == "" {
      act := c.Fail(Omit, if a.identity.None? then IdentityReadFailed else IdentityNotReady, a.patch);
      return;
    }
    if !a.connected {
      act := c.Fail(Omit, ConnectionNotReady, a.patch);
      return;
    }
    var error := AcquireAuth(c, a, a.identity.value);
    if error.Some? {
      act := c.Fail(Omit, error.value, a.patch);
      return;
    }
    act := SettleAuth(c, a, a.identity.value, before);
  }

  /** `reconcileKubernetesAuthDeletion`. */
  method ReconcileDeletion(c: Controller, a: Answers) returns (act: Act)
    modifies c
    ensures c.Ended(act) == Remove(old(c.stored), old(c.remote), a)
  {
    if c.stored.deletion != Delete || c.stored.status.parent == "" {
      act := c.RemoveFinalizer(None, a.finalizer);
      return;
    }
    if !a.connected {
      return Act(Releasing, None, None, false, false);
    }
    act := c.DeleteThenRelease(c.remote - {c.stored.status.parent}, a.delete, a.finalizer);
  }
}
