/** The identity reconciler as it runs, proved to do what `Identities.Reconcile` says. */
module IdentityController {
  import opened Basics
  import opened Lifecycle
  import opened Identities
  import opened Reconcilers
  import Memberships
  import Roles
  import Metadata

  type Controller = Reconciler<Spec, Id, Store>

  /** `setIdentityObservedState`. */
  method SetObservedState(c: Controller, id: Id, anchor: Id)
    modifies c`status
    ensures c.status == Observe(c.stored, old(c.status), id, anchor)
  {
    c.status := c.status.(id := id, observed := c.stored.meta.generation);
    if c.stored.spec.scope.OrganizationScope? {
      c.status := c.status.(parent := "", rest := anchor);
      return;
    }
    c.status := c.status.(parent := anchor, rest := "");
  }

  /** `validateIdentitySpec`. */
  method ValidateSpec(spec: Spec) returns (ok: bool)
    ensures ok == ValidSpec(spec)
  {
    match spec.scope {
      case ProjectScope =>
        if spec.projectRef in {None, Some("")} || spec.organizationRef.Some? || spec.role != "" || |spec.bindings| != 0 {
          return false;
        }
        var slugs := Roles.ValidatedSlugs(spec.roles);
        ok := slugs.Some?;
      case OrganizationScope =>
        if spec.organizationRef in {None, Some("")} || spec.projectRef !in {None, Some("")} || (spec.role != "" && spec.role !in ORGANIZATION_ROLES) {
          return false;
        }
        ok := CheckBindings(spec.bindings);
      case OtherScope =>
        ok := false;
    }
  }

  /** `identityAnchor`. */
  method FindAnchor(spec: Spec, view: View) returns (r: AnchorResult)
    ensures r == Anchor(spec, view)
  {
    if spec.scope.OrganizationScope? {
      if view.owner.None? || view.owner.value == "" {
        return Unanchored(OrganizationNotReady);
      }
      r := AnchorBindings(spec.bindings, view.owner.value, view);
      return;
    }
    if view.owner.None? || view.owner.value == "" {
      return Unanchored(ProjectNotReady);
    }
    r := Anchored(view.owner.value);
  }

  /** `identityNeedsUpdate`. */
  method CheckDrift(spec: Spec, current: Identity) returns (drifted: bool)
    ensures drifted == NeedsUpdate(spec, current)
  {
    if current.name != spec.name {
      return true;
    }
    if spec.protection.Some? && current.protection != spec.protection.value {
      return true;
    }
    if spec.scope.OrganizationScope? && current.role != WantedRole(spec) {
      return true;
    }
    var equal := Metadata.MetadataEqual(spec.metadata, current.metadata);
    drifted := !equal;
  }

  /** The adopt and create steps; `error` ends the reconcile. */
  method AcquireIdentity(c: Controller, a: Answers, anchor: Id) returns (error: Option<Reason>)
    requires c.Held() == Start(c.stored, c.remote)
    modifies c
    ensures c.stored == old(c.stored) && c.Held().(error := error) == Acquire(old(c.stored), old(c.remote), a, anchor)
  {
    var creation, spec := c.stored.creation, c.stored.spec;
    if c.status.id == "" && creation.CanAdopt() {
      if a.find.Failed? {
        return Some(ExternalReadFailed);
      }
      if Matching(spec, c.remote, a.found) {
        if Misplaced(spec, c.remote.identities[a.found.value], anchor) {
          return Some(ExternalIdentityMismatch);
        }
        SetObservedState(c, a.found.value, anchor);
      }
    }
    if c.status.id == "" {
      if !creation.CanCreate() {
        return Some(CreationNotAllowed);
      }
      c.wrote := true;
      if !Usable(a.id, c.remote.issued) || !a.create.Reached() {
        return Some(ExternalCreateFailed);
      }
      c.Become(c.remote.(identities := c.remote.identities[a.id := NewIdentity(spec, anchor)], issued := c.remote.issued + {a.id}));
      c.created := Some(a.id);
      if a.create.Failed? {
        return Some(ExternalCreateFailed);
      }
      SetObservedState(c, a.id, anchor);
    }
    error := None;
  }

  /** The drift correction of an identity that was just read. */
  method AdjustIdentity(c: Controller, a: Answers, anchor: Id) returns (error: Option<Reason>)
    requires c.status.id in c.remote.identities
    modifies c
    ensures c.stored == old(c.stored) && c.Held().(error := error) == Adjust(c.stored, old(c.Held()), a, anchor)
  {
    var id, current := c.status.id, c.remote.identities[c.status.id];
    if Misplaced(c.stored.spec, current, anchor) {
      return Some(ExternalIdentityMismatch);
    }
    var drifted := CheckDrift(c.stored.spec, current);
    if drifted {
      c.wrote := true;
      if a.update.Reached() {
        c.Become(c.remote.(identities := c.remote.identities[id := Patched(c.stored.spec, current)]));
      }
      if a.update.Failed? {
        return Some(ExternalUpdateFailed);
      }
    }
    SetObservedState(c, id, anchor);
    error := None;
  }

  /** The memberships: of the identity's project, or of each bound one. */
  method BindIdentity(c: Controller, a: Answers, anchor: Id) returns (error: Option<Reason>)
    requires ValidSpec(c.stored.spec)
    modifies c
    ensures c.stored == old(c.stored) && c.Held().(error := error) == Bind(c.stored, old(c.Held()), a, anchor)
  {
    var spec := c.stored.spec;
    var client := new Memberships.Client(c.remote.projects, c.remote.members);
    var ok: bool;
    if spec.scope.OrganizationScope? {
      var bs := Resolved(spec.bindings, a.view);
      var done: nat;
      ok, done := client.ReconcileBindings(c.status.id, bs, CallsFor(a, |bs|));
    } else {
      var slugs := Roles.ValidatedSlugs(spec.roles);
      ok := client.ReconcileMembership(Memberships.Key(anchor, c.status.id), slugs.value, a.calls(0));
    }
    c.Become(c.remote.(members := client.members));
    c.wrote := c.wrote || client.writes > 0;
    error := if ok then None else Some(RoleMembershipReconcileFailed);
  }

  /** The read-back, the drift correction, the memberships and the verdict. */
  method SettleIdentity(c: Controller, a: Answers, anchor: Id, before: Status<Id>) returns (act: Act)
    requires before == c.stored.status && ValidSpec(c.stored.spec)
    modifies c
    ensures c.Ended(act) == Settle(old(c.stored), old(c.Held()), a, anchor)
  {
    if a.get.Failed? {
      act := c.Fail(Same, ExternalReadFailed, a.patch);
      return;
    }
    if c.status.id !in c.remote.identities {
      act := c.Lose(Same, "", "", RemoteIdentityMissing, a.patch);
      return;
    }
    var error := AdjustIdentity(c, a, anchor);
    if error.None? {
      error := BindIdentity(c, a, anchor);
    }
    if error.Some? {
      act := c.Fail(Same, error.value, a.patch);
      return;
    }
    act := c.Finish(Same, before, a.patch);
  }

  /** `reconcileIdentity`. */
  method ReconcileIdentity(c: Controller, a: Answers) returns (act: Act)
    requires c.Held() == Start(c.stored, c.remote)
    modifies c
    ensures c.Ended(act) == Sync(old(c.stored), old(c.remote), a)
  {
    var before := c.status;
    var valid := ValidateSpec(c.stored.spec);
    if !valid {
      act := c.Fail(Same, ConfigurationInvalid, a.patch);
      return;
    }
    var anchor := FindAnchor(c.stored.spec, a.view);
    if anchor.Unanchored? {
      act := c.Fail(Same, anchor.reason, a.patch);
      return;
    }
    if !a.connected {
      act := c.Fail(Same, ConnectionNotReady, a.patch);
      return;
    }
    var error := AcquireIdentity(c, a, anchor.id);
    if error.Some? {
      act := c.Fail(Same, error.value, a.patch);
      return;
    }
    act := SettleIdentity(c, a, anchor.id, before);
  }

  /** `Reconcile`. */
  method ReconcileRequest(c: Controller, a: Answers) returns (act: Act)
    modifies c
    ensures c.Ended(act) == Reconcile(old(c.stored), old(c.remote), a)
  {
    c.Load();
    if c.stored.meta.gone {
      return Act(Idle, None, None, false, false);
    }
    if !c.stored.meta.deleting && c.stored.deletion == Delete {
      var added: bool;
      added, act := c.EnsureFinalizer(a.finalizer);
      if added {
        return;
      }
    }
    if c.stored.meta.deleting {
      act := ReconcileDeletion(c, a);
      return;
    }
    act := ReconcileIdentity(c, a);
  }

  /** `reconcileIdentityDeletion`. */
  method ReconcileDeletion(c: Controller, a: Answers) returns (act: Act)
    modifies c
    ensures c.Ended(act) == Remove(old(c.stored), old(c.remote), a)
  {
    if c.stored.deletion != Delete || c.stored.status.id == "" {
      act := c.RemoveFinalizer(None, a.finalizer);
      return;
    }
    if !a.connected {
      return Act(Releasing, None, None, false, false);
    }
    if !c.stored.spec.scope.OrganizationScope? && c.stored.status.parent == "" {
      act := c.RemoveFinalizer(None, a.finalizer);
      return;
    }
    act := c.DeleteThenRelease(c.remote.(identities := c.remote.identities - {c.stored.status.id}), a.delete, a.finalizer);
  }
}
