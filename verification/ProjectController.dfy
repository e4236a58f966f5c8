/** The project reconciler as it runs, proved to do what `Projects.Reconcile` says. */
module ProjectController {
  import opened Basics
  import opened Lifecycle
  import opened Projects
  import opened Reconcilers
  import Memberships

  type Controller = Reconciler<Spec, Shown, Store>

  /** `setProjectObservedState`. */
  method SetObservedState(c: Controller, id: Id, p: Project, listing: Listing)
    modifies c`status
    ensures c.status == Observe(c.stored, old(c.status), id, p, listing)
  {
    c.status := c.status.(id := id, rest := Shown(p.slug, Some(listing)), parent := p.organization, observed := c.stored.meta.generation);
  }

  /** `CreateProject`: None when the call failed. */
  method CreateProject(c: Controller, a: Answers) returns (p: Option<Project>)
    modifies c
    ensures c.stored == old(c.stored) && c.status == old(c.status) && c.wrote
    ensures if Usable(a.id, old(c.remote).owners.Keys) && a.create.Reached() then
        var q := NewProject(c.stored.spec, a);
        && c.created == Some(a.id) && p == (if a.create.Answered? then Some(q) else None)
        && c.remote == old(c.remote).(projects := old(c.remote).projects[a.id := q], owners := old(c.remote).owners[a.id := q.organization])
      else p.None? && c.created == old(c.created) && c.remote == old(c.remote)
  {
    c.wrote := true;
    if !Usable(a.id, c.remote.owners.Keys) || !a.create.Reached() {
      return None;
    }
    var q := NewProject(c.stored.spec, a);
    c.Become(c.remote.(projects := c.remote.projects[a.id := q], owners := c.remote.owners[a.id := q.organization]));
    c.created := Some(a.id);
    p := if a.create.Answered? then Some(q) else None;
  }

  /** The adopt and create steps; `error` ends the reconcile. */
  method AcquireProject(c: Controller, a: Answers, expected: Id) returns (error: Option<Reason>)
    requires c.Held() == Start(c.stored, c.remote)
    modifies c
    ensures c.stored == old(c.stored) && c.Held().(error := error) == Acquire(old(c.stored), old(c.remote), a, expected)
  {
    var creation := c.stored.creation;
    if c.status.id == "" && creation.CanAdopt() {
      if a.find.Failed? {
        return Some(ExternalReadFailed);
      }
      if Matching(c.stored.spec, c.remote, a.found) {
        var adopted := c.remote.projects[a.found.value];
        if Foreign(adopted, expected) {
          return Some(ExternalProjectMismatch);
        }
        SetObservedState(c, a.found.value, adopted, a.listing);
      } else if !creation.CanCreate() {
        return Some(RemoteProjectMissing);
      }
    }
    if c.status.id == "" {
      if !creation.CanCreate() {
        return Some(CreationNotAllowed);
      }
      var project := CreateProject(c, a);
      if project.None? {
        return Some(ExternalCreateFailed);
      }
      SetObservedState(c, a.id, project.value, a.listing);
      if Foreign(project.value, expected) {
        return Some(ExternalProjectMismatch);
      }
    }
    error := None;
  }

  /** `ensureProjectCreatorMembership`. */
  method EnsureCreatorMembership(c: Controller, a: Answers) returns (error: Option<Reason>)
    modifies c
    ensures c.stored == old(c.stored) && c.Held().(error := error) == Grant(c.stored, old(c.Held()), a)
  {
    if !c.stored.spec.bounded || c.status.id == "" {
      return None;
    }
    if a.creator.None? {
      return Some(ExternalMembershipFailed);
    }
    if a.creator.value == "" {
      return None;
    }
    var client := new Memberships.Client(Names(c.remote), c.remote.members);
    var ok := client.EnsureMembership(Memberships.Key(c.status.id, a.creator.value), ADMIN, a.seat);
    c.Become(c.remote.(members := client.members));
    c.wrote := c.wrote || client.writes > 0;
    error := if ok then None else Some(ExternalMembershipFailed);
  }

  /** The read-back, the drift correction and the verdict. */
  method SettleProject(c: Controller, a: Answers, expected: Id, before: Status<Shown>) returns (act: Act)
    requires before == c.stored.status
    modifies c
    ensures c.Ended(act) == Settle(old(c.stored), old(c.Held()), a, expected)
  {
    if a.get.Failed? {
      act := c.Fail(Omit, ExternalReadFailed, a.patch);
      return;
    }
    if c.status.id !in c.remote.projects {
      act := c.Lose(Omit, "", Shown("", None), RemoteProjectMissing, a.patch);
      return;
    }
    var id, current := c.status.id, c.remote.projects[c.status.id];
    if Foreign(current, expected) {
      act := c.Fail(Omit, ExternalProjectMismatch, a.patch);
      return;
    }
    if NeedsUpdate(c.stored.spec, current) {
      var updated := Patched(c.stored.spec, current);
      c.wrote := true;
      if a.update.Reached() {
        c.Become(c.remote.(projects := c.remote.projects[id := updated]));
      }
      if a.update.Failed? {
        act := c.Fail(Omit, ExternalUpdateFailed, a.patch);
        return;
      }
      current := updated;
    }
    SetObservedState(c, id, current, a.listing);
    act := c.Finish(Omit, before, a.patch);
  }

  /** `Reconcile`. */
  method ReconcileProject(c: Controller, a: Answers) returns (act: Act)
    modifies c
    ensures c.Ended(act) == Reconcile(old(c.stored), old(c.remote), a)
  {
    c.Load();
    if c.stored.meta.gone {
      return Act(Idle, None, None, false, false);
    }
    if !c.stored.meta.deleting && c.stored.deletion == Delete {
      var added: bool;
      added, act := c.EnsureFinalizer(a.finalizer);
      if added {
        return;
      }
    }
    if c.stored.meta.deleting {
      act := ReconcileDeletion(c, a);
      return;
    }
    var before := c.status;
    if a.expected.NotReady? {
      act := c.Fail(Omit, OrganizationNotReady, a.patch);
      return;
    }
    if !a.connected {
      act := c.Fail(Omit, ConnectionNotReady, a.patch);
      return;
    }
    var error := AcquireProject(c, a, a.expected.organization);
    if error.None? {
      error := EnsureCreatorMembership(c, a);
    }
    if error.Some? {
      act := c.Fail(Omit, error.value, a.patch);
      return;
    }
    act := SettleProject(c, a, a.expected.organization, before);
  }

  /** `reconcileProjectDeletion`. */
  method ReconcileDeletion(c: Controller, a: Answers) returns (act: Act)
    modifies c
    ensures c.Ended(act) == Remove(old(c.stored), old(c.remote), a)
  {
    if c.stored.deletion != Delete || c.stored.status.id == "" {
      act := c.RemoveFinalizer(None, a.finalizer);
      return;
    }
    if !a.connected {
      return Act(Releasing, None, None, false, false);
    }
    act := c.DeleteThenRelease(c.remote.(projects := c.remote.projects - {c.stored.status.id}), a.delete, a.finalizer);
  }
}
