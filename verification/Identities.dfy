/** The machine-identity reconciler: project- and organization-scoped identities, their drift,
    and their role memberships. */
module Identities {
  import opened Basics
  import opened Lifecycle
  import opened Memberships
  import opened Metadata
  import opened Roles
  import opened Sorting

  datatype Scope = ProjectScope | OrganizationScope | OtherScope

  /** A role binding names the project resource; the operator resolves it. */
  datatype RoleBinding = RoleBinding(projectRef: string, roles: seq<string>)

  /** The references to the owning resource may be absent, or present with an empty name;
      `role` is the organization role. */
  datatype Spec = Spec(
    scope: Scope, projectRef: Option<string>, organizationRef: Option<string>, name: string, role: string,
    protection: Option<bool>, metadata: Option<seq<Entry>>,
    roles: seq<string>, bindings: seq<RoleBinding>)

  datatype Identity = Identity(project: Id, organization: Id, name: string, role: string, protection: bool, metadata: seq<Entry>)

  /** The stored status keeps the project as the parent, and the organization. */
  type IdentityObject = Object<Spec, Id>

  datatype Store = Store(identities: map<Id, Identity>, issued: set<Id>, projects: set<Id>, members: Members)

  /** What the status of a project resource says. */
  datatype SeenProject = SeenProject(project: Id, organization: Id)

  /** What the reads of the referenced resources give: the observed ID of the owning project or
      organization (None when it cannot be read), and each project resource by name. */
  datatype View = View(owner: Option<Id>, project: string -> Option<SeenProject>)

  datatype Answers = Answers(
    finalizer: Reply, view: View, connected: bool,
    find: Reply, found: Option<Id>, create: Reply, id: Id,
    get: Reply, update: Reply, calls: nat -> Calls, patch: Reply, delete: Reply)

  type IdentityTurn = Turn<Spec, Id, Store>
  type IdentityProgress = Progress<Id, Store>

  const ORGANIZATION_ROLES: set<string> := {"admin", "member", "no-access"}

  /** `organizationRole`. */
  function WantedRole(spec: Spec): string {
    if spec.role == "" then "no-access" else spec.role
  }

  predicate DistinctRefs(bs: seq<RoleBinding>) {
    forall i, j :: 0 <= i < j < |bs| ==> bs[i].projectRef != bs[j].projectRef
  }

  predicate ValidBinding(b: RoleBinding) {
    b.projectRef != "" && Valid(b.roles)
  }

  predicate ValidBindings(bs: seq<RoleBinding>) {
    DistinctRefs(bs) && forall i :: 0 <= i < |bs| ==> ValidBinding(bs[i])
  }

  predicate ValidSpec(spec: Spec) {
    match spec.scope
    case ProjectScope =>
      spec.projectRef !in {None, Some("")} && spec.organizationRef.None? && spec.role == "" && spec.bindings == [] && Valid(spec.roles)
    case OrganizationScope =>
      spec.organizationRef !in {None, Some("")} && spec.projectRef in {None, Some("")} && (spec.role == "" || spec.role in ORGANIZATION_ROLES) && ValidBindings(spec.bindings)
    case OtherScope => false
  }

  /** The loop of `validateIdentitySpec` over the bindings. */
  method CheckBindings(bs: seq<RoleBinding>) returns (ok: bool)
    ensures ok <==> ValidBindings(bs)
  {
    var seen: set<string> := {};
    for i := 0 to |bs|
      invariant seen == set k | 0 <= k < i :: bs[k].projectRef
      invariant DistinctRefs(bs[..i]) && forall k :: 0 <= k < i ==> ValidBinding(bs[k])
    {
      if bs[i].projectRef == "" {
        return false;
      }
      if bs[i].projectRef in seen {
        ghost var k :| 0 <= k < i && bs[k].projectRef == bs[i].projectRef;
        return false;
      }
      seen := seen + {bs[i].projectRef};
      var slugs := ValidatedSlugs(bs[i].roles);
      if slugs.None? {
        assert !ValidBinding(bs[i]);
        return false;
      }
    }
    assert bs[..|bs|] == bs;
    ok := true;
  }

  /** `identityAnchor`: the owner's ID, once every bound project is observed in it. */
  datatype AnchorResult = Anchored(id: Id) | Unanchored(reason: Reason)

  function CheckBound(bs: seq<RoleBinding>, organization: Id, view: View): AnchorResult {
    if bs == [] then Anchored(organization)
    else match view.project(bs[0].projectRef)
      case None => Unanchored(OrganizationNotReady)
      case Some(seen) =>
        if seen.project == "" then Unanchored(OrganizationNotReady)
        else if seen.organization != organization then Unanchored(ConfigurationInvalid)
        else CheckBound(bs[1..], organization, view)
  }

  function Anchor(spec: Spec, view: View): AnchorResult {
    if spec.scope.OrganizationScope? then
      if view.owner.None? || view.owner.value == "" then Unanchored(OrganizationNotReady)
      else CheckBound(spec.bindings, view.owner.value, view)
    else if view.owner.None? || view.owner.value == "" then Unanchored(ProjectNotReady)
    else Anchored(view.owner.value)
  }

  /** The loop of `identityAnchor`. */
  method AnchorBindings(bs: seq<RoleBinding>, organization: Id, view: View) returns (r: AnchorResult)
    ensures r == CheckBound(bs, organization, view)
  {
    for i := 0 to |bs|
      invariant CheckBound(bs[i..], organization, view) == CheckBound(bs, organization, view)
    {
      assert bs[i..][0] == bs[i] && bs[i..][1..] == bs[i + 1..];
      var project := view.project(bs[i].projectRef);
      if project.None? || project.value.project == "" {
        return Unanchored(OrganizationNotReady);
      }
      if project.value.organization != organization {
        return Unanchored(ConfigurationInvalid);
      }
    }
    r := Anchored(organization);
  }

  /** The bindings as the membership loop resolves them. */
  function Resolved(bs: seq<RoleBinding>, view: View): (r: seq<Binding>)
    ensures |r| == |bs|
  {
    seq(|bs|, i requires 0 <= i < |bs| =>
      Binding(match view.project(bs[i].projectRef) case None => "" case Some(seen) => seen.project, bs[i].roles))
  }

  /** `validateObservedIdentity` rejects the identity. */
  predicate Misplaced(spec: Spec, i: Identity, anchor: Id) {
    if spec.scope.OrganizationScope? then i.organization != "" && i.organization != anchor
    else i.project != "" && i.project != anchor
  }

  predicate Matching(spec: Spec, s: Store, found: Option<Id>) {
    found.Some? && found.value in s.identities && found.value != "" && s.identities[found.value].name == spec.name
  }

  /** `setIdentityObservedState`. */
  function Observe(o: IdentityObject, m: Status<Id>, id: Id, anchor: Id): Status<Id> {
    if o.spec.scope.OrganizationScope? then Status(id, "", o.meta.generation, m.ready, anchor)
    else Status(id, anchor, o.meta.generation, m.ready, "")
  }

  /** `identityNeedsUpdate`. */
  predicate NeedsUpdate(spec: Spec, i: Identity) {
    || i.name != spec.name
    || (spec.protection.Some? && i.protection != spec.protection.value)
    || (spec.scope.OrganizationScope? && i.role != WantedRole(spec))
    || !Matches(spec.metadata, i.metadata)
  }

  function Patched(spec: Spec, i: Identity): Identity {
    i.(name := if spec.name != "" then spec.name else i.name,
       protection := if spec.protection.Some? then spec.protection.value else i.protection,
       role := if spec.scope.OrganizationScope? then WantedRole(spec) else i.role,
       metadata := if spec.metadata.Some? then spec.metadata.value else i.metadata)
  }

  function NewIdentity(spec: Spec, anchor: Id): Identity {
    Identity(if spec.scope.OrganizationScope? then "" else anchor, if spec.scope.OrganizationScope? then anchor else "",
             spec.name, if spec.scope.OrganizationScope? then WantedRole(spec) else "",
             spec.protection.Some? && spec.protection.value, if spec.metadata.Some? then spec.metadata.value else [])
  }

  function Acquire(o: IdentityObject, s: Store, a: Answers, anchor: Id): IdentityProgress {
    var g := Start(o, s);
    if o.status.id != "" then g
    else if o.creation.CanAdopt() && a.find.Failed? then g.(error := Some(ExternalReadFailed))
    else if o.creation.CanAdopt() && Matching(o.spec, s, a.found) then
      if Misplaced(o.spec, s.identities[a.found.value], anchor) then g.(error := Some(ExternalIdentityMismatch))
      else g.(status := Observe(o, g.status, a.found.value, anchor))
    else if !o.creation.CanCreate() then g.(error := Some(CreationNotAllowed))
    else if !(Usable(a.id, s.issued) && a.create.Reached()) then g.(wrote := true, error := Some(ExternalCreateFailed))
    else
      var made := g.(remote := s.(identities := s.identities[a.id := NewIdentity(o.spec, anchor)], issued := s.issued + {a.id}),
                     created := Some(a.id), wrote := true);
      if a.create.Failed? then made.(error := Some(ExternalCreateFailed))
      else made.(status := Observe(o, g.status, a.id, anchor))
  }

  function CallsFor(a: Answers, n: nat): (r: seq<Calls>)
    ensures |r| == n
  {
    seq(n, (i: nat) => a.calls(i))
  }

  /** The memberships the identity declares, after it has been observed. */
  function Bind(o: IdentityObject, g: IdentityProgress, a: Answers, anchor: Id): IdentityProgress {
    if o.spec.scope.OrganizationScope? then
      var bs := Resolved(o.spec.bindings, a.view);
      var r := BindAll(g.remote.projects, g.remote.members, g.status.id, bs, CallsFor(a, |bs|));
      g.(remote := g.remote.(members := r.members), wrote := g.wrote || Total(r.writes) > 0,
         error := if r.ok then None else Some(RoleMembershipReconcileFailed))
    else
      var r := BindOne(g.remote.projects, g.remote.members, Key(anchor, g.status.id), Sort(o.spec.roles), a.calls(0));
      g.(remote := g.remote.(members := r.members), wrote := g.wrote || r.writes > 0,
         error := if r.ok then None else Some(RoleMembershipReconcileFailed))
  }

  /** Read by ID and correct drift; an error ends the reconcile. */
  function Adjust(o: IdentityObject, g: IdentityProgress, a: Answers, anchor: Id): IdentityProgress
    requires g.status.id in g.remote.identities
  {
    var id, i := g.status.id, g.remote.identities[g.status.id];
    if Misplaced(o.spec, i, anchor) then g.(error := Some(ExternalIdentityMismatch))
    else if !NeedsUpdate(o.spec, i) then g.(status := Observe(o, g.status, id, anchor))
    else
      var h := g.(wrote := true,
                  remote := if a.update.Reached() then g.remote.(identities := g.remote.identities[id := Patched(o.spec, i)]) else g.remote);
      if a.update.Failed? then h.(error := Some(ExternalUpdateFailed))
      else h.(status := Observe(o, h.status, id, anchor))
  }

  function Settle(o: IdentityObject, g: IdentityProgress, a: Answers, anchor: Id): IdentityTurn {
    if a.get.Failed? then Report(Same, o, g, ExternalReadFailed, a.patch)
    else if g.status.id !in g.remote.identities then Forget(Same, o, g, "", "", RemoteIdentityMissing, a.patch)
    else
      var h := Adjust(o, g, a, anchor);
      if h.error.Some? then Report(Same, o, h, h.error.value, a.patch)
      else
        var k := Bind(o, h, a, anchor);
        if k.error.Some? then Report(Same, o, k, k.error.value, a.patch)
        else Succeed(Same, o, k, a.patch)
  }

  function Sync(o: IdentityObject, s: Store, a: Answers): IdentityTurn {
    if !ValidSpec(o.spec) then Report(Same, o, Start(o, s), ConfigurationInvalid, a.patch)
    else match Anchor(o.spec, a.view)
      case Unanchored(reason) => Report(Same, o, Start(o, s), reason, a.patch)
      case Anchored(anchor) =>
        if !a.connected then Report(Same, o, Start(o, s), ConnectionNotReady, a.patch)
        else
          var g := Acquire(o, s, a, anchor);
          if g.error.Some? then Report(Same, o, g, g.error.value, a.patch)
          else Settle(o, g, a, anchor)
  }

  /** `reconcileIdentityDeletion`. */
  function Remove(o: IdentityObject, s: Store, a: Answers): IdentityTurn {
    if o.deletion != Delete || o.status.id == "" then Release(o, s, None, a.finalizer)
    else if !a.connected then Turn(o, s, Act(Releasing, None, None, false, false))
    else if !o.spec.scope.OrganizationScope? && o.status.parent == "" then Release(o, s, None, a.finalizer)
    else DeleteRemote(o, s, s.(identities := s.identities - {o.status.id}), a.delete, a.finalizer)
  }

  /** One reconcile of one identity. */
  function Reconcile(o: IdentityObject, s: Store, a: Answers): IdentityTurn {
    if o.meta.gone then Skip(o, s)
    else if NeedsFinalizer(o) then AddFinalizer(o, s, a.finalizer)
    else if o.meta.deleting then Remove(o, s, a)
    else Sync(o, s, a)
  }

  /** Progress from which every way of ending keeps the contract. */
  predicate Sane(o: IdentityObject, g: IdentityProgress) {
    && Active(o) && g.status.ready == o.status.ready
    && g.status.id != "" && (o.status.id == "" || g.status.id == o.status.id)
    && (g.created.Some? ==> o.status.id == "" && g.created.value != "" && g.status.id == g.created.value)
  }

  lemma {:induction false} AcquireKeeps(o: IdentityObject, s: Store, a: Answers, anchor: Id)
    requires Active(o)
    ensures var g := Acquire(o, s, a, anchor);
      && g.status.ready == o.status.ready
      && (g.created.Some? ==> o.status.id == "" && g.created.value != "")
      && (g.error.None? ==> Sane(o, g))
  {
  }

  lemma {:induction false} CheckBoundLaw(bs: seq<RoleBinding>, organization: Id, view: View, i: nat)
    requires CheckBound(bs, organization, view).Anchored? && i < |bs|
    ensures var seen := view.project(bs[i].projectRef);
      seen.Some? && seen.value.project != "" && seen.value.organization == organization
  {
    if i > 0 {
      CheckBoundLaw(bs[1..], organization, view, i - 1);
    }
  }

  lemma {:induction false} CheckBoundAnchors(bs: seq<RoleBinding>, organization: Id, view: View)
    ensures CheckBound(bs, organization, view).Anchored? ==> CheckBound(bs, organization, view).id == organization
  {
    if bs != [] {
      CheckBoundAnchors(bs[1..], organization, view);
    }
  }

  /** An anchor is never empty, and every bound project was observed in it. */
  lemma {:induction false} AnchorLaw(spec: Spec, view: View)
    requires Anchor(spec, view).Anchored?
    ensures view.owner == Some(Anchor(spec, view).id) && Anchor(spec, view).id != ""
    ensures spec.scope.OrganizationScope? ==> forall i :: 0 <= i < |spec.bindings| ==>
      view.project(spec.bindings[i].projectRef) == Some(SeenProject(Resolved(spec.bindings, view)[i].project, Anchor(spec, view).id))
      && Resolved(spec.bindings, view)[i].project != ""
  {
    if spec.scope.OrganizationScope? {
      CheckBoundAnchors(spec.bindings, view.owner.value, view);
      forall i | 0 <= i < |spec.bindings|
        ensures view.project(spec.bindings[i].projectRef) == Some(SeenProject(Resolved(spec.bindings, view)[i].project, Anchor(spec, view).id))
        ensures Resolved(spec.bindings, view)[i].project != ""
      {
        CheckBoundLaw(spec.bindings, view.owner.value, view, i);
      }
    }
  }

  lemma {:induction false} AdjustSane(o: IdentityObject, g: IdentityProgress, a: Answers, anchor: Id)
    requires Sane(o, g) && g.status.id in g.remote.identities && anchor != ""
    ensures var h := Adjust(o, g, a, anchor);
      Sane(o, h) && (h.error.None? ==> h.status.observed == o.meta.generation && (o.spec.scope.OrganizationScope? || h.status.parent != ""))
  {
  }

  lemma {:induction false} BindSane(o: IdentityObject, g: IdentityProgress, a: Answers, anchor: Id)
    requires Sane(o, g)
    ensures var h := Bind(o, g, a, anchor); Sane(o, h) && h.status == g.status
  {
  }

  lemma {:induction false} SettleSteps(o: IdentityObject, g: IdentityProgress, a: Answers, anchor: Id)
    requires Sane(o, g) && anchor != ""
    ensures var t := Settle(o, g, a, anchor); Step(!o.spec.scope.OrganizationScope?, o, t.act, t.obj)
  {
    var needsParent := !o.spec.scope.OrganizationScope?;
    if a.get.Failed? {
      ReportSteps(Same, needsParent, o, g, ExternalReadFailed, a.patch);
    } else if g.status.id !in g.remote.identities {
      ForgetSteps(Same, needsParent, o, g, "", "", RemoteIdentityMissing, a.patch);
    } else {
      AdjustSane(o, g, a, anchor);
      var h := Adjust(o, g, a, anchor);
      if h.error.Some? {
        ReportSteps(Same, needsParent, o, h, h.error.value, a.patch);
      } else {
        BindSane(o, h, a, anchor);
        var k := Bind(o, h, a, anchor);
        if k.error.Some? {
          ReportSteps(Same, needsParent, o, k, k.error.value, a.patch);
        } else {
          SucceedSteps(Same, needsParent, o, k, a.patch);
        }
      }
    }
  }

  /** Whatever the calls answer, a reconcile keeps the lifecycle contract; deleting a
      project-scoped identity needs the project ID, and its stored ID always comes with one. */
  lemma {:induction false} ReconcileSteps(o: IdentityObject, s: Store, a: Answers)
    ensures var t := Reconcile(o, s, a); Step(!o.spec.scope.OrganizationScope?, o, t.act, t.obj)
  {
    if Active(o) {
      if ValidSpec(o.spec) && Anchor(o.spec, a.view).Anchored? && a.connected {
        var anchor := Anchor(o.spec, a.view).id;
        AnchorLaw(o.spec, a.view);
        AcquireKeeps(o, s, a, anchor);
        var g := Acquire(o, s, a, anchor);
        if g.error.None? {
          SettleSteps(o, g, a, anchor);
        }
      }
    }
  }

  /** Drift-patch law: after the patch the drift test is false unless a wanted metadata key
      repeats (or the wanted name is blank); unset fields keep their values. */
  lemma {:induction false} PatchSettlesDrift(spec: Spec, i: Identity)
    ensures NeedsUpdate(spec, Patched(spec, i))
      <==> (spec.metadata.Some? && !UniqueKeys(spec.metadata.value)) || (spec.name == "" && i.name != "")
    ensures spec.protection.None? ==> Patched(spec, i).protection == i.protection
    ensures spec.metadata.None? ==> Patched(spec, i).metadata == i.metadata
    ensures !spec.scope.OrganizationScope? ==> Patched(spec, i).role == i.role
    ensures Patched(spec, i).project == i.project && Patched(spec, i).organization == i.organization
  {
    if spec.metadata.Some? {
      WrittenMatches(spec.metadata.value);
    }
  }

  /** Everything the spec manages about the identity itself; wanted metadata is observed as
      `Matches` has it, which is equality as multisets when no wanted value is empty. */
  predicate Managed(spec: Spec, i: Identity, anchor: Id) {
    && i.name == spec.name && !Misplaced(spec, i, anchor)
    && (spec.protection.Some? ==> i.protection == spec.protection.value)
    && (spec.scope.OrganizationScope? ==> i.role == WantedRole(spec))
    && (spec.metadata.Some? && UniqueKeys(spec.metadata.value) ==> Matches(spec.metadata, i.metadata))
  }

  lemma {:induction false} AdjustIsSound(o: IdentityObject, g: IdentityProgress, a: Answers, anchor: Id)
    requires g.status.id in g.remote.identities && o.spec.name != "" && Adjust(o, g, a, anchor).error.None?
    ensures var h := Adjust(o, g, a, anchor);
      && h.status.id == g.status.id && h.status.id in h.remote.identities
      && h.remote.members == g.remote.members && h.remote.projects == g.remote.projects
      && Managed(o.spec, h.remote.identities[h.status.id], anchor)
  {
    PatchSettlesDrift(o.spec, g.remote.identities[g.status.id]);
  }

  /** The memberships that a successful reconcile leaves: each bound project's roles are those
      of its last binding that declares any, so a binding is granted exactly when that one
      declares the same. */
  ghost predicate Bound(o: IdentityObject, a: Answers, members: Members, id: Id, anchor: Id) {
    if o.spec.scope.OrganizationScope? then
      var bs := Resolved(o.spec.bindings, a.view);
      forall i :: 0 <= i < |bs| && bs[i].roles != [] ==> AsTheLast(bs, members, id, i)
    else
      o.spec.roles != [] ==> Key(anchor, id) in members && Grants(members[Key(anchor, id)], o.spec.roles)
  }

  ghost predicate AsTheLast(bs: seq<Binding>, members: Members, id: Id, i: nat)
    requires i < |bs|
  {
    var key := Key(bs[i].project, id);
    && LastOf(bs, bs[i].project).Some? && key in members
    && var last := bs[LastOf(bs, bs[i].project).value];
    && Grants(members[key], last.roles)
    && (Grants(members[key], bs[i].roles) <==> multiset(bs[i].roles) == multiset(last.roles))
  }

  lemma {:induction false} BindIsSound(o: IdentityObject, g: IdentityProgress, a: Answers, anchor: Id)
    requires ValidSpec(o.spec) && g.error.None? && Bind(o, g, a, anchor).error.None?
    ensures var k := Bind(o, g, a, anchor);
      k.status == g.status && k.remote.identities == g.remote.identities && Bound(o, a, k.remote.members, g.status.id, anchor)
  {
    if o.spec.scope.OrganizationScope? {
      BindingsAreGranted(g, a, Resolved(o.spec.bindings, a.view));
    } else {
      DeclaredLaw(g.remote.projects, g.remote.members, Key(anchor, g.status.id), o.spec.roles, a.calls(0));
    }
  }

  lemma {:induction false} BindingsAreGranted(g: IdentityProgress, a: Answers, bs: seq<Binding>)
    requires BindAll(g.remote.projects, g.remote.members, g.status.id, bs, CallsFor(a, |bs|)).ok
    ensures var members := BindAll(g.remote.projects, g.remote.members, g.status.id, bs, CallsFor(a, |bs|)).members;
      forall i :: 0 <= i < |bs| && bs[i].roles != [] ==> AsTheLast(bs, members, g.status.id, i)
  {
    var calls := CallsFor(a, |bs|);
    forall i | 0 <= i < |bs| && bs[i].roles != []
      ensures AsTheLast(bs, BindAll(g.remote.projects, g.remote.members, g.status.id, bs, calls).members, g.status.id, i)
    {
      LastBindingWins(g.remote.projects, g.remote.members, g.status.id, bs, calls, bs[i].project);
    }
  }

  /** A reconcile that succeeds went through every step without an error. */
  lemma {:induction false} ReadyArrives(o: IdentityObject, s: Store, a: Answers)
    requires Reconcile(o, s, a).act.outcome.Ready?
    ensures Active(o) && ValidSpec(o.spec) && Anchor(o.spec, a.view).Anchored?
    ensures var anchor := Anchor(o.spec, a.view).id;
      var g := Acquire(o, s, a, anchor);
      && g.error.None? && g.status.id in g.remote.identities
      && Adjust(o, g, a, anchor).error.None? && Bind(o, Adjust(o, g, a, anchor), a, anchor).error.None?
      && Reconcile(o, s, a) == Succeed(Same, o, Bind(o, Adjust(o, g, a, anchor), a, anchor), a.patch)
  {
  }

  /** Ready is sound: the identity exists under its owner with every managed field as wanted,
      and holds exactly the declared permanent roles, in its project or in each bound one,
      where the last binding of a project that declares roles counts. */
  lemma {:induction false} ReadyIsSound(o: IdentityObject, s: Store, a: Answers)
    requires Reconcile(o, s, a).act.outcome.Ready? && a.patch.Reached() && o.spec.name != ""
    ensures var t := Reconcile(o, s, a);
      && t.obj.status.ready == Some(Verdict(true, Reconciled, o.meta.generation))
      && Anchor(o.spec, a.view).Anchored? && t.obj.status.id in t.remote.identities
      && Managed(o.spec, t.remote.identities[t.obj.status.id], Anchor(o.spec, a.view).id)
      && Bound(o, a, t.remote.members, t.obj.status.id, Anchor(o.spec, a.view).id)
  {
    ReadyArrives(o, s, a);
    var anchor := Anchor(o.spec, a.view).id;
    var g := Acquire(o, s, a, anchor);
    AdjustIsSound(o, g, a, anchor);
    BindIsSound(o, Adjust(o, g, a, anchor), a, anchor);
  }

  /** What the reconcile reports about itself is what happened outside: exactly the entity it
      created is new, under an ID never issued before; without a delete call none is gone, and
      after a confirmed one exactly the entity it was sent for is. */
  lemma {:induction false} ActIsReal(o: IdentityObject, s: Store, a: Answers)
    ensures var t := Reconcile(o, s, a);
      && t.remote.issued == s.issued + (if t.act.created.Some? then {t.act.created.value} else {})
      && (t.act.created.Some? ==> t.act.created.value !in s.issued)
      && (t.act.sent.None? ==> s.identities.Keys <= t.remote.identities.Keys)
      && (t.act.confirmed ==> t.act.sent.Some? && t.remote.identities == s.identities - {t.act.sent.value})
  {
    if Active(o) && ValidSpec(o.spec) && Anchor(o.spec, a.view).Anchored? && a.connected {
      var anchor := Anchor(o.spec, a.view).id;
      AcquireIsReal(o, s, a, anchor);
      SettleIsReal(o, Acquire(o, s, a, anchor), a, anchor);
    }
  }

  lemma {:induction false} AcquireIsReal(o: IdentityObject, s: Store, a: Answers, anchor: Id)
    ensures var g := Acquire(o, s, a, anchor);
      && g.remote.issued == s.issued + (if g.created.Some? then {g.created.value} else {})
      && (g.created.Some? ==> g.created.value !in s.issued) && s.identities.Keys <= g.remote.identities.Keys
  {
  }

  lemma {:induction false} SettleIsReal(o: IdentityObject, g: IdentityProgress, a: Answers, anchor: Id)
    ensures var t := Settle(o, g, a, anchor);
      && t.remote.issued == g.remote.issued && t.remote.identities.Keys == g.remote.identities.Keys
      && t.act.created == g.created && t.act.sent.None?
  {
    if a.get.Answered? && g.status.id in g.remote.identities {
      var h := Adjust(o, g, a, anchor);
      assert h.remote.issued == g.remote.issued && h.remote.identities.Keys == g.remote.identities.Keys && h.created == g.created;
      var k := Bind(o, h, a, anchor);
      assert k.remote.issued == h.remote.issued && k.remote.identities == h.remote.identities && k.created == h.created;
    }
  }

  /** The reconcile sends a write for this membership, whether or not it arrives or changes
      anything. */
  ghost predicate SendsWrite(o: IdentityObject, s: Store, a: Answers, key: Key) {
    && Active(o) && ValidSpec(o.spec) && a.connected && a.get.Answered? && Anchor(o.spec, a.view).Anchored?
    && var anchor := Anchor(o.spec, a.view).id;
    var g := Acquire(o, s, a, anchor);
    && g.error.None? && g.status.id in g.remote.identities
    && var h := Adjust(o, g, a, anchor);
    && h.error.None? && BindSends(o, h, a, anchor, key)
  }

  ghost predicate BindSends(o: IdentityObject, g: IdentityProgress, a: Answers, anchor: Id, key: Key) {
    if o.spec.scope.OrganizationScope? then
      var bs := Resolved(o.spec.bindings, a.view);
      WroteTo(BindAll(g.remote.projects, g.remote.members, g.status.id, bs, CallsFor(a, |bs|)), bs, g.status.id, key)
    else
      && key == Key(anchor, g.status.id)
      && BindOne(g.remote.projects, g.remote.members, key, Sort(o.spec.roles), a.calls(0)).writes > 0
  }

  lemma {:induction false} BindChanges(o: IdentityObject, g: IdentityProgress, a: Answers, anchor: Id, key: Key)
    ensures SameAt(g.remote.members, Bind(o, g, a, anchor).remote.members, key) || BindSends(o, g, a, anchor, key)
  {
    if o.spec.scope.OrganizationScope? {
      var bs := Resolved(o.spec.bindings, a.view);
      ChangedWasWritten(g.remote.projects, g.remote.members, g.status.id, bs, CallsFor(a, |bs|), key);
    } else {
      OneChangedWasWritten(g.remote.projects, g.remote.members, Key(anchor, g.status.id), Sort(o.spec.roles), a.calls(0), key);
    }
  }

  lemma {:induction false} AcquireLeavesMembers(o: IdentityObject, s: Store, a: Answers, anchor: Id)
    ensures Acquire(o, s, a, anchor).remote.members == s.members
  {
  }

  lemma {:induction false} SettleChanges(o: IdentityObject, g: IdentityProgress, a: Answers, anchor: Id, key: Key)
    ensures SameAt(g.remote.members, Settle(o, g, a, anchor).remote.members, key)
      || (a.get.Answered? && g.status.id in g.remote.identities && Adjust(o, g, a, anchor).error.None?
          && BindSends(o, Adjust(o, g, a, anchor), a, anchor, key))
  {
    if a.get.Answered? && g.status.id in g.remote.identities {
      BindChanges(o, Adjust(o, g, a, anchor), a, anchor, key);
    }
  }

  /** A membership that changed was written to. */
  lemma {:induction false} ChangesAreSent(o: IdentityObject, s: Store, a: Answers, key: Key)
    ensures SameAt(s.members, Reconcile(o, s, a).remote.members, key) || SendsWrite(o, s, a, key)
  {
    if Active(o) && ValidSpec(o.spec) && Anchor(o.spec, a.view).Anchored? && a.connected {
      var anchor := Anchor(o.spec, a.view).id;
      AcquireLeavesMembers(o, s, a, anchor);
      SettleChanges(o, Acquire(o, s, a, anchor), a, anchor, key);
    }
  }
}
