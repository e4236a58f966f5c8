/** The organization boundary across the project and the identity controller: which projects
    the operator ever writes role memberships in. */
module Tenancy {
  import opened Basics
  import opened Lifecycle
  import opened Memberships
  import opened Roles
  import opened Projects
  import I = Identities
  import LifecycleRuns

  /** The organization of a project never changes, and outlives the project in the register. */
  predicate Registered(s: Store) {
    forall id :: id in s.projects ==> id in s.owners && s.owners[id] == s.projects[id].organization
  }

  /** The stored status names the organization that owns the stored project. */
  predicate Truthful(o: ProjectObject, s: Store) {
    o.status.id != "" ==> o.status.id in s.owners && s.owners[o.status.id] == o.status.parent
  }

  predicate Grows(s: Store, t: Store) {
    forall id :: id in s.owners ==> id in t.owners && t.owners[id] == s.owners[id]
  }

  /** The membership is in a project of `org`. */
  predicate Within(owners: map<Id, Id>, org: Id, key: Key) {
    key.project in owners && owners[key.project] == org
  }

  /** What is stored about a project was stored for the organization it references now. */
  predicate Guarded(o: ProjectObject, org: Id) {
    o.status.id == "" || o.status.parent == org
  }

  /** The in-memory status of a project before it is read back. */
  predicate Grounded(g: ProjectProgress, s: Store) {
    && Registered(g.remote) && Grows(s, g.remote) && g.remote.members == s.members
    && (g.status.id != "" && g.error.None? ==> g.status.id in g.remote.owners && g.remote.owners[g.status.id] == g.status.parent)
  }

  lemma {:induction false} MakeGrounded(o: ProjectObject, s: Store, a: Projects.Answers, org: Id)
    requires Registered(s) && Truthful(o, s) && o.status.id == ""
    ensures var g := MakeProject(o, Start(o, s), a, org);
      Grounded(g, s) && (org != "" && g.error.None? ==> g.status.parent == org)
  {
  }

  lemma {:induction false} AcquireGrounded(o: ProjectObject, s: Store, a: Projects.Answers, org: Id)
    requires Registered(s) && Truthful(o, s)
    ensures var g := Acquire(o, s, a, org);
      && Grounded(g, s)
      && (org != "" && Guarded(o, org) && g.error.None? ==> g.status.parent == org)
  {
    if o.status.id == "" {
      MakeGrounded(o, s, a, org);
    }
  }

  lemma {:induction false} GrantLeavesRest(o: ProjectObject, g: ProjectProgress, a: Projects.Answers)
    ensures var h := Grant(o, g, a); h.status == g.status && h.remote == g.remote.(members := h.remote.members)
  {
  }

  /** The three ways a reconcile can leave the ID and the organization in the status. */
  predicate Leaves(o: ProjectObject, t: ProjectTurn, id: Id, org: Id) {
    || (t.obj.status.id == o.status.id && t.obj.status.parent == o.status.parent)
    || t.obj.status.id == ""
    || (t.obj.status.id == id && id in t.remote.projects && t.obj.status.parent == t.remote.projects[id].organization
          && !Foreign(t.remote.projects[id], org))
  }

  lemma {:induction false} FinishLeaves(o: ProjectObject, g: ProjectProgress, patch: Reply, p: Project, listing: Listing, org: Id)
    requires g.status.id in g.remote.projects && g.remote.projects[g.status.id] == p && !Foreign(p, org)
    ensures Leaves(o, Succeed(Omit, o, Observed(o, g, p, listing), patch), g.status.id, org)
  {
  }

  lemma {:induction false} SettleLeaves(o: ProjectObject, g: ProjectProgress, a: Projects.Answers, org: Id)
    requires g.status.id != ""
    ensures var t := Settle(o, g, a, org);
      && Leaves(o, t, g.status.id, org)
      && t.remote.owners == g.remote.owners && t.remote.members == g.remote.members
      && (Registered(g.remote) ==> Registered(t.remote))
  {
    var id := g.status.id;
    if a.get.Answered? && id in g.remote.projects && !Foreign(g.remote.projects[id], org) {
      var p := g.remote.projects[id];
      if NeedsUpdate(o.spec, p) && a.update.Answered? {
        var q := Patched(o.spec, p);
        FinishLeaves(o, g.(wrote := true, remote := g.remote.(projects := g.remote.projects[id := q])), a.patch, q, a.listing, org);
      } else {
        FinishLeaves(o, g, a.patch, p, a.listing, org);
      }
    }
  }

  lemma {:induction false} SettleTruthful(o: ProjectObject, g: ProjectProgress, a: Projects.Answers, org: Id, s: Store)
    requires Registered(g.remote) && Grows(s, g.remote) && Truthful(o, s)
    requires g.status.id != "" && (o.status.id == "" || g.status.id == o.status.id)
    ensures var t := Settle(o, g, a, org);
      && Registered(t.remote) && Truthful(t.obj, t.remote) && t.remote.owners == g.remote.owners && t.remote.members == g.remote.members
      && (org != "" && Guarded(o, org) ==> Guarded(t.obj, org))
  {
    SettleLeaves(o, g, a, org);
  }

  lemma {:induction false} ProjectStaysTruthful(o: ProjectObject, s: Store, a: Projects.Answers, org: Id)
    requires Registered(s) && Truthful(o, s) && a.expected in {NotReady, Expect(org)}
    ensures var t := Projects.Reconcile(o, s, a);
      && Registered(t.remote) && Truthful(t.obj, t.remote) && Grows(s, t.remote)
      && (org != "" && Guarded(o, org) ==> Guarded(t.obj, org))
  {
    if Active(o) && a.expected.Expect? && a.connected {
      AcquireGrounded(o, s, a, org);
      AcquireKeeps(o, s, a, org);
      var g := Acquire(o, s, a, org);
      if g.error.None? {
        GrantLeavesRest(o, g, a);
        var h := Grant(o, g, a);
        if h.error.None? {
          SettleTruthful(o, h, a, org, s);
        }
      }
    }
  }

  lemma {:induction false} AcquiredIsRegistered(o: ProjectObject, s: Store, a: Projects.Answers, key: Key)
    requires Registered(s) && Truthful(o, s) && SendsWrite(o, s, a, key)
    ensures var g := Acquire(o, s, a, a.expected.organization);
      && g.status.id == key.project && key.project in g.remote.owners && g.remote.owners[key.project] == g.status.parent
      && Projects.Reconcile(o, s, a).remote.owners == g.remote.owners
  {
    var org := a.expected.organization;
    AcquireGrounded(o, s, a, org);
    var g := Acquire(o, s, a, org);
    GrantLeavesRest(o, g, a);
    SettleLeaves(o, Grant(o, g, a), a, org);
  }

  /** One reconcile of a project keeps the register and the stored status truthful. If the
      project references an organization, and what is stored was stored for it, then the
      reconcile sends membership writes only for projects inside it, and that stays so. */
  lemma {:induction false} ProjectStaysInside(o: ProjectObject, s: Store, a: Projects.Answers, org: Id)
    requires Registered(s) && Truthful(o, s) && a.expected in {NotReady, Expect(org)}
    ensures var t := Projects.Reconcile(o, s, a);
      && Registered(t.remote) && Truthful(t.obj, t.remote) && Grows(s, t.remote)
      && (org != "" && Guarded(o, org) ==>
            Guarded(t.obj, org) && forall key :: SendsWrite(o, s, a, key) ==> Within(t.remote.owners, org, key))
  {
    ProjectStaysTruthful(o, s, a, org);
    if org != "" && Guarded(o, org) {
      forall key | SendsWrite(o, s, a, key) ensures Within(Projects.Reconcile(o, s, a).remote.owners, org, key) {
        AcquiredIsRegistered(o, s, a, key);
        AcquireGrounded(o, s, a, org);
      }
    }
  }

  /** Without that, the boundary is not kept: the reference can be added to a project that was
      acquired without one, and the grant comes before the organization is checked. For a
      reconcile in which the creator is not yet admin of the stored project and can be looked
      up, the grant stays inside exactly when the stored organization is the referenced one. */
  lemma {:induction false} GrantInsideExactlyWhenGuarded(o: ProjectObject, s: Store, a: Projects.Answers, org: Id)
    requires Registered(s) && Truthful(o, s) && Active(o)
    requires a.expected == Expect(org) && org != "" && a.connected && o.spec.bounded
    requires o.status.id in s.projects && o.status.id != "" && a.creator.Some? && a.creator.value != "" && a.seat.read.Answered?
    requires var key := Key(o.status.id, a.creator.value); !(key in s.members && ClientEqual(s.members[key], ADMIN))
    ensures (forall key :: SendsWrite(o, s, a, key) ==> Within(Projects.Reconcile(o, s, a).remote.owners, org, key)) <==> Guarded(o, org)
  {
    ProjectStaysInside(o, s, a, org);
    var key := Key(o.status.id, a.creator.value);
    assert SendsWrite(o, s, a, key);
    AcquiredIsRegistered(o, s, a, key);
  }

  /** It happens: a project is created without a reference, in some organization; a reference to
      another one is added; and the next reconcile grants the creator admin in it all the same. */
  lemma {:induction false} LateReferenceEscapes(o: ProjectObject, s: Store, a: Projects.Answers, b: Projects.Answers, org: Id)
    requires Registered(s) && LifecycleRuns.Untouched(o) && Active(o) && o.creation in {Unset, Create} && !o.spec.bounded && o.spec.name != ""
    requires a.expected == Expect("") && a.connected && a.create == a.get == a.update == a.patch == Answered && Usable(a.id, s.owners.Keys)
    requires b.expected == Expect(org) && org !in {"", a.organization} && b.connected && b.seat.read.Answered?
    requires b.creator.Some? && b.creator.value != "" && Key(a.id, b.creator.value) !in s.members
    ensures var t := Projects.Reconcile(o, s, a);
      var edited := t.obj.(spec := t.obj.spec.(bounded := true));
      var key := Key(a.id, b.creator.value);
      && t.act.outcome.Ready? && Edit(t.obj, edited) && SendsWrite(edited, t.remote, b, key)
      && !Within(Projects.Reconcile(edited, t.remote, b).remote.owners, org, key)
  {
    var t := Projects.Reconcile(o, s, a);
    CreatedOutside(o, s, a);
    var edited := t.obj.(spec := t.obj.spec.(bounded := true));
    var key := Key(a.id, b.creator.value);
    assert SendsWrite(edited, t.remote, b, key);
    AcquiredIsRegistered(edited, t.remote, b, key);
  }

  lemma {:induction false} CreatedOutside(o: ProjectObject, s: Store, a: Projects.Answers)
    requires Registered(s) && Active(o) && o.status.id == "" && o.creation in {Unset, Create} && !o.spec.bounded && o.spec.name != ""
    requires a.expected == Expect("") && a.connected && a.create == a.get == a.update == a.patch == Answered && Usable(a.id, s.owners.Keys)
    ensures var t := Projects.Reconcile(o, s, a);
      && t.act.outcome.Ready? && t.obj == o.(status := t.obj.status) && t.obj.status.id == a.id && t.obj.status.parent == a.organization
      && Registered(t.remote) && Truthful(t.obj, t.remote) && a.id in t.remote.projects && t.remote.members == s.members
  {
    assert Registered(Acquire(o, s, a, "").remote);
  }

  /** What an identity sees of the project resources. */
  function Seen(projects: map<string, ProjectObject>, name: string): Option<I.SeenProject> {
    if name in projects then Some(I.SeenProject(projects[name].status.id, projects[name].status.parent)) else None
  }

  predicate AllTruthful(projects: map<string, ProjectObject>, s: Store) {
    forall n :: n in projects ==> Truthful(projects[n], s)
  }

  /** Every role write that a reconcile of an organization-scoped identity sends is for a project
      of the organization that the identity references. */
  lemma {:induction false} IdentityStaysInside(o: I.IdentityObject, s: I.Store, a: I.Answers, projects: map<string, ProjectObject>, p: Store, org: Id, key: Key)
    requires o.spec.scope.OrganizationScope? && AllTruthful(projects, p)
    requires a.view.owner.Some? ==> a.view.owner.value in {"", org}
    requires forall n :: a.view.project(n) == Seen(projects, n)
    requires I.SendsWrite(o, s, a, key)
    ensures Within(p.owners, org, key)
  {
    I.AnchorLaw(o.spec, a.view);
    var bs := I.Resolved(o.spec.bindings, a.view);
    forall i | 0 <= i < |bs| ensures bs[i].project in p.owners && p.owners[bs[i].project] == org {
      var name := o.spec.bindings[i].projectRef;
      assert a.view.project(name) == Seen(projects, name);
      assert name in projects && Truthful(projects[name], p);
    }
  }

  /** All project and identity resources of a namespace over one Infisical. `home` is the
      organization that each resource references, by resource name; it is fixed. */
  datatype World = World(projects: map<string, ProjectObject>, identities: map<string, I.IdentityObject>, s: Store, known: map<Id, I.Identity>, issued: set<Id>)

  datatype Homes = Homes(projects: map<string, Id>, identities: map<string, Id>)

  datatype Event =
    | ReconcilesProject(name: string, a: Projects.Answers)
    | ReconcilesIdentity(name: string, b: I.Answers)
    | Elsewhere(s: Store, known: map<Id, I.Identity>, issued: set<Id>)
    | EditsProject(name: string, project: ProjectObject)
    | EditsIdentity(name: string, identity: I.IdentityObject)

  /** An event as the operator and its surroundings can produce it: reconciles see the observed
      organization or none yet, and the statuses as stored; others may change anything but the
      register; users may edit anything but a status, and create resources with an empty one. */
  ghost predicate Possible(h: Homes, w: World, e: Event) {
    match e
    case ReconcilesProject(n, a) => n in w.projects && a.expected in {NotReady, Expect(HomeOf(h.projects, n))}
    case ReconcilesIdentity(n, b) =>
      && n in w.identities && (forall m :: b.view.project(m) == Seen(w.projects, m))
      && (w.identities[n].spec.scope.OrganizationScope? && b.view.owner.Some? ==> b.view.owner.value in {"", HomeOf(h.identities, n)})
    case Elsewhere(s, _, _) => Registered(s) && Grows(w.s, s)
    case EditsProject(n, p) => if n in w.projects then p.status == w.projects[n].status else p.status.id == ""
    case EditsIdentity(_, _) => true
  }

  /** Empty for a resource that references no organization. */
  function HomeOf(homes: map<string, Id>, name: string): Id {
    if name in homes then homes[name] else ""
  }

  function After(w: World, e: Event): World {
    match e
    case ReconcilesProject(n, a) =>
      if n !in w.projects then w
      else
        var t := Projects.Reconcile(w.projects[n], w.s, a);
        w.(projects := w.projects[n := t.obj], s := t.remote)
    case ReconcilesIdentity(n, b) =>
      if n !in w.identities then w
      else
        var t := I.Reconcile(w.identities[n], MembersOf(w), b);
        w.(identities := w.identities[n := t.obj], s := w.s.(members := t.remote.members), known := t.remote.identities, issued := t.remote.issued)
    case Elsewhere(s, known, issued) => w.(s := s, known := known, issued := issued)
    case EditsProject(n, p) => w.(projects := w.projects[n := p])
    case EditsIdentity(n, i) => w.(identities := w.identities[n := i])
  }

  ghost predicate Sound(h: Homes, w: World) {
    && Registered(w.s) && AllTruthful(w.projects, w.s)
    && forall n :: n in w.projects && HomeOf(h.projects, n) != "" ==> Guarded(w.projects[n], h.projects[n])
  }

  /** The organization within which an event must stay, if it has one. */
  function Boundary(h: Homes, w: World, e: Event): Option<Id> {
    match e
    case ReconcilesProject(n, _) => if HomeOf(h.projects, n) != "" then Some(h.projects[n]) else None
    case ReconcilesIdentity(n, _) => if n in w.identities && w.identities[n].spec.scope.OrganizationScope? then Some(HomeOf(h.identities, n)) else None
    case _ => None
  }

  /** The reconcile sends a write for this membership, whether or not it arrives or changes
      anything. */
  ghost predicate Sends(w: World, e: Event, key: Key) {
    match e
    case ReconcilesProject(n, a) => n in w.projects && SendsWrite(w.projects[n], w.s, a, key)
    case ReconcilesIdentity(n, b) => n in w.identities && I.SendsWrite(w.identities[n], MembersOf(w), b, key)
    case _ => false
  }

  function MembersOf(w: World): I.Store {
    I.Store(w.known, w.issued, w.s.projects.Keys, w.s.members)
  }

  lemma {:induction false} StepSound(h: Homes, w: World, e: Event)
    requires Sound(h, w) && Possible(h, w, e)
    ensures Sound(h, After(w, e))
    ensures Boundary(h, w, e).Some? ==>
      forall key :: Sends(w, e, key) ==> Within(After(w, e).s.owners, Boundary(h, w, e).value, key)
  {
    match e
    case ReconcilesProject(n, a) => ProjectStaysInside(w.projects[n], w.s, a, HomeOf(h.projects, n));
    case ReconcilesIdentity(n, b) =>
      forall key | w.identities[n].spec.scope.OrganizationScope? && Sends(w, e, key) ensures Within(w.s.owners, HomeOf(h.identities, n), key) {
        IdentityStaysInside(w.identities[n], MembersOf(w), b, w.projects, w.s, HomeOf(h.identities, n), key);
      }
    case Elsewhere(s, _, _) =>
    case EditsProject(n, p) =>
    case EditsIdentity(_, _) =>
  }

  /** Reconciles change only memberships that they write to. */
  lemma {:induction false} ChangedOnlyIfSent(w: World, e: Event, key: Key)
    requires e.ReconcilesProject? || e.ReconcilesIdentity?
    ensures SameAt(w.s.members, After(w, e).s.members, key) || Sends(w, e, key)
  {
    match e
    case ReconcilesProject(n, a) =>
      if n in w.projects {
        ChangesAreSent(w.projects[n], w.s, a, key);
      }
    case ReconcilesIdentity(n, b) =>
      if n in w.identities {
        I.ChangesAreSent(w.identities[n], MembersOf(w), b, key);
      }
    case _ =>
  }

  function Run(w: World, es: seq<Event>): World {
    if es == [] then w else After(Run(w, es[..|es| - 1]), es[|es| - 1])
  }

  ghost predicate AllPossible(h: Homes, w: World, es: seq<Event>) {
    forall k :: 0 <= k < |es| ==> Possible(h, Run(w, es[..k]), es[k])
  }

  lemma {:induction false} RunSound(h: Homes, w: World, es: seq<Event>)
    requires Sound(h, w) && AllPossible(h, w, es)
    ensures Sound(h, Run(w, es))
  {
    if es != [] {
      var n := |es| - 1;
      forall k | 0 <= k < n ensures Possible(h, Run(w, es[..n][..k]), es[..n][k]) {
        assert es[..n][..k] == es[..k] && Possible(h, Run(w, es[..k]), es[k]);
      }
      RunSound(h, w, es[..n]);
      assert Possible(h, Run(w, es[..n]), es[n]);
      StepSound(h, Run(w, es[..n]), es[n]);
    }
  }

  /** The tenant boundary: in every reachable state, every membership write that is sent by a
      project reconcile, for a project that references an organization, or by an organization-
      scoped identity's, is for a project of the referenced organization. */
  lemma {:induction false} TenantBoundary(h: Homes, w: World, es: seq<Event>, e: Event)
    requires Sound(h, w) && AllPossible(h, w, es) && Possible(h, Run(w, es), e)
    ensures var v := Run(w, es);
      Boundary(h, v, e).Some? ==> forall key :: Sends(v, e, key) ==> Within(After(v, e).s.owners, Boundary(h, v, e).value, key)
  {
    RunSound(h, w, es);
    StepSound(h, Run(w, es), e);
  }
}
