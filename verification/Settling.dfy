/** What one reconcile does when every call succeeds, kind by kind: a settled resource stays
    as it is; a resource that was never acquired settles as soon as what it depends on is there;
    and a resource whose dependency is not there only reports that it waits. */
module Settling {
  import opened Basics
  import opened Lifecycle
  import opened Memberships
  import opened Roles
  import opened Sorting
  import O = Organizations
  import P = Projects
  import E = Environments
  import I = Identities
  import K = KubernetesAuths
  import U = UniversalAuths
  import Agreement
  import Metadata

  const QUIET := U.At(U.NOTHING, Answered)

  /** An object under policy Create that is not being deleted. */
  predicate Usual<S, X>(o: Object<S, X>) {
    !o.meta.deleting && !o.meta.gone && o.creation in {Unset, Create}
  }

  predicate Verdicted<S, X>(o: Object<S, X>) {
    o.status.observed == o.meta.generation && o.status.ready == Some(Verdict(true, Reconciled, o.meta.generation))
  }

  /** The outcome of a reconcile that finds everything in place; `patches` says whether it sends
      a status patch all the same, one without content. */
  function Undisturbed<S, X, R>(o: Object<S, X>, r: R, patches: bool): Turn<S, X, R> {
    Turn(o, r, Act(Ready, None, None, false, patches))
  }

  /** A resource that waits: nothing acquired, nothing changed outside. */
  ghost predicate Waits<S, X, R>(o: Object<S, X>, r: R, t: Turn<S, X, R>) {
    t.remote == r && t.obj == o.(status := o.status.(observed := t.obj.status.observed, ready := t.obj.status.ready))
  }

  // ----- organizations

  function OrganizationAnswers(id: Id): O.Answers {
    O.Answers(Answered, true, true, true, Answered, None, Answered, id, Answered, Answered, Answered)
  }

  predicate OrganizationSettled(o: O.OrganizationObject, s: O.Store) {
    && Active(o) && Usual(o) && O.ValidSpec(o) && Verdicted(o)
    && o.status.id != "" && o.status.id in s.names && o.status.parent == "" && o.status.rest == s.names[o.status.id]
  }

  lemma {:induction false} OrganizationStays(o: O.OrganizationObject, s: O.Store, id: Id)
    requires OrganizationSettled(o, s)
    ensures O.Reconcile(o, s, OrganizationAnswers(id)) == Undisturbed(o, s, false)
  {
  }

  lemma {:induction false} OrganizationSettles(o: O.OrganizationObject, s: O.Store, id: Id)
    requires Active(o) && Usual(o) && O.ValidSpec(o) && o.status.id == "" && Usable(id, s.issued)
    ensures var t := O.Reconcile(o, s, OrganizationAnswers(id));
      OrganizationSettled(t.obj, t.remote) && t.obj == o.(status := t.obj.status)
      && t.remote == O.Store(s.names[id := o.spec.name], s.issued + {id}) && t.obj.status.id == id
  {
  }

  // ----- projects

  /** `home` is where the server places a project that references no organization. */
  function ProjectAnswers(expected: P.Expected, home: Id, id: Id, slug: string, creator: Id, listing: P.Listing): P.Answers {
    P.Answers(Answered, expected, true, listing, Answered, None, Answered, id, Placement(expected, home), slug,
              Some(creator), Seat(Answered, Answered), Answered, Answered, Answered, Answered)
  }

  function Placement(expected: P.Expected, home: Id): Id {
    if expected.Expect? && expected.organization != "" then expected.organization else home
  }

  /** The creator needs no membership, or is admin. */
  predicate CreatorSeated(o: P.ProjectObject, s: P.Store, creator: Id) {
    o.spec.bounded && creator != "" ==>
      Key(o.status.id, creator) in s.members && ClientEqual(s.members[Key(o.status.id, creator)], P.ADMIN)
  }

  /** At most the grant to the creator was added. */
  predicate MayGrant(m: Members, n: Members, id: Id, creator: Id) {
    n == m || (creator != "" && n == m[Key(id, creator) := Permanent(P.ADMIN)])
  }

  /** Settled, whichever environments the status lists. */
  predicate ProjectSettled(o: P.ProjectObject, s: P.Store, org: Id, creator: Id) {
    && Active(o) && Usual(o) && o.spec.name != "" && Verdicted(o) && P.ReadBack(o)
    && o.status.id != "" && o.status.id in s.projects
    && var p := s.projects[o.status.id];
    && o.status.parent == p.organization && o.status.rest.slug == p.slug
    && !P.NeedsUpdate(o.spec, p) && !P.Foreign(p, org) && CreatorSeated(o, s, creator)
  }

  /** A settled project with another list of environments. */
  function Relisted(o: P.ProjectObject, listing: Option<P.Listing>): P.ProjectObject {
    o.(status := o.status.(rest := o.status.rest.(listing := listing)))
  }

  /** A reconcile of a settled project brings its list of environments up to date, and writes
      exactly when the list observed differs from the one read back, which is never an empty one. */
  lemma {:induction false} ProjectRelists(o: P.ProjectObject, s: P.Store, org: Id, creator: Id, home: Id, id: Id, slug: string, listing: P.Listing)
    requires ProjectSettled(o, s, org, creator)
    ensures P.Reconcile(o, s, ProjectAnswers(P.Expect(org), home, id, slug, creator, listing))
      == Turn(Relisted(o, P.Left(Some(listing))), s, Act(Ready, None, None, false, o.status.rest.listing != Some(listing)))
  {
  }

  lemma {:induction false} ProjectWaits(o: P.ProjectObject, s: P.Store, creator: Id, home: Id, id: Id, slug: string, listing: P.Listing)
    requires Active(o)
    ensures Waits(o, s, P.Reconcile(o, s, ProjectAnswers(P.NotReady, home, id, slug, creator, listing)))
  {
  }

  /** A project that was just created, and its creator seated. */
  lemma {:induction false} ProjectIsBorn(o: P.ProjectObject, s: P.Store, org: Id, creator: Id, home: Id, id: Id, slug: string, listing: P.Listing)
    requires Active(o) && Usual(o) && o.status.id == "" && Usable(id, s.owners.Keys) && Key(id, creator) !in s.members
    ensures var a := ProjectAnswers(P.Expect(org), home, id, slug, creator, listing);
      var p := P.NewProject(o.spec, a);
      var g := P.Acquire(o, s, a, org);
      var h := P.Grant(o, g, a);
      && g.error.None? && h.error.None? && h.status == P.Observe(o, o.status, id, p, listing) && h.created == Some(id)
      && h.remote.projects == s.projects[id := p] && h.remote.owners == s.owners[id := Placement(P.Expect(org), home)]
      && MayGrant(s.members, h.remote.members, id, creator)
      && (o.spec.bounded && creator != "" ==> Key(id, creator) in h.remote.members && ClientEqual(h.remote.members[Key(id, creator)], P.ADMIN))
  {
    assert Valid(P.ADMIN);
    WrittenRolesAreGranted(P.ADMIN);
  }

  lemma {:induction false} ProjectSettles(o: P.ProjectObject, s: P.Store, org: Id, creator: Id, home: Id, id: Id, slug: string, listing: P.Listing)
    requires Active(o) && Usual(o) && o.spec.name != "" && o.status.id == "" && P.ReadBack(o) && Usable(id, s.owners.Keys)
    requires Key(id, creator) !in s.members
    ensures var t := P.Reconcile(o, s, ProjectAnswers(P.Expect(org), home, id, slug, creator, listing));
      && ProjectSettled(t.obj, t.remote, org, creator) && t.obj == o.(status := t.obj.status) && t.obj.status.id == id
      && t.remote.owners == s.owners[id := Placement(P.Expect(org), home)] && id in t.remote.projects && t.remote.projects == s.projects[id := t.remote.projects[id]]
      && MayGrant(s.members, t.remote.members, id, creator)
  {
    var a := ProjectAnswers(P.Expect(org), home, id, slug, creator, listing);
    ProjectIsBorn(o, s, org, creator, home, id, slug, listing);
    var h := P.Grant(o, P.Acquire(o, s, a, org), a);
    assert P.Reconcile(o, s, a) == P.Settle(o, h, a, org);
    assert P.Settle(o, h, a, org) == Succeed(P.Omit, o, P.Observed(o, h, P.NewProject(o.spec, a), listing), Answered);
  }

  // ----- environments

  function EnvironmentAnswers(project: Id, id: Id, position: int): E.Answers {
    E.Answers(Answered, Some(project), true, Answered, None, Answered, Answered, id, position, Answered, Answered, Answered, Answered, Answered)
  }

  predicate EnvironmentSettled(o: E.EnvironmentObject, s: E.Store, project: Id) {
    && Active(o) && Usual(o) && o.spec.name != "" && Verdicted(o) && project != ""
    && o.status.id != "" && o.status.id in s.environments && o.status.parent == project
    && var e := s.environments[o.status.id];
    && e.project == project && !e.deleted && !E.NeedsUpdate(o.spec, e)
    && o.status.rest == E.Shown(e.name, e.slug, e.position)
  }

  lemma {:induction false} EnvironmentStays(o: E.EnvironmentObject, s: E.Store, project: Id, id: Id, position: int)
    requires EnvironmentSettled(o, s, project)
    ensures E.Reconcile(o, s, EnvironmentAnswers(project, id, position)) == Undisturbed(o, s, false)
  {
  }

  lemma {:induction false} EnvironmentWaits(o: E.EnvironmentObject, s: E.Store, id: Id, position: int)
    requires Active(o)
    ensures Waits(o, s, E.Reconcile(o, s, EnvironmentAnswers("", id, position)))
  {
  }

  lemma {:induction false} EnvironmentSettles(o: E.EnvironmentObject, s: E.Store, project: Id, id: Id, position: int)
    requires Active(o) && Usual(o) && o.spec.name != "" && o.status.id == "" && project != "" && Usable(id, s.issued)
    ensures var t := E.Reconcile(o, s, EnvironmentAnswers(project, id, position));
      && EnvironmentSettled(t.obj, t.remote, project) && t.obj == o.(status := t.obj.status) && t.obj.status.id == id
      && t.remote.issued == s.issued + {id} && id in t.remote.environments
      && t.remote.environments == s.environments[id :=
           E.Environment(project, o.spec.name, o.spec.slug, if o.spec.position.Some? then o.spec.position.value else position, false)]
  {
  }

  // ----- identities

  function IdentityAnswers(view: I.View, id: Id): I.Answers {
    I.Answers(Answered, view, true, Answered, None, Answered, id, Answered, Answered, (i: nat) => SERVED, Answered, Answered)
  }

  /** The membership is as the sorted comparison wants it. */
  predicate RolesSettled(s: I.Store, key: Key, roles: seq<string>) {
    roles != [] ==> key.project in s.projects && key in s.members && ControllerEqual(Sort(roles), s.members[key])
  }

  predicate MembershipsSettled(spec: I.Spec, id: Id, s: I.Store, view: I.View, anchor: Id) {
    if spec.scope.OrganizationScope? then
      var bs := I.Resolved(spec.bindings, view);
      forall i :: 0 <= i < |bs| ==> RolesSettled(s, Key(bs[i].project, id), bs[i].roles)
    else RolesSettled(s, Key(anchor, id), spec.roles)
  }

  predicate IdentitySettled(o: I.IdentityObject, s: I.Store, view: I.View) {
    && Active(o) && Usual(o) && o.spec.name != "" && I.ValidSpec(o.spec) && Verdicted(o)
    && o.status.id != "" && o.status.id in s.identities && I.Anchor(o.spec, view).Anchored?
    && var anchor := I.Anchor(o.spec, view).id;
    && I.Observe(o, o.status, o.status.id, anchor) == o.status
    && !I.Misplaced(o.spec, s.identities[o.status.id], anchor) && !I.NeedsUpdate(o.spec, s.identities[o.status.id])
    && MembershipsSettled(o.spec, o.status.id, s, view, anchor)
  }

  /** Bindings that are in place cost no write. */
  lemma {:induction false} BindAllIdle(s: I.Store, identity: Id, bs: seq<Binding>, calls: seq<Calls>)
    requires |calls| == |bs| && forall i :: 0 <= i < |bs| ==> calls[i] == SERVED && Valid(bs[i].roles)
    requires forall i :: 0 <= i < |bs| ==> RolesSettled(s, Key(bs[i].project, identity), bs[i].roles)
    ensures var r := BindAll(s.projects, s.members, identity, bs, calls);
      r.members == s.members && r.ok && Total(r.writes) == 0
    decreases |bs|
  {
    if bs != [] {
      assert calls[0] == SERVED && RolesSettled(s, Key(bs[0].project, identity), bs[0].roles);
      BindOneIdle(s, Key(bs[0].project, identity), bs[0].roles);
      BindAllIdle(s, identity, bs[1..], calls[1..]);
    }
  }

  lemma {:induction false} BindOneIdle(s: I.Store, key: Key, roles: seq<string>)
    requires RolesSettled(s, key, roles)
    ensures BindOne(s.projects, s.members, key, Sort(roles), SERVED) == Ended(s.members, true, 0)
  {
  }

  lemma {:induction false} BindIdle(o: I.IdentityObject, g: I.IdentityProgress, view: I.View, anchor: Id, id: Id)
    requires I.ValidSpec(o.spec) && MembershipsSettled(o.spec, g.status.id, g.remote, view, anchor) && g.error.None?
    ensures I.Bind(o, g, IdentityAnswers(view, id), anchor) == g
  {
    if o.spec.scope.OrganizationScope? {
      var bs := I.Resolved(o.spec.bindings, view);
      BindAllIdle(g.remote, g.status.id, bs, I.CallsFor(IdentityAnswers(view, id), |bs|));
    } else {
      BindOneIdle(g.remote, Key(anchor, g.status.id), o.spec.roles);
    }
  }

  lemma {:induction false} IdentityStays(o: I.IdentityObject, s: I.Store, view: I.View, id: Id)
    requires IdentitySettled(o, s, view)
    ensures I.Reconcile(o, s, IdentityAnswers(view, id)) == Undisturbed(o, s, false)
  {
    var anchor := I.Anchor(o.spec, view).id;
    BindIdle(o, Start(o, s), view, anchor, id);
  }

  lemma {:induction false} IdentityWaits(o: I.IdentityObject, s: I.Store, view: I.View, id: Id)
    requires Active(o) && I.Anchor(o.spec, view).Unanchored?
    ensures Waits(o, s, I.Reconcile(o, s, IdentityAnswers(view, id)))
  {
  }

  lemma {:induction false} GrantedIsEqual(observed: seq<Role>, roles: seq<string>)
    requires Valid(roles) && roles != [] && Grants(observed, roles)
    ensures ControllerEqual(Sort(roles), observed)
  {
    ComparisonsAgree(observed, roles);
  }

  lemma {:induction false} BindAllSettles(s: I.Store, identity: Id, bs: seq<Binding>, calls: seq<Calls>, i: nat)
    requires |calls| == |bs| && DistinctProjects(bs) && i < |bs|
    requires forall k :: 0 <= k < |bs| ==> calls[k] == SERVED && Valid(bs[k].roles) && bs[k].project in s.projects
    ensures var r := BindAll(s.projects, s.members, identity, bs, calls);
      RolesSettled(s.(members := r.members), Key(bs[i].project, identity), bs[i].roles)
  {
    BindAllReaches(s.projects, s.members, identity, bs, calls);
    LoopWrites(s.projects, s.members, identity, bs, calls);
    LoopLaw(s.projects, s.members, identity, bs, calls, i);
    if bs[i].roles != [] {
      GrantedIsEqual(BindAll(s.projects, s.members, identity, bs, calls).members[Key(bs[i].project, identity)], bs[i].roles);
    }
  }

  lemma {:induction false} BindOneSettles(s: I.Store, key: Key, roles: seq<string>)
    requires Valid(roles) && (roles != [] ==> key.project in s.projects)
    ensures var r := BindOne(s.projects, s.members, key, Sort(roles), SERVED);
      r.ok && RolesSettled(s.(members := r.members), key, roles)
  {
    SortFits(roles);
    DeclaredLaw(s.projects, s.members, key, roles, SERVED);
    if roles != [] {
      GrantedIsEqual(BindOne(s.projects, s.members, key, Sort(roles), SERVED).members[key], roles);
    }
  }

  /** A membership store in which only memberships of one identity in existing projects were
      added or rewritten. */
  ghost predicate Gains(projects: set<Id>, m: Members, n: Members, identity: Id) {
    m.Keys <= n.Keys && forall key :: SameAt(m, n, key) || (key.identity == identity && key.project in projects)
  }

  /** What the bindings of an identity need: existing projects, all different. */
  predicate Bindable(o: I.IdentityObject, s: I.Store, view: I.View, anchor: Id) {
    if o.spec.scope.OrganizationScope? then
      var bs := I.Resolved(o.spec.bindings, view);
      DistinctProjects(bs) && forall i :: 0 <= i < |bs| ==> bs[i].project in s.projects
    else anchor in s.projects
  }

  lemma {:induction false} BindSettles(o: I.IdentityObject, g: I.IdentityProgress, view: I.View, anchor: Id, id: Id)
    requires I.ValidSpec(o.spec) && Bindable(o, g.remote, view, anchor) && g.error.None?
    ensures var k := I.Bind(o, g, IdentityAnswers(view, id), anchor);
      && k.error.None? && k.status == g.status && k.created == g.created && k.remote == g.remote.(members := k.remote.members)
      && Gains(g.remote.projects, g.remote.members, k.remote.members, g.status.id)
      && MembershipsSettled(o.spec, g.status.id, k.remote, view, anchor)
  {
    var k := I.Bind(o, g, IdentityAnswers(view, id), anchor);
    if o.spec.scope.OrganizationScope? {
      var bs := I.Resolved(o.spec.bindings, view);
      var calls := I.CallsFor(IdentityAnswers(view, id), |bs|);
      BindAllReaches(g.remote.projects, g.remote.members, g.status.id, bs, calls);
      LoopKeeps(g.remote.projects, g.remote.members, g.status.id, bs, calls);
      forall i | 0 <= i < |bs| ensures RolesSettled(k.remote, Key(bs[i].project, g.status.id), bs[i].roles) {
        BindAllSettles(g.remote, g.status.id, bs, calls, i);
      }
      forall key | !Concerns(bs, g.status.id, key) ensures SameAt(g.remote.members, k.remote.members, key) {
        LoopFrame(g.remote.projects, g.remote.members, g.status.id, bs, calls, key);
      }
    } else {
      BindOneSettles(g.remote, Key(anchor, g.status.id), o.spec.roles);
      BindOneKeeps(g.remote.projects, g.remote.members, Key(anchor, g.status.id), Sort(o.spec.roles), SERVED);
      forall key | key != Key(anchor, g.status.id) ensures SameAt(g.remote.members, k.remote.members, key) {
        BindOneFrame(g.remote.projects, g.remote.members, Key(anchor, g.status.id), Sort(o.spec.roles), SERVED, key);
      }
    }
  }

  /** A new identity is exactly as the spec wants it. */
  lemma {:induction false} NewIdentityFits(spec: I.Spec, anchor: Id)
    requires spec.metadata.Some? ==> Metadata.UniqueKeys(spec.metadata.value)
    ensures !I.NeedsUpdate(spec, I.NewIdentity(spec, anchor)) && !I.Misplaced(spec, I.NewIdentity(spec, anchor), anchor)
  {
    if spec.metadata.Some? {
      Metadata.WrittenMatches(spec.metadata.value);
    }
  }

  /** The progress after creation, read-back and (no) correction. */
  function Newborn(o: I.IdentityObject, s: I.Store, view: I.View, id: Id): I.IdentityProgress
    requires I.Anchor(o.spec, view).Anchored?
  {
    var anchor := I.Anchor(o.spec, view).id;
    var t := s.(identities := s.identities[id := I.NewIdentity(o.spec, anchor)], issued := s.issued + {id});
    Progress(I.Observe(o, o.status, id, anchor), t, Some(id), true, None)
  }

  lemma {:induction false} IdentityIsBorn(o: I.IdentityObject, s: I.Store, view: I.View, id: Id)
    requires Active(o) && Usual(o) && I.ValidSpec(o.spec) && o.status.id == "" && Usable(id, s.issued)
    requires o.spec.metadata.Some? ==> Metadata.UniqueKeys(o.spec.metadata.value)
    requires I.Anchor(o.spec, view).Anchored?
    ensures var a := IdentityAnswers(view, id);
      var anchor := I.Anchor(o.spec, view).id;
      && I.Acquire(o, s, a, anchor) == Newborn(o, s, view, id)
      && I.Adjust(o, Newborn(o, s, view, id), a, anchor) == Newborn(o, s, view, id)
  {
    NewIdentityFits(o.spec, I.Anchor(o.spec, view).id);
  }

  lemma {:induction false} IdentitySettles(o: I.IdentityObject, s: I.Store, view: I.View, id: Id)
    requires Active(o) && Usual(o) && o.spec.name != "" && I.ValidSpec(o.spec) && o.status.id == "" && Usable(id, s.issued)
    requires o.spec.metadata.Some? ==> Metadata.UniqueKeys(o.spec.metadata.value)
    requires I.Anchor(o.spec, view).Anchored? && Bindable(o, s, view, I.Anchor(o.spec, view).id)
    ensures var t := I.Reconcile(o, s, IdentityAnswers(view, id));
      && IdentitySettled(t.obj, t.remote, view) && t.obj == o.(status := t.obj.status) && t.obj.status.id == id
      && t.remote.issued == s.issued + {id} && t.remote.projects == s.projects && id in t.remote.identities
      && t.remote.identities == s.identities[id := t.remote.identities[id]]
      && Gains(s.projects, s.members, t.remote.members, id)
  {
    var anchor := I.Anchor(o.spec, view).id;
    var h := Newborn(o, s, view, id);
    BindSettles(o, h, view, anchor, id);
    IdentityEnds(o, s, view, id);
    IdentityFinishes(o, s, view, id, I.Bind(o, h, IdentityAnswers(view, id), anchor));
  }

  lemma {:induction false} IdentityFinishes(o: I.IdentityObject, s: I.Store, view: I.View, id: Id, k: I.IdentityProgress)
    requires Active(o) && Usual(o) && o.spec.name != "" && I.ValidSpec(o.spec) && id != ""
    requires o.spec.metadata.Some? ==> Metadata.UniqueKeys(o.spec.metadata.value)
    requires I.Anchor(o.spec, view).Anchored?
    requires var h := Newborn(o, s, view, id);
      k.status == h.status && k.remote == h.remote.(members := k.remote.members)
    requires MembershipsSettled(o.spec, id, k.remote, view, I.Anchor(o.spec, view).id)
    ensures IdentitySettled(Succeed(Same, o, k, Answered).obj, k.remote, view)
  {
    NewIdentityFits(o.spec, I.Anchor(o.spec, view).id);
  }

  lemma {:induction false} IdentityEnds(o: I.IdentityObject, s: I.Store, view: I.View, id: Id)
    requires Active(o) && Usual(o) && I.ValidSpec(o.spec) && o.status.id == "" && Usable(id, s.issued)
    requires o.spec.metadata.Some? ==> Metadata.UniqueKeys(o.spec.metadata.value)
    requires I.Anchor(o.spec, view).Anchored?
    requires I.Bind(o, Newborn(o, s, view, id), IdentityAnswers(view, id), I.Anchor(o.spec, view).id).error.None?
    ensures I.Reconcile(o, s, IdentityAnswers(view, id))
      == Succeed(Same, o, I.Bind(o, Newborn(o, s, view, id), IdentityAnswers(view, id), I.Anchor(o.spec, view).id), Answered)
  {
    IdentityIsBorn(o, s, view, id);
    var a := IdentityAnswers(view, id);
    assert I.Reconcile(o, s, a) == I.Settle(o, Newborn(o, s, view, id), a, I.Anchor(o.spec, view).id);
  }

  // ----- Kubernetes Auth

  function KubernetesAuthAnswers(identity: Id, secrets: K.Secrets, id: Id, defaults: K.KubernetesAuth): K.Answers {
    K.Answers(Answered, true, Some(identity), true, Answered, Some(secrets), Answered, id, defaults, Answered, Answered, Answered, Answered)
  }

  predicate KubernetesAuthSettled(o: K.KubernetesAuthObject, s: K.Store, identity: Id, secrets: K.Secrets) {
    && Active(o) && Usual(o) && K.ValidSpec(o.spec) && Verdicted(o) && identity != "" && identity in s
    && o.status.id != "" && o.status.id == s[identity].id && o.status.parent == identity && o.status.rest == K.Omit(K.Show(s[identity]))
    && !K.NeedsUpdate(o.spec, s[identity], secrets)
  }

  lemma {:induction false} KubernetesAuthStays(o: K.KubernetesAuthObject, s: K.Store, identity: Id, secrets: K.Secrets, id: Id, defaults: K.KubernetesAuth)
    requires KubernetesAuthSettled(o, s, identity, secrets)
    ensures K.Reconcile(o, s, KubernetesAuthAnswers(identity, secrets, id, defaults)) == Undisturbed(o, s, K.AnyEmpty(s[identity]))
  {
    K.EmptyIsOmitted(s[identity]);
  }

  lemma {:induction false} KubernetesAuthWaits(o: K.KubernetesAuthObject, s: K.Store, secrets: K.Secrets, id: Id, defaults: K.KubernetesAuth)
    requires Active(o)
    ensures Waits(o, s, K.Reconcile(o, s, KubernetesAuthAnswers("", secrets, id, defaults)))
  {
  }

  lemma {:induction false} KubernetesAuthSettles(o: K.KubernetesAuthObject, s: K.Store, identity: Id, secrets: K.Secrets, id: Id, defaults: K.KubernetesAuth)
    requires Active(o) && Usual(o) && K.ValidSpec(o.spec) && o.status.id == "" && K.ReadBack(o) && identity != "" && identity !in s && id != ""
    ensures var t := K.Reconcile(o, s, KubernetesAuthAnswers(identity, secrets, id, defaults));
      && KubernetesAuthSettled(t.obj, t.remote, identity, secrets) && t.obj == o.(status := t.obj.status)
      && t.remote == s[identity := t.remote[identity]]
  {
    var a := KubernetesAuthAnswers(identity, secrets, id, defaults);
    var g := K.Acquire(o, s, a, identity);
    assert g.error.None? && g.remote == s[identity := K.Attached(o.spec, a, secrets)];
    KubernetesAuthSettleEnds(o, g, a, identity);
    K.SettleShows(o, g, a, identity);
    K.SettleIsSound(o, g, a, identity);
  }

  lemma {:induction false} KubernetesAuthSettleEnds(o: K.KubernetesAuthObject, g: K.KubernetesAuthProgress, a: K.Answers, identity: Id)
    requires a.secrets.Some? && a.get == a.update == a.patch == Answered && identity in g.remote
    ensures var t := K.Settle(o, g, a, identity);
      && t.act.outcome.Ready? && t.obj == o.(status := t.obj.status) && t.obj.status.observed == o.meta.generation
      && t.obj.status.id == g.remote[identity].id
      && t.remote == g.remote[identity := if K.NeedsUpdate(o.spec, g.remote[identity], a.secrets.value)
                                          then K.Patched(o.spec, g.remote[identity], a.secrets.value) else g.remote[identity]]
  {
  }

  // ----- Universal Auth

  function UniversalAuthAnswers(ready: bool, id: Id, clientID: Id, defaults: U.Config, secretID: Id, value: string): U.Answers {
    U.Answers(Answered, ready, true, QUIET, QUIET, id, clientID, defaults, QUIET, QUIET,
              QUIET, QUIET, QUIET, QUIET, secretID, value, QUIET, QUIET, QUIET, Answered, QUIET)
  }

  predicate UniversalAuthSettled(o: U.UniversalAuthObject, i: U.Infra) {
    && Active(o) && Usual(o) && Verdicted(o) && U.ReadBack(o) && o.spec.named && i.auth.Some? && i.secret.Some?
    && o.status.id != "" && Agreement.Shows(o.status, i.auth.value) && i.auth.value.identity == i.identity
    && !U.NeedsUpdate(o.spec.config, i.auth.value.config)
    && o.status.rest.secretID != "" && o.status.rest.secretID in i.live && o.status.rest.nonce == o.spec.nonce
  }

  /** No list is wanted empty: such a list is compared but never sent. */
  predicate Sendable(spec: Option<U.ConfigSpec>) {
    spec.Some? ==> spec.value.secretIPs != Some([]) && spec.value.tokenIPs != Some([])
  }

  /** Nothing of this resource exists yet. */
  predicate Pristine(i: U.Infra) {
    i.auth.None? && i.secret.None? && i.live == {}
  }

  lemma {:induction false} UniversalAuthStays(o: U.UniversalAuthObject, i: U.Infra, id: Id, clientID: Id, defaults: U.Config, secretID: Id, value: string)
    requires UniversalAuthSettled(o, i)
    ensures U.Reconcile(o, i, UniversalAuthAnswers(true, id, clientID, defaults, secretID, value))
      == Undisturbed(o, i, U.AnyEmpty(i.auth.value.config))
  {
    assert U.Interfere(U.NOTHING, i) == i;
    U.EmptyIsOmitted(i.auth.value.config);
  }

  lemma {:induction false} UniversalAuthWaits(o: U.UniversalAuthObject, i: U.Infra, id: Id, clientID: Id, defaults: U.Config, secretID: Id, value: string)
    requires Active(o)
    ensures Waits(o, i, U.Reconcile(o, i, UniversalAuthAnswers(false, id, clientID, defaults, secretID, value)))
  {
  }

  /** Everything is in place before the verdict. */
  predicate Provided(o: U.UniversalAuthObject, k: U.UniversalAuthProgress) {
    && k.error.None? && k.remote.auth.Some? && k.remote.secret.Some? && !U.NeedsUpdate(o.spec.config, k.remote.auth.value.config)
    && k.status.id != "" && k.status.observed == o.meta.generation && Agreement.Shows(k.status, k.remote.auth.value)
    && k.remote.auth.value.identity == k.remote.identity
    && k.status.rest.secretID != "" && k.status.rest.secretID in k.remote.live && k.status.rest.nonce == o.spec.nonce
    && !k.remote.secret.value.foreign
  }

  lemma {:induction false} UniversalAuthFinishes(o: U.UniversalAuthObject, k: U.UniversalAuthProgress)
    requires Active(o) && Usual(o) && U.ReadBack(o) && o.spec.named && Provided(o, k)
    ensures var t := Succeed(U.Omit, o, k, Answered);
      UniversalAuthSettled(t.obj, t.remote) && t.obj == o.(status := t.obj.status) && t.remote == k.remote
  {
  }

  lemma {:induction false} UniversalAuthSettles(o: U.UniversalAuthObject, i: U.Infra, id: Id, clientID: Id, defaults: U.Config, secretID: Id, value: string)
    requires Active(o) && Usual(o) && o.spec.named && Sendable(o.spec.config) && o.status.id == "" && U.ReadBack(o) && o.status.rest.secretID == ""
    requires Pristine(i) && id != "" && clientID != "" && Usable(secretID, i.issued) && value != ""
    ensures var t := U.Reconcile(o, i, UniversalAuthAnswers(true, id, clientID, defaults, secretID, value));
      && UniversalAuthSettled(t.obj, t.remote) && t.obj == o.(status := t.obj.status) && t.remote.identity == i.identity
      && !t.remote.secret.value.foreign
  {
    var a := UniversalAuthAnswers(true, id, clientID, defaults, secretID, value);
    assert U.Interfere(U.NOTHING, i) == i;
    U.PatchSettlesDrift(o.spec.config, defaults);
    var g := U.Acquired(o, U.Adopted(o, Start(o, i), a), a);
    assert g.error.None? && g.remote.auth.Some? && g.status.id == id;
    assert U.Interfere(U.NOTHING, g.remote) == g.remote;
    var h := U.Adjusted(o, g, a);
    assert h == g.(status := U.Observe(o, g.status, g.remote.auth.value));
    EnsuredSettles(o, h, a);
    var k := U.Ensured(o, h, a);
    UniversalAuthFinishes(o, k);
    assert U.Reconcile(o, i, a) == Succeed(U.Omit, o, k, Answered);
  }

  lemma {:induction false} EnsuredSettles(o: U.UniversalAuthObject, g: U.UniversalAuthProgress, a: U.Answers)
    requires Agreement.Quiet(a) && o.spec.named && g.error.None? && g.remote.secret.None? && g.remote.auth.Some? && g.status.rest.secretID == ""
    requires a.readSecret == a.create == a.reread == a.publish == QUIET && Usable(a.secretID, g.remote.issued) && a.value != ""
    ensures var h := U.Ensured(o, g, a);
      && h.error.None? && h.status == g.status.(rest := g.status.rest.(secretID := a.secretID, nonce := o.spec.nonce))
      && h.remote.secret.Some? && !h.remote.secret.value.foreign && a.secretID in h.remote.live && h.remote.auth == g.remote.auth && h.remote.identity == g.remote.identity
  {
    Agreement.NothingHappens(g, a.readSecret);
    Agreement.NothingHappens(g, a.create);
  }
}
