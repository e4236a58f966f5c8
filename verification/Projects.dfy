/** The project reconciler. */
module Projects {
  import opened Basics
  import opened Lifecycle
  import opened Memberships
  import opened Roles

  /** `bounded` says that the project references an organization. */
  datatype Spec = Spec(name: string, description: string, slug: string, protection: Option<bool>, bounded: bool)

  datatype Project = Project(name: string, description: string, slug: string, organization: Id, protection: bool)

  /** The environments of a project, as its representation at the server lists them; the order
      of the list is the server's, and fixed. */
  type Listing = map<Id, Listed>

  datatype Listed = Listed(name: string, slug: string)

  /** What the status shows besides the ID and the organization (the parent); without a list
      when it has a nil one. */
  datatype Shown = Shown(slug: string, listing: Option<Listing>)

  /** Stored, an empty list is left out, and read back as none at all. */
  function Omit(shown: Shown): Shown {
    shown.(listing := Left(shown.listing))
  }

  function Left(listing: Option<Listing>): Option<Listing> {
    if listing == Some(map[]) then None else listing
  }

  /** The status is one that was stored. */
  predicate ReadBack(o: ProjectObject) {
    Omit(o.status.rest) == o.status.rest
  }

  type ProjectObject = Object<Spec, Shown>

  /** The projects that exist, the organization of every project that ever did, and the
      memberships. */
  datatype Store = Store(projects: map<Id, Project>, owners: map<Id, Id>, members: Members)

  /** The organization a project must belong to; empty when it references none. */
  datatype Expected = NotReady | Expect(organization: Id)

  /** `listing` is what the project's representation lists, in whichever answer it comes. */
  datatype Answers = Answers(
    finalizer: Reply, expected: Expected, connected: bool, listing: Listing,
    find: Reply, found: Option<Id>,
    create: Reply, id: Id, organization: Id, slug: string,
    creator: Option<Id>, seat: Seat,
    get: Reply, update: Reply, patch: Reply, delete: Reply)

  type ProjectTurn = Turn<Spec, Shown, Store>
  type ProjectProgress = Progress<Shown, Store>

  const ADMIN := ["admin"]

  function Names(s: Store): set<Id> {
    s.projects.Keys
  }

  /** The result of a lookup matches the slug asked for, or else the name. */
  predicate Matching(spec: Spec, s: Store, found: Option<Id>) {
    && found.Some? && found.value in s.projects && found.value != ""
    && ((spec.slug != "" && s.projects[found.value].slug == spec.slug) || s.projects[found.value].name == spec.name)
  }

  /** `validateProjectOrganization` rejects the project. */
  predicate Foreign(p: Project, expected: Id) {
    expected != "" && p.organization != expected
  }

  /** `setProjectObservedState`. */
  function Observe(o: ProjectObject, m: Status<Shown>, id: Id, p: Project, listing: Listing): Status<Shown> {
    Status(id, p.organization, o.meta.generation, m.ready, Shown(p.slug, Some(listing)))
  }

  /** The final observation. */
  function Observed(o: ProjectObject, g: ProjectProgress, p: Project, listing: Listing): ProjectProgress {
    g.(status := Observe(o, g.status, g.status.id, p, listing))
  }

  function NewProject(spec: Spec, a: Answers): Project {
    Project(spec.name, spec.description, if spec.slug != "" then spec.slug else a.slug, a.organization,
            spec.protection.Some? && spec.protection.value)
  }

  /** `projectNeedsUpdate`. */
  predicate NeedsUpdate(spec: Spec, p: Project) {
    || p.name != spec.name || p.description != spec.description
    || (spec.slug != "" && p.slug != spec.slug)
    || (spec.protection.Some? && p.protection != spec.protection.value)
  }

  /** What the server stores after the operator's patch: empty strings and an unset
      protection are left out of the request. */
  function Patched(spec: Spec, p: Project): Project {
    Project(if spec.name != "" then spec.name else p.name,
            if spec.description != "" then spec.description else p.description,
            if spec.slug != "" then spec.slug else p.slug,
            p.organization,
            if spec.protection.Some? then spec.protection.value else p.protection)
  }

  /** Adopt or create when no ID is stored. */
  function Acquire(o: ProjectObject, s: Store, a: Answers, expected: Id): ProjectProgress {
    var g := Start(o, s);
    if o.status.id != "" then g
    else if o.creation.CanAdopt() && a.find.Failed? then g.(error := Some(ExternalReadFailed))
    else if o.creation.CanAdopt() && Matching(o.spec, s, a.found) then
      var p := s.projects[a.found.value];
      if Foreign(p, expected) then g.(error := Some(ExternalProjectMismatch))
      else g.(status := Observe(o, g.status, a.found.value, p, a.listing))
    else if !o.creation.CanCreate() then g.(error := Some(if o.creation.CanAdopt() then RemoteProjectMissing else CreationNotAllowed))
    else MakeProject(o, g, a, expected)
  }

  function MakeProject(o: ProjectObject, g: ProjectProgress, a: Answers, expected: Id): ProjectProgress {
    if !(Usable(a.id, g.remote.owners.Keys) && a.create.Reached()) then g.(wrote := true, error := Some(ExternalCreateFailed))
    else
      var p := NewProject(o.spec, a);
      var s := g.remote.(projects := g.remote.projects[a.id := p], owners := g.remote.owners[a.id := p.organization]);
      var made := g.(remote := s, created := Some(a.id), wrote := true);
      if a.create.Failed? then made.(error := Some(ExternalCreateFailed))
      else made.(status := Observe(o, g.status, a.id, p, a.listing), error := if Foreign(p, expected) then Some(ExternalProjectMismatch) else None)
  }

  /** `ensureProjectCreatorMembership`. An unresolved creator is an error; an empty one is not a
      machine identity and needs no membership. */
  function Grant(o: ProjectObject, g: ProjectProgress, a: Answers): ProjectProgress {
    if !o.spec.bounded || g.status.id == "" then g
    else if a.creator.None? then g.(error := Some(ExternalMembershipFailed))
    else if a.creator.value == "" then g
    else
      var r := Ensure(Names(g.remote), g.remote.members, Key(g.status.id, a.creator.value), ADMIN, a.seat);
      g.(remote := g.remote.(members := r.members), wrote := g.wrote || r.writes > 0,
         error := if r.ok then None else Some(ExternalMembershipFailed))
  }

  /** Read by ID, correct drift, and store the verdict. */
  function Settle(o: ProjectObject, g: ProjectProgress, a: Answers, expected: Id): ProjectTurn {
    if a.get.Failed? then Report(Omit, o, g, ExternalReadFailed, a.patch)
    else if g.status.id !in g.remote.projects then Forget(Omit, o, g, "", Shown("", None), RemoteProjectMissing, a.patch)
    else
      var id, p := g.status.id, g.remote.projects[g.status.id];
      if Foreign(p, expected) then Report(Omit, o, g, ExternalProjectMismatch, a.patch)
      else if !NeedsUpdate(o.spec, p) then Succeed(Omit, o, Observed(o, g, p, a.listing), a.patch)
      else
        var q := Patched(o.spec, p);
        var h := g.(wrote := true, remote := if a.update.Reached() then g.remote.(projects := g.remote.projects[id := q]) else g.remote);
        if a.update.Failed? then Report(Omit, o, h, ExternalUpdateFailed, a.patch)
        else Succeed(Omit, o, Observed(o, h, q, a.listing), a.patch)
  }

  function Sync(o: ProjectObject, s: Store, a: Answers): ProjectTurn {
    if a.expected.NotReady? then Report(Omit, o, Start(o, s), OrganizationNotReady, a.patch)
    else if !a.connected then Report(Omit, o, Start(o, s), ConnectionNotReady, a.patch)
    else
      var g := Acquire(o, s, a, a.expected.organization);
      if g.error.Some? then Report(Omit, o, g, g.error.value, a.patch)
      else
        var h := Grant(o, g, a);
        if h.error.Some? then Report(Omit, o, h, h.error.value, a.patch)
        else Settle(o, h, a, a.expected.organization)
  }

  /** `reconcileProjectDeletion`. */
  function Remove(o: ProjectObject, s: Store, a: Answers): ProjectTurn {
    if o.deletion != Delete || o.status.id == "" then Release(o, s, None, a.finalizer)
    else if !a.connected then Turn(o, s, Act(Releasing, None, None, false, false))
    else DeleteRemote(o, s, s.(projects := s.projects - {o.status.id}), a.delete, a.finalizer)
  }

  /** One reconcile of one project. */
  function Reconcile(o: ProjectObject, s: Store, a: Answers): ProjectTurn {
    if o.meta.gone then Skip(o, s)
    else if NeedsFinalizer(o) then AddFinalizer(o, s, a.finalizer)
    else if o.meta.deleting then Remove(o, s, a)
    else Sync(o, s, a)
  }

  /** The progress made before the project is read back. */
  lemma {:induction false} AcquireKeeps(o: ProjectObject, s: Store, a: Answers, expected: Id)
    ensures var g := Acquire(o, s, a, expected);
      && g.status.ready == o.status.ready
      && (g.created.Some? ==> o.status.id == "" && g.created.value != "")
      && (g.error.None? ==>
           && g.status.id != "" && (o.status.id == "" || g.status.id == o.status.id)
           && (g.created.Some? ==> g.status.id == g.created.value))
  {
  }

  /** Whatever the calls answer, a reconcile keeps the lifecycle contract. */
  lemma {:induction false} ReconcileSteps(o: ProjectObject, s: Store, a: Answers)
    ensures var t := Reconcile(o, s, a); Step(false, o, t.act, t.obj)
  {
    if Active(o) && a.expected.Expect? && a.connected {
      var expected := a.expected.organization;
      AcquireKeeps(o, s, a, expected);
      var g := Acquire(o, s, a, expected);
      if g.error.None? && Grant(o, g, a).error.None? {
        SettleSteps(o, Grant(o, g, a), a, expected);
      }
    }
  }

  lemma {:induction false} SettleSteps(o: ProjectObject, g: ProjectProgress, a: Answers, expected: Id)
    requires Active(o) && g.status.ready == o.status.ready
    requires g.status.id != "" && (o.status.id == "" || g.status.id == o.status.id)
    requires g.created.Some? ==> o.status.id == "" && g.created.value != "" && g.status.id == g.created.value
    ensures var t := Settle(o, g, a, expected); Step(false, o, t.act, t.obj)
  {
    if a.get.Failed? {
      ReportSteps(Omit, false, o, g, ExternalReadFailed, a.patch);
    } else if g.status.id !in g.remote.projects {
      ForgetSteps(Omit, false, o, g, "", Shown("", None), RemoteProjectMissing, a.patch);
    } else {
      var id, p := g.status.id, g.remote.projects[g.status.id];
      if Foreign(p, expected) {
        ReportSteps(Omit, false, o, g, ExternalProjectMismatch, a.patch);
      } else if !NeedsUpdate(o.spec, p) {
        SucceedSteps(Omit, false, o, Observed(o, g, p, a.listing), a.patch);
      } else {
        var q := Patched(o.spec, p);
        var h := g.(wrote := true, remote := if a.update.Reached() then g.remote.(projects := g.remote.projects[id := q]) else g.remote);
        if a.update.Failed? {
          ReportSteps(Omit, false, o, h, ExternalUpdateFailed, a.patch);
        } else {
          SucceedSteps(Omit, false, o, Observed(o, h, q, a.listing), a.patch);
        }
      }
    }
  }

  /** Everything the spec manages is as the spec wants it; a description wanted empty cannot be
      cleared, so it is only guaranteed when one is wanted. */
  predicate Managed(spec: Spec, p: Project, expected: Id) {
    && p.name == spec.name && (spec.description != "" ==> p.description == spec.description)
    && (spec.slug != "" ==> p.slug == spec.slug)
    && (spec.protection.Some? ==> p.protection == spec.protection.value)
    && !Foreign(p, expected)
  }

  /** Drift-patch law: the patch built from the spec satisfies the drift test, except exactly
      when an empty description meets one that is not, or a blank name. Fields the spec leaves
      unset keep their value. */
  lemma {:induction false} PatchSettlesDrift(spec: Spec, p: Project)
    ensures NeedsUpdate(spec, Patched(spec, p))
      <==> (spec.description == "" && p.description != "") || (spec.name == "" && p.name != "")
    ensures Patched(spec, p).organization == p.organization
    ensures spec.slug == "" ==> Patched(spec, p).slug == p.slug
    ensures spec.protection.None? ==> Patched(spec, p).protection == p.protection
    ensures Patched(spec, Patched(spec, p)) == Patched(spec, p)
  {
  }

  /** A reconcile that gets as far as reading the project back: no step before failed. */
  predicate Arrives(o: ProjectObject, s: Store, a: Answers) {
    && Active(o) && a.expected.Expect? && a.connected
    && Acquire(o, s, a, a.expected.organization).error.None?
    && Grant(o, Acquire(o, s, a, a.expected.organization), a).error.None?
  }

  function Arrival(o: ProjectObject, s: Store, a: Answers): ProjectProgress
    requires Arrives(o, s, a)
  {
    Grant(o, Acquire(o, s, a, a.expected.organization), a)
  }

  lemma {:induction false} ReadyArrives(o: ProjectObject, s: Store, a: Answers)
    requires Reconcile(o, s, a).act.outcome.Ready?
    ensures Arrives(o, s, a) && Reconcile(o, s, a) == Settle(o, Arrival(o, s, a), a, a.expected.organization)
  {
  }

  /** The stored status is Ready and shows this project, with its environments if it has any. */
  predicate Shows(o: ProjectObject, q: ProjectObject, id: Id, p: Project, listing: Listing) {
    && q.status.ready == Some(Verdict(true, Reconciled, o.meta.generation))
    && q.status.id == id && q.status.parent == p.organization && Omit(q.status.rest) == Omit(Shown(p.slug, Some(listing)))
  }

  lemma {:induction false} FinishShows(o: ProjectObject, g: ProjectProgress, p: Project, listing: Listing, patch: Reply)
    requires patch.Reached()
    ensures Shows(o, Succeed(Omit, o, Observed(o, g, p, listing), patch).obj, g.status.id, p, listing)
  {
  }

  lemma {:induction false} SettleIsSound(o: ProjectObject, g: ProjectProgress, a: Answers, expected: Id)
    requires o.spec.name != "" && a.patch.Reached()
    requires Settle(o, g, a, expected).act.outcome.Ready?
    ensures var t := Settle(o, g, a, expected);
      && g.status.id in t.remote.projects && t.remote.members == g.remote.members
      && var p := t.remote.projects[g.status.id];
      && Managed(o.spec, p, expected) && Shows(o, t.obj, g.status.id, p, a.listing)
      && (p.description == o.spec.description <==> o.spec.description != "" || g.remote.projects[g.status.id].description == "")
  {
    hide Shows, Omit;
    var p := g.remote.projects[g.status.id];
    PatchSettlesDrift(o.spec, p);
    if NeedsUpdate(o.spec, p) {
      var q := Patched(o.spec, p);
      var h := g.(wrote := true, remote := g.remote.(projects := g.remote.projects[g.status.id := q]));
      FinishShows(o, h, q, a.listing, a.patch);
    } else {
      FinishShows(o, g, p, a.listing, a.patch);
    }
  }

  /** Ready is sound: when a reconcile succeeds, the project it names exists in the expected
      organization, every managed field is as the spec wants, and the stored status is what the
      server holds. */
  lemma {:induction false} ReadyIsSound(o: ProjectObject, s: Store, a: Answers)
    requires Reconcile(o, s, a).act.outcome.Ready? && a.patch.Reached() && o.spec.name != ""
    ensures var t := Reconcile(o, s, a);
      && t.obj.status.id in t.remote.projects && a.expected.Expect?
      && var p := t.remote.projects[t.obj.status.id];
      && Managed(o.spec, p, a.expected.organization) && Shows(o, t.obj, t.obj.status.id, p, a.listing)
  {
    ReadyArrives(o, s, a);
    SettleIsSound(o, Arrival(o, s, a), a, a.expected.organization);
  }

  /** And a machine identity that reconciles a bounded project is its permanent admin. */
  lemma {:induction false} ReadyGrantsCreator(o: ProjectObject, s: Store, a: Answers)
    requires Reconcile(o, s, a).act.outcome.Ready? && a.patch.Reached() && o.spec.name != "" && o.spec.bounded
    ensures a.creator.Some?
    ensures a.creator.value != "" ==>
      var t := Reconcile(o, s, a);
      var key := Key(t.obj.status.id, a.creator.value);
      key in t.remote.members && Grants(t.remote.members[key], ADMIN)
  {
    ReadyArrives(o, s, a);
    AcquireKeeps(o, s, a, a.expected.organization);
    GrantIsAdmin(o, Acquire(o, s, a, a.expected.organization), a);
    SettleIsSound(o, Arrival(o, s, a), a, a.expected.organization);
  }

  lemma {:induction false} GrantIsAdmin(o: ProjectObject, g: ProjectProgress, a: Answers)
    requires o.spec.bounded && g.status.id != "" && Grant(o, g, a).error.None? && g.error.None?
    ensures Grant(o, g, a).status == g.status && a.creator.Some?
    ensures a.creator.value != "" ==>
      var key := Key(g.status.id, a.creator.value);
      var members := Grant(o, g, a).remote.members;
      key in members && Grants(members[key], ADMIN)
  {
    if a.creator.Some? {
      AdminIsGranted(Names(g.remote), g.remote.members, Key(g.status.id, a.creator.value), a.seat);
    }
  }

  lemma {:induction false} AdminIsGranted(projects: set<Id>, members: Members, key: Key, a: Seat)
    ensures var r := Ensure(projects, members, key, ADMIN, a);
      r.ok ==> key in r.members && Grants(r.members[key], ADMIN)
  {
    assert Valid(ADMIN) && Permanent(ADMIN) == [Role("admin", false)];
    if key in members {
      ComparisonsAgree(members[key], ADMIN);
    }
  }

  /** What the reconcile reports about itself is what happened outside: exactly the entity it
      created is new, under an ID never issued before; without a delete call none is gone, and
      after a confirmed one exactly the entity it was sent for is. */
  lemma {:induction false} ActIsReal(o: ProjectObject, s: Store, a: Answers)
    ensures var t := Reconcile(o, s, a);
      && t.remote.owners.Keys == s.owners.Keys + (if t.act.created.Some? then {t.act.created.value} else {})
      && (t.act.created.Some? ==> t.act.created.value !in s.owners)
      && (t.act.sent.None? ==> s.projects.Keys <= t.remote.projects.Keys)
      && (t.act.confirmed ==> t.act.sent.Some? && t.remote.projects == s.projects - {t.act.sent.value})
  {
    SyncIsReal(o, s, a);
    RemoveIsReal(o, s, a);
  }

  lemma {:induction false} RemoveIsReal(o: ProjectObject, s: Store, a: Answers)
    ensures var t := Remove(o, s, a);
      && t.remote.owners == s.owners && t.act.created.None? && (t.act.sent.None? ==> t.remote == s)
      && (t.act.confirmed ==> t.act.sent.Some? && t.remote.projects == s.projects - {t.act.sent.value})
  {
  }

  lemma {:induction false} SyncIsReal(o: ProjectObject, s: Store, a: Answers)
    ensures var t := Sync(o, s, a);
      && t.remote.owners.Keys == s.owners.Keys + (if t.act.created.Some? then {t.act.created.value} else {})
      && (t.act.created.Some? ==> t.act.created.value !in s.owners)
      && t.act.sent.None? && !t.act.confirmed && s.projects.Keys <= t.remote.projects.Keys
  {
    if a.expected.Expect? {
      var g := Acquire(o, s, a, a.expected.organization);
      AcquireIsReal(o, s, a, a.expected.organization);
      GrantIsReal(o, g, a);
      SettleIsReal(o, Grant(o, g, a), a, a.expected.organization);
    }
  }

  lemma {:induction false} AcquireIsReal(o: ProjectObject, s: Store, a: Answers, expected: Id)
    ensures var g := Acquire(o, s, a, expected);
      && g.remote.owners.Keys == s.owners.Keys + (if g.created.Some? then {g.created.value} else {})
      && (g.created.Some? ==> g.created.value !in s.owners) && s.projects.Keys <= g.remote.projects.Keys
  {
  }

  lemma {:induction false} GrantIsReal(o: ProjectObject, g: ProjectProgress, a: Answers)
    ensures var h := Grant(o, g, a);
      h.remote.owners == g.remote.owners && h.remote.projects == g.remote.projects && h.created == g.created
  {
  }

  lemma {:induction false} SettleIsReal(o: ProjectObject, g: ProjectProgress, a: Answers, expected: Id)
    ensures var t := Settle(o, g, a, expected);
      t.remote.owners == g.remote.owners && t.remote.projects.Keys == g.remote.projects.Keys && t.act.created == g.created && t.act.sent.None? && !t.act.confirmed
  {
  }

  /** Every call is answered, and the creator is looked up. */
  predicate Served(a: Answers) {
    && a.connected && a.find == a.create == a.get == a.update == a.patch == Answered
    && a.creator.Some? && a.seat == Seat(Answered, Answered)
  }

  /** The reconcile gets to the create call. */
  predicate Creates(o: ProjectObject, s: Store, a: Answers) {
    o.status.id == "" && o.creation.CanCreate() && !(o.creation.CanAdopt() && Matching(o.spec, s, a.found))
  }

  lemma {:induction false} NewGrantSucceeds(projects: set<Id>, members: Members, key: Key, seat: Seat)
    requires seat == Seat(Answered, Answered) && key.project in projects
    ensures Ensure(projects, members, key, ADMIN, seat).ok
  {
  }

  /** With every call answered, a reconcile creates a project and does not store its ID exactly
      when the server places the project in another organization than the referenced one: then
      the ID is observed in memory only, the patch that reports the mismatch starts after that,
      and unless the policy is to adopt first, the next reconcile creates another project. */
  lemma {:induction false} MisplacedCreationRepeats(o: ProjectObject, s: Store, a: Answers, b: Answers)
    requires Active(o) && a.expected.Expect? && Served(a) && Usable(a.id, s.owners.Keys)
    ensures var t := Reconcile(o, s, a);
      && (t.act.created.Some? && t.obj.status.id == "" <==> Creates(o, s, a) && Foreign(NewProject(o.spec, a), a.expected.organization))
      && (t.act.created.Some? ==> t.act.created == Some(a.id) && a.id in t.remote.projects && (t.obj.status.id == "" <==> t.act.outcome.Reported?))
      && (t.act.created.Some? && t.obj.status.id == "" && !o.creation.CanAdopt() ==> Active(t.obj) && Creates(t.obj, t.remote, b))
  {
    var expected := a.expected.organization;
    var g := Acquire(o, s, a, expected);
    assert g.created.Some? <==> Creates(o, s, a);
    if g.created.Some? && g.error.None? {
      assert a.id in g.remote.projects && !Foreign(g.remote.projects[a.id], expected) && g.status.id == a.id;
      NewGrantSucceeds(Names(g.remote), g.remote.members, Key(a.id, a.creator.value), a.seat);
      GrantIsReal(o, g, a);
      var h := Grant(o, g, a);
      assert h.error.None? && h.status == g.status;
      assert Reconcile(o, s, a) == Settle(o, h, a, expected);
    }
  }

  /** A description that the spec wants empty and the server keeps is patched by every reconcile
      that succeeds, without effect. */
  lemma {:induction false} EmptyDescriptionNeverSettles(o: ProjectObject, s: Store, a: Answers)
    requires o.status.id != "" && o.status.id in s.projects && o.spec.description == "" && s.projects[o.status.id].description != ""
    requires Reconcile(o, s, a).act.outcome.Ready?
    ensures var t := Reconcile(o, s, a);
      t.act.writes && o.status.id in t.remote.projects && t.remote.projects[o.status.id].description == s.projects[o.status.id].description
  {
    ReadyArrives(o, s, a);
  }

  /** The reconcile sends a write for this membership, whether or not it arrives or changes
      anything: the grant to the creator is the only one. */
  predicate SendsWrite(o: ProjectObject, s: Store, a: Answers, key: Key) {
    && Active(o) && a.expected.Expect? && a.connected && o.spec.bounded && a.creator.Some? && a.creator.value != ""
    && var g := Acquire(o, s, a, a.expected.organization);
    && g.error.None? && g.status.id != "" && key == Key(g.status.id, a.creator.value)
    && Ensure(Names(g.remote), g.remote.members, key, ADMIN, a.seat).writes > 0
  }

  lemma {:induction false} UnwrittenIsUnchanged(projects: set<Id>, members: Members, key: Key, slugs: seq<string>, a: Seat, other: Key)
    ensures var r := Ensure(projects, members, key, slugs, a);
      SameAt(members, r.members, other) || (other == key && r.writes > 0)
  {
  }

  lemma {:induction false} GrantChanges(o: ProjectObject, g: ProjectProgress, a: Answers, key: Key)
    ensures var h := Grant(o, g, a);
      SameAt(g.remote.members, h.remote.members, key)
      || (&& o.spec.bounded && g.status.id != "" && a.creator.Some? && a.creator.value != "" && key == Key(g.status.id, a.creator.value)
          && Ensure(Names(g.remote), g.remote.members, key, ADMIN, a.seat).writes > 0)
  {
    if a.creator.Some? {
      UnwrittenIsUnchanged(Names(g.remote), g.remote.members, Key(g.status.id, a.creator.value), ADMIN, a.seat, key);
    }
  }

  /** A membership that changed was written to. */
  lemma {:induction false} ChangesAreSent(o: ProjectObject, s: Store, a: Answers, key: Key)
    ensures SameAt(s.members, Reconcile(o, s, a).remote.members, key) || SendsWrite(o, s, a, key)
  {
    if Active(o) && a.expected.Expect? && a.connected {
      var g := Acquire(o, s, a, a.expected.organization);
      AcquireLeavesMembers(o, s, a, a.expected.organization);
      GrantChanges(o, g, a, key);
      SettleLeavesMembers(o, Grant(o, g, a), a, a.expected.organization);
    }
  }

  lemma {:induction false} AcquireLeavesMembers(o: ProjectObject, s: Store, a: Answers, expected: Id)
    ensures Acquire(o, s, a, expected).remote.members == s.members
  {
  }

  lemma {:induction false} SettleLeavesMembers(o: ProjectObject, g: ProjectProgress, a: Answers, expected: Id)
    ensures Settle(o, g, a, expected).remote.members == g.remote.members
  {
  }

  /** The reason `CreationNotAllowed` is never reported: without leave to create, the adopt step
      has already reported the project as missing. */
  lemma {:induction false} NeverCreationNotAllowed(o: ProjectObject, s: Store, a: Answers, expected: Id)
    ensures Acquire(o, s, a, expected).error != Some(CreationNotAllowed)
  {
  }

  /** What a reconcile stores has no empty list in it. */
  lemma {:induction false} StaysReadBack(o: ProjectObject, s: Store, a: Answers)
    requires ReadBack(o)
    ensures ReadBack(Reconcile(o, s, a).obj)
  {
    if Active(o) && a.expected.Expect? && a.connected {
      var expected := a.expected.organization;
      var g := Acquire(o, s, a, expected);
      if g.error.None? && Grant(o, g, a).error.None? {
        SettleStaysReadBack(o, Grant(o, g, a), a, expected);
      }
    }
  }

  lemma {:induction false} SettleStaysReadBack(o: ProjectObject, g: ProjectProgress, a: Answers, expected: Id)
    requires ReadBack(o)
    ensures ReadBack(Settle(o, g, a, expected).obj)
  {
  }
}
