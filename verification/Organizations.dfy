/** The organization reconciler. */
module Organizations {
  import opened Basics
  import opened Lifecycle

  /** `organizationID` asks for one existing organization; empty asks for none in particular. */
  datatype Spec = Spec(organizationID: Id, name: string)

  /** The stored status keeps the observed name. */
  type OrganizationObject = Object<Spec, string>

  /** The names of the organizations that exist, and every ID ever issued. */
  datatype Store = Store(names: map<Id, string>, issued: set<Id>)

  /** `user` says that the credential is a user's, which may use the organization endpoints;
      a machine identity may only probe whether an organization is visible to it. */
  datatype Answers = Answers(
    finalizer: Reply, connected: bool, user: bool, visible: bool,
    find: Reply, found: Option<Id>, create: Reply, id: Id,
    get: Reply, patch: Reply, delete: Reply)

  type OrganizationTurn = Turn<Spec, string, Store>
  type OrganizationProgress = Progress<string, Store>

  datatype Lookup = LookupFailed | NotVisible | Seen(id: Id, name: string)

  /** `FindOrganization`. A user's lookup by ID that ends in 404 is an error: only a lookup that
      was not authorized goes on to probe visibility, and a machine identity sees no name. */
  function Find(s: Store, id: Id, name: string, reply: Reply, a: Answers): Lookup {
    if reply.Failed? then LookupFailed
    else if id != "" then
      if a.user then (if id in s.names then Seen(id, s.names[id]) else LookupFailed)
      else if a.visible && id in s.names then Seen(id, "")
      else NotVisible
    else if !a.user then LookupFailed
    else if a.found.Some? && a.found.value in s.names && a.found.value != "" && s.names[a.found.value] == name then Seen(a.found.value, name)
    else NotVisible
  }

  /** `validateOrganizationSpec`. */
  predicate ValidSpec(o: OrganizationObject) {
    (o.spec.organizationID != "" ==> o.creation.CanAdopt()) && o.spec.name != ""
  }

  /** `setOrganizationObservedState`. */
  function Observe(o: OrganizationObject, m: Status<string>, id: Id, name: string): Status<string> {
    Status(id, "", o.meta.generation, m.ready, name)
  }

  /** Adopt or create when no ID is stored. Only a user's credential can create. */
  function Acquire(o: OrganizationObject, s: Store, a: Answers): OrganizationProgress {
    var g := Start(o, s);
    if o.status.id != "" then g
    else
      var seen := if o.creation.CanAdopt() then Find(s, o.spec.organizationID, o.spec.name, a.find, a) else NotVisible;
      match seen
      case LookupFailed => g.(error := Some(ExternalReadFailed))
      case Seen(id, name) => g.(status := Observe(o, g.status, id, name))
      case NotVisible =>
        if !o.creation.CanCreate() then g.(error := Some(if o.creation.CanAdopt() then RemoteOrganizationMissing else CreationNotAllowed))
        else if !(a.user && Usable(a.id, s.issued) && a.create.Reached()) then g.(wrote := true, error := Some(ExternalCreateFailed))
        else
          var made := g.(remote := Store(s.names[a.id := o.spec.name], s.issued + {a.id}), created := Some(a.id), wrote := true);
          if a.create.Failed? then made.(error := Some(ExternalCreateFailed))
          else made.(status := Observe(o, g.status, a.id, o.spec.name))
  }

  function Sync(o: OrganizationObject, s: Store, a: Answers): OrganizationTurn {
    if !ValidSpec(o) then Report(Same, o, Start(o, s), ConfigurationInvalid, a.patch)
    else if !a.connected then Report(Same, o, Start(o, s), ConnectionNotReady, a.patch)
    else
      var g := Acquire(o, s, a);
      if g.error.Some? then Report(Same, o, g, g.error.value, a.patch)
      else if g.created.Some? then Succeed(Same, o, g, a.patch)
      else match Find(g.remote, g.status.id, "", a.get, a)
        case LookupFailed => Report(Same, o, g, ExternalReadFailed, a.patch)
        case NotVisible => Forget(Same, o, g, "", "", RemoteOrganizationMissing, a.patch)
        case Seen(id, name) =>
          if o.spec.organizationID != "" && id != o.spec.organizationID then Report(Same, o, g, ExternalOrganizationMismatch, a.patch)
          else Succeed(Same, o, g.(status := Observe(o, g.status, id, name)), a.patch)
  }

  /** `reconcileOrganizationDeletion`. */
  function Remove(o: OrganizationObject, s: Store, a: Answers): OrganizationTurn {
    if o.deletion != Delete || o.status.id == "" then Release(o, s, None, a.finalizer)
    else if !a.connected then Turn(o, s, Act(Releasing, None, None, false, false))
    else DeleteRemote(o, s, s.(names := s.names - {o.status.id}), a.delete, a.finalizer)
  }

  /** One reconcile of one organization. */
  function Reconcile(o: OrganizationObject, s: Store, a: Answers): OrganizationTurn {
    if o.meta.gone then Skip(o, s)
    else if NeedsFinalizer(o) then AddFinalizer(o, s, a.finalizer)
    else if o.meta.deleting then Remove(o, s, a)
    else Sync(o, s, a)
  }

  lemma {:induction false} AcquireKeeps(o: OrganizationObject, s: Store, a: Answers)
    ensures var g := Acquire(o, s, a);
      && g.status.ready == o.status.ready
      && (g.created.Some? ==> o.status.id == "" && g.created.value != "")
      && (g.error.None? ==>
           && g.status.id != "" && (o.status.id == "" || g.status.id == o.status.id)
           && (g.created.Some? ==> g.status.id == g.created.value && g.status.observed == o.meta.generation))
  {
  }

  /** Whatever the calls answer, a reconcile keeps the lifecycle contract. */
  lemma {:induction false} ReconcileSteps(o: OrganizationObject, s: Store, a: Answers)
    ensures var t := Reconcile(o, s, a); Step(false, o, t.act, t.obj)
  {
    if Active(o) && ValidSpec(o) && a.connected {
      AcquireKeeps(o, s, a);
      var g := Acquire(o, s, a);
      if g.error.None? {
        AfterAcquireSteps(o, g, s, a);
      }
    }
  }

  lemma {:induction false} AfterAcquireSteps(o: OrganizationObject, g: OrganizationProgress, s: Store, a: Answers)
    requires Active(o) && ValidSpec(o) && a.connected && g == Acquire(o, s, a) && g.error.None?
    ensures var t := Sync(o, s, a); Step(false, o, t.act, t.obj)
  {
    AcquireKeeps(o, s, a);
    if g.created.Some? {
      SucceedSteps(Same, false, o, g, a.patch);
    } else {
      match Find(g.remote, g.status.id, "", a.get, a)
      case LookupFailed => ReportSteps(Same, false, o, g, ExternalReadFailed, a.patch);
      case NotVisible => ForgetSteps(Same, false, o, g, "", "", RemoteOrganizationMissing, a.patch);
      case Seen(id, name) =>
        ReportSteps(Same, false, o, g, ExternalOrganizationMismatch, a.patch);
        SucceedSteps(Same, false, o, g.(status := Observe(o, g.status, id, name)), a.patch);
    }
  }

  /** Ready is sound: the organization exists, and is the one asked for by ID. */
  lemma {:induction false} ReadyIsSound(o: OrganizationObject, s: Store, a: Answers)
    requires Reconcile(o, s, a).act.outcome.Ready? && a.patch.Reached()
    ensures var t := Reconcile(o, s, a);
      && t.obj.status.ready == Some(Verdict(true, Reconciled, o.meta.generation))
      && t.obj.status.id in t.remote.names
      && (o.spec.organizationID != "" ==> t.obj.status.id == o.spec.organizationID)
      && (a.user ==> t.obj.status.rest == t.remote.names[t.obj.status.id])
  {
    AcquireKeeps(o, s, a);
  }

  /** The architecture promises that an external object that disappears has its ID cleared. For
      organizations that holds exactly for the machine credentials: under a user's credential
      the 404 is reported as a read error and the ID stays stored. */
  lemma {:induction false} DisappearanceIsNoticed(o: OrganizationObject, s: Store, a: Answers)
    requires Active(o) && ValidSpec(o) && a.connected && a.get.Answered? && a.patch.Reached()
    requires o.status.id != "" && o.status.id !in s.names
    ensures Reconcile(o, s, a).obj.status.id == "" <==> !a.user
    ensures a.user ==> Reconcile(o, s, a).obj.status.id == o.status.id
  {
  }

  /** What the reconcile reports about itself is what happened outside: exactly the entity it
      created is new, under an ID never issued before; without a delete call none is gone, and
      after a confirmed one exactly the entity it was sent for is. */
  lemma {:induction false} ActIsReal(o: OrganizationObject, s: Store, a: Answers)
    ensures var t := Reconcile(o, s, a);
      && t.remote.issued == s.issued + (if t.act.created.Some? then {t.act.created.value} else {})
      && (t.act.created.Some? ==> t.act.created.value !in s.issued)
      && (t.act.sent.None? ==> s.names.Keys <= t.remote.names.Keys)
      && (t.act.confirmed ==> t.act.sent.Some? && t.remote.names == s.names - {t.act.sent.value})
  {
    if Active(o) {
      AcquireKeeps(o, s, a);
    }
  }

  /** The reason `CreationNotAllowed` is never reported: without leave to create, the adopt step
      has already reported the organization as missing. */
  lemma {:induction false} NeverCreationNotAllowed(o: OrganizationObject, s: Store, a: Answers)
    ensures Acquire(o, s, a).error != Some(CreationNotAllowed)
  {
  }
}
