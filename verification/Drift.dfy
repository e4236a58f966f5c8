/** Drift of a whole namespace: settings, memberships and client secrets changed behind the
    operator's back, and statuses that show anything. As long as the entities are in place, and
    nothing is changed that no request can correct, the sweeps bring everything back. */
module Drift {
  import opened Basics
  import opened Lifecycle
  import opened Settling
  import opened Clusters
  import opened Advancing
  import opened Visits
  import opened Convergence
  import P = Projects
  import I = Identities
  import K = KubernetesAuths
  import U = UniversalAuths
  import Rotation

  /** The same object with the same ID; whatever else its status says. */
  ghost predicate SameId<S, X>(o: Object<S, X>, p: Object<S, X>) {
    p == o.(status := p.status) && p.status.id == o.status.id
  }

  ghost predicate SameIds<S, X>(before: map<string, Object<S, X>>, after: map<string, Object<S, X>>) {
    before.Keys == after.Keys && forall n :: n in before ==> SameId(before[n], after[n])
  }

  /** The resources are the same, whatever their statuses show. */
  ghost predicate ObjectsDrift(c: Cluster, d: Cluster) {
    && SameIds(c.organizations, d.organizations) && SameIds(c.projects, d.projects) && SameIds(c.environments, d.environments)
    && SameIds(c.identities, d.identities) && SameIds(c.kubernetes, d.kubernetes) && SameIds(c.universals, d.universals)
    && (forall n :: n in d.projects ==> P.ReadBack(d.projects[n]))
    && (forall n :: n in d.kubernetes ==> K.ReadBack(d.kubernetes[n]))
    && (forall n :: n in d.universals && n in c.universals ==>
         U.ReadBack(d.universals[n]) && d.universals[n].status.rest.secretID == c.universals[n].status.rest.secretID)
  }

  /** The entities are the same, and where they were. A description is wanted empty only where
      it is. */
  predicate EntitiesDrift(c: Cluster, d: Cluster) {
    && d.orgs.names.Keys == c.orgs.names.Keys && d.orgs.issued == c.orgs.issued
    && d.store.projects.Keys == c.store.projects.Keys && d.store.owners == c.store.owners
    && (forall id :: id in c.store.projects ==> d.store.projects[id].organization == c.store.projects[id].organization)
    && (forall n :: n in c.projects && c.projects[n].spec.description == "" && c.projects[n].status.id in c.store.projects ==>
         d.store.projects[c.projects[n].status.id].description == c.store.projects[c.projects[n].status.id].description)
    && (forall key :: key in d.store.members ==> key.project in d.store.owners && key.identity in d.issued)
    && d.envs.environments.Keys == c.envs.environments.Keys && d.envs.issued == c.envs.issued
    && (forall id :: id in c.envs.environments ==> d.envs.environments[id].project == c.envs.environments[id].project)
    && d.known.Keys == c.known.Keys && d.issued == c.issued
    && (forall id :: id in c.known ==> d.known[id].organization == c.known[id].organization && d.known[id].project == c.known[id].project)
    && d.attached.Keys == c.attached.Keys && (forall id :: id in d.attached ==> d.attached[id].id != "")
  }

  /** The auth method may have other settings, client secrets may have been revoked, and the
      output Secret may be gone or hold anything. */
  predicate InfraDrifts(spec: U.Spec, i: U.Infra, j: U.Infra) {
    && Rotation.Coherent(j) && Rotation.Safe(j) && j.issued == i.issued && j.live <= i.live && j.identity == i.identity
    && (j.secret.Some? ==> !j.secret.value.foreign) && (i.secret.None? ==> j.secret.None?)
    && (i.auth.None? <==> j.auth.None?)
    && (i.auth.Some? ==> AuthDrifts(spec, i.auth.value, j.auth.value))
  }

  predicate AuthDrifts(spec: U.Spec, auth: U.Auth, other: U.Auth) {
    other.id == auth.id && other.identity == auth.identity && !U.AnyStuck(spec.config, other.config)
  }

  ghost predicate Drifted(c: Cluster, d: Cluster) {
    && ObjectsDrift(c, d) && EntitiesDrift(c, d) && d.infra.Keys == c.infra.Keys
    && (forall n :: n in c.infra ==> Rotation.Coherent(d.infra[n]))
    && (forall n :: n in c.universals && n in c.infra ==> InfraDrifts(c.universals[n].spec, c.infra[n], d.infra[n]))
  }

  lemma {:induction false} DistinctStays<S, X>(before: map<string, Object<S, X>>, after: map<string, Object<S, X>>)
    requires DistinctIds(before) && SameIds(before, after)
    ensures DistinctIds(after)
  {
  }

  lemma {:induction false} IdDrifts<S, X>(before: map<string, Object<S, X>>, after: map<string, Object<S, X>>, n: string)
    requires SameIds(before, after)
    ensures IdOf(after, n) == IdOf(before, n)
  {
  }

  lemma {:induction false} DriftStaysApart(r: Refs, c: Cluster, d: Cluster)
    requires Books(r, c) && Apart(r, c) && Drifted(c, d)
    ensures Books(r, d) && Apart(r, d)
  {
    DistinctStays(c.projects, d.projects);
    DistinctStays(c.environments, d.environments);
    DistinctStays(c.identities, d.identities);
  }

  /** A settled resource holds the ID of an entity in place; for an auth method, what the
      operator may do with its Secret is another matter. */
  lemma {:induction false} DoneIsPlaced(r: Refs, c: Cluster, k: Resource)
    requires Done(r, c, k) && !k.AUniversalAuth?
    ensures Placed(r, c, k)
  {
    match k
    case AnIdentity(n) => DoneIdentityIsPlaced(r, c, n);
    case _ =>
  }

  lemma {:induction false} DoneIdentityIsPlaced(r: Refs, c: Cluster, n: string)
    requires IdentityDone(r, c, n)
    ensures PlacedIdentity(r, c, n)
  {
    var o := c.identities[n];
    I.AnchorLaw(o.spec, ViewFor(c, o.spec));
  }

  lemma {:induction false} RawDrifts(r: Refs, c: Cluster, d: Cluster, k: Resource)
    requires Raw(r, c, k) && Drifted(c, d)
    ensures Raw(r, d, k)
  {
    hide Raw, Drifted;
    match k
    case AKubernetesAuth(n) => RawKubernetesAuthDrifts(r, c, d, n);
    case AUniversalAuth(n) => RawUniversalAuthDrifts(r, c, d, n);
    case _ => RawOtherDrifts(r, c, d, k);
  }

  lemma {:induction false} RawOtherDrifts(r: Refs, c: Cluster, d: Cluster, k: Resource)
    requires Raw(r, c, k) && Drifted(c, d) && !k.AKubernetesAuth? && !k.AUniversalAuth?
    ensures Raw(r, d, k)
  {
    hide InfraDrifts, EntitiesDrift;
  }

  lemma {:induction false} RawKubernetesAuthDrifts(r: Refs, c: Cluster, d: Cluster, n: string)
    requires Raw(r, c, AKubernetesAuth(n)) && Drifted(c, d)
    ensures Raw(r, d, AKubernetesAuth(n))
  {
    hide InfraDrifts;
    IdDrifts(c.identities, d.identities, Lookup(r.kubernetesOf, n));
  }

  lemma {:induction false} RawUniversalAuthDrifts(r: Refs, c: Cluster, d: Cluster, n: string)
    requires Raw(r, c, AUniversalAuth(n)) && Drifted(c, d)
    ensures Raw(r, d, AUniversalAuth(n))
  {
    hide EntitiesDrift;
    assert InfraDrifts(c.universals[n].spec, c.infra[n], d.infra[n]);
  }

  lemma {:induction false} PlacedDrifts(r: Refs, c: Cluster, d: Cluster, k: Resource)
    requires Placed(r, c, k) && Drifted(c, d) && !k.AUniversalAuth?
    ensures Placed(r, d, k)
  {
    hide InfraDrifts, PlacedProject, PlacedEnvironment, PlacedIdentity, PlacedKubernetesAuth;
    match k
    case AnOrganization(n) =>
    case AProject(n) => PlacedProjectDrifts(r, c, d, n);
    case AnEnvironment(n) => PlacedEnvironmentDrifts(r, c, d, n);
    case AnIdentity(n) => PlacedIdentityDrifts(r, c, d, n);
    case AKubernetesAuth(n) => PlacedKubernetesAuthDrifts(r, c, d, n);
  }

  lemma {:induction false} PlacedProjectDrifts(r: Refs, c: Cluster, d: Cluster, n: string)
    requires PlacedProject(r, c, n) && Drifted(c, d)
    ensures PlacedProject(r, d, n)
  {
    hide InfraDrifts;
    if n in r.organizationOf {
      IdDrifts(c.organizations, d.organizations, r.organizationOf[n]);
    }
  }

  lemma {:induction false} PlacedEnvironmentDrifts(r: Refs, c: Cluster, d: Cluster, n: string)
    requires PlacedEnvironment(r, c, n) && Drifted(c, d)
    ensures PlacedEnvironment(r, d, n)
  {
    hide InfraDrifts;
    IdDrifts(c.projects, d.projects, Lookup(r.projectOf, n));
  }

  lemma {:induction false} PlacedIdentityDrifts(r: Refs, c: Cluster, d: Cluster, n: string)
    requires PlacedIdentity(r, c, n) && Drifted(c, d)
    ensures PlacedIdentity(r, d, n)
  {
    hide InfraDrifts;
    var spec := c.identities[n].spec;
    IdDrifts(c.organizations, d.organizations, Named(spec.organizationRef));
    IdDrifts(c.projects, d.projects, Named(spec.projectRef));
    hide SameId;
  }

  lemma {:induction false} PlacedKubernetesAuthDrifts(r: Refs, c: Cluster, d: Cluster, n: string)
    requires PlacedKubernetesAuth(r, c, n) && Drifted(c, d)
    ensures PlacedKubernetesAuth(r, d, n)
  {
    hide InfraDrifts;
    IdDrifts(c.identities, d.identities, Lookup(r.kubernetesOf, n));
  }

  lemma {:induction false} UniversalAuthDrifts(r: Refs, c: Cluster, d: Cluster, n: string)
    requires Books(r, c) && Drifted(c, d) && (Done(r, c, AUniversalAuth(n)) || Placed(r, c, AUniversalAuth(n)))
    ensures Placed(r, d, AUniversalAuth(n))
  {
    hide InfraDrifts, EntitiesDrift, Books, Rotation.Coherent;
    IdDrifts(c.identities, d.identities, Lookup(r.universalOf, n));
    AttachedBefore(r, c, n);
    AttachedDrifts(c.universals[n], d.universals[n], InfraOf(r, c, n), InfraOf(r, d, n), c.infra[n], d.infra[n]);
  }

  /** What the stores of a settled or placed auth method have in common. */
  predicate Method(o: U.UniversalAuthObject, i: U.Infra) {
    && Usual(o) && o.spec.named && o.status.id != ""
    && i.auth.Some? && i.auth.value.id != "" && i.auth.value.identity == i.identity && Rotation.Known(i, o.status.rest.secretID)
  }

  lemma {:induction false} AttachedBefore(r: Refs, c: Cluster, n: string)
    requires Books(r, c) && (Done(r, c, AUniversalAuth(n)) || Placed(r, c, AUniversalAuth(n)))
    ensures n in c.universals && n in c.infra && Method(c.universals[n], InfraOf(r, c, n))
    ensures Lookup(r.universalOf, n) in c.identities && IdOf(c.identities, Lookup(r.universalOf, n)) != ""
  {
    hide IdentityDone;
    if UniversalAuthDone(r, c, n) {
      DoneIsAwake(r, c, AnIdentity(Lookup(r.universalOf, n)));
      DoneHasId(r, c, Lookup(r.universalOf, n));
      assert Rotation.Coherent(c.infra[n]);
    }
  }

  lemma {:induction false} DoneHasId(r: Refs, c: Cluster, m: string)
    requires IdentityDone(r, c, m)
    ensures IdOf(c.identities, m) != ""
  {
  }

  lemma {:induction false} AttachedDrifts(o: U.UniversalAuthObject, p: U.UniversalAuthObject, i: U.Infra, j: U.Infra, i0: U.Infra, j0: U.Infra)
    requires Method(o, i) && SameId(o, p) && p.status.rest.secretID == o.status.rest.secretID && InfraDrifts(o.spec, i0, j0)
    requires i == i0.(identity := i.identity) && j == j0.(identity := i.identity)
    ensures Usual(p) && p.spec.named && p.status.id != "" && Attached(p, j)
  {
  }

  /** After drift, the namespace still is a starting point of the sweeps. */
  lemma {:induction false} DriftedQualifies(r: Refs, c: Cluster, d: Cluster)
    requires Inv(r, c) && Drifted(c, d)
    ensures Inv(r, d) && SameNames(c, d)
  {
    DriftStaysApart(r, c, d);
    forall k: Resource | Exists(d, k) ensures Done(r, d, k) || Raw(r, d, k) || Placed(r, d, k) {
      assert Exists(c, k);
      DriftedIsUnderway(r, c, d, k);
    }
  }

  lemma {:induction false} DriftedIsUnderway(r: Refs, c: Cluster, d: Cluster, k: Resource)
    requires Books(r, c) && Drifted(c, d) && (Done(r, c, k) || Raw(r, c, k) || Placed(r, c, k))
    ensures Raw(r, d, k) || Placed(r, d, k)
  {
    hide Done, Raw, Placed, Drifted, Books;
    if Raw(r, c, k) {
      RawDrifts(r, c, d, k);
    } else if k.AUniversalAuth? {
      UniversalAuthDrifts(r, c, d, k.name);
    } else {
      if Done(r, c, k) {
        DoneIsPlaced(r, c, k);
      }
      PlacedDrifts(r, c, d, k);
    }
  }

  /** The same finalizers as before. */
  lemma {:induction false} DriftedIsAwake(c: Cluster, d: Cluster)
    requires Drifted(c, d) && SameNames(c, d) && forall k: Resource :: Exists(c, k) ==> Awake(c, k)
    ensures forall k: Resource :: Exists(d, k) ==> Awake(d, k)
  {
    forall k: Resource | Exists(d, k) ensures Awake(d, k) {
      assert Exists(c, k) && Awake(c, k);
    }
  }

  /** Drift is corrected: whatever has drifted of a namespace in which nothing lacks its
      finalizer, four sweeps in any order make every resource Ready again, and whatever is
      reconciled after that changes nothing. */
  lemma {:induction false} DriftIsCorrected(r: Refs, c: Cluster, d: Cluster, sweeps: seq<seq<Visit>>, later: seq<Visit>)
    requires Inv(r, c) && (forall k: Resource :: Exists(c, k) ==> Awake(c, k)) && Drifted(c, d)
    requires FairSweeps(r, d, sweeps) && AllCover(d, sweeps) && |sweeps| >= 4 && FairRun(r, RunSweeps(r, d, sweeps), later)
    ensures var e := RunSweeps(r, d, sweeps);
      && (forall k: Resource :: Exists(d, k) ==> Exists(e, k) && IsReady(e, k))
      && RunAll(r, e, later) == e && (NeverWrites(r, e, later) <==> NoneEmpty(r, e, later))
  {
    hide Inv, Drifted, FairSweeps, RunSweeps, AllCover, FairRun, RunAll;
    DriftedQualifies(r, c, d);
    DriftedIsAwake(c, d);
    FourSweepsSettleWhenAwake(r, d, sweeps, later);
  }
}
