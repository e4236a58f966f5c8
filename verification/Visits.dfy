/** One visit to one resource, with every call answered: what it achieves, and the invariant of
    the whole cluster that it keeps. */
module Visits {
  import opened Basics
  import opened Lifecycle
  import opened Settling
  import opened Clusters
  import opened Advancing
  import I = Identities

  // ----- one visit

  lemma {:induction false} RawIsNotDone(r: Refs, c: Cluster, k: Resource)
    requires Raw(r, c, k)
    ensures !Done(r, c, k) && Exists(c, k)
  {
  }

  ghost predicate Partitioned(r: Refs, c: Cluster) {
    forall k: Resource :: Exists(c, k) ==> Done(r, c, k) || Raw(r, c, k) || Placed(r, c, k)
  }

  /** Not settled, but on its way. */
  predicate Underway(r: Refs, c: Cluster, k: Resource) {
    Exists(c, k) && !Done(r, c, k) && (Raw(r, c, k) || Placed(r, c, k))
  }

  lemma {:induction false} ProjectsAreReal(r: Refs, c: Cluster)
    requires Partitioned(r, c)
    ensures Real(c)
  {
    forall n | n in c.projects && c.projects[n].status.id != "" ensures c.projects[n].status.id in c.store.projects {
      assert Exists(c, AProject(n));
    }
  }

  lemma {:induction false} IdentityIsIssued(r: Refs, c: Cluster, n: string)
    requires Books(r, c) && Partitioned(r, c) && IdOf(c.identities, n) != ""
    ensures IdOf(c.identities, n) in c.issued
  {
    assert Exists(c, AnIdentity(n));
  }

  /** A visit to a resource that is not settled: it settles when it is awake and what it needs
      is settled; otherwise it may do so, or only move past its finalizer. */
  ghost predicate Ends(r: Refs, c: Cluster, d: Cluster, k: Resource)
    requires Exists(c, k)
  {
    Pauses(r, c, d, k) && (Awake(c, k) && Needs(r, c, k) ==> Done(r, d, k))
  }

  lemma {:induction false} VisitOrganization(r: Refs, c: Cluster, n: string, x: Choice)
    requires Inv(r, c) && Underway(r, c, AnOrganization(n)) && Fair(c, AnOrganization(n), x)
    ensures Ends(r, c, OrganizationAfter(c, n, x), AnOrganization(n))
  {
    hide Pauses, OrganizationAfter;
    if Awake(c, AnOrganization(n)) {
      OrganizationLands(r, c, n, x);
    } else {
      OrganizationPauses(r, c, n, x);
    }
  }

  lemma {:induction false} VisitProject(r: Refs, c: Cluster, n: string, x: Choice)
    requires Inv(r, c) && Underway(r, c, AProject(n)) && Fair(c, AProject(n), x)
    ensures Ends(r, c, ProjectAfter(r, c, n, x), AProject(n))
  {
    hide Pauses, ProjectAfter;
    if Awake(c, AProject(n)) && Expected(r, c, n).Expect? {
      ProjectLands(r, c, n, x);
    } else {
      if ProjectNeeds(r, c, n) {
        ProjectExpects(r, c, n);
      }
      ProjectPauses(r, c, n, x);
    }
  }

  lemma {:induction false} VisitEnvironment(r: Refs, c: Cluster, n: string, x: Choice)
    requires Inv(r, c) && Underway(r, c, AnEnvironment(n)) && Fair(c, AnEnvironment(n), x)
    ensures Ends(r, c, EnvironmentAfter(r, c, n, x), AnEnvironment(n))
  {
    hide Pauses, EnvironmentAfter;
    if Awake(c, AnEnvironment(n)) && ProjectOf(r, c, n) != "" {
      EnvironmentLands(r, c, n, x);
    } else {
      EnvironmentPauses(r, c, n, x);
    }
  }

  lemma {:induction false} VisitIdentity(r: Refs, c: Cluster, n: string, x: Choice)
    requires Inv(r, c) && Underway(r, c, AnIdentity(n)) && Fair(c, AnIdentity(n), x)
    ensures Ends(r, c, IdentityAfter(c, n, x), AnIdentity(n))
  {
    hide Pauses, IdentityAfter;
    ProjectsAreReal(r, c);
    var spec := c.identities[n].spec;
    if Awake(c, AnIdentity(n)) && I.Anchor(spec, ViewFor(c, spec)).Anchored? {
      IdentityLands(r, c, n, x);
    } else {
      if IdentityNeeds(r, c, spec) {
        NeedsAnchored(r, c, c.identities[n]);
      }
      IdentityPauses(r, c, n, x);
    }
  }

  lemma {:induction false} VisitKubernetesAuth(r: Refs, c: Cluster, n: string, x: Choice)
    requires Inv(r, c) && Underway(r, c, AKubernetesAuth(n)) && Fair(c, AKubernetesAuth(n), x)
    ensures Ends(r, c, KubernetesAuthAfter(r, c, n, x), AKubernetesAuth(n))
  {
    hide Pauses, KubernetesAuthAfter;
    if Awake(c, AKubernetesAuth(n)) && IdOf(c.identities, Lookup(r.kubernetesOf, n)) != "" {
      IdentityIsIssued(r, c, Lookup(r.kubernetesOf, n));
      KubernetesAuthLands(r, c, n, x);
    } else {
      KubernetesAuthPauses(r, c, n, x);
    }
  }

  lemma {:induction false} VisitUniversalAuth(r: Refs, c: Cluster, n: string, x: Choice)
    requires Inv(r, c) && Underway(r, c, AUniversalAuth(n)) && Fair(c, AUniversalAuth(n), x)
    ensures Ends(r, c, UniversalAuthAfter(r, c, n, x), AUniversalAuth(n))
  {
    hide Pauses, UniversalAuthAfter;
    if Awake(c, AUniversalAuth(n)) && IdentityReady(c, Lookup(r.universalOf, n)) {
      UniversalAuthLands(r, c, n, x);
    } else {
      UniversalAuthPauses(r, c, n, x);
    }
  }

  lemma {:induction false} VisitUnderway(r: Refs, c: Cluster, k: Resource, x: Choice)
    requires Inv(r, c) && Underway(r, c, k) && Fair(c, k, x)
    ensures Ends(r, c, After(r, c, k, x), k)
  {
    hide Inv, Underway, Fair, Ends, OrganizationAfter, ProjectAfter, EnvironmentAfter, IdentityAfter, KubernetesAuthAfter, UniversalAuthAfter;
    match k
    case AnOrganization(n) => VisitOrganization(r, c, n, x);
    case AProject(n) => VisitProject(r, c, n, x);
    case AnEnvironment(n) => VisitEnvironment(r, c, n, x);
    case AnIdentity(n) => VisitIdentity(r, c, n, x);
    case AKubernetesAuth(n) => VisitKubernetesAuth(r, c, n, x);
    case AUniversalAuth(n) => VisitUniversalAuth(r, c, n, x);
  }

  // ----- what a visit keeps

  lemma {:induction false} DistinctKept<S, X>(before: map<string, Object<S, X>>, after: map<string, Object<S, X>>, n: string, issued: set<Id>)
    requires DistinctIds(before) && before.Keys == after.Keys && Issues(before, after, issued)
    requires forall m :: m in before && m != n ==> after[m].status.id == before[m].status.id
    requires forall m :: m in before ==> before[m].status.id == "" || before[m].status.id in issued
    ensures DistinctIds(after)
  {
  }

  lemma {:induction false} ProjectIdsKept(r: Refs, c: Cluster, d: Cluster, k: Resource)
    requires Books(r, c) && Partitioned(r, c) && DistinctIds(c.projects) && Advances(r, c, d, k)
    ensures DistinctIds(d.projects)
  {
    ProjectsAreReal(r, c);
    forall m | m in c.projects && AProject(m) != k ensures d.projects[m].status.id == c.projects[m].status.id {
      assert SameObject(c, d, AProject(m));
    }
    if k.AProject? {
      DistinctKept(c.projects, d.projects, k.name, c.store.owners.Keys);
    }
  }

  lemma {:induction false} EnvironmentsAreIssued(r: Refs, c: Cluster)
    requires Books(r, c) && Partitioned(r, c)
    ensures forall m :: m in c.environments ==> c.environments[m].status.id == "" || c.environments[m].status.id in c.envs.issued
  {
    forall m | m in c.environments ensures c.environments[m].status.id == "" || c.environments[m].status.id in c.envs.issued {
      assert Exists(c, AnEnvironment(m));
    }
  }

  lemma {:induction false} EnvironmentIdsKept(r: Refs, c: Cluster, d: Cluster, k: Resource)
    requires Books(r, c) && Partitioned(r, c) && DistinctIds(c.environments) && Advances(r, c, d, k)
    ensures DistinctIds(d.environments)
  {
    EnvironmentsAreIssued(r, c);
    hide Books, Partitioned, ReplacesOwn;
    forall m | m in c.environments && AnEnvironment(m) != k ensures d.environments[m].status.id == c.environments[m].status.id {
      assert SameObject(c, d, AnEnvironment(m));
    }
    if k.AnEnvironment? {
      DistinctKept(c.environments, d.environments, k.name, c.envs.issued);
    }
  }

  lemma {:induction false} IdentityIdsKept(r: Refs, c: Cluster, d: Cluster, k: Resource)
    requires Books(r, c) && Partitioned(r, c) && DistinctIds(c.identities) && Advances(r, c, d, k)
    ensures DistinctIds(d.identities)
  {
    forall m | m in c.identities ensures c.identities[m].status.id == "" || c.identities[m].status.id in c.issued {
      if c.identities[m].status.id != "" {
        IdentityIsIssued(r, c, m);
      }
    }
    forall m | m in c.identities && AnIdentity(m) != k ensures d.identities[m].status.id == c.identities[m].status.id {
      assert SameObject(c, d, AnIdentity(m));
    }
    if k.AnIdentity? {
      DistinctKept(c.identities, d.identities, k.name, c.issued);
    }
  }

  lemma {:induction false} CreatorStaysApart(r: Refs, c: Cluster, d: Cluster, k: Resource)
    requires Books(r, c) && CreatorApart(r, c) && Advances(r, c, d, k)
    ensures CreatorApart(r, d)
  {
  }

  lemma {:induction false} SameReferencesApart(r: Refs, c: Cluster, d: Cluster)
    requires OnePerIdentity(r, c) && SameNames(c, d)
    ensures OnePerIdentity(r, d)
  {
  }

  lemma {:induction false} ApartKept(r: Refs, c: Cluster, d: Cluster, k: Resource)
    requires Books(r, c) && Partitioned(r, c) && Apart(r, c) && Advances(r, c, d, k)
    ensures Apart(r, d)
  {
    hide Books, Partitioned, DistinctIds, CreatorApart, OnePerIdentity;
    ProjectIdsKept(r, c, d, k);
    EnvironmentIdsKept(r, c, d, k);
    IdentityIdsKept(r, c, d, k);
    CreatorStaysApart(r, c, d, k);
    SameReferencesApart(r, c, d);
  }

  lemma {:induction false} RawKept(r: Refs, c: Cluster, d: Cluster, k: Resource, q: Resource)
    requires Books(r, c) && Apart(r, c) && Exists(c, k) && Advances(r, c, d, k) && q != k && Raw(r, c, q)
    ensures Raw(r, d, q)
  {
    assert SameObject(c, d, q);
    if q.AKubernetesAuth? {
      StillUnattached(r, c, d, k, q.name);
    }
  }

  lemma {:induction false} StillUnattached(r: Refs, c: Cluster, d: Cluster, k: Resource, n: string)
    requires Books(r, c) && Apart(r, c) && Exists(c, k) && Advances(r, c, d, k) && AKubernetesAuth(n) != k
    requires n in c.kubernetes && Lookup(r.kubernetesOf, n) in c.identities
    requires IdOf(c.identities, Lookup(r.kubernetesOf, n)) !in c.attached
    ensures IdOf(d.identities, Lookup(r.kubernetesOf, n)) !in d.attached
  {
    hide DistinctIds;
    var m := Lookup(r.kubernetesOf, n);
    if k == AnIdentity(m) {
      assert forall id :: id in d.attached ==> id in c.attached && id in c.issued;
    } else {
      assert SameObject(c, d, AnIdentity(m));
      NotAttachedBy(r, c, k, n);
    }
  }

  lemma {:induction false} NotAttachedBy(r: Refs, c: Cluster, k: Resource, n: string)
    requires OnePerIdentity(r, c) && DistinctIds(c.identities) && Exists(c, k) && AKubernetesAuth(n) != k && n in c.kubernetes
    requires Lookup(r.kubernetesOf, n) in c.identities
    ensures !AttachedBy(r, c, k, IdOf(c.identities, Lookup(r.kubernetesOf, n)))
  {
    if k.AKubernetesAuth? {
      assert Lookup(r.kubernetesOf, k.name) != Lookup(r.kubernetesOf, n);
    }
  }

  /** An ID that is not empty never changes. */
  lemma {:induction false} IdStays<S, X>(before: map<string, Object<S, X>>, after: map<string, Object<S, X>>, issued: set<Id>, n: string)
    requires Issues(before, after, issued) && before.Keys == after.Keys && IdOf(before, n) != ""
    ensures IdOf(after, n) == IdOf(before, n)
  {
  }

  lemma {:induction false} PlacedKept(r: Refs, c: Cluster, d: Cluster, k: Resource, q: Resource)
    requires Books(r, c) && Apart(r, c) && Exists(c, k) && Advances(r, c, d, k) && q != k && Placed(r, c, q)
    ensures Placed(r, d, q)
  {
    StaysIntact(r, c, d, k, q);
    assert SameObject(c, d, q);
    IntactStaysPlaced(r, c, d, q);
  }

  lemma {:induction false} IntactStaysPlaced(r: Refs, c: Cluster, d: Cluster, q: Resource)
    requires Placed(r, c, q) && SameObject(c, d, q) && Intact(r, c, d, q) && SameNames(c, d) && IssuesAll(c, d)
    ensures Placed(r, d, q)
  {
    hide Issues;
    match q
    case AnOrganization(n) =>
    case AProject(n) =>
      if n in r.organizationOf {
        IdStays(c.organizations, d.organizations, c.orgs.issued, r.organizationOf[n]);
      }
    case AnEnvironment(n) => IdStays(c.projects, d.projects, c.store.owners.Keys, Lookup(r.projectOf, n));
    case AnIdentity(n) => OwnerStays(c, d, c.identities[n].spec);
    case AKubernetesAuth(n) => IdStays(c.identities, d.identities, c.issued, Lookup(r.kubernetesOf, n));
    case AUniversalAuth(n) => IdStays(c.identities, d.identities, c.issued, Lookup(r.universalOf, n));
  }

  lemma {:induction false} OwnerStays(c: Cluster, d: Cluster, spec: I.Spec)
    requires SameNames(c, d) && IssuesAll(c, d) && OwnerOf(c, spec) != ""
    ensures OwnerOf(d, spec) == OwnerOf(c, spec)
  {
    if spec.scope.OrganizationScope? {
      IdStays(c.organizations, d.organizations, c.orgs.issued, Named(spec.organizationRef));
    } else {
      IdStays(c.projects, d.projects, c.store.owners.Keys, Named(spec.projectRef));
    }
  }

  /** How a visit leaves everything else: settled is settled, up to the environments that
      projects list. */
  ghost predicate Keeps(r: Refs, c: Cluster, d: Cluster) {
    && Inv(r, d) && SameNames(c, d)
    && forall q: Resource :: Exists(c, q) ==> (Done(r, c, q) ==> Done(r, d, q)) && (Awake(c, q) ==> Exists(d, q) && Awake(d, q))
  }

  lemma {:induction false} SameObjectAwake(c: Cluster, d: Cluster, q: Resource)
    requires Exists(c, q) && SameObject(c, d, q) && SameNames(c, d) && Awake(c, q)
    ensures Exists(d, q) && Awake(d, q)
  {
  }

  lemma {:induction false} DoneIsAwake(r: Refs, c: Cluster, k: Resource)
    requires Done(r, c, k)
    ensures Exists(c, k) && Awake(c, k)
  {
  }

  lemma {:induction false} AdvancesKeeps(r: Refs, c: Cluster, d: Cluster, k: Resource)
    requires Inv(r, c) && Exists(c, k) && Advances(r, c, d, k) && Preserves(r, c, d)
    requires Exists(d, k) && Awake(d, k) && (Done(r, d, k) || Raw(r, d, k) || Placed(r, d, k))
    ensures Keeps(r, c, d)
  {
    hide Done, Raw, Placed, Awake, Preserves, Apart, Books, IssuesAll, ReplacesOwn, SameNames;
    ApartKept(r, c, d, k);
    forall q: Resource | Exists(c, q)
      ensures Done(r, c, q) ==> Done(r, d, q)
      ensures Done(r, d, q) || Raw(r, d, q) || Placed(r, d, q)
      ensures Awake(c, q) ==> Exists(d, q) && Awake(d, q)
    {
      if q != k {
        AdvancesKeepsOne(r, c, d, k, q);
      } else if Done(r, c, q) {
        DoneKept(r, c, d, q);
      }
    }
    StillPartitioned(r, c, d);
  }

  lemma {:induction false} StillPartitioned(r: Refs, c: Cluster, d: Cluster)
    requires SameNames(c, d) && forall q: Resource :: Exists(c, q) ==> Done(r, d, q) || Raw(r, d, q) || Placed(r, d, q)
    ensures Partitioned(r, d)
  {
    forall q: Resource | Exists(d, q) ensures Done(r, d, q) || Raw(r, d, q) || Placed(r, d, q) {
      assert Exists(c, q);
    }
  }

  lemma {:induction false} AdvancesKeepsOne(r: Refs, c: Cluster, d: Cluster, k: Resource, q: Resource)
    requires Inv(r, c) && Exists(c, k) && Advances(r, c, d, k) && Preserves(r, c, d) && Exists(c, q) && q != k
    ensures Done(r, c, q) ==> Done(r, d, q)
    ensures Done(r, d, q) || Raw(r, d, q) || Placed(r, d, q)
    ensures Awake(c, q) ==> Exists(d, q) && Awake(d, q)
  {
    hide Preserves, Done, Raw, Placed, Awake, SameObject, Books, Apart;
    assert SameObject(c, d, q);
    if Awake(c, q) {
      SameObjectAwake(c, d, q);
    }
    if Done(r, c, q) {
      DoneKept(r, c, d, q);
    } else if Raw(r, c, q) {
      RawKept(r, c, d, k, q);
    } else {
      PlacedKept(r, c, d, k, q);
    }
  }

  /** Either end of a visit to a resource that is not settled keeps everything else. */
  lemma {:induction false} EitherEndKeeps(r: Refs, c: Cluster, d: Cluster, k: Resource)
    requires Inv(r, c) && Underway(r, c, k) && Ends(r, c, d, k)
    ensures Keeps(r, c, d) && Exists(d, k) && Awake(d, k) && (Awake(c, k) && Needs(r, c, k) ==> Done(r, d, k))
  {
    hide Done, Raw, Placed, Keeps, Preserves, Needs, Awake, Advances, Books, Apart;
    AdvancesPreserves(r, c, d, k);
    AdvancesKeeps(r, c, d, k);
  }

  lemma {:induction false} VisitedUnderway(r: Refs, c: Cluster, k: Resource, x: Choice)
    requires Inv(r, c) && Exists(c, k) && Fair(c, k, x) && Underway(r, c, k)
    ensures var d := After(r, c, k, x);
      Keeps(r, c, d) && Exists(d, k) && Awake(d, k) && (Awake(c, k) && Needs(r, c, k) ==> Done(r, d, k))
  {
    hide *;
    VisitUnderway(r, c, k, x);
    EitherEndKeeps(r, c, After(r, c, k, x), k);
  }

  /** Bringing the list of environments of a settled project up to date unsettles nothing. */
  lemma {:induction false} RefreshedKeeps(r: Refs, c: Cluster, n: string)
    requires Inv(r, c) && ProjectDone(r, c, n)
    ensures var d := Refreshed(c, n);
      Keeps(r, c, d) && Exists(d, AProject(n)) && Awake(d, AProject(n)) && Done(r, d, AProject(n))
  {
    var d := Refreshed(c, n);
    ProjectPut(r, c, d, n, d.projects[n], c.store);
    RefreshedPreserves(r, c, n);
    hide Inv, Preserves, Refreshed;
    DoneKept(r, c, d, AProject(n));
    DoneIsAwake(r, d, AProject(n));
    AdvancesKeeps(r, c, d, AProject(n));
  }

  lemma {:induction false} RefreshedPreserves(r: Refs, c: Cluster, n: string)
    requires ProjectDone(r, c, n)
    ensures Preserves(r, c, Refreshed(c, n))
  {
    var d := Refreshed(c, n);
    RefreshedIsAlike(c, n);
    hide Refreshed, AlikeProject, Intact;
    forall q: Resource | Done(r, c, q) ensures Alike(c, d, q) && Intact(r, c, d, q) {
      RefreshedIntact(r, c, n, q);
      if q != AProject(n) {
        RefreshedLeaves(c, n, q);
        SettledIsAlike(r, c, d, q);
      }
    }
  }

  lemma {:induction false} RefreshedIsAlike(c: Cluster, n: string)
    requires n in c.projects
    ensures n in Refreshed(c, n).projects && AlikeProject(c.projects[n], Refreshed(c, n).projects[n])
  {
  }

  lemma {:induction false} RefreshedIntact(r: Refs, c: Cluster, n: string, q: Resource)
    requires n in c.projects
    ensures Intact(r, c, Refreshed(c, n), q)
  {
  }

  lemma {:induction false} RefreshedLeaves(c: Cluster, n: string, q: Resource)
    requires n in c.projects && q != AProject(n)
    ensures SameObject(c, Refreshed(c, n), q)
  {
  }

  lemma {:induction false} VisitedDone(r: Refs, c: Cluster, k: Resource, x: Choice)
    requires Inv(r, c) && Exists(c, k) && Done(r, c, k)
    ensures var d := After(r, c, k, x); Keeps(r, c, d) && Exists(d, k) && Awake(d, k) && Done(r, d, k)
  {
    hide Inv, Keeps, ShowsEmpty, OrganizationAfter, ProjectAfter, EnvironmentAfter, IdentityAfter, KubernetesAuthAfter, UniversalAuthAfter, EnvironmentDone, IdentityDone, KubernetesAuthDone, UniversalAuthDone, OrganizationDone;
    if k.AProject? {
      ProjectRefreshes(r, c, k.name, x);
      RefreshedKeeps(r, c, k.name);
    } else {
      KeepsItself(r, c);
      RestsExactly(r, c, k, x);
      DoneIsAwake(r, c, k);
    }
  }

  lemma {:induction false} KeepsItself(r: Refs, c: Cluster)
    requires Inv(r, c)
    ensures Keeps(r, c, c)
  {
  }

  /** A visit keeps the invariant and whatever is settled; the visited resource is past its
      finalizer, and settled when it was before and what it needs is settled. */
  lemma {:induction false} Visited(r: Refs, c: Cluster, k: Resource, x: Choice)
    requires Inv(r, c) && Exists(c, k) && Fair(c, k, x)
    ensures var d := After(r, c, k, x);
      Keeps(r, c, d) && Exists(d, k) && Awake(d, k) && (Awake(c, k) && Needs(r, c, k) ==> Done(r, d, k))
  {
    hide After, Keeps, Done, Raw, Placed, Fair, Needs, Awake;
    if Done(r, c, k) {
      VisitedDone(r, c, k, x);
    } else {
      VisitedUnderway(r, c, k, x);
    }
  }
}
