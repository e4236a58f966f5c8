/** Convergence: whatever the order of the reconciles within a sweep, a bounded number of sweeps
    makes every resource Ready and brings everything to rest; from then on nothing changes, and
    all that is ever sent is a status patch without content, for the resources that show an
    empty list. */
module Convergence {
  import opened Basics
  import opened Lifecycle
  import opened Settling
  import opened Clusters
  import opened Advancing
  import opened Visits

  datatype Visit = Visit(k: Resource, x: Choice)

  /** Visits of existing resources, answered by a faithful server. */
  predicate FairRun(r: Refs, c: Cluster, vs: seq<Visit>)
    decreases |vs|
  {
    vs != [] ==> Exists(c, vs[0].k) && Fair(c, vs[0].k, vs[0].x) && FairRun(r, After(r, c, vs[0].k, vs[0].x), vs[1..])
  }

  function RunAll(r: Refs, c: Cluster, vs: seq<Visit>): Cluster
    requires FairRun(r, c, vs)
    decreases |vs|
  {
    if vs == [] then c else RunAll(r, After(r, c, vs[0].k, vs[0].x), vs[1..])
  }

  predicate FairSweeps(r: Refs, c: Cluster, sweeps: seq<seq<Visit>>)
    decreases |sweeps|
  {
    sweeps != [] ==> FairRun(r, c, sweeps[0]) && FairSweeps(r, RunAll(r, c, sweeps[0]), sweeps[1..])
  }

  function RunSweeps(r: Refs, c: Cluster, sweeps: seq<seq<Visit>>): Cluster
    requires FairSweeps(r, c, sweeps)
    decreases |sweeps|
  {
    if sweeps == [] then c else RunSweeps(r, RunAll(r, c, sweeps[0]), sweeps[1..])
  }

  predicate Reaches(vs: seq<Visit>, k: Resource) {
    exists i :: 0 <= i < |vs| && vs[i].k == k
  }

  lemma {:induction false} ReachesLater(vs: seq<Visit>, k: Resource)
    requires Reaches(vs, k) && vs[0].k != k
    ensures Reaches(vs[1..], k)
  {
    var i :| 0 <= i < |vs| && vs[i].k == k;
    assert vs[1..][i - 1].k == k;
  }

  /** A sweep visits every resource, in any order and any number of times. */
  ghost predicate Covers(c: Cluster, vs: seq<Visit>) {
    forall k: Resource :: Exists(c, k) ==> Reaches(vs, k)
  }

  ghost predicate AllCover(c: Cluster, sweeps: seq<seq<Visit>>) {
    forall i :: 0 <= i < |sweeps| ==> Covers(c, sweeps[i])
  }

  /** How deep in the dependency graph a kind of resource is. */
  function Rank(k: Resource): nat {
    match k
    case AnOrganization(_) => 0
    case AProject(_) => 1
    case AnEnvironment(_) => 2
    case AnIdentity(_) => 2
    case AKubernetesAuth(_) => 3
    case AUniversalAuth(_) => 3
  }

  /** What sweep number `m` (from 0) achieves for a resource. */
  ghost predicate Hit(r: Refs, c: Cluster, m: nat, k: Resource)
    requires Exists(c, k)
  {
    Awake(c, k) && (Rank(k) < m ==> Done(r, c, k))
  }

  /** What `m` sweeps achieve. */
  ghost predicate Stage(r: Refs, c: Cluster, m: nat) {
    Inv(r, c) && (m > 0 ==> forall k: Resource :: Exists(c, k) ==> Hit(r, c, m - 1, k))
  }

  lemma {:induction false} SameNamesExist(c: Cluster, d: Cluster, k: Resource)
    requires SameNames(c, d)
    ensures Exists(c, k) <==> Exists(d, k)
  {
  }

  lemma {:induction false} LowerRanksSuffice(r: Refs, c: Cluster, k: Resource)
    requires (Raw(r, c, k) || Placed(r, c, k)) && Exists(c, k)
    requires forall q: Resource :: Exists(c, q) && Rank(q) < Rank(k) ==> Done(r, c, q)
    ensures Needs(r, c, k)
  {
    match k
    case AnOrganization(n) =>
    case AProject(n) =>
      if n in r.organizationOf {
        assert Exists(c, AnOrganization(r.organizationOf[n])) && Rank(AnOrganization(r.organizationOf[n])) < Rank(k);
      }
    case AnEnvironment(n) => assert Exists(c, AProject(Lookup(r.projectOf, n))) && Rank(AProject(Lookup(r.projectOf, n))) < Rank(k);
    case AnIdentity(n) =>
      var spec := c.identities[n].spec;
      if spec.scope.OrganizationScope? {
        assert Exists(c, AnOrganization(Named(spec.organizationRef))) && Rank(AnOrganization(Named(spec.organizationRef))) < Rank(k);
        forall i | 0 <= i < |spec.bindings| ensures ProjectDone(r, c, spec.bindings[i].projectRef) {
          assert Exists(c, AProject(spec.bindings[i].projectRef)) && Rank(AProject(spec.bindings[i].projectRef)) < Rank(k);
        }
      } else {
        assert Exists(c, AProject(Named(spec.projectRef))) && Rank(AProject(Named(spec.projectRef))) < Rank(k);
      }
    case AKubernetesAuth(n) => assert Exists(c, AnIdentity(Lookup(r.kubernetesOf, n))) && Rank(AnIdentity(Lookup(r.kubernetesOf, n))) < Rank(k);
    case AUniversalAuth(n) => assert Exists(c, AnIdentity(Lookup(r.universalOf, n))) && Rank(AnIdentity(Lookup(r.universalOf, n))) < Rank(k);
  }

  lemma {:induction false} VisitHits(r: Refs, c: Cluster, k: Resource, x: Choice, m: nat)
    requires Stage(r, c, m) && Exists(c, k) && Fair(c, k, x)
    ensures var d := After(r, c, k, x); Keeps(r, c, d) && Exists(d, k) && Hit(r, d, m, k)
  {
    hide After, Done, Raw, Placed, Fair, Needs, Awake;
    Visited(r, c, k, x);
    if m > 0 && Rank(k) < m && !Done(r, c, k) {
      forall q: Resource | Exists(c, q) && Rank(q) < Rank(k) ensures Done(r, c, q) {
        assert Hit(r, c, m - 1, q);
      }
      LowerRanksSuffice(r, c, k);
      assert Hit(r, c, m - 1, k);
    }
  }

  lemma {:induction false} StageKept(r: Refs, c: Cluster, d: Cluster, m: nat)
    requires Stage(r, c, m) && Keeps(r, c, d)
    ensures Stage(r, d, m)
  {
    if m > 0 {
      forall k: Resource | Exists(d, k) ensures Hit(r, d, m - 1, k) {
        SameNamesExist(c, d, k);
        assert Hit(r, c, m - 1, k);
      }
    }
  }

  lemma {:induction false} FirstVisit(r: Refs, c: Cluster, vs: seq<Visit>, m: nat, k: Resource)
    requires Stage(r, c, m) && FairRun(r, c, vs) && vs != [] && Exists(c, k) && (Reaches(vs, k) || Hit(r, c, m, k))
    ensures var d := After(r, c, vs[0].k, vs[0].x);
      Stage(r, d, m) && SameNames(c, d) && Exists(d, k) && (Reaches(vs[1..], k) || Hit(r, d, m, k))
  {
    var d := After(r, c, vs[0].k, vs[0].x);
    VisitHits(r, c, vs[0].k, vs[0].x, m);
    StageKept(r, c, d, m);
    SameNamesExist(c, d, k);
    if vs[0].k != k && !Hit(r, c, m, k) {
      ReachesLater(vs, k);
    }
  }

  lemma {:induction false} RunHits(r: Refs, c: Cluster, vs: seq<Visit>, m: nat, k: Resource)
    requires Stage(r, c, m) && FairRun(r, c, vs) && Exists(c, k) && (Reaches(vs, k) || Hit(r, c, m, k))
    ensures var d := RunAll(r, c, vs); Stage(r, d, m) && SameNames(c, d) && Exists(d, k) && Hit(r, d, m, k)
    decreases |vs|
  {
    if vs != [] {
      FirstVisit(r, c, vs, m, k);
      RunHits(r, After(r, c, vs[0].k, vs[0].x), vs[1..], m, k);
    }
  }

  lemma {:induction false} SweepRaises(r: Refs, c: Cluster, vs: seq<Visit>, m: nat)
    requires Stage(r, c, m) && FairRun(r, c, vs) && Covers(c, vs)
    ensures var d := RunAll(r, c, vs); Stage(r, d, m + 1) && SameNames(c, d)
  {
    RunKeeps(r, c, vs, m);
    var d := RunAll(r, c, vs);
    forall k: Resource | Exists(d, k) ensures Hit(r, d, m, k) {
      SameNamesExist(c, d, k);
      RunHits(r, c, vs, m, k);
    }
  }

  lemma {:induction false} RunKeeps(r: Refs, c: Cluster, vs: seq<Visit>, m: nat)
    requires Stage(r, c, m) && FairRun(r, c, vs)
    ensures var d := RunAll(r, c, vs); Stage(r, d, m) && SameNames(c, d)
    decreases |vs|
  {
    if vs != [] {
      var d := After(r, c, vs[0].k, vs[0].x);
      VisitHits(r, c, vs[0].k, vs[0].x, m);
      StageKept(r, c, d, m);
      RunKeeps(r, d, vs[1..], m);
    }
  }

  lemma {:induction false} LaterSweepsCover(c: Cluster, d: Cluster, sweeps: seq<seq<Visit>>)
    requires AllCover(c, sweeps) && sweeps != [] && SameNames(c, d)
    ensures AllCover(d, sweeps[1..])
  {
    forall i | 0 <= i < |sweeps| - 1 ensures Covers(d, sweeps[1..][i]) {
      assert Covers(c, sweeps[i + 1]);
      forall k: Resource | Exists(d, k) ensures Reaches(sweeps[1..][i], k) {
        SameNamesExist(c, d, k);
      }
    }
  }

  lemma {:induction false} SweepsRaise(r: Refs, c: Cluster, sweeps: seq<seq<Visit>>, m: nat)
    requires Stage(r, c, m) && FairSweeps(r, c, sweeps) && AllCover(c, sweeps)
    ensures var d := RunSweeps(r, c, sweeps); Stage(r, d, m + |sweeps|) && SameNames(c, d)
    decreases |sweeps|
  {
    if sweeps != [] {
      var d := RunAll(r, c, sweeps[0]);
      SweepRaises(r, c, sweeps[0], m);
      LaterSweepsCover(c, d, sweeps);
      SweepsRaise(r, d, sweeps[1..], m + 1);
    }
  }

  /** The stored verdict of a resource is Ready=True for its current generation. */
  predicate IsReady(c: Cluster, k: Resource)
    requires Exists(c, k)
  {
    match k
    case AnOrganization(n) => Fulfilled(c.organizations[n])
    case AProject(n) => Fulfilled(c.projects[n])
    case AnEnvironment(n) => Fulfilled(c.environments[n])
    case AnIdentity(n) => Fulfilled(c.identities[n])
    case AKubernetesAuth(n) => Fulfilled(c.kubernetes[n])
    case AUniversalAuth(n) => Fulfilled(c.universals[n])
  }

  predicate Fulfilled<S, X>(o: Object<S, X>) {
    Verdicted(o) && o.status.id != ""
  }

  lemma {:induction false} DoneIsReady(r: Refs, c: Cluster, k: Resource)
    requires Done(r, c, k)
    ensures Exists(c, k) && IsReady(c, k)
  {
  }

  /** A namespace in which nothing has been acquired yet is a good starting point. */
  lemma {:induction false} StartQualifies(r: Refs, c: Cluster)
    requires Books(r, c) && OnePerIdentity(r, c) && forall k: Resource :: Exists(c, k) ==> Raw(r, c, k)
    ensures Inv(r, c)
  {
    forall n | n in c.projects ensures c.projects[n].status.id == "" {
      assert Exists(c, AProject(n));
    }
    forall n | n in c.environments ensures c.environments[n].status.id == "" {
      assert Exists(c, AnEnvironment(n));
    }
    forall n | n in c.identities ensures c.identities[n].status.id == "" {
      assert Exists(c, AnIdentity(n));
    }
  }

  /** Convergence by depth: a resource of rank d is Ready after d + 2 sweeps, in any order. */
  lemma {:induction false} ReadyByRank(r: Refs, c: Cluster, sweeps: seq<seq<Visit>>, k: Resource)
    requires Inv(r, c) && FairSweeps(r, c, sweeps) && AllCover(c, sweeps)
    requires Exists(c, k) && Rank(k) + 2 <= |sweeps|
    ensures var d := RunSweeps(r, c, sweeps); Done(r, d, k) && Exists(d, k) && IsReady(d, k)
  {
    hide Inv, Done, IsReady, FairSweeps, RunSweeps, AllCover;
    SweepsRaise(r, c, sweeps, 0);
    var d := RunSweeps(r, c, sweeps);
    SameNamesExist(c, d, k);
    assert Hit(r, d, |sweeps| - 1, k);
    DoneIsReady(r, d, k);
  }

  lemma {:induction false} AwakeIsStageOne(r: Refs, c: Cluster)
    requires Inv(r, c) && forall q: Resource :: Exists(c, q) ==> Awake(c, q)
    ensures Stage(r, c, 1)
  {
    forall q: Resource | Exists(c, q) ensures Hit(r, c, 0, q) {
    }
  }

  /** One sweep less when no finalizer is missing at the start. */
  lemma {:induction false} ReadyByRankWhenAwake(r: Refs, c: Cluster, sweeps: seq<seq<Visit>>, k: Resource)
    requires Inv(r, c) && FairSweeps(r, c, sweeps) && AllCover(c, sweeps) && forall q: Resource :: Exists(c, q) ==> Awake(c, q)
    requires Exists(c, k) && Rank(k) + 1 <= |sweeps|
    ensures var d := RunSweeps(r, c, sweeps); Done(r, d, k) && Exists(d, k) && IsReady(d, k)
  {
    hide Inv, Done, IsReady, FairSweeps, RunSweeps, AllCover;
    AwakeIsStageOne(r, c);
    SweepsRaise(r, c, sweeps, 1);
    var d := RunSweeps(r, c, sweeps);
    SameNamesExist(c, d, k);
    assert Hit(r, d, |sweeps|, k);
    DoneIsReady(r, d, k);
  }

  // ----- the lists of environments that projects show

  lemma {:induction false} OthersKeepLists(r: Refs, c: Cluster, k: Resource, x: Choice)
    requires Exists(c, k) && !k.AProject? && !k.AnEnvironment?
    ensures var d := After(r, c, k, x); d.envs == c.envs && d.initial == c.initial
  {
    hide OrganizationTurn, ProjectTurn, EnvironmentTurn, IdentityTurn, KubernetesAuthTurn, UniversalAuthTurn;
  }

  /** Once the projects and environments are settled, no visit changes what the server lists. */
  lemma {:induction false} VisitKeepsLists(r: Refs, c: Cluster, k: Resource, x: Choice, m: nat)
    requires Stage(r, c, m) && m >= 4 && Exists(c, k)
    ensures var d := After(r, c, k, x); d.envs == c.envs && d.initial == c.initial
  {
    hide Inv, ShowsEmpty, OrganizationAfter, ProjectAfter, EnvironmentAfter, IdentityAfter, KubernetesAuthAfter, UniversalAuthAfter;
    assert Hit(r, c, m - 1, k);
    if k.AProject? {
      ProjectRefreshes(r, c, k.name, x);
    } else if k.AnEnvironment? {
      EnvironmentRests(r, c, k.name, x);
    } else {
      OthersKeepLists(r, c, k, x);
    }
  }

  lemma {:induction false} SameListing(c: Cluster, d: Cluster, project: Id)
    requires d.envs == c.envs && d.initial == c.initial
    ensures Listing(d, project) == Listing(c, project)
  {
  }

  lemma {:induction false} OthersKeepProjects(r: Refs, c: Cluster, k: Resource, x: Choice, n: string)
    requires Exists(c, k) && n in c.projects && k != AProject(n)
    ensures var d := After(r, c, k, x); n in d.projects && d.projects[n] == c.projects[n]
  {
    hide OrganizationTurn, ProjectTurn, EnvironmentTurn, IdentityTurn, KubernetesAuthTurn, UniversalAuthTurn;
  }

  /** A project's list stays up to date, and a visit to the project brings it up to date. */
  lemma {:induction false} VisitFreshens(r: Refs, c: Cluster, k: Resource, x: Choice, m: nat, n: string)
    requires Stage(r, c, m) && m >= 4 && Exists(c, k) && n in c.projects && (Fresh(c, n) || k == AProject(n))
    ensures Fresh(After(r, c, k, x), n)
  {
    var d := After(r, c, k, x);
    VisitKeepsLists(r, c, k, x, m);
    if k == AProject(n) {
      assert Hit(r, c, m - 1, k);
      ProjectRefreshes(r, c, n, x);
    } else {
      OthersKeepProjects(r, c, k, x, n);
    }
    SameListing(c, d, c.projects[n].status.id);
  }

  lemma {:induction false} RunFreshens(r: Refs, c: Cluster, vs: seq<Visit>, m: nat, n: string)
    requires Stage(r, c, m) && m >= 4 && FairRun(r, c, vs) && n in c.projects && (Fresh(c, n) || Reaches(vs, AProject(n)))
    ensures Fresh(RunAll(r, c, vs), n)
    decreases |vs|
  {
    if vs != [] {
      var k := vs[0].k;
      var d := After(r, c, k, vs[0].x);
      VisitHits(r, c, k, vs[0].x, m);
      StageKept(r, c, d, m);
      SameNamesExist(c, d, AProject(n));
      if Fresh(c, n) || k == AProject(n) {
        VisitFreshens(r, c, k, vs[0].x, m, n);
      } else {
        ReachesLater(vs, AProject(n));
      }
      RunFreshens(r, d, vs[1..], m, n);
    }
  }

  /** Every project shows the environments that the server lists. */
  ghost predicate AllFresh(c: Cluster) {
    forall n :: n in c.projects ==> Fresh(c, n)
  }

  lemma {:induction false} SweepFreshens(r: Refs, c: Cluster, vs: seq<Visit>, m: nat)
    requires Stage(r, c, m) && m >= 4 && FairRun(r, c, vs) && Covers(c, vs)
    ensures var d := RunAll(r, c, vs); SameNames(c, d) && AllFresh(d)
  {
    RunKeeps(r, c, vs, m);
    var d := RunAll(r, c, vs);
    forall n | n in d.projects ensures Fresh(d, n) {
      SameNamesExist(c, d, AProject(n));
      assert Exists(c, AProject(n));
      RunFreshens(r, c, vs, m, n);
    }
  }

  /** The sweep after the environments are settled refreshes every project. */
  lemma {:induction false} SweepsFreshen(r: Refs, c: Cluster, sweeps: seq<seq<Visit>>, m: nat)
    requires Stage(r, c, m) && FairSweeps(r, c, sweeps) && AllCover(c, sweeps) && sweeps != [] && m + |sweeps| >= 5
    ensures AllFresh(RunSweeps(r, c, sweeps))
    decreases |sweeps|
  {
    hide Inv, AllFresh, FairRun, RunAll;
    var d := RunAll(r, c, sweeps[0]);
    assert Covers(c, sweeps[0]) && RunSweeps(r, c, sweeps) == RunSweeps(r, d, sweeps[1..]);
    if |sweeps| == 1 {
      assert RunSweeps(r, c, sweeps) == d;
      SweepFreshens(r, c, sweeps[0], m);
    } else {
      SweepRaises(r, c, sweeps[0], m);
      LaterSweepsCover(c, d, sweeps);
      SweepsFreshen(r, d, sweeps[1..], m + 1);
    }
  }

  // ----- everything at rest

  ghost predicate AllAtRest(r: Refs, c: Cluster) {
    forall k: Resource :: Exists(c, k) ==> AtRest(r, c, k)
  }

  lemma {:induction false} SweepsRest(r: Refs, c: Cluster, sweeps: seq<seq<Visit>>, m: nat)
    requires Stage(r, c, m) && FairSweeps(r, c, sweeps) && AllCover(c, sweeps) && sweeps != [] && m + |sweeps| >= 5
    ensures var d := RunSweeps(r, c, sweeps); SameNames(c, d) && AllAtRest(r, d)
  {
    hide Inv, Done, Fresh, FairSweeps, RunSweeps, AllCover;
    SweepsRaise(r, c, sweeps, m);
    SweepsFreshen(r, c, sweeps, m);
    var d := RunSweeps(r, c, sweeps);
    forall k: Resource | Exists(d, k) ensures AtRest(r, d, k) {
      assert Hit(r, d, m + |sweeps| - 1, k);
    }
  }

  /** No visit of the run sends a write, to Infisical or to Kubernetes. */
  predicate NeverWrites(r: Refs, c: Cluster, vs: seq<Visit>)
    requires FairRun(r, c, vs)
    decreases |vs|
  {
    vs != [] ==> !Writes(r, c, vs[0].k, vs[0].x) && NeverWrites(r, After(r, c, vs[0].k, vs[0].x), vs[1..])
  }

  /** No resource that the run visits shows a list that is empty at the server. */
  predicate NoneEmpty(r: Refs, c: Cluster, vs: seq<Visit>) {
    forall i :: 0 <= i < |vs| ==> !ShowsEmpty(r, c, vs[i].k)
  }

  lemma {:induction false} NoneEmptyHead(r: Refs, c: Cluster, vs: seq<Visit>)
    requires vs != []
    ensures NoneEmpty(r, c, vs) <==> !ShowsEmpty(r, c, vs[0].k) && NoneEmpty(r, c, vs[1..])
  {
    assert forall i :: 1 <= i < |vs| ==> vs[i] == vs[1..][i - 1];
  }

  /** With everything at rest, every further run changes nothing; it only reads exactly when no
      visited resource shows an empty list, and otherwise sends status patches without content. */
  lemma {:induction false} SettledForGood(r: Refs, c: Cluster, vs: seq<Visit>)
    requires AllAtRest(r, c) && FairRun(r, c, vs)
    ensures RunAll(r, c, vs) == c && (NeverWrites(r, c, vs) <==> NoneEmpty(r, c, vs))
    decreases |vs|
  {
    if vs != [] {
      RestsExactly(r, c, vs[0].k, vs[0].x);
      NoneEmptyHead(r, c, vs);
      SettledForGood(r, c, vs[1..]);
    }
  }

  lemma {:induction false} RestingIsReady(r: Refs, c: Cluster, d: Cluster)
    requires SameNames(c, d) && AllAtRest(r, d)
    ensures forall k: Resource :: Exists(c, k) ==> Exists(d, k) && IsReady(d, k)
  {
    forall k: Resource | Exists(c, k) ensures Exists(d, k) && IsReady(d, k) {
      SameNamesExist(c, d, k);
      assert AtRest(r, d, k);
      DoneIsReady(r, d, k);
    }
  }

  /** Convergence: five sweeps make every resource Ready, and whatever is reconciled after that
      changes nothing, and only reads as long as no visited resource shows an empty list. */
  lemma {:induction false} FiveSweepsSettle(r: Refs, c: Cluster, sweeps: seq<seq<Visit>>, later: seq<Visit>)
    requires Inv(r, c) && FairSweeps(r, c, sweeps) && AllCover(c, sweeps) && |sweeps| >= 5
    requires FairRun(r, RunSweeps(r, c, sweeps), later)
    ensures var d := RunSweeps(r, c, sweeps);
      && (forall k: Resource :: Exists(c, k) ==> Exists(d, k) && IsReady(d, k))
      && RunAll(r, d, later) == d && (NeverWrites(r, d, later) <==> NoneEmpty(r, d, later))
  {
    SweepsRest(r, c, sweeps, 0);
    var d := RunSweeps(r, c, sweeps);
    RestingIsReady(r, c, d);
    SettledForGood(r, d, later);
  }

  /** Four sweeps when no finalizer is missing at the start. */
  lemma {:induction false} FourSweepsSettleWhenAwake(r: Refs, c: Cluster, sweeps: seq<seq<Visit>>, later: seq<Visit>)
    requires Inv(r, c) && FairSweeps(r, c, sweeps) && AllCover(c, sweeps) && |sweeps| >= 4
    requires forall q: Resource :: Exists(c, q) ==> Awake(c, q)
    requires FairRun(r, RunSweeps(r, c, sweeps), later)
    ensures var d := RunSweeps(r, c, sweeps);
      && (forall k: Resource :: Exists(c, k) ==> Exists(d, k) && IsReady(d, k))
      && RunAll(r, d, later) == d && (NeverWrites(r, d, later) <==> NoneEmpty(r, d, later))
  {
    AwakeIsStageOne(r, c);
    SweepsRest(r, c, sweeps, 1);
    var d := RunSweeps(r, c, sweeps);
    RestingIsReady(r, c, d);
    SettledForGood(r, d, later);
  }
}
