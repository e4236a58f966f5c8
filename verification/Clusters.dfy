/** All resources of a namespace over one Infisical, their references, and what it means that
    one is settled together with everything it depends on, was never acquired, or holds the ID
    of an entity that is in place; and that settling one resource does not unsettle another. */
module Clusters {
  import opened Basics
  import opened Lifecycle
  import opened Memberships
  import opened Roles
  import opened Settling
  import Metadata
  import Rotation
  import Tenancy
  import O = Organizations
  import P = Projects
  import E = Environments
  import I = Identities
  import K = KubernetesAuths
  import U = UniversalAuths

  /** A resource by kind and name. */
  datatype Resource =
    | AnOrganization(name: string) | AProject(name: string) | AnEnvironment(name: string)
    | AnIdentity(name: string) | AKubernetesAuth(name: string) | AUniversalAuth(name: string)

  /** The resources, and what Infisical and the output Secrets hold. The auth method and the
      output Secret of a Universal Auth resource are kept under its name: no two of them share
      an identity or a Secret. `initial` are the environments that a project was created with. */
  datatype Cluster = Cluster(
    organizations: map<string, O.OrganizationObject>, projects: map<string, P.ProjectObject>,
    environments: map<string, E.EnvironmentObject>, identities: map<string, I.IdentityObject>,
    kubernetes: map<string, K.KubernetesAuthObject>, universals: map<string, U.UniversalAuthObject>,
    orgs: O.Store, store: P.Store, envs: E.Store, initial: map<Id, P.Listing>, known: map<Id, I.Identity>, issued: set<Id>,
    attached: K.Store, infra: map<string, U.Infra>)

  /** The references between resources (an identity's are in its spec), the Secret values that
      Kubernetes Auth refers to, and the machine identity of the operator's own credential,
      empty for a user's. */
  datatype Refs = Refs(
    organizationOf: map<string, string>, projectOf: map<string, string>,
    kubernetesOf: map<string, string>, universalOf: map<string, string>,
    secrets: map<string, K.Secrets>, creator: Id)

  /** What the server chooses in one reconcile: new IDs, and values the spec leaves open. */
  datatype Choice = Choice(id: Id, home: Id, slug: string, initial: P.Listing, position: int, clientID: Id, config: U.Config, secretID: Id, value: string, defaults: K.KubernetesAuth)

  function IdOf<S, X>(objects: map<string, Object<S, X>>, name: string): Id {
    if name in objects then objects[name].status.id else ""
  }

  /** The name that a reference of a valid spec has. */
  function Named(ref: Option<string>): string {
    if ref.Some? then ref.value else ""
  }

  function Lookup(m: map<string, string>, name: string): string {
    if name in m then m[name] else ""
  }

  /** The organization a project must belong to. */
  function OrganizationOf(r: Refs, c: Cluster, n: string): Id {
    if n in r.organizationOf then IdOf(c.organizations, r.organizationOf[n]) else ""
  }

  function Expected(r: Refs, c: Cluster, n: string): P.Expected {
    if n in r.organizationOf && OrganizationOf(r, c, n) == "" then P.NotReady else P.Expect(OrganizationOf(r, c, n))
  }

  function ProjectOf(r: Refs, c: Cluster, n: string): Id {
    IdOf(c.projects, Lookup(r.projectOf, n))
  }

  function ViewFor(c: Cluster, spec: I.Spec): I.View {
    I.View(Some(if spec.scope.OrganizationScope? then IdOf(c.organizations, Named(spec.organizationRef)) else IdOf(c.projects, Named(spec.projectRef))),
           (m: string) => Tenancy.Seen(c.projects, m))
  }

  function IdentityStore(c: Cluster): I.Store {
    I.Store(c.known, c.issued, c.store.projects.Keys, c.store.members)
  }

  function InfraOf(r: Refs, c: Cluster, n: string): U.Infra
    requires n in c.infra
  {
    c.infra[n].(identity := IdOf(c.identities, Lookup(r.universalOf, n)))
  }

  function SecretsOf(r: Refs, n: string): K.Secrets {
    if n in r.secrets then r.secrets[n] else K.Secrets("", "")
  }

  predicate IdentityReady(c: Cluster, m: string) {
    m in c.identities && c.identities[m].status.id != "" && c.identities[m].status.ready.Some? && c.identities[m].status.ready.value.ok
  }

  predicate Exists(c: Cluster, k: Resource) {
    match k
    case AnOrganization(n) => n in c.organizations
    case AProject(n) => n in c.projects
    case AnEnvironment(n) => n in c.environments
    case AnIdentity(n) => n in c.identities
    case AKubernetesAuth(n) => n in c.kubernetes
    case AUniversalAuth(n) => n in c.universals && n in c.infra
  }

  /** One reconcile of one resource, with every call answered. */
  function OrganizationTurn(c: Cluster, n: string, x: Choice): O.OrganizationTurn
    requires n in c.organizations
  {
    O.Reconcile(c.organizations[n], c.orgs, OrganizationAnswers(x.id))
  }

  /** What the server lists for a project: the environments it was created with, and those that
      were created since and are not soft-deleted. */
  function Listing(c: Cluster, project: Id): P.Listing {
    (if project in c.initial then c.initial[project] else map[]) + Created(c, project)
  }

  function Created(c: Cluster, project: Id): P.Listing {
    map id | id in c.envs.environments && c.envs.environments[id].project == project && !c.envs.environments[id].deleted
      :: P.Listed(c.envs.environments[id].name, c.envs.environments[id].slug)
  }

  function ListingFor(c: Cluster, n: string, x: Choice): P.Listing
    requires n in c.projects
  {
    if c.projects[n].status.id == "" then x.initial else Listing(c, c.projects[n].status.id)
  }

  function ProjectTurn(r: Refs, c: Cluster, n: string, x: Choice): P.ProjectTurn
    requires n in c.projects
  {
    P.Reconcile(c.projects[n], c.store, ProjectAnswers(Expected(r, c, n), x.home, x.id, x.slug, r.creator, ListingFor(c, n, x)))
  }

  function EnvironmentTurn(r: Refs, c: Cluster, n: string, x: Choice): E.EnvironmentTurn
    requires n in c.environments
  {
    E.Reconcile(c.environments[n], c.envs, EnvironmentAnswers(ProjectOf(r, c, n), x.id, x.position))
  }

  function IdentityTurn(c: Cluster, n: string, x: Choice): I.IdentityTurn
    requires n in c.identities
  {
    I.Reconcile(c.identities[n], IdentityStore(c), IdentityAnswers(ViewFor(c, c.identities[n].spec), x.id))
  }

  function KubernetesAuthTurn(r: Refs, c: Cluster, n: string, x: Choice): K.KubernetesAuthTurn
    requires n in c.kubernetes
  {
    K.Reconcile(c.kubernetes[n], c.attached,
                KubernetesAuthAnswers(IdOf(c.identities, Lookup(r.kubernetesOf, n)), SecretsOf(r, n), x.id, x.defaults))
  }

  function UniversalAuthTurn(r: Refs, c: Cluster, n: string, x: Choice): U.UniversalAuthTurn
    requires n in c.universals && n in c.infra
  {
    U.Reconcile(c.universals[n], InfraOf(r, c, n),
                UniversalAuthAnswers(IdentityReady(c, Lookup(r.universalOf, n)), x.id, x.clientID, x.config, x.secretID, x.value))
  }

  /** The cluster after that reconcile. */
  function OrganizationAfter(c: Cluster, n: string, x: Choice): Cluster
    requires n in c.organizations
  {
    var t := OrganizationTurn(c, n, x);
    c.(organizations := c.organizations[n := t.obj], orgs := t.remote)
  }

  function ProjectAfter(r: Refs, c: Cluster, n: string, x: Choice): Cluster
    requires n in c.projects
  {
    var t := ProjectTurn(r, c, n, x);
    c.(projects := c.projects[n := t.obj], store := t.remote,
       initial := if t.act.created.Some? then c.initial[t.act.created.value := x.initial] else c.initial)
  }

  function EnvironmentAfter(r: Refs, c: Cluster, n: string, x: Choice): Cluster
    requires n in c.environments
  {
    var t := EnvironmentTurn(r, c, n, x);
    c.(environments := c.environments[n := t.obj], envs := t.remote)
  }

  function IdentityAfter(c: Cluster, n: string, x: Choice): Cluster
    requires n in c.identities
  {
    var t := IdentityTurn(c, n, x);
    c.(identities := c.identities[n := t.obj], known := t.remote.identities, issued := t.remote.issued,
       store := c.store.(members := t.remote.members))
  }

  function KubernetesAuthAfter(r: Refs, c: Cluster, n: string, x: Choice): Cluster
    requires n in c.kubernetes
  {
    var t := KubernetesAuthTurn(r, c, n, x);
    c.(kubernetes := c.kubernetes[n := t.obj], attached := t.remote)
  }

  function UniversalAuthAfter(r: Refs, c: Cluster, n: string, x: Choice): Cluster
    requires n in c.universals && n in c.infra
  {
    var t := UniversalAuthTurn(r, c, n, x);
    c.(universals := c.universals[n := t.obj], infra := c.infra[n := t.remote])
  }

  function After(r: Refs, c: Cluster, k: Resource, x: Choice): Cluster
    requires Exists(c, k)
  {
    match k
    case AnOrganization(n) => OrganizationAfter(c, n, x)
    case AProject(n) => ProjectAfter(r, c, n, x)
    case AnEnvironment(n) => EnvironmentAfter(r, c, n, x)
    case AnIdentity(n) => IdentityAfter(c, n, x)
    case AKubernetesAuth(n) => KubernetesAuthAfter(r, c, n, x)
    case AUniversalAuth(n) => UniversalAuthAfter(r, c, n, x)
  }

  /** Whether that reconcile sends any write, to Infisical or to Kubernetes. */
  predicate Writes(r: Refs, c: Cluster, k: Resource, x: Choice)
    requires Exists(c, k)
  {
    match k
    case AnOrganization(n) => OrganizationTurn(c, n, x).act.writes
    case AProject(n) => ProjectTurn(r, c, n, x).act.writes
    case AnEnvironment(n) => EnvironmentTurn(r, c, n, x).act.writes
    case AnIdentity(n) => IdentityTurn(c, n, x).act.writes
    case AKubernetesAuth(n) => KubernetesAuthTurn(r, c, n, x).act.writes
    case AUniversalAuth(n) => UniversalAuthTurn(r, c, n, x).act.writes
  }

  // ----- settled resources, from the organizations down

  predicate OrganizationDone(c: Cluster, n: string) {
    n in c.organizations && OrganizationSettled(c.organizations[n], c.orgs)
  }

  predicate ProjectNeeds(r: Refs, c: Cluster, n: string) {
    n in r.organizationOf ==> OrganizationDone(c, r.organizationOf[n])
  }

  predicate ProjectDone(r: Refs, c: Cluster, n: string) {
    && n in c.projects && (c.projects[n].spec.bounded <==> n in r.organizationOf) && ProjectNeeds(r, c, n)
    && ProjectSettled(c.projects[n], c.store, OrganizationOf(r, c, n), r.creator)
  }

  predicate EnvironmentDone(r: Refs, c: Cluster, n: string) {
    && n in c.environments && ProjectDone(r, c, Lookup(r.projectOf, n))
    && EnvironmentSettled(c.environments[n], c.envs, ProjectOf(r, c, n))
  }

  predicate IdentityNeeds(r: Refs, c: Cluster, spec: I.Spec) {
    if spec.scope.OrganizationScope? then
      OrganizationDone(c, Named(spec.organizationRef)) && forall i :: 0 <= i < |spec.bindings| ==> ProjectDone(r, c, spec.bindings[i].projectRef)
    else ProjectDone(r, c, Named(spec.projectRef))
  }

  /** Every bound project references the identity's organization. */
  predicate Consistent(r: Refs, spec: I.Spec) {
    spec.scope.OrganizationScope? ==> forall i :: 0 <= i < |spec.bindings| ==>
      spec.bindings[i].projectRef in r.organizationOf && r.organizationOf[spec.bindings[i].projectRef] == Named(spec.organizationRef)
  }

  predicate IdentityDone(r: Refs, c: Cluster, n: string) {
    && n in c.identities && Consistent(r, c.identities[n].spec) && IdentityNeeds(r, c, c.identities[n].spec)
    && IdentitySettled(c.identities[n], IdentityStore(c), ViewFor(c, c.identities[n].spec))
  }

  predicate KubernetesAuthDone(r: Refs, c: Cluster, n: string) {
    && n in c.kubernetes && IdentityDone(r, c, Lookup(r.kubernetesOf, n))
    && KubernetesAuthSettled(c.kubernetes[n], c.attached, IdOf(c.identities, Lookup(r.kubernetesOf, n)), SecretsOf(r, n))
  }

  predicate UniversalAuthDone(r: Refs, c: Cluster, n: string) {
    && n in c.universals && n in c.infra && IdentityDone(r, c, Lookup(r.universalOf, n))
    && UniversalAuthSettled(c.universals[n], InfraOf(r, c, n)) && c.infra[n] == InfraOf(r, c, n)
  }

  predicate Done(r: Refs, c: Cluster, k: Resource) {
    match k
    case AnOrganization(n) => OrganizationDone(c, n)
    case AProject(n) => ProjectDone(r, c, n)
    case AnEnvironment(n) => EnvironmentDone(r, c, n)
    case AnIdentity(n) => IdentityDone(r, c, n)
    case AKubernetesAuth(n) => KubernetesAuthDone(r, c, n)
    case AUniversalAuth(n) => UniversalAuthDone(r, c, n)
  }

  /** What the resource depends on is settled. */
  predicate Needs(r: Refs, c: Cluster, k: Resource)
    requires Exists(c, k)
  {
    match k
    case AnOrganization(n) => true
    case AProject(n) => ProjectNeeds(r, c, n)
    case AnEnvironment(n) => ProjectDone(r, c, Lookup(r.projectOf, n))
    case AnIdentity(n) => IdentityNeeds(r, c, c.identities[n].spec)
    case AKubernetesAuth(n) => IdentityDone(r, c, Lookup(r.kubernetesOf, n))
    case AUniversalAuth(n) => IdentityDone(r, c, Lookup(r.universalOf, n))
  }

  // ----- resources that were never acquired

  /** A valid resource that was never acquired, and whose references resolve. */
  predicate Raw(r: Refs, c: Cluster, k: Resource) {
    match k
    case AnOrganization(n) =>
      && n in c.organizations && var o := c.organizations[n];
      && Usual(o) && O.ValidSpec(o) && o.status.id == ""
    case AProject(n) =>
      && n in c.projects && var o := c.projects[n];
      && Usual(o) && o.spec.name != "" && o.status.id == "" && P.ReadBack(o)
      && (o.spec.bounded <==> n in r.organizationOf) && (n in r.organizationOf ==> r.organizationOf[n] in c.organizations)
    case AnEnvironment(n) =>
      && n in c.environments && var o := c.environments[n];
      && Usual(o) && o.spec.name != "" && o.status.id == ""
      && Lookup(r.projectOf, n) in c.projects
    case AnIdentity(n) =>
      && n in c.identities && var o := c.identities[n];
      && Usual(o) && o.spec.name != "" && I.ValidSpec(o.spec) && o.status.id == ""
      && (o.spec.metadata.Some? ==> Metadata.UniqueKeys(o.spec.metadata.value)) && Consistent(r, o.spec) && Resolves(c, o.spec)
    case AKubernetesAuth(n) =>
      && n in c.kubernetes && var o := c.kubernetes[n];
      && Usual(o) && K.ValidSpec(o.spec) && o.status.id == "" && K.ReadBack(o)
      && Lookup(r.kubernetesOf, n) in c.identities && IdOf(c.identities, Lookup(r.kubernetesOf, n)) !in c.attached
    case AUniversalAuth(n) =>
      && n in c.universals && n in c.infra && var o := c.universals[n];
      && Usual(o) && o.spec.named && Sendable(o.spec.config)
      && o.status.id == "" && U.ReadBack(o) && o.status.rest.secretID == "" && Pristine(c.infra[n]) && Lookup(r.universalOf, n) in c.identities
  }

  predicate Resolves(c: Cluster, spec: I.Spec) {
    if spec.scope.OrganizationScope? then
      Named(spec.organizationRef) in c.organizations && forall i :: 0 <= i < |spec.bindings| ==> spec.bindings[i].projectRef in c.projects
    else Named(spec.projectRef) in c.projects
  }

  // ----- resources whose entities are in place

  /** The owner that an identity must have. */
  function OwnerOf(c: Cluster, spec: I.Spec): Id {
    if spec.scope.OrganizationScope? then IdOf(c.organizations, Named(spec.organizationRef)) else IdOf(c.projects, Named(spec.projectRef))
  }

  /** A valid resource that holds the ID of an existing entity, where that entity belongs. Its
      settings, memberships and client secrets can have drifted in any way that a request can
      correct, and so can what its status shows; its verdict can be anything. */
  predicate Placed(r: Refs, c: Cluster, k: Resource) {
    match k
    case AnOrganization(n) =>
      && n in c.organizations && var o := c.organizations[n];
      && Usual(o) && O.ValidSpec(o) && o.status.id != "" && o.status.id in c.orgs.names
    case AProject(n) => PlacedProject(r, c, n)
    case AnEnvironment(n) => PlacedEnvironment(r, c, n)
    case AnIdentity(n) => PlacedIdentity(r, c, n)
    case AKubernetesAuth(n) => PlacedKubernetesAuth(r, c, n)
    case AUniversalAuth(n) => PlacedUniversalAuth(r, c, n)
  }

  predicate PlacedProject(r: Refs, c: Cluster, n: string) {
    && n in c.projects && var o := c.projects[n];
    && Usual(o) && o.spec.name != "" && o.status.id != "" && P.ReadBack(o)
    && (o.spec.bounded <==> n in r.organizationOf)
    && (n in r.organizationOf ==> r.organizationOf[n] in c.organizations && OrganizationOf(r, c, n) != "")
    && o.status.id in c.store.projects && var p := c.store.projects[o.status.id];
    && !P.Foreign(p, OrganizationOf(r, c, n)) && (o.spec.description != "" || p.description == "")
  }

  predicate PlacedEnvironment(r: Refs, c: Cluster, n: string) {
    && n in c.environments && var o := c.environments[n];
    && Usual(o) && o.spec.name != "" && o.status.id != ""
    && Lookup(r.projectOf, n) in c.projects && ProjectOf(r, c, n) != ""
    && o.status.id in c.envs.environments && c.envs.environments[o.status.id].project == ProjectOf(r, c, n)
  }

  predicate PlacedIdentity(r: Refs, c: Cluster, n: string) {
    && n in c.identities && var o := c.identities[n];
    && Usual(o) && o.spec.name != "" && I.ValidSpec(o.spec) && o.status.id != ""
    && (o.spec.metadata.Some? ==> Metadata.UniqueKeys(o.spec.metadata.value)) && Consistent(r, o.spec) && Resolves(c, o.spec)
    && OwnerOf(c, o.spec) != "" && o.status.id in c.known && !I.Misplaced(o.spec, c.known[o.status.id], OwnerOf(c, o.spec))
  }

  predicate PlacedKubernetesAuth(r: Refs, c: Cluster, n: string) {
    && n in c.kubernetes && var o := c.kubernetes[n];
    && Usual(o) && K.ValidSpec(o.spec) && o.status.id != "" && K.ReadBack(o)
    && Lookup(r.kubernetesOf, n) in c.identities && var identity := IdOf(c.identities, Lookup(r.kubernetesOf, n));
    && identity != "" && identity in c.attached && c.attached[identity].id != ""
  }

  predicate PlacedUniversalAuth(r: Refs, c: Cluster, n: string) {
    && n in c.universals && n in c.infra && var o := c.universals[n];
    && Usual(o) && o.spec.named && o.status.id != "" && U.ReadBack(o)
    && Lookup(r.universalOf, n) in c.identities && IdOf(c.identities, Lookup(r.universalOf, n)) != ""
    && Attached(o, InfraOf(r, c, n))
  }

  /** An auth method of this identity, with no list that is wanted empty and is not, and a Secret
      that is the operator's to write and does not name a client secret that it revoked. */
  predicate Attached(o: U.UniversalAuthObject, i: U.Infra) {
    && i.auth.Some? && i.auth.value.identity == i.identity && i.auth.value.id != "" && !U.AnyStuck(o.spec.config, i.auth.value.config)
    && (i.secret.Some? ==> !i.secret.value.foreign) && Rotation.Safe(i) && Rotation.Known(i, o.status.rest.secretID)
  }

  /** What the server's books always satisfy: nothing exists under an ID that was not issued. */
  predicate Books(r: Refs, c: Cluster) {
    && c.orgs.names.Keys <= c.orgs.issued && c.store.projects.Keys <= c.store.owners.Keys
    && c.envs.environments.Keys <= c.envs.issued && c.known.Keys <= c.issued && c.attached.Keys <= c.issued
    && "" !in c.issued && (r.creator == "" || r.creator in c.issued)
    && (forall key :: key in c.store.members ==> key.project in c.store.owners && key.identity in c.issued)
    && (forall n :: n in c.infra ==> Rotation.Coherent(c.infra[n]))
  }

  predicate DistinctIds<S, X>(objects: map<string, Object<S, X>>) {
    forall n, m :: n in objects && m in objects && objects[n].status.id == objects[m].status.id != "" ==> n == m
  }

  /** No two Kubernetes Auth resources share an identity. */
  predicate OnePerIdentity(r: Refs, c: Cluster) {
    forall n, m :: n in c.kubernetes && m in c.kubernetes && Lookup(r.kubernetesOf, n) == Lookup(r.kubernetesOf, m) ==> n == m
  }

  /** The operator's own machine identity is not one of the resources. */
  predicate CreatorApart(r: Refs, c: Cluster) {
    r.creator != "" ==> forall n :: n in c.identities ==> c.identities[n].status.id != r.creator
  }

  /** No two resources manage the same thing. */
  predicate Apart(r: Refs, c: Cluster) {
    && DistinctIds(c.projects) && DistinctIds(c.environments) && DistinctIds(c.identities)
    && OnePerIdentity(r, c) && CreatorApart(r, c)
  }

  /** What the sweeps start from, and every visit keeps: each resource is settled, was never
      acquired, or has its entity in place. */
  ghost predicate Inv(r: Refs, c: Cluster) {
    && Books(r, c) && Apart(r, c)
    && (forall k: Resource :: Exists(c, k) ==> Done(r, c, k) || Raw(r, c, k) || Placed(r, c, k))
  }

  lemma {:induction false} ProjectExpects(r: Refs, c: Cluster, n: string)
    requires ProjectNeeds(r, c, n)
    ensures Expected(r, c, n) == P.Expect(OrganizationOf(r, c, n))
  {
  }

  // ----- a settled resource stays

  /** The list of environments that a settled project shows is the server's. */
  predicate Fresh(c: Cluster, n: string) {
    n in c.projects && c.projects[n].status.rest.listing == P.Left(Some(Listing(c, c.projects[n].status.id)))
  }

  /** Settled, and with nothing to bring up to date either. */
  predicate AtRest(r: Refs, c: Cluster, k: Resource) {
    Done(r, c, k) && (k.AProject? ==> Fresh(c, k.name))
  }

  /** A list that the status shows is empty at the server. */
  predicate ShowsEmpty(r: Refs, c: Cluster, k: Resource) {
    match k
    case AProject(n) => Listing(c, IdOf(c.projects, n)) == map[]
    case AKubernetesAuth(n) =>
      var id := IdOf(c.identities, Lookup(r.kubernetesOf, n));
      id in c.attached && K.AnyEmpty(c.attached[id])
    case AUniversalAuth(n) => n in c.infra && c.infra[n].auth.Some? && U.AnyEmpty(c.infra[n].auth.value.config)
    case _ => false
  }

  /** The reconcile of resource `k` found everything in place: nothing changes, and a write is
      sent, one without content, exactly when a shown list is empty. */
  ghost predicate Rests(r: Refs, c: Cluster, k: Resource, x: Choice)
    requires Exists(c, k)
  {
    After(r, c, k, x) == c && (Writes(r, c, k, x) <==> ShowsEmpty(r, c, k))
  }

  lemma {:induction false} OrganizationRests(r: Refs, c: Cluster, n: string, x: Choice)
    requires OrganizationDone(c, n)
    ensures OrganizationAfter(c, n, x) == c && (OrganizationTurn(c, n, x).act.writes <==> ShowsEmpty(r, c, AnOrganization(n)))
  {
    OrganizationStays(c.organizations[n], c.orgs, x.id);
    assert c.organizations[n := c.organizations[n]] == c.organizations;
  }

  /** A cluster in which the list of environments of one project was brought up to date. */
  function Refreshed(c: Cluster, n: string): Cluster
    requires n in c.projects
  {
    c.(projects := c.projects[n := Relisted(c.projects[n], P.Left(Some(Listing(c, c.projects[n].status.id))))])
  }

  /** A reconcile of a settled project refreshes its list, and changes nothing else. */
  lemma {:induction false} ProjectRefreshes(r: Refs, c: Cluster, n: string, x: Choice)
    requires ProjectDone(r, c, n)
    ensures ProjectAfter(r, c, n, x) == Refreshed(c, n)
    ensures ProjectTurn(r, c, n, x).act.writes <==> !Fresh(c, n) || ShowsEmpty(r, c, AProject(n))
  {
    ProjectExpects(r, c, n);
    ProjectRelists(c.projects[n], c.store, OrganizationOf(r, c, n), r.creator, x.home, x.id, x.slug, ListingFor(c, n, x));
  }

  lemma {:induction false} FreshIsRefreshed(c: Cluster, n: string)
    requires Fresh(c, n)
    ensures Refreshed(c, n) == c
  {
    assert c.projects[n := c.projects[n]] == c.projects;
  }

  lemma {:induction false} EnvironmentRests(r: Refs, c: Cluster, n: string, x: Choice)
    requires EnvironmentDone(r, c, n)
    ensures EnvironmentAfter(r, c, n, x) == c && (EnvironmentTurn(r, c, n, x).act.writes <==> ShowsEmpty(r, c, AnEnvironment(n)))
  {
    EnvironmentStays(c.environments[n], c.envs, ProjectOf(r, c, n), x.id, x.position);
    assert c.environments[n := c.environments[n]] == c.environments;
  }

  lemma {:induction false} IdentityRests(r: Refs, c: Cluster, n: string, x: Choice)
    requires IdentityDone(r, c, n)
    ensures IdentityAfter(c, n, x) == c && (IdentityTurn(c, n, x).act.writes <==> ShowsEmpty(r, c, AnIdentity(n)))
  {
    IdentityStays(c.identities[n], IdentityStore(c), ViewFor(c, c.identities[n].spec), x.id);
    assert c.identities[n := c.identities[n]] == c.identities;
  }

  lemma {:induction false} KubernetesAuthTurnRests(r: Refs, c: Cluster, n: string, x: Choice)
    requires KubernetesAuthDone(r, c, n)
    ensures KubernetesAuthTurn(r, c, n, x)
      == Undisturbed(c.kubernetes[n], c.attached, K.AnyEmpty(c.attached[IdOf(c.identities, Lookup(r.kubernetesOf, n))]))
  {
    KubernetesAuthStays(c.kubernetes[n], c.attached, IdOf(c.identities, Lookup(r.kubernetesOf, n)), SecretsOf(r, n), x.id, x.defaults);
  }

  lemma {:induction false} KubernetesAuthRests(r: Refs, c: Cluster, n: string, x: Choice)
    requires KubernetesAuthDone(r, c, n)
    ensures KubernetesAuthAfter(r, c, n, x) == c && (KubernetesAuthTurn(r, c, n, x).act.writes <==> ShowsEmpty(r, c, AKubernetesAuth(n)))
  {
    KubernetesAuthTurnRests(r, c, n, x);
    assert c.kubernetes[n := c.kubernetes[n]] == c.kubernetes;
  }

  lemma {:induction false} UniversalAuthRests(r: Refs, c: Cluster, n: string, x: Choice)
    requires UniversalAuthDone(r, c, n)
    ensures UniversalAuthAfter(r, c, n, x) == c && (UniversalAuthTurn(r, c, n, x).act.writes <==> ShowsEmpty(r, c, AUniversalAuth(n)))
  {
    UniversalAuthStays(c.universals[n], InfraOf(r, c, n), x.id, x.clientID, x.config, x.secretID, x.value);
    assert c.universals[n := c.universals[n]] == c.universals && c.infra[n := c.infra[n]] == c.infra;
  }

  /** A reconcile of a resource at rest changes nothing at all; it sends a write exactly when a
      list that the status shows is empty, and that write has no content. */
  lemma {:induction false} RestsExactly(r: Refs, c: Cluster, k: Resource, x: Choice)
    requires Exists(c, k) && AtRest(r, c, k)
    ensures Rests(r, c, k, x)
  {
    hide ShowsEmpty, OrganizationAfter, ProjectAfter, EnvironmentAfter, IdentityAfter, KubernetesAuthAfter, UniversalAuthAfter;
    hide OrganizationTurn, ProjectTurn, EnvironmentTurn, IdentityTurn, KubernetesAuthTurn, UniversalAuthTurn;
    match k
    case AnOrganization(n) => OrganizationRests(r, c, n, x);
    case AProject(n) =>
      ProjectRefreshes(r, c, n, x);
      FreshIsRefreshed(c, n);
    case AnEnvironment(n) => EnvironmentRests(r, c, n, x);
    case AnIdentity(n) => IdentityRests(r, c, n, x);
    case AKubernetesAuth(n) => KubernetesAuthRests(r, c, n, x);
    case AUniversalAuth(n) => UniversalAuthRests(r, c, n, x);
  }

  /** An environment that is new at the server disturbs the list of exactly its own project. */
  lemma {:induction false} ArrivalDisturbsOwnProject(c: Cluster, d: Cluster, id: Id, e: E.Environment, project: Id)
    requires id !in c.envs.environments && d.envs.environments == c.envs.environments[id := e] && !e.deleted && d.initial == c.initial
    requires project in c.initial ==> id !in c.initial[project]
    ensures Listing(d, project) == Listing(c, project) <==> project != e.project
  {
    if project == e.project {
      assert id in Created(d, project) && id !in Created(c, project);
    } else {
      assert Created(d, project) == Created(c, project);
    }
  }

  // ----- settling one resource does not unsettle another

  predicate SameObject(c: Cluster, d: Cluster, k: Resource) {
    match k
    case AnOrganization(n) => n in c.organizations ==> n in d.organizations && d.organizations[n] == c.organizations[n]
    case AProject(n) => n in c.projects ==> n in d.projects && d.projects[n] == c.projects[n]
    case AnEnvironment(n) => n in c.environments ==> n in d.environments && d.environments[n] == c.environments[n]
    case AnIdentity(n) => n in c.identities ==> n in d.identities && d.identities[n] == c.identities[n]
    case AKubernetesAuth(n) => n in c.kubernetes ==> n in d.kubernetes && d.kubernetes[n] == c.kubernetes[n]
    case AUniversalAuth(n) =>
      && (n in c.universals ==> n in d.universals && d.universals[n] == c.universals[n])
      && (n in c.infra ==> n in d.infra && d.infra[n] == c.infra[n])
  }

  predicate AlikeProject(o: P.ProjectObject, p: P.ProjectObject) {
    P.ReadBack(p) && p == Relisted(o, p.status.rest.listing)
  }

  /** The same object, or a project that differs in the environments it lists. */
  predicate Alike(c: Cluster, d: Cluster, k: Resource) {
    if k.AProject? then
      k.name in c.projects ==> k.name in d.projects && AlikeProject(c.projects[k.name], d.projects[k.name])
    else SameObject(c, d, k)
  }

  /** What the resource manages at the server is as it was: its entity, and the memberships that
      it looks after. */
  ghost predicate Intact(r: Refs, c: Cluster, d: Cluster, k: Resource) {
    match k
    case AnOrganization(n) => EntryKept(c.orgs.names, d.orgs.names, IdOf(c.organizations, n))
    case AProject(n) =>
      var id := IdOf(c.projects, n);
      EntryKept(c.store.projects, d.store.projects, id) && EntryKept(c.store.members, d.store.members, Key(id, r.creator))
    case AnEnvironment(n) => EntryKept(c.envs.environments, d.envs.environments, IdOf(c.environments, n))
    case AnIdentity(n) =>
      var id := IdOf(c.identities, n);
      && EntryKept(c.known, d.known, id) && c.store.projects.Keys <= d.store.projects.Keys
      && MembershipsKept(c.store.members, d.store.members, id)
    case AKubernetesAuth(n) => EntryKept(c.attached, d.attached, IdOf(c.identities, Lookup(r.kubernetesOf, n)))
    case AUniversalAuth(n) => true
  }

  predicate EntryKept<A, B(==)>(m: map<A, B>, n: map<A, B>, a: A) {
    a in m ==> a in n && n[a] == m[a]
  }

  predicate MembershipsKept(m: Members, n: Members, identity: Id) {
    forall key :: key in m && key.identity == identity ==> key in n && n[key] == m[key]
  }

  /** Settled resources are as they were, up to the environments that projects list, and so is
      what they manage. */
  ghost predicate Preserves(r: Refs, c: Cluster, d: Cluster) {
    forall q: Resource :: Done(r, c, q) ==> Alike(c, d, q) && Intact(r, c, d, q)
  }

  lemma {:induction false} OrganizationKept(r: Refs, c: Cluster, d: Cluster, n: string)
    requires Preserves(r, c, d) && OrganizationDone(c, n)
    ensures OrganizationDone(d, n) && IdOf(d.organizations, n) == IdOf(c.organizations, n)
  {
    assert Done(r, c, AnOrganization(n));
  }

  lemma {:induction false} ProjectKept(r: Refs, c: Cluster, d: Cluster, n: string)
    requires Preserves(r, c, d) && ProjectDone(r, c, n)
    ensures ProjectDone(r, d, n) && IdOf(d.projects, n) == IdOf(c.projects, n)
    ensures d.projects[n].status.parent == c.projects[n].status.parent
  {
    assert Done(r, c, AProject(n));
    if n in r.organizationOf {
      OrganizationKept(r, c, d, r.organizationOf[n]);
    }
  }

  lemma {:induction false} EnvironmentKept(r: Refs, c: Cluster, d: Cluster, n: string)
    requires Preserves(r, c, d) && EnvironmentDone(r, c, n)
    ensures EnvironmentDone(r, d, n)
  {
    assert Done(r, c, AnEnvironment(n));
    ProjectKept(r, c, d, Lookup(r.projectOf, n));
  }

  lemma {:induction false} NeedsKept(r: Refs, c: Cluster, d: Cluster, spec: I.Spec)
    requires Preserves(r, c, d) && IdentityNeeds(r, c, spec)
    ensures IdentityNeeds(r, d, spec) && SameView(spec, ViewFor(c, spec), ViewFor(d, spec))
  {
    if spec.scope.OrganizationScope? {
      OrganizationKept(r, c, d, Named(spec.organizationRef));
      forall i | 0 <= i < |spec.bindings|
        ensures ProjectDone(r, d, spec.bindings[i].projectRef)
        ensures ViewFor(c, spec).project(spec.bindings[i].projectRef) == ViewFor(d, spec).project(spec.bindings[i].projectRef)
      {
        ProjectKept(r, c, d, spec.bindings[i].projectRef);
      }
    } else {
      ProjectKept(r, c, d, Named(spec.projectRef));
    }
  }

  /** Two views that show an identity the same. */
  predicate SameView(spec: I.Spec, v: I.View, w: I.View) {
    v.owner == w.owner && (spec.scope.OrganizationScope? ==>
      forall i :: 0 <= i < |spec.bindings| ==> v.project(spec.bindings[i].projectRef) == w.project(spec.bindings[i].projectRef))
  }

  lemma {:induction false} SameViewCheck(bs: seq<I.RoleBinding>, organization: Id, v: I.View, w: I.View)
    requires forall i :: 0 <= i < |bs| ==> v.project(bs[i].projectRef) == w.project(bs[i].projectRef)
    ensures I.CheckBound(bs, organization, v) == I.CheckBound(bs, organization, w)
  {
    if bs != [] {
      SameViewCheck(bs[1..], organization, v, w);
    }
  }

  lemma {:induction false} SameViewAnchors(spec: I.Spec, v: I.View, w: I.View)
    requires SameView(spec, v, w)
    ensures I.Anchor(spec, v) == I.Anchor(spec, w)
    ensures spec.scope.OrganizationScope? ==> I.Resolved(spec.bindings, v) == I.Resolved(spec.bindings, w)
  {
    if spec.scope.OrganizationScope? && v.owner.Some? {
      SameViewCheck(spec.bindings, v.owner.value, v, w);
    }
  }

  lemma {:induction false} RolesKept(s: I.Store, t: I.Store, key: Key, roles: seq<string>)
    requires RolesSettled(s, key, roles) && s.projects <= t.projects && MembershipsKept(s.members, t.members, key.identity)
    ensures RolesSettled(t, key, roles)
  {
  }

  lemma {:induction false} IdentitySettledKept(o: I.IdentityObject, s: I.Store, t: I.Store, v: I.View, w: I.View)
    requires IdentitySettled(o, s, v) && SameView(o.spec, v, w)
    requires s.projects <= t.projects && MembershipsKept(s.members, t.members, o.status.id) && EntryKept(s.identities, t.identities, o.status.id)
    ensures IdentitySettled(o, t, w)
  {
    SameViewAnchors(o.spec, v, w);
    var anchor := I.Anchor(o.spec, v).id;
    if o.spec.scope.OrganizationScope? {
      var bs := I.Resolved(o.spec.bindings, v);
      forall i | 0 <= i < |bs| ensures RolesSettled(t, Key(bs[i].project, o.status.id), bs[i].roles) {
        RolesKept(s, t, Key(bs[i].project, o.status.id), bs[i].roles);
      }
    } else {
      RolesKept(s, t, Key(anchor, o.status.id), o.spec.roles);
    }
  }

  lemma {:induction false} IdentityKept(r: Refs, c: Cluster, d: Cluster, n: string)
    requires Preserves(r, c, d) && IdentityDone(r, c, n)
    ensures IdentityDone(r, d, n) && d.identities[n] == c.identities[n]
  {
    assert Done(r, c, AnIdentity(n));
    var o := c.identities[n];
    NeedsKept(r, c, d, o.spec);
    IdentitySettledKept(o, IdentityStore(c), IdentityStore(d), ViewFor(c, o.spec), ViewFor(d, o.spec));
  }

  lemma {:induction false} KubernetesAuthKept(r: Refs, c: Cluster, d: Cluster, n: string)
    requires Preserves(r, c, d) && KubernetesAuthDone(r, c, n)
    ensures KubernetesAuthDone(r, d, n)
  {
    assert Done(r, c, AKubernetesAuth(n));
    IdentityKept(r, c, d, Lookup(r.kubernetesOf, n));
  }

  lemma {:induction false} UniversalAuthKept(r: Refs, c: Cluster, d: Cluster, n: string)
    requires Preserves(r, c, d) && UniversalAuthDone(r, c, n)
    ensures UniversalAuthDone(r, d, n)
  {
    assert Done(r, c, AUniversalAuth(n));
    IdentityKept(r, c, d, Lookup(r.universalOf, n));
  }

  /** Settling one resource does not unsettle another; that a project lists other environments
      does not either. */
  lemma {:induction false} DoneKept(r: Refs, c: Cluster, d: Cluster, q: Resource)
    requires Preserves(r, c, d) && Done(r, c, q)
    ensures Done(r, d, q)
  {
    match q
    case AnOrganization(n) => OrganizationKept(r, c, d, n);
    case AProject(n) => ProjectKept(r, c, d, n);
    case AnEnvironment(n) => EnvironmentKept(r, c, d, n);
    case AnIdentity(n) => IdentityKept(r, c, d, n);
    case AKubernetesAuth(n) => KubernetesAuthKept(r, c, d, n);
    case AUniversalAuth(n) => UniversalAuthKept(r, c, d, n);
  }
}
