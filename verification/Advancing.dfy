/** One reconcile of one resource that has not settled, with every call answered: what it does
    to that resource, and what it leaves of everything else. The resource may never have been
    acquired, or have an entity in place that has drifted. */
module Advancing {
  import opened Basics
  import opened Lifecycle
  import opened Memberships
  import opened Recovery
  import opened Roles
  import opened Settling
  import opened Clusters
  import O = Organizations
  import P = Projects
  import E = Environments
  import I = Identities
  import K = KubernetesAuths
  import U = UniversalAuths
  import Rotation

  /** The resource is not held back by a finalizer that is still to be added. */
  predicate Awake(c: Cluster, k: Resource)
    requires Exists(c, k)
  {
    match k
    case AnOrganization(n) => Active(c.organizations[n])
    case AProject(n) => Active(c.projects[n])
    case AnEnvironment(n) => Active(c.environments[n])
    case AnIdentity(n) => Active(c.identities[n])
    case AKubernetesAuth(n) => Active(c.kubernetes[n])
    case AUniversalAuth(n) => Active(c.universals[n])
  }

  /** A faithful server's choices: new IDs are new, and nothing it returns is blank. */
  predicate Fair(c: Cluster, k: Resource, x: Choice)
    requires Exists(c, k)
  {
    match k
    case AnOrganization(_) => Usable(x.id, c.orgs.issued)
    case AProject(_) => Usable(x.id, c.store.owners.Keys)
    case AnEnvironment(_) => Usable(x.id, c.envs.issued)
    case AnIdentity(_) => Usable(x.id, c.issued)
    case AKubernetesAuth(_) => x.id != ""
    case AUniversalAuth(n) => x.id != "" && x.clientID != "" && Usable(x.secretID, c.infra[n].issued) && x.value != ""
  }

  predicate SameNames(c: Cluster, d: Cluster) {
    && c.organizations.Keys == d.organizations.Keys && c.projects.Keys == d.projects.Keys && c.environments.Keys == d.environments.Keys
    && c.identities.Keys == d.identities.Keys && c.kubernetes.Keys == d.kubernetes.Keys && c.universals.Keys == d.universals.Keys
    && c.infra.Keys == d.infra.Keys
  }

  /** An ID that changed was empty and became one never issued before. */
  predicate Issues<S, X>(before: map<string, Object<S, X>>, after: map<string, Object<S, X>>, issued: set<Id>) {
    forall n :: n in before && n in after && after[n].status.id != before[n].status.id ==>
      before[n].status.id == "" && after[n].status.id !in issued
  }

  predicate IssuesAll(c: Cluster, d: Cluster) {
    && Issues(c.organizations, d.organizations, c.orgs.issued) && Issues(c.projects, d.projects, c.store.owners.Keys)
    && Issues(c.environments, d.environments, c.envs.issued) && Issues(c.identities, d.identities, c.issued)
  }

  predicate AttachedBy(r: Refs, c: Cluster, k: Resource, id: Id) {
    k.AKubernetesAuth? && id != "" && id == IdOf(c.identities, Lookup(r.kubernetesOf, k.name))
  }

  /** A store in which entries were added, and at most the entry `own` was replaced. */
  predicate Spares<A, B(==)>(m: map<A, B>, n: map<A, B>, mine: bool, own: A) {
    forall a :: a in m ==> a in n && (n[a] == m[a] || (mine && a == own))
  }

  /** The resource looks after this membership. */
  predicate LooksAfter(r: Refs, d: Cluster, k: Resource, key: Key) {
    match k
    case AProject(n) => key == Key(IdOf(d.projects, n), r.creator)
    case AnIdentity(n) => key.identity == IdOf(d.identities, n)
    case _ => false
  }

  predicate MembersSpared(r: Refs, c: Cluster, d: Cluster, k: Resource) {
    forall key :: key in c.store.members ==> key in d.store.members && (d.store.members[key] == c.store.members[key] || LooksAfter(r, d, k, key))
  }

  /** At the server only what the resource manages was changed. */
  predicate ReplacesOwn(r: Refs, c: Cluster, d: Cluster, k: Resource) {
    && Spares(c.orgs.names, d.orgs.names, false, "")
    && Spares(c.store.projects, d.store.projects, k.AProject?, IdOf(d.projects, k.name))
    && Spares(c.envs.environments, d.envs.environments, k.AnEnvironment?, IdOf(d.environments, k.name))
    && Spares(c.known, d.known, k.AnIdentity?, IdOf(d.identities, k.name))
    && Spares(c.attached, d.attached, k.AKubernetesAuth?, IdOf(c.identities, Lookup(r.kubernetesOf, k.name)))
    && MembersSpared(r, c, d, k)
    && (forall id :: id in d.attached ==> id in c.attached || AttachedBy(r, c, k, id))
  }

  /** Only resource `k` changed, and what it manages. */
  ghost predicate Advances(r: Refs, c: Cluster, d: Cluster, k: Resource) {
    && (forall q: Resource :: q != k ==> SameObject(c, d, q)) && SameNames(c, d)
    && Books(r, d) && IssuesAll(c, d) && ReplacesOwn(r, c, d, k)
  }

  /** The same object, but past its finalizer, and with another verdict. */
  ghost predicate Lingers<S, X>(o: Object<S, X>, p: Object<S, X>) {
    && p == o.(meta := o.meta.(finalizer := p.meta.finalizer), status := o.status.(observed := p.status.observed, ready := p.status.ready))
    && Active(p)
  }

  /** How a reconcile of a resource that cannot settle yet ends, `d` being the cluster after it. */
  ghost predicate Pauses(r: Refs, c: Cluster, d: Cluster, k: Resource) {
    Advances(r, c, d, k) && (Raw(r, d, k) || Placed(r, d, k)) && Exists(d, k) && Awake(d, k)
  }

  ghost predicate Arrives(r: Refs, c: Cluster, d: Cluster, k: Resource) {
    Advances(r, c, d, k) && Done(r, d, k) && Exists(d, k) && Awake(d, k)
  }

  /** A reconcile that has all it needs to go through: the resource is in place, and settled when
      what it depends on is. */
  ghost predicate Lands(r: Refs, c: Cluster, d: Cluster, k: Resource)
    requires Exists(c, k)
  {
    Pauses(r, c, d, k) && (Needs(r, c, k) ==> Done(r, d, k))
  }

  // ----- what others manage is left alone

  lemma {:induction false} EntityApart<S, X>(before: map<string, Object<S, X>>, after: map<string, Object<S, X>>, issued: set<Id>, n: string, m: string)
    requires DistinctIds(before) && Issues(before, after, issued) && before.Keys == after.Keys && n != m
    requires IdOf(before, n) != "" && IdOf(before, n) in issued
    ensures IdOf(after, m) != IdOf(before, n)
  {
  }

  lemma {:induction false} ProjectIntact(r: Refs, c: Cluster, d: Cluster, k: Resource, n: string)
    requires Books(r, c) && Apart(r, c) && Advances(r, c, d, k) && k != AProject(n) && IdOf(c.projects, n) in c.store.projects && IdOf(c.projects, n) != ""
    ensures Intact(r, c, d, AProject(n))
  {
    var key := Key(IdOf(c.projects, n), r.creator);
    if k.AProject? {
      EntityApart(c.projects, d.projects, c.store.owners.Keys, n, k.name);
    } else if k.AnIdentity? && key in c.store.members {
      NotTheCreator(r, c, d, k.name);
    }
  }

  lemma {:induction false} NotTheCreator(r: Refs, c: Cluster, d: Cluster, m: string)
    requires Books(r, c) && CreatorApart(r, c) && r.creator in c.issued && Issues(c.identities, d.identities, c.issued) && c.identities.Keys == d.identities.Keys
    ensures IdOf(d.identities, m) != r.creator
  {
  }

  lemma {:induction false} IdentityIntact(r: Refs, c: Cluster, d: Cluster, k: Resource, n: string)
    requires Books(r, c) && Apart(r, c) && Advances(r, c, d, k) && k != AnIdentity(n) && IdOf(c.identities, n) in c.known && IdOf(c.identities, n) != ""
    ensures Intact(r, c, d, AnIdentity(n))
  {
    var id := IdOf(c.identities, n);
    if k.AnIdentity? {
      EntityApart(c.identities, d.identities, c.issued, n, k.name);
    }
    forall key | key in c.store.members && key.identity == id ensures key in d.store.members && d.store.members[key] == c.store.members[key] {
      assert !LooksAfter(r, d, k, key);
    }
  }

  lemma {:induction false} EnvironmentIntact(r: Refs, c: Cluster, d: Cluster, k: Resource, n: string)
    requires Books(r, c) && Apart(r, c) && Advances(r, c, d, k) && k != AnEnvironment(n)
    requires IdOf(c.environments, n) in c.envs.environments && IdOf(c.environments, n) != ""
    ensures Intact(r, c, d, AnEnvironment(n))
  {
    if k.AnEnvironment? {
      EntityApart(c.environments, d.environments, c.envs.issued, n, k.name);
    }
  }

  lemma {:induction false} KubernetesAuthIntact(r: Refs, c: Cluster, d: Cluster, k: Resource, n: string)
    requires Apart(r, c) && Advances(r, c, d, k) && Exists(c, k) && k != AKubernetesAuth(n) && n in c.kubernetes
    requires IdOf(c.identities, Lookup(r.kubernetesOf, n)) != ""
    ensures Intact(r, c, d, AKubernetesAuth(n))
  {
    if k.AKubernetesAuth? {
      assert Lookup(r.kubernetesOf, k.name) != Lookup(r.kubernetesOf, n);
    }
  }

  /** There is something at the server that the resource manages. */
  predicate HasEntity(r: Refs, c: Cluster, q: Resource) {
    match q
    case AnOrganization(_) => true
    case AProject(n) => IdOf(c.projects, n) != "" && IdOf(c.projects, n) in c.store.projects
    case AnEnvironment(n) => IdOf(c.environments, n) != "" && IdOf(c.environments, n) in c.envs.environments
    case AnIdentity(n) => IdOf(c.identities, n) != "" && IdOf(c.identities, n) in c.known
    case AKubernetesAuth(n) => n in c.kubernetes && IdOf(c.identities, Lookup(r.kubernetesOf, n)) != ""
    case AUniversalAuth(_) => true
  }

  lemma {:induction false} InPlaceHasEntity(r: Refs, c: Cluster, q: Resource)
    requires Done(r, c, q) || Placed(r, c, q)
    ensures HasEntity(r, c, q)
  {
  }

  /** A reconcile leaves what another resource manages alone. */
  lemma {:induction false} StaysIntact(r: Refs, c: Cluster, d: Cluster, k: Resource, q: Resource)
    requires Books(r, c) && Apart(r, c) && Advances(r, c, d, k) && Exists(c, k) && q != k && (Done(r, c, q) || Placed(r, c, q))
    ensures Intact(r, c, d, q)
  {
    InPlaceHasEntity(r, c, q);
    EntityIntact(r, c, d, k, q);
  }

  lemma {:induction false} EntityIntact(r: Refs, c: Cluster, d: Cluster, k: Resource, q: Resource)
    requires Books(r, c) && Apart(r, c) && Advances(r, c, d, k) && Exists(c, k) && q != k && HasEntity(r, c, q)
    ensures Intact(r, c, d, q)
  {
    match q
    case AnOrganization(n) =>
    case AProject(n) => ProjectIntact(r, c, d, k, n);
    case AnEnvironment(n) => EnvironmentIntact(r, c, d, k, n);
    case AnIdentity(n) => IdentityIntact(r, c, d, k, n);
    case AKubernetesAuth(n) => KubernetesAuthIntact(r, c, d, k, n);
    case AUniversalAuth(n) =>
  }

  lemma {:induction false} AdvancesPreserves(r: Refs, c: Cluster, d: Cluster, k: Resource)
    requires Books(r, c) && Apart(r, c) && Advances(r, c, d, k) && Exists(c, k) && !Done(r, c, k)
    ensures Preserves(r, c, d)
  {
    hide Done, Alike, Intact, Books, Apart;
    forall q: Resource | Done(r, c, q) ensures Alike(c, d, q) && Intact(r, c, d, q) {
      SettledIsAlike(r, c, d, q);
      StaysIntact(r, c, d, k, q);
    }
  }

  lemma {:induction false} SettledIsAlike(r: Refs, c: Cluster, d: Cluster, q: Resource)
    requires Done(r, c, q) && SameObject(c, d, q)
    ensures Alike(c, d, q)
  {
  }

  // ----- one object and one store replaced

  lemma {:induction false} OrganizationBooks(r: Refs, c: Cluster, d: Cluster, n: string, p: O.OrganizationObject, s: O.Store)
    requires Books(r, c) && n in c.organizations && d == c.(organizations := c.organizations[n := p], orgs := s)
    requires Spares(c.orgs.names, s.names, false, "") && s.names.Keys <= s.issued
    requires p.status.id != c.organizations[n].status.id ==> c.organizations[n].status.id == "" && p.status.id !in c.orgs.issued
    ensures Books(r, d)
  {
  }

  lemma {:induction false} OrganizationReplacesOwn(r: Refs, c: Cluster, d: Cluster, n: string, p: O.OrganizationObject, s: O.Store)
    requires Books(r, c) && n in c.organizations && d == c.(organizations := c.organizations[n := p], orgs := s)
    requires Spares(c.orgs.names, s.names, false, "") && s.names.Keys <= s.issued
    requires p.status.id != c.organizations[n].status.id ==> c.organizations[n].status.id == "" && p.status.id !in c.orgs.issued
    ensures ReplacesOwn(r, c, d, AnOrganization(n))
  {
  }

  lemma {:induction false} OrganizationPut(r: Refs, c: Cluster, d: Cluster, n: string, p: O.OrganizationObject, s: O.Store)
    requires Books(r, c) && n in c.organizations && d == c.(organizations := c.organizations[n := p], orgs := s)
    requires Spares(c.orgs.names, s.names, false, "") && s.names.Keys <= s.issued
    requires p.status.id != c.organizations[n].status.id ==> c.organizations[n].status.id == "" && p.status.id !in c.orgs.issued
    ensures Advances(r, c, d, AnOrganization(n))
  {
    hide Books, ReplacesOwn;
    OrganizationBooks(r, c, d, n, p, s);
    OrganizationReplacesOwn(r, c, d, n, p, s);
  }

  lemma {:induction false} ProjectBooks(r: Refs, c: Cluster, d: Cluster, n: string, p: P.ProjectObject, s: P.Store)
    requires Books(r, c) && n in c.projects && d == c.(projects := c.projects[n := p], store := s, initial := d.initial)
    requires Spares(c.store.projects, s.projects, true, p.status.id) && s.projects.Keys <= s.owners.Keys
    requires forall key :: key in c.store.members ==>
      key in s.members && (s.members[key] == c.store.members[key] || key == Key(p.status.id, r.creator))
    requires forall key :: key in s.members ==> key.project in s.owners && key.identity in c.issued
    requires p.status.id != c.projects[n].status.id ==> c.projects[n].status.id == "" && p.status.id !in c.store.owners
    ensures Books(r, d)
  {
  }

  lemma {:induction false} ProjectReplacesOwn(r: Refs, c: Cluster, d: Cluster, n: string, p: P.ProjectObject, s: P.Store)
    requires Books(r, c) && n in c.projects && d == c.(projects := c.projects[n := p], store := s, initial := d.initial)
    requires Spares(c.store.projects, s.projects, true, p.status.id) && s.projects.Keys <= s.owners.Keys
    requires forall key :: key in c.store.members ==>
      key in s.members && (s.members[key] == c.store.members[key] || key == Key(p.status.id, r.creator))
    requires forall key :: key in s.members ==> key.project in s.owners && key.identity in c.issued
    requires p.status.id != c.projects[n].status.id ==> c.projects[n].status.id == "" && p.status.id !in c.store.owners
    ensures ReplacesOwn(r, c, d, AProject(n))
  {
  }

  lemma {:induction false} ProjectPut(r: Refs, c: Cluster, d: Cluster, n: string, p: P.ProjectObject, s: P.Store)
    requires Books(r, c) && n in c.projects && d == c.(projects := c.projects[n := p], store := s, initial := d.initial)
    requires Spares(c.store.projects, s.projects, true, p.status.id) && s.projects.Keys <= s.owners.Keys
    requires forall key :: key in c.store.members ==>
      key in s.members && (s.members[key] == c.store.members[key] || key == Key(p.status.id, r.creator))
    requires forall key :: key in s.members ==> key.project in s.owners && key.identity in c.issued
    requires p.status.id != c.projects[n].status.id ==> c.projects[n].status.id == "" && p.status.id !in c.store.owners
    ensures Advances(r, c, d, AProject(n))
  {
    hide Books, ReplacesOwn;
    ProjectBooks(r, c, d, n, p, s);
    ProjectReplacesOwn(r, c, d, n, p, s);
  }

  lemma {:induction false} EnvironmentBooks(r: Refs, c: Cluster, d: Cluster, n: string, p: E.EnvironmentObject, s: E.Store)
    requires Books(r, c) && n in c.environments && d == c.(environments := c.environments[n := p], envs := s)
    requires Spares(c.envs.environments, s.environments, true, p.status.id) && s.environments.Keys <= s.issued
    requires p.status.id != c.environments[n].status.id ==> c.environments[n].status.id == "" && p.status.id !in c.envs.issued
    ensures Books(r, d)
  {
  }

  lemma {:induction false} EnvironmentReplacesOwn(r: Refs, c: Cluster, d: Cluster, n: string, p: E.EnvironmentObject, s: E.Store)
    requires Books(r, c) && n in c.environments && d == c.(environments := c.environments[n := p], envs := s)
    requires Spares(c.envs.environments, s.environments, true, p.status.id) && s.environments.Keys <= s.issued
    requires p.status.id != c.environments[n].status.id ==> c.environments[n].status.id == "" && p.status.id !in c.envs.issued
    ensures ReplacesOwn(r, c, d, AnEnvironment(n))
  {
  }

  lemma {:induction false} EnvironmentPut(r: Refs, c: Cluster, d: Cluster, n: string, p: E.EnvironmentObject, s: E.Store)
    requires Books(r, c) && n in c.environments && d == c.(environments := c.environments[n := p], envs := s)
    requires Spares(c.envs.environments, s.environments, true, p.status.id) && s.environments.Keys <= s.issued
    requires p.status.id != c.environments[n].status.id ==> c.environments[n].status.id == "" && p.status.id !in c.envs.issued
    ensures Advances(r, c, d, AnEnvironment(n))
  {
    hide Books, ReplacesOwn;
    EnvironmentBooks(r, c, d, n, p, s);
    EnvironmentReplacesOwn(r, c, d, n, p, s);
  }

  lemma {:induction false} IdentityBooks(r: Refs, c: Cluster, d: Cluster, n: string, p: I.IdentityObject, s: I.Store)
    requires Books(r, c) && n in c.identities
    requires d == c.(identities := c.identities[n := p], known := s.identities, issued := s.issued, store := c.store.(members := s.members))
    requires Spares(c.known, s.identities, true, p.status.id) && s.identities.Keys <= s.issued
    requires c.issued <= s.issued && "" !in s.issued
    requires forall key :: key in c.store.members ==> key in s.members && (s.members[key] == c.store.members[key] || key.identity == p.status.id)
    requires forall key :: key in s.members ==> key.project in c.store.owners && key.identity in s.issued
    requires p.status.id != c.identities[n].status.id ==> c.identities[n].status.id == "" && p.status.id !in c.issued
    ensures Books(r, d)
  {
  }

  lemma {:induction false} IdentityReplacesOwn(r: Refs, c: Cluster, d: Cluster, n: string, p: I.IdentityObject, s: I.Store)
    requires Books(r, c) && n in c.identities
    requires d == c.(identities := c.identities[n := p], known := s.identities, issued := s.issued, store := c.store.(members := s.members))
    requires Spares(c.known, s.identities, true, p.status.id) && s.identities.Keys <= s.issued
    requires c.issued <= s.issued && "" !in s.issued
    requires forall key :: key in c.store.members ==> key in s.members && (s.members[key] == c.store.members[key] || key.identity == p.status.id)
    requires forall key :: key in s.members ==> key.project in c.store.owners && key.identity in s.issued
    requires p.status.id != c.identities[n].status.id ==> c.identities[n].status.id == "" && p.status.id !in c.issued
    ensures ReplacesOwn(r, c, d, AnIdentity(n))
  {
  }

  lemma {:induction false} IdentityPut(r: Refs, c: Cluster, d: Cluster, n: string, p: I.IdentityObject, s: I.Store)
    requires Books(r, c) && n in c.identities
    requires d == c.(identities := c.identities[n := p], known := s.identities, issued := s.issued, store := c.store.(members := s.members))
    requires Spares(c.known, s.identities, true, p.status.id) && s.identities.Keys <= s.issued
    requires c.issued <= s.issued && "" !in s.issued
    requires forall key :: key in c.store.members ==> key in s.members && (s.members[key] == c.store.members[key] || key.identity == p.status.id)
    requires forall key :: key in s.members ==> key.project in c.store.owners && key.identity in s.issued
    requires p.status.id != c.identities[n].status.id ==> c.identities[n].status.id == "" && p.status.id !in c.issued
    ensures Advances(r, c, d, AnIdentity(n))
  {
    hide Books, ReplacesOwn;
    IdentityBooks(r, c, d, n, p, s);
    IdentityReplacesOwn(r, c, d, n, p, s);
  }

  lemma {:induction false} KubernetesAuthBooks(r: Refs, c: Cluster, d: Cluster, n: string, p: K.KubernetesAuthObject, s: K.Store)
    requires Books(r, c) && n in c.kubernetes && d == c.(kubernetes := c.kubernetes[n := p], attached := s)
    requires Spares(c.attached, s, true, IdOf(c.identities, Lookup(r.kubernetesOf, n))) && s.Keys <= c.issued
    requires forall id :: id in s ==> id in c.attached || AttachedBy(r, c, AKubernetesAuth(n), id)
    ensures Books(r, d)
  {
  }

  lemma {:induction false} KubernetesAuthReplacesOwn(r: Refs, c: Cluster, d: Cluster, n: string, p: K.KubernetesAuthObject, s: K.Store)
    requires Books(r, c) && n in c.kubernetes && d == c.(kubernetes := c.kubernetes[n := p], attached := s)
    requires Spares(c.attached, s, true, IdOf(c.identities, Lookup(r.kubernetesOf, n))) && s.Keys <= c.issued
    requires forall id :: id in s ==> id in c.attached || AttachedBy(r, c, AKubernetesAuth(n), id)
    ensures ReplacesOwn(r, c, d, AKubernetesAuth(n))
  {
  }

  lemma {:induction false} KubernetesAuthPut(r: Refs, c: Cluster, d: Cluster, n: string, p: K.KubernetesAuthObject, s: K.Store)
    requires Books(r, c) && n in c.kubernetes && d == c.(kubernetes := c.kubernetes[n := p], attached := s)
    requires Spares(c.attached, s, true, IdOf(c.identities, Lookup(r.kubernetesOf, n))) && s.Keys <= c.issued
    requires forall id :: id in s ==> id in c.attached || AttachedBy(r, c, AKubernetesAuth(n), id)
    ensures Advances(r, c, d, AKubernetesAuth(n))
  {
    hide Books, ReplacesOwn;
    KubernetesAuthBooks(r, c, d, n, p, s);
    KubernetesAuthReplacesOwn(r, c, d, n, p, s);
  }

  lemma {:induction false} UniversalAuthBooks(r: Refs, c: Cluster, d: Cluster, n: string, p: U.UniversalAuthObject, i: U.Infra)
    requires Books(r, c) && n in c.universals && n in c.infra && d == c.(universals := c.universals[n := p], infra := c.infra[n := i])
    requires Rotation.Coherent(i)
    ensures Books(r, d)
  {
  }

  lemma {:induction false} NothingReplaced(r: Refs, c: Cluster, d: Cluster, k: Resource)
    requires d.orgs == c.orgs && d.store == c.store && d.envs == c.envs && d.known == c.known && d.attached == c.attached
    ensures ReplacesOwn(r, c, d, k)
  {
  }

  lemma {:induction false} UniversalAuthPut(r: Refs, c: Cluster, d: Cluster, n: string, p: U.UniversalAuthObject, i: U.Infra)
    requires Books(r, c) && n in c.universals && n in c.infra && d == c.(universals := c.universals[n := p], infra := c.infra[n := i])
    requires Rotation.Coherent(i)
    ensures Advances(r, c, d, AUniversalAuth(n))
  {
    hide Books, ReplacesOwn;
    UniversalAuthBooks(r, c, d, n, p, i);
    NothingReplaced(r, c, d, AUniversalAuth(n));
  }

  // ----- pausing

  lemma {:induction false} OrganizationLingers(o: O.OrganizationObject, s: O.Store, id: Id)
    requires Usual(o) && !Active(o)
    ensures var t := O.Reconcile(o, s, OrganizationAnswers(id)); Lingers(o, t.obj) && t.remote == s
  {
  }

  lemma {:induction false} ProjectLingers(o: P.ProjectObject, s: P.Store, expected: P.Expected, home: Id, id: Id, slug: string, creator: Id, listing: P.Listing)
    requires Usual(o) && (Active(o) ==> expected.NotReady?)
    ensures var t := P.Reconcile(o, s, ProjectAnswers(expected, home, id, slug, creator, listing)); Lingers(o, t.obj) && t.remote == s && t.act.created.None?
  {
    if Active(o) {
      ProjectWaits(o, s, creator, home, id, slug, listing);
    }
  }

  lemma {:induction false} EnvironmentLingers(o: E.EnvironmentObject, s: E.Store, project: Id, id: Id, position: int)
    requires Usual(o) && (Active(o) ==> project == "")
    ensures var t := E.Reconcile(o, s, EnvironmentAnswers(project, id, position)); Lingers(o, t.obj) && t.remote == s
  {
    if Active(o) {
      EnvironmentWaits(o, s, id, position);
    }
  }

  lemma {:induction false} IdentityLingers(o: I.IdentityObject, s: I.Store, view: I.View, id: Id)
    requires Usual(o) && (Active(o) ==> I.Anchor(o.spec, view).Unanchored?)
    ensures var t := I.Reconcile(o, s, IdentityAnswers(view, id)); Lingers(o, t.obj) && t.remote == s
  {
    if Active(o) {
      IdentityWaits(o, s, view, id);
    }
  }

  lemma {:induction false} KubernetesAuthLingers(o: K.KubernetesAuthObject, s: K.Store, identity: Id, secrets: K.Secrets, id: Id, defaults: K.KubernetesAuth)
    requires Usual(o) && (Active(o) ==> identity == "")
    ensures var t := K.Reconcile(o, s, KubernetesAuthAnswers(identity, secrets, id, defaults)); Lingers(o, t.obj) && t.remote == s
  {
    if Active(o) {
      KubernetesAuthWaits(o, s, secrets, id, defaults);
    }
  }

  lemma {:induction false} UniversalAuthLingers(o: U.UniversalAuthObject, i: U.Infra, ready: bool, x: Choice)
    requires Usual(o) && (Active(o) ==> !ready)
    ensures var t := U.Reconcile(o, i, UniversalAuthAnswers(ready, x.id, x.clientID, x.config, x.secretID, x.value));
      Lingers(o, t.obj) && t.remote == i
  {
    if Active(o) {
      UniversalAuthWaits(o, i, x.id, x.clientID, x.config, x.secretID, x.value);
    }
  }

  lemma {:induction false} OrganizationPauses(r: Refs, c: Cluster, n: string, x: Choice)
    requires Books(r, c) && (Raw(r, c, AnOrganization(n)) || Placed(r, c, AnOrganization(n)))
    requires !Awake(c, AnOrganization(n))
    ensures Pauses(r, c, OrganizationAfter(c, n, x), AnOrganization(n))
  {
    var t, d := OrganizationTurn(c, n, x), OrganizationAfter(c, n, x);
    OrganizationLingers(c.organizations[n], c.orgs, x.id);
    OrganizationPut(r, c, d, n, t.obj, t.remote);
  }

  lemma {:induction false} ProjectPauses(r: Refs, c: Cluster, n: string, x: Choice)
    requires Books(r, c) && (Raw(r, c, AProject(n)) || Placed(r, c, AProject(n)))
    requires Awake(c, AProject(n)) ==> Expected(r, c, n).NotReady?
    ensures Pauses(r, c, ProjectAfter(r, c, n, x), AProject(n))
  {
    var t, d := ProjectTurn(r, c, n, x), ProjectAfter(r, c, n, x);
    ProjectLingers(c.projects[n], c.store, Expected(r, c, n), x.home, x.id, x.slug, r.creator, ListingFor(c, n, x));
    ProjectPut(r, c, d, n, t.obj, t.remote);
  }

  lemma {:induction false} EnvironmentPauses(r: Refs, c: Cluster, n: string, x: Choice)
    requires Books(r, c) && (Raw(r, c, AnEnvironment(n)) || Placed(r, c, AnEnvironment(n)))
    requires Awake(c, AnEnvironment(n)) ==> ProjectOf(r, c, n) == ""
    ensures Pauses(r, c, EnvironmentAfter(r, c, n, x), AnEnvironment(n))
  {
    var t, d := EnvironmentTurn(r, c, n, x), EnvironmentAfter(r, c, n, x);
    EnvironmentLingers(c.environments[n], c.envs, ProjectOf(r, c, n), x.id, x.position);
    EnvironmentPut(r, c, d, n, t.obj, t.remote);
  }

  lemma {:induction false} IdentityLingering(r: Refs, c: Cluster, d: Cluster, n: string, p: I.IdentityObject)
    requires n in c.identities && Lingers(c.identities[n], p) && d == c.(identities := c.identities[n := p])
    requires Raw(r, c, AnIdentity(n)) || Placed(r, c, AnIdentity(n))
    ensures (Raw(r, d, AnIdentity(n)) || Placed(r, d, AnIdentity(n))) && Awake(d, AnIdentity(n))
  {
  }

  lemma {:induction false} IdentityPauses(r: Refs, c: Cluster, n: string, x: Choice)
    requires Books(r, c) && (Raw(r, c, AnIdentity(n)) || Placed(r, c, AnIdentity(n)))
    requires Awake(c, AnIdentity(n)) ==> I.Anchor(c.identities[n].spec, ViewFor(c, c.identities[n].spec)).Unanchored?
    ensures Pauses(r, c, IdentityAfter(c, n, x), AnIdentity(n))
  {
    var t, d := IdentityTurn(c, n, x), IdentityAfter(c, n, x);
    IdentityLingers(c.identities[n], IdentityStore(c), ViewFor(c, c.identities[n].spec), x.id);
    IdentityPut(r, c, d, n, t.obj, t.remote);
    hide Advances, Books;
    IdentityLingering(r, c, d, n, t.obj);
  }

  lemma {:induction false} KubernetesAuthPauses(r: Refs, c: Cluster, n: string, x: Choice)
    requires Books(r, c) && (Raw(r, c, AKubernetesAuth(n)) || Placed(r, c, AKubernetesAuth(n)))
    requires Awake(c, AKubernetesAuth(n)) ==> IdOf(c.identities, Lookup(r.kubernetesOf, n)) == ""
    ensures Pauses(r, c, KubernetesAuthAfter(r, c, n, x), AKubernetesAuth(n))
  {
    var t, d := KubernetesAuthTurn(r, c, n, x), KubernetesAuthAfter(r, c, n, x);
    KubernetesAuthLingers(c.kubernetes[n], c.attached, IdOf(c.identities, Lookup(r.kubernetesOf, n)), SecretsOf(r, n), x.id, x.defaults);
    KubernetesAuthPut(r, c, d, n, t.obj, t.remote);
  }

  lemma {:induction false} UniversalAuthPauses(r: Refs, c: Cluster, n: string, x: Choice)
    requires Books(r, c) && (Raw(r, c, AUniversalAuth(n)) || Placed(r, c, AUniversalAuth(n)))
    requires Awake(c, AUniversalAuth(n)) ==> !IdentityReady(c, Lookup(r.universalOf, n))
    ensures Pauses(r, c, UniversalAuthAfter(r, c, n, x), AUniversalAuth(n))
  {
    var t, d := UniversalAuthTurn(r, c, n, x), UniversalAuthAfter(r, c, n, x);
    UniversalAuthLingers(c.universals[n], InfraOf(r, c, n), IdentityReady(c, Lookup(r.universalOf, n)), x);
    UniversalAuthPut(r, c, d, n, t.obj, t.remote);
  }

  // ----- landing

  /** What a settling reconcile returned, put back into the cluster, is a resource in place, and
      a settled one when what it needs is settled. */
  lemma {:induction false} OrganizationLanded(r: Refs, c: Cluster, d: Cluster, n: string, t: O.OrganizationTurn)
    requires Books(r, c) && n in c.organizations && d == c.(organizations := c.organizations[n := t.obj], orgs := t.remote)
    requires OrganizationSettled(t.obj, t.remote)
    requires Holds(c.organizations[n].status.id, t.obj.status.id, c.orgs.issued)
    requires Spares(c.orgs.names, t.remote.names, false, "") && t.remote.names.Keys <= t.remote.issued
    ensures Lands(r, c, d, AnOrganization(n))
  {
    OrganizationPut(r, c, d, n, t.obj, t.remote);
  }

  lemma {:induction false} OrganizationLands(r: Refs, c: Cluster, n: string, x: Choice)
    requires Books(r, c) && (Raw(r, c, AnOrganization(n)) || Placed(r, c, AnOrganization(n)))
    requires Awake(c, AnOrganization(n)) && Fair(c, AnOrganization(n), x)
    ensures Lands(r, c, OrganizationAfter(c, n, x), AnOrganization(n))
  {
    if Raw(r, c, AnOrganization(n)) {
      OrganizationSettles(c.organizations[n], c.orgs, x.id);
    } else {
      OrganizationRecovers(c.organizations[n], c.orgs, x.id);
    }
    OrganizationLanded(r, c, OrganizationAfter(c, n, x), n, OrganizationTurn(c, n, x));
  }

  /** The stored ID is as it was, or one that was not issued before. */
  predicate Holds(before: Id, after: Id, issued: set<Id>) {
    after == before || (before == "" && Usable(after, issued))
  }

  lemma {:induction false} ProjectGained(r: Refs, c: Cluster, d: Cluster, n: string, t: P.ProjectTurn)
    requires Books(r, c) && n in c.projects && d == c.(projects := c.projects[n := t.obj], store := t.remote, initial := d.initial)
    requires var id := t.obj.status.id;
      && Holds(c.projects[n].status.id, id, c.store.owners.Keys) && id in t.remote.projects && id in t.remote.owners
      && t.remote.projects == c.store.projects[id := t.remote.projects[id]] && c.store.owners.Keys <= t.remote.owners.Keys
      && MayGrant(c.store.members, t.remote.members, id, r.creator)
    ensures Advances(r, c, d, AProject(n))
  {
    ProjectPut(r, c, d, n, t.obj, t.remote);
  }

  lemma {:induction false} ProjectLanded(r: Refs, c: Cluster, d: Cluster, n: string, t: P.ProjectTurn)
    requires Raw(r, c, AProject(n)) || Placed(r, c, AProject(n))
    requires Expected(r, c, n).Expect? && Advances(r, c, d, AProject(n))
    requires d == c.(projects := c.projects[n := t.obj], store := t.remote, initial := d.initial)
    requires ProjectSettled(t.obj, t.remote, OrganizationOf(r, c, n), r.creator) && t.obj.spec == c.projects[n].spec
    ensures Lands(r, c, d, AProject(n))
  {
    assert OrganizationOf(r, d, n) == OrganizationOf(r, c, n);
  }

  lemma {:induction false} ProjectLands(r: Refs, c: Cluster, n: string, x: Choice)
    requires Books(r, c) && (Raw(r, c, AProject(n)) || Placed(r, c, AProject(n)))
    requires Awake(c, AProject(n)) && Fair(c, AProject(n), x) && Expected(r, c, n).Expect?
    ensures Lands(r, c, ProjectAfter(r, c, n, x), AProject(n))
  {
    var o, org := c.projects[n], OrganizationOf(r, c, n);
    if Raw(r, c, AProject(n)) {
      assert Key(x.id, r.creator) !in c.store.members;
      ProjectSettles(o, c.store, org, r.creator, x.home, x.id, x.slug, ListingFor(c, n, x));
    } else {
      ProjectRecovers(o, c.store, org, r.creator, x.home, x.id, x.slug, ListingFor(c, n, x));
    }
    var t, d := ProjectTurn(r, c, n, x), ProjectAfter(r, c, n, x);
    ProjectGained(r, c, d, n, t);
    ProjectLanded(r, c, d, n, t);
  }

  lemma {:induction false} ProjectUnmoved(r: Refs, c: Cluster, d: Cluster, m: string)
    requires ProjectDone(r, c, m) && d.projects == c.projects && d.organizations == c.organizations && d.orgs == c.orgs && d.store == c.store
    ensures ProjectDone(r, d, m)
  {
  }

  lemma {:induction false} EnvironmentLanded(r: Refs, c: Cluster, d: Cluster, n: string, t: E.EnvironmentTurn)
    requires Books(r, c) && n in c.environments && Lookup(r.projectOf, n) in c.projects
    requires d == c.(environments := c.environments[n := t.obj], envs := t.remote)
    requires EnvironmentSettled(t.obj, t.remote, ProjectOf(r, c, n))
    requires var id := t.obj.status.id;
      && Holds(c.environments[n].status.id, id, c.envs.issued) && id in t.remote.issued && c.envs.issued <= t.remote.issued
      && t.remote.environments == c.envs.environments[id := t.remote.environments[id]]
    ensures Lands(r, c, d, AnEnvironment(n))
  {
    EnvironmentPut(r, c, d, n, t.obj, t.remote);
    hide Advances, ProjectDone, Books;
    if ProjectDone(r, c, Lookup(r.projectOf, n)) {
      ProjectUnmoved(r, c, d, Lookup(r.projectOf, n));
    }
  }

  lemma {:induction false} EnvironmentLands(r: Refs, c: Cluster, n: string, x: Choice)
    requires Books(r, c) && (Raw(r, c, AnEnvironment(n)) || Placed(r, c, AnEnvironment(n)))
    requires Awake(c, AnEnvironment(n)) && Fair(c, AnEnvironment(n), x) && ProjectOf(r, c, n) != ""
    ensures Lands(r, c, EnvironmentAfter(r, c, n, x), AnEnvironment(n))
  {
    if Raw(r, c, AnEnvironment(n)) {
      EnvironmentSettles(c.environments[n], c.envs, ProjectOf(r, c, n), x.id, x.position);
    } else {
      EnvironmentRecovers(c.environments[n], c.envs, ProjectOf(r, c, n), x.id, x.position);
    }
    EnvironmentLanded(r, c, EnvironmentAfter(r, c, n, x), n, EnvironmentTurn(r, c, n, x));
  }

  lemma {:induction false} KubernetesAuthInPlace(r: Refs, c: Cluster, d: Cluster, n: string, t: K.KubernetesAuthTurn)
    requires n in c.kubernetes && d == c.(kubernetes := c.kubernetes[n := t.obj], attached := t.remote)
    requires KubernetesAuthSettled(t.obj, t.remote, IdOf(c.identities, Lookup(r.kubernetesOf, n)), SecretsOf(r, n))
    ensures PlacedKubernetesAuth(r, d, n) && Awake(d, AKubernetesAuth(n))
  {
  }

  lemma {:induction false} KubernetesAuthLanded(r: Refs, c: Cluster, d: Cluster, n: string, t: K.KubernetesAuthTurn)
    requires Books(r, c) && Apart(r, c) && n in c.kubernetes && !Done(r, c, AKubernetesAuth(n))
    requires d == c.(kubernetes := c.kubernetes[n := t.obj], attached := t.remote)
    requires var id := IdOf(c.identities, Lookup(r.kubernetesOf, n));
      && KubernetesAuthSettled(t.obj, t.remote, id, SecretsOf(r, n)) && id in t.remote && t.remote == c.attached[id := t.remote[id]]
      && id in c.issued
    ensures Lands(r, c, d, AKubernetesAuth(n))
  {
    hide Advances, IdentityDone, Apart, Preserves, K.ValidSpec;
    KubernetesAuthPut(r, c, d, n, t.obj, t.remote);
    KubernetesAuthInPlace(r, c, d, n, t);
    hide Books, PlacedKubernetesAuth;
    if IdentityDone(r, c, Lookup(r.kubernetesOf, n)) {
      AdvancesPreserves(r, c, d, AKubernetesAuth(n));
      IdentityKept(r, c, d, Lookup(r.kubernetesOf, n));
    }
  }

  lemma {:induction false} KubernetesAuthLands(r: Refs, c: Cluster, n: string, x: Choice)
    requires Books(r, c) && Apart(r, c) && (Raw(r, c, AKubernetesAuth(n)) || Placed(r, c, AKubernetesAuth(n))) && !Done(r, c, AKubernetesAuth(n))
    requires Awake(c, AKubernetesAuth(n)) && Fair(c, AKubernetesAuth(n), x)
    requires IdOf(c.identities, Lookup(r.kubernetesOf, n)) != "" && IdOf(c.identities, Lookup(r.kubernetesOf, n)) in c.issued
    ensures Lands(r, c, KubernetesAuthAfter(r, c, n, x), AKubernetesAuth(n))
  {
    var identity := IdOf(c.identities, Lookup(r.kubernetesOf, n));
    if Raw(r, c, AKubernetesAuth(n)) {
      KubernetesAuthSettles(c.kubernetes[n], c.attached, identity, SecretsOf(r, n), x.id, x.defaults);
    } else {
      KubernetesAuthRecovers(c.kubernetes[n], c.attached, identity, SecretsOf(r, n), x.id, x.defaults);
    }
    KubernetesAuthLanded(r, c, KubernetesAuthAfter(r, c, n, x), n, KubernetesAuthTurn(r, c, n, x));
  }

  lemma {:induction false} UniversalAuthLanded(r: Refs, c: Cluster, d: Cluster, n: string, t: U.UniversalAuthTurn)
    requires Books(r, c) && Apart(r, c) && n in c.universals && n in c.infra && Lookup(r.universalOf, n) in c.identities && !Done(r, c, AUniversalAuth(n))
    requires IdOf(c.identities, Lookup(r.universalOf, n)) != ""
    requires d == c.(universals := c.universals[n := t.obj], infra := c.infra[n := t.remote])
    requires UniversalAuthSettled(t.obj, t.remote) && t.remote.identity == IdOf(c.identities, Lookup(r.universalOf, n))
    requires !t.remote.secret.value.foreign && Rotation.Proper(Rotation.World(t.obj, t.remote)) && Rotation.Safe(t.remote)
    ensures Lands(r, c, d, AUniversalAuth(n))
  {
    hide Advances, IdentityDone, Apart;
    UniversalAuthPut(r, c, d, n, t.obj, t.remote);
    assert InfraOf(r, d, n) == t.remote;
    if IdentityDone(r, c, Lookup(r.universalOf, n)) {
      AdvancesPreserves(r, c, d, AUniversalAuth(n));
      IdentityKept(r, c, d, Lookup(r.universalOf, n));
    }
  }

  lemma {:induction false} UniversalAuthLands(r: Refs, c: Cluster, n: string, x: Choice)
    requires Books(r, c) && Apart(r, c) && (Raw(r, c, AUniversalAuth(n)) || Placed(r, c, AUniversalAuth(n))) && !Done(r, c, AUniversalAuth(n))
    requires Awake(c, AUniversalAuth(n)) && Fair(c, AUniversalAuth(n), x) && IdentityReady(c, Lookup(r.universalOf, n))
    ensures Lands(r, c, UniversalAuthAfter(r, c, n, x), AUniversalAuth(n))
  {
    hide Lands, UniversalAuthSettled, Apart;
    var o, i := c.universals[n], InfraOf(r, c, n);
    if Raw(r, c, AUniversalAuth(n)) {
      UniversalAuthSettles(o, i, x.id, x.clientID, x.config, x.secretID, x.value);
    } else {
      UniversalAuthRecovers(o, i, x.id, x.clientID, x.config, x.secretID, x.value);
    }
    var w := Rotation.World(o, i);
    assert Rotation.Proper(w) && Rotation.Safe(i);
    Rotation.ReconcileKeeps(w, UniversalAuthAnswers(true, x.id, x.clientID, x.config, x.secretID, x.value));
    UniversalAuthLanded(r, c, UniversalAuthAfter(r, c, n, x), n, UniversalAuthTurn(r, c, n, x));
  }

  // ----- what an identity needs

  lemma {:induction false} AllBound(bs: seq<I.RoleBinding>, organization: Id, view: I.View)
    requires forall i :: 0 <= i < |bs| ==>
      var seen := view.project(bs[i].projectRef); seen.Some? && seen.value.project != "" && seen.value.organization == organization
    ensures I.CheckBound(bs, organization, view) == I.Anchored(organization)
  {
    if bs != [] {
      assert view.project(bs[0].projectRef).Some?;
      AllBound(bs[1..], organization, view);
    }
  }

  lemma {:induction false} NeededBinding(r: Refs, c: Cluster, spec: I.Spec, i: nat)
    requires spec.scope.OrganizationScope? && i < |spec.bindings| && Consistent(r, spec)
    requires OrganizationDone(c, Named(spec.organizationRef)) && ProjectDone(r, c, spec.bindings[i].projectRef)
    ensures var seen := ViewFor(c, spec).project(spec.bindings[i].projectRef);
      && seen.Some? && seen.value.project != "" && seen.value.organization == IdOf(c.organizations, Named(spec.organizationRef))
      && seen.value.project in c.store.projects && seen.value.project == c.projects[spec.bindings[i].projectRef].status.id
  {
    var m := spec.bindings[i].projectRef;
    assert OrganizationOf(r, c, m) == IdOf(c.organizations, Named(spec.organizationRef));
  }

  /** With its dependencies settled an identity is anchored and its bindings can be made. */
  lemma {:induction false} NeedsAnchored(r: Refs, c: Cluster, o: I.IdentityObject)
    requires IdentityNeeds(r, c, o.spec) && Consistent(r, o.spec) && I.ValidSpec(o.spec) && DistinctIds(c.projects)
    ensures I.Anchor(o.spec, ViewFor(c, o.spec)).Anchored?
    ensures Bindable(o, IdentityStore(c), ViewFor(c, o.spec), I.Anchor(o.spec, ViewFor(c, o.spec)).id)
  {
    var spec, view := o.spec, ViewFor(c, o.spec);
    if spec.scope.OrganizationScope? {
      forall i | 0 <= i < |spec.bindings|
        ensures var seen := view.project(spec.bindings[i].projectRef);
          && seen.Some? && seen.value.project != "" && seen.value.organization == IdOf(c.organizations, Named(spec.organizationRef))
          && seen.value.project in c.store.projects && seen.value.project == c.projects[spec.bindings[i].projectRef].status.id
      {
        assert ProjectDone(r, c, spec.bindings[i].projectRef);
        NeededBinding(r, c, spec, i);
      }
      AllBound(spec.bindings, IdOf(c.organizations, Named(spec.organizationRef)), view);
      BindingsApart(c, spec.bindings, view);
    }
  }

  lemma {:induction false} BindingsApart(c: Cluster, bs: seq<I.RoleBinding>, view: I.View)
    requires I.DistinctRefs(bs) && DistinctIds(c.projects)
    requires forall i :: 0 <= i < |bs| ==>
      var seen := view.project(bs[i].projectRef);
      seen.Some? && seen.value.project != "" && bs[i].projectRef in c.projects && seen.value.project == c.projects[bs[i].projectRef].status.id
    ensures DistinctProjects(I.Resolved(bs, view))
  {
    var resolved := I.Resolved(bs, view);
    forall i, j | 0 <= i < j < |bs| ensures resolved[i].project != resolved[j].project {
      assert bs[i].projectRef != bs[j].projectRef;
    }
  }

  /** The IDs that projects hold are those of existing projects. */
  predicate Real(c: Cluster) {
    forall n :: n in c.projects && c.projects[n].status.id != "" ==> c.projects[n].status.id in c.store.projects
  }

  /** An identity whose references resolve can be bound: to existing projects, all different. */
  lemma {:induction false} AnchoredIsBindable(c: Cluster, o: I.IdentityObject)
    requires I.Anchor(o.spec, ViewFor(c, o.spec)).Anchored? && Resolves(c, o.spec) && I.ValidSpec(o.spec) && DistinctIds(c.projects) && Real(c)
    ensures Bindable(o, IdentityStore(c), ViewFor(c, o.spec), I.Anchor(o.spec, ViewFor(c, o.spec)).id)
    ensures I.Anchor(o.spec, ViewFor(c, o.spec)).id == OwnerOf(c, o.spec) != ""
  {
    var spec, view := o.spec, ViewFor(c, o.spec);
    I.AnchorLaw(spec, view);
    if spec.scope.OrganizationScope? {
      forall i | 0 <= i < |spec.bindings|
        ensures var seen := view.project(spec.bindings[i].projectRef);
          && seen.Some? && seen.value.project != "" && spec.bindings[i].projectRef in c.projects
          && seen.value.project == c.projects[spec.bindings[i].projectRef].status.id
          && I.Resolved(spec.bindings, view)[i].project in c.store.projects
      {
        assert view.project(spec.bindings[i].projectRef).Some?;
      }
      BindingsApart(c, spec.bindings, view);
    }
  }

  lemma {:induction false} MembersGained(c: Cluster, s: I.Store, t: I.Store, id: Id)
    requires s == IdentityStore(c) && Gains(s.projects, s.members, t.members, id)
    requires c.store.projects.Keys <= c.store.owners.Keys
    requires forall key :: key in c.store.members ==> key.project in c.store.owners && key.identity in c.issued
    ensures forall key :: key in t.members ==> key.project in c.store.owners && key.identity in c.issued + {id}
  {
    forall key | key in t.members ensures key.project in c.store.owners && key.identity in c.issued + {id} {
      if key in c.store.members {
        assert key.identity in c.issued;
      } else {
        assert !SameAt(c.store.members, t.members, key);
      }
    }
  }

  lemma {:induction false} IdentityGained(r: Refs, c: Cluster, d: Cluster, n: string, t: I.IdentityTurn)
    requires Books(r, c) && n in c.identities
    requires d == c.(identities := c.identities[n := t.obj], known := t.remote.identities, issued := t.remote.issued,
                     store := c.store.(members := t.remote.members))
    requires var id := t.obj.status.id;
      && Holds(c.identities[n].status.id, id, c.issued) && id != "" && t.remote.issued == c.issued + {id} && id in t.remote.identities
      && t.remote.identities == c.known[id := t.remote.identities[id]] && Gains(c.store.projects.Keys, c.store.members, t.remote.members, id)
    ensures Advances(r, c, d, AnIdentity(n))
  {
    MembersGained(c, IdentityStore(c), t.remote, t.obj.status.id);
    IdentityPut(r, c, d, n, t.obj, t.remote);
  }

  lemma {:induction false} IdentityInPlace(r: Refs, c: Cluster, d: Cluster, n: string, t: I.IdentityTurn)
    requires Raw(r, c, AnIdentity(n)) || Placed(r, c, AnIdentity(n))
    requires t.obj.spec == c.identities[n].spec
    requires d == c.(identities := c.identities[n := t.obj], known := t.remote.identities, issued := t.remote.issued,
                     store := c.store.(members := t.remote.members))
    requires IdentitySettled(t.obj, t.remote, ViewFor(c, t.obj.spec))
    requires I.Anchor(t.obj.spec, ViewFor(c, t.obj.spec)).id == OwnerOf(c, t.obj.spec) != ""
    ensures PlacedIdentity(r, d, n) && Awake(d, AnIdentity(n)) && Consistent(r, t.obj.spec)
  {
  }

  lemma {:induction false} IdentityLanded(r: Refs, c: Cluster, d: Cluster, n: string, t: I.IdentityTurn)
    requires Books(r, c) && Apart(r, c) && n in c.identities && (Raw(r, c, AnIdentity(n)) || Placed(r, c, AnIdentity(n))) && !Done(r, c, AnIdentity(n))
    requires Advances(r, c, d, AnIdentity(n)) && t.obj.spec == c.identities[n].spec
    requires d == c.(identities := c.identities[n := t.obj], known := t.remote.identities, issued := t.remote.issued,
                     store := c.store.(members := t.remote.members))
    requires IdentitySettled(t.obj, t.remote, ViewFor(c, t.obj.spec)) && t.remote.projects == c.store.projects.Keys
    requires I.Anchor(t.obj.spec, ViewFor(c, t.obj.spec)).id == OwnerOf(c, t.obj.spec) != ""
    ensures Lands(r, c, d, AnIdentity(n))
  {
    hide Advances, IdentityNeeds, Apart, Books, Preserves, PlacedIdentity, Raw, IdentitySettled, Consistent;
    IdentityInPlace(r, c, d, n, t);
    if IdentityNeeds(r, c, t.obj.spec) {
      AdvancesPreserves(r, c, d, AnIdentity(n));
      NeedsKept(r, c, d, t.obj.spec);
      assert IdentityStore(d) == t.remote;
      IdentitySettledKept(t.obj, t.remote, t.remote, ViewFor(c, t.obj.spec), ViewFor(d, t.obj.spec));
    }
  }

  lemma {:induction false} IdentityTurnSettles(r: Refs, c: Cluster, n: string, x: Choice)
    requires Books(r, c) && Apart(r, c) && Real(c) && (Raw(r, c, AnIdentity(n)) || Placed(r, c, AnIdentity(n)))
    requires Awake(c, AnIdentity(n)) && Fair(c, AnIdentity(n), x)
    requires I.Anchor(c.identities[n].spec, ViewFor(c, c.identities[n].spec)).Anchored?
    ensures var o, t := c.identities[n], IdentityTurn(c, n, x);
      var id := t.obj.status.id;
      && t.obj.spec == o.spec && IdentitySettled(t.obj, t.remote, ViewFor(c, o.spec)) && t.remote.projects == c.store.projects.Keys
      && I.Anchor(o.spec, ViewFor(c, o.spec)).id == OwnerOf(c, o.spec) != ""
      && Holds(o.status.id, id, c.issued) && id != "" && t.remote.issued == c.issued + {id} && id in t.remote.identities
      && t.remote.identities == c.known[id := t.remote.identities[id]] && Gains(c.store.projects.Keys, c.store.members, t.remote.members, id)
  {
    hide IdentitySettled, Gains, Bindable, Apart;
    var o := c.identities[n];
    assert DistinctIds(c.projects) by {
      ApartProjects(r, c);
    }
    AnchoredIsBindable(c, o);
    if Raw(r, c, AnIdentity(n)) {
      IdentitySettles(o, IdentityStore(c), ViewFor(c, o.spec), x.id);
    } else {
      IdentityRecovers(o, IdentityStore(c), ViewFor(c, o.spec), x.id);
      assert c.issued == c.issued + {o.status.id};
    }
  }

  lemma {:induction false} ApartProjects(r: Refs, c: Cluster)
    requires Apart(r, c)
    ensures DistinctIds(c.projects)
  {
  }

  lemma {:induction false} IdentityLands(r: Refs, c: Cluster, n: string, x: Choice)
    requires Books(r, c) && Apart(r, c) && Real(c) && (Raw(r, c, AnIdentity(n)) || Placed(r, c, AnIdentity(n))) && !Done(r, c, AnIdentity(n))
    requires Awake(c, AnIdentity(n)) && Fair(c, AnIdentity(n), x)
    requires I.Anchor(c.identities[n].spec, ViewFor(c, c.identities[n].spec)).Anchored?
    ensures Lands(r, c, IdentityAfter(c, n, x), AnIdentity(n))
  {
    hide IdentityTurn, Lands, IdentitySettled, Apart, Advances, Gains, Books;
    IdentityTurnSettles(r, c, n, x);
    var d, t := IdentityAfter(c, n, x), IdentityTurn(c, n, x);
    IdentityGained(r, c, d, n, t);
    IdentityLanded(r, c, d, n, t);
  }
}
