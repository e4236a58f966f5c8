/** What one reconcile with every call answered makes of any state that failing runs, crashes or
    changes by others can leave: an entity that is there is settled again, whatever has drifted
    and whatever the stored verdict; one that is gone is forgotten, and the next reconcile
    acquires it anew. */
module Recovery {
  import opened Basics
  import opened Lifecycle
  import opened Memberships
  import opened Roles
  import opened Settling
  import Agreement
  import Metadata
  import O = Organizations
  import P = Projects
  import E = Environments
  import I = Identities
  import K = KubernetesAuths
  import U = UniversalAuths

  // ----- organizations

  lemma {:induction false} OrganizationRecovers(o: O.OrganizationObject, s: O.Store, id: Id)
    requires Active(o) && Usual(o) && O.ValidSpec(o) && o.status.id != "" && o.status.id in s.names
    ensures var t := O.Reconcile(o, s, OrganizationAnswers(id));
      OrganizationSettled(t.obj, t.remote) && t.remote == s && t.obj == o.(status := t.obj.status)
  {
  }

  // ----- projects

  lemma {:induction false} SeatedAgain(o: P.ProjectObject, s: P.Store, a: P.Answers, creator: Id)
    requires o.status.id != "" && o.status.id in s.projects && a.creator == Some(creator) && a.seat == Seat(Answered, Answered)
    ensures var h := P.Grant(o, Start(o, s), a);
      && h.error.None? && h.status == o.status && CreatorSeated(o, h.remote, creator)
      && h.remote == s.(members := h.remote.members) && MayGrant(s.members, h.remote.members, o.status.id, creator)
  {
    assert Valid(P.ADMIN);
    WrittenRolesAreGranted(P.ADMIN);
  }

  /** Unless a description is wanted empty that is not. */
  lemma {:induction false} ProjectRecovers(o: P.ProjectObject, s: P.Store, org: Id, creator: Id, home: Id, id: Id, slug: string, listing: P.Listing)
    requires Active(o) && Usual(o) && o.spec.name != "" && P.ReadBack(o) && o.status.id != "" && o.status.id in s.projects
    requires !P.Foreign(s.projects[o.status.id], org) && (o.spec.description != "" || s.projects[o.status.id].description == "")
    ensures var t := P.Reconcile(o, s, ProjectAnswers(P.Expect(org), home, id, slug, creator, listing));
      && ProjectSettled(t.obj, t.remote, org, creator) && t.obj == o.(status := t.obj.status) && t.obj.status.id == o.status.id
      && t.remote == s.(projects := s.projects[o.status.id := t.remote.projects[o.status.id]], members := t.remote.members)
      && MayGrant(s.members, t.remote.members, o.status.id, creator)
      && t.act.created.None?
  {
    var a := ProjectAnswers(P.Expect(org), home, id, slug, creator, listing);
    SeatedAgain(o, s, a, creator);
    var h := P.Grant(o, Start(o, s), a);
    assert P.Reconcile(o, s, a) == P.Settle(o, h, a, org);
    P.PatchSettlesDrift(o.spec, s.projects[o.status.id]);
    ProjectSettlesAgain(o, h, a, org, creator);
  }

  lemma {:induction false} ProjectSettlesAgain(o: P.ProjectObject, g: P.ProjectProgress, a: P.Answers, org: Id, creator: Id)
    requires Active(o) && Usual(o) && o.spec.name != "" && P.ReadBack(o) && o.status.id != "" && o.status.id in g.remote.projects
    requires g.status == o.status && a.get == a.update == a.patch == Answered && CreatorSeated(o, g.remote, creator)
    requires var p := g.remote.projects[o.status.id];
      !P.Foreign(p, org) && !P.NeedsUpdate(o.spec, P.Patched(o.spec, p))
    ensures var t := P.Settle(o, g, a, org);
      && ProjectSettled(t.obj, t.remote, org, creator) && t.obj == o.(status := t.obj.status) && t.obj.status.id == o.status.id
      && t.remote == g.remote.(projects := g.remote.projects[o.status.id := t.remote.projects[o.status.id]])
  {
    P.SettleIsSound(o, g, a, org);
    SettleLeavesMembers(o, g, a, org);
  }

  lemma {:induction false} SettleLeavesMembers(o: P.ProjectObject, g: P.ProjectProgress, a: P.Answers, org: Id)
    requires a.get == a.update == a.patch == Answered && g.status == o.status && o.status.id in g.remote.projects
    requires !P.Foreign(g.remote.projects[o.status.id], org)
    ensures var t := P.Settle(o, g, a, org);
      && t.act.outcome.Ready? && t.obj == o.(status := t.obj.status) && t.obj.status.observed == o.meta.generation
      && o.status.id in t.remote.projects && t.remote == g.remote.(projects := g.remote.projects[o.status.id := t.remote.projects[o.status.id]])
      && t.remote.projects[o.status.id] == (if P.NeedsUpdate(o.spec, g.remote.projects[o.status.id])
                                            then P.Patched(o.spec, g.remote.projects[o.status.id]) else g.remote.projects[o.status.id])
  {
  }

  /** A project that is gone is forgotten exactly when no grant to its creator comes first: the
      grant fails on a missing project, before the read that would notice. */
  lemma {:induction false} ProjectForgottenExactly(o: P.ProjectObject, s: P.Store, org: Id, creator: Id, home: Id, id: Id, slug: string, listing: P.Listing)
    requires Active(o) && o.status.id != "" && o.status.id !in s.projects
    ensures var t := P.Reconcile(o, s, ProjectAnswers(P.Expect(org), home, id, slug, creator, listing));
      && (t.obj.status.id == "" <==> !(o.spec.bounded && creator != ""))
      && (t.obj.status.id != "" ==> t.obj.status.id == o.status.id && t.obj.status.ready == Some(Verdict(false, ExternalMembershipFailed, o.meta.generation)))
      && t.remote == s && t.obj == o.(status := t.obj.status)
  {
  }

  // ----- environments

  lemma {:induction false} EnvironmentRecovers(o: E.EnvironmentObject, s: E.Store, project: Id, id: Id, position: int)
    requires Active(o) && Usual(o) && o.spec.name != "" && project != ""
    requires o.status.id != "" && o.status.id in s.environments && s.environments[o.status.id].project == project
    ensures var t := E.Reconcile(o, s, EnvironmentAnswers(project, id, position));
      && EnvironmentSettled(t.obj, t.remote, project) && t.obj == o.(status := t.obj.status) && t.obj.status.id == o.status.id
      && t.remote == s.(environments := s.environments[o.status.id := t.remote.environments[o.status.id]])
  {
    var a := EnvironmentAnswers(project, id, position);
    var g := Start(o, s);
    EnvironmentSettlesAgain(o, g, a, project);
  }

  lemma {:induction false} EnvironmentSettlesAgain(o: E.EnvironmentObject, g: E.EnvironmentProgress, a: E.Answers, project: Id)
    requires Active(o) && Usual(o) && o.spec.name != "" && project != "" && g.status == o.status
    requires a.get == a.restore == a.update == a.patch == Answered
    requires o.status.id != "" && o.status.id in g.remote.environments && g.remote.environments[o.status.id].project == project
    ensures var t := E.Settle(o, g, a, project);
      && EnvironmentSettled(t.obj, t.remote, project) && t.obj == o.(status := t.obj.status) && t.obj.status.id == o.status.id
      && t.remote == g.remote.(environments := g.remote.environments[o.status.id := t.remote.environments[o.status.id]])
  {
    var e := g.remote.environments[o.status.id];
    E.PatchSettlesDrift(o.spec, e);
    E.PatchSettlesDrift(o.spec, e.(deleted := false));
  }

  lemma {:induction false} EnvironmentReturns(o: E.EnvironmentObject, s: E.Store, project: Id, id: Id, position: int)
    requires Active(o) && Usual(o) && o.spec.name != "" && project != "" && Usable(id, s.issued)
    requires o.status.id != "" && (o.status.id in s.environments ==> s.environments[o.status.id].project != project)
    ensures var a := EnvironmentAnswers(project, id, position);
      var t := E.Reconcile(o, s, a);
      var u := E.Reconcile(t.obj, t.remote, a);
      t.obj.status.id == "" && EnvironmentSettled(u.obj, u.remote, project) && u.obj.status.id == id
  {
    var a := EnvironmentAnswers(project, id, position);
    var t := E.Reconcile(o, s, a);
    EnvironmentForgotten(o, s, project, id, position);
    EnvironmentSettles(t.obj, s, project, id, position);
  }

  lemma {:induction false} EnvironmentForgotten(o: E.EnvironmentObject, s: E.Store, project: Id, id: Id, position: int)
    requires Active(o) && project != "" && o.status.id != ""
    requires o.status.id in s.environments ==> s.environments[o.status.id].project != project
    ensures var t := E.Reconcile(o, s, EnvironmentAnswers(project, id, position));
      t.remote == s && t.obj.status.id == "" && t.obj == o.(status := t.obj.status)
  {
  }

  // ----- identities

  lemma {:induction false} AdjustedAgain(o: I.IdentityObject, s: I.Store, a: I.Answers, anchor: Id)
    requires o.status.id in s.identities && !I.Misplaced(o.spec, s.identities[o.status.id], anchor) && a.update.Answered? && o.spec.name != ""
    requires o.spec.metadata.Some? ==> Metadata.UniqueKeys(o.spec.metadata.value)
    ensures var h := I.Adjust(o, Start(o, s), a, anchor);
      && h.error.None? && h.status == I.Observe(o, o.status, o.status.id, anchor) && h.created.None?
      && o.status.id in h.remote.identities
      && h.remote == s.(identities := s.identities[o.status.id := h.remote.identities[o.status.id]])
      && !I.NeedsUpdate(o.spec, h.remote.identities[o.status.id]) && !I.Misplaced(o.spec, h.remote.identities[o.status.id], anchor)
  {
    I.PatchSettlesDrift(o.spec, s.identities[o.status.id]);
  }

  lemma {:induction false} IdentityRecovers(o: I.IdentityObject, s: I.Store, view: I.View, id: Id)
    requires Active(o) && Usual(o) && o.spec.name != "" && I.ValidSpec(o.spec) && o.status.id != "" && o.status.id in s.identities
    requires o.spec.metadata.Some? ==> Metadata.UniqueKeys(o.spec.metadata.value)
    requires I.Anchor(o.spec, view).Anchored? && Bindable(o, s, view, I.Anchor(o.spec, view).id)
    requires !I.Misplaced(o.spec, s.identities[o.status.id], I.Anchor(o.spec, view).id)
    ensures var t := I.Reconcile(o, s, IdentityAnswers(view, id));
      && IdentitySettled(t.obj, t.remote, view) && t.obj == o.(status := t.obj.status) && t.obj.status.id == o.status.id
      && t.remote == s.(identities := s.identities[o.status.id := t.remote.identities[o.status.id]], members := t.remote.members)
      && Gains(s.projects, s.members, t.remote.members, o.status.id)
  {
    var a, anchor := IdentityAnswers(view, id), I.Anchor(o.spec, view).id;
    AdjustedAgain(o, s, a, anchor);
    var h := I.Adjust(o, Start(o, s), a, anchor);
    BindSettles(o, h, view, anchor, id);
    var k := I.Bind(o, h, a, anchor);
    IdentityEndsAgain(o, s, view, id);
    IdentityFinishesAgain(o, k, view, anchor);
  }

  lemma {:induction false} IdentityEndsAgain(o: I.IdentityObject, s: I.Store, view: I.View, id: Id)
    requires Active(o) && I.ValidSpec(o.spec) && o.status.id != "" && o.status.id in s.identities && I.Anchor(o.spec, view).Anchored?
    requires var a, anchor := IdentityAnswers(view, id), I.Anchor(o.spec, view).id;
      var h := I.Adjust(o, Start(o, s), a, anchor);
      h.error.None? && I.Bind(o, h, a, anchor).error.None?
    ensures var a, anchor := IdentityAnswers(view, id), I.Anchor(o.spec, view).id;
      I.Reconcile(o, s, a) == Succeed(Same, o, I.Bind(o, I.Adjust(o, Start(o, s), a, anchor), a, anchor), Answered)
  {
  }

  lemma {:induction false} IdentityFinishesAgain(o: I.IdentityObject, k: I.IdentityProgress, view: I.View, anchor: Id)
    requires Active(o) && Usual(o) && o.spec.name != "" && I.ValidSpec(o.spec) && o.status.id != "" && o.status.id in k.remote.identities
    requires I.Anchor(o.spec, view) == I.Anchored(anchor) && k.status == I.Observe(o, o.status, o.status.id, anchor)
    requires !I.NeedsUpdate(o.spec, k.remote.identities[o.status.id]) && !I.Misplaced(o.spec, k.remote.identities[o.status.id], anchor)
    requires MembershipsSettled(o.spec, o.status.id, k.remote, view, anchor)
    ensures var t := Succeed(Same, o, k, Answered); IdentitySettled(t.obj, t.remote, view) && t.obj == o.(status := t.obj.status)
  {
  }

  lemma {:induction false} IdentityForgotten(o: I.IdentityObject, s: I.Store, view: I.View, id: Id)
    requires Active(o) && I.ValidSpec(o.spec) && I.Anchor(o.spec, view).Anchored? && o.status.id != "" && o.status.id !in s.identities
    ensures var t := I.Reconcile(o, s, IdentityAnswers(view, id));
      t.remote == s && t.obj.status.id == "" && t.obj == o.(status := t.obj.status)
  {
  }

  lemma {:induction false} IdentityReturns(o: I.IdentityObject, s: I.Store, view: I.View, id: Id)
    requires Active(o) && Usual(o) && o.spec.name != "" && I.ValidSpec(o.spec) && Usable(id, s.issued)
    requires o.spec.metadata.Some? ==> Metadata.UniqueKeys(o.spec.metadata.value)
    requires I.Anchor(o.spec, view).Anchored? && Bindable(o, s, view, I.Anchor(o.spec, view).id)
    requires o.status.id != "" && o.status.id !in s.identities
    ensures var a := IdentityAnswers(view, id);
      var t := I.Reconcile(o, s, a);
      var u := I.Reconcile(t.obj, t.remote, a);
      t.obj.status.id == "" && IdentitySettled(u.obj, u.remote, view) && u.obj.status.id == id
  {
    IdentityForgotten(o, s, view, id);
    IdentitySettles(I.Reconcile(o, s, IdentityAnswers(view, id)).obj, s, view, id);
  }

  // ----- Kubernetes Auth

  lemma {:induction false} KubernetesAuthRecovers(o: K.KubernetesAuthObject, s: K.Store, identity: Id, secrets: K.Secrets, id: Id, defaults: K.KubernetesAuth)
    requires Active(o) && Usual(o) && K.ValidSpec(o.spec) && K.ReadBack(o) && o.status.id != "" && identity != "" && identity in s && s[identity].id != ""
    ensures var t := K.Reconcile(o, s, KubernetesAuthAnswers(identity, secrets, id, defaults));
      && KubernetesAuthSettled(t.obj, t.remote, identity, secrets) && t.obj == o.(status := t.obj.status)
      && t.remote == s[identity := t.remote[identity]]
  {
    var a := KubernetesAuthAnswers(identity, secrets, id, defaults);
    var g := Start(o, s);
    assert K.Acquire(o, s, a, identity) == g;
    KubernetesAuthSettleEnds(o, g, a, identity);
    K.SettleShows(o, g, a, identity);
    K.SettleIsSound(o, g, a, identity);
  }

  lemma {:induction false} KubernetesAuthForgotten(o: K.KubernetesAuthObject, s: K.Store, identity: Id, secrets: K.Secrets, id: Id, defaults: K.KubernetesAuth)
    requires Active(o) && K.ValidSpec(o.spec) && o.status.id != "" && identity != "" && identity !in s
    ensures var t := K.Reconcile(o, s, KubernetesAuthAnswers(identity, secrets, id, defaults));
      t.remote == s && t.obj.status.id == "" && t.obj == o.(status := t.obj.status)
  {
  }

  lemma {:induction false} KubernetesAuthReturns(o: K.KubernetesAuthObject, s: K.Store, identity: Id, secrets: K.Secrets, id: Id, defaults: K.KubernetesAuth)
    requires Active(o) && Usual(o) && K.ValidSpec(o.spec) && K.ReadBack(o) && o.status.id != "" && identity != "" && identity !in s && id != ""
    ensures var a := KubernetesAuthAnswers(identity, secrets, id, defaults);
      var t := K.Reconcile(o, s, a);
      var u := K.Reconcile(t.obj, t.remote, a);
      t.obj.status.id == "" && KubernetesAuthSettled(u.obj, u.remote, identity, secrets)
  {
    KubernetesAuthForgotten(o, s, identity, secrets, id, defaults);
    KubernetesAuthSettles(K.Reconcile(o, s, KubernetesAuthAnswers(identity, secrets, id, defaults)).obj, s, identity, secrets, id, defaults);
  }

  // ----- Universal Auth

  /** Whatever became of the client secrets and the output Secret, unless another resource
      controls that Secret, and unless a list is wanted empty that is not. */
  lemma {:induction false} UniversalAuthRecovers(o: U.UniversalAuthObject, i: U.Infra, id: Id, clientID: Id, defaults: U.Config, secretID: Id, value: string)
    requires Active(o) && Usual(o) && U.ReadBack(o) && o.spec.named && o.status.id != "" && i.auth.Some?
    requires i.auth.value.identity == i.identity && i.auth.value.id != "" && !U.AnyStuck(o.spec.config, i.auth.value.config)
    requires (i.secret.Some? ==> !i.secret.value.foreign) && i.live <= i.issued && "" !in i.issued && Usable(secretID, i.issued) && value != ""
    requires o.status.rest.secretID == "" || o.status.rest.secretID in i.issued
    ensures var t := U.Reconcile(o, i, UniversalAuthAnswers(true, id, clientID, defaults, secretID, value));
      && UniversalAuthSettled(t.obj, t.remote) && t.obj == o.(status := t.obj.status) && t.remote.identity == i.identity
      && !t.remote.secret.value.foreign
  {
    var a := UniversalAuthAnswers(true, id, clientID, defaults, secretID, value);
    var g := Start(o, i);
    hide U.Ensured;
    assert U.Interfere(U.NOTHING, i) == i;
    U.PatchSettlesDrift(o.spec.config, i.auth.value.config);
    var h := U.Adjusted(o, g, a);
    assert h.error.None? && h.remote == i.(auth := h.remote.auth) && h.remote.auth.Some?;
    EnsuredAgain(o, h, a);
    var k := U.Ensured(o, h, a);
    UniversalAuthFinishes(o, k);
    assert U.Reconcile(o, i, a) == Succeed(U.Omit, o, k, Answered);
  }

  /** The client secret is kept, taken over or replaced, and in the end it works, is recorded
      under the wanted nonce, and a Secret is published. */
  predicate Supplied(o: U.UniversalAuthObject, g: U.UniversalAuthProgress, h: U.UniversalAuthProgress) {
    && h.error.None? && h.remote.auth == g.remote.auth && h.remote.identity == g.remote.identity
    && h.remote.secret.Some? && !h.remote.secret.value.foreign
    && h.status == g.status.(rest := g.status.rest.(secretID := h.status.rest.secretID, nonce := h.status.rest.nonce))
    && h.status.rest.secretID != "" && h.status.rest.secretID in h.remote.live && h.status.rest.nonce == o.spec.nonce
  }

  predicate Providable(g: U.UniversalAuthProgress, a: U.Answers) {
    && Agreement.Quiet(a) && g.error.None? && g.remote.auth.Some? && (g.remote.secret.Some? ==> !g.remote.secret.value.foreign)
    && g.remote.live <= g.remote.issued && "" !in g.remote.issued && Usable(a.secretID, g.remote.issued) && a.value != ""
    && (g.status.rest.secretID == "" || g.status.rest.secretID in g.remote.issued)
    && a.readSecret == a.probe == a.check == a.create == a.reread == a.publish == a.revoke == QUIET
  }

  lemma {:induction false} RotatedAgain(o: U.UniversalAuthObject, g: U.UniversalAuthProgress, a: U.Answers)
    requires Providable(g, a)
    ensures Supplied(o, g, U.Rotated(o, g, a))
  {
    Agreement.NothingHappens(g, a.create);
    var h := g.(wrote := true);
    assert !U.Unissued(h, a);
    var made := U.Issued(h, a);
    Agreement.NothingHappens(made, a.reread);
    Agreement.NothingHappens(made, a.publish);
    var p := U.Published(o, made, a, a.secretID, a.value);
    assert p.error.None? && p.remote == made.remote.(secret := p.remote.secret) && p.remote.secret.Some? && p.status == g.status;
    Agreement.NothingHappens(p, a.revoke);
  }

  lemma {:induction false} CheckedAgain(o: U.UniversalAuthObject, g: U.UniversalAuthProgress, a: U.Answers)
    requires Providable(g, a) && g.remote.secret.Some? && g.status.rest.secretID != "" && g.status.rest.nonce == o.spec.nonce
    ensures Supplied(o, g, U.Checked(o, g, a, g.status.rest.secretID))
  {
    Agreement.NothingHappens(g, a.check);
    RotatedAgain(o, g, a);
  }

  lemma {:induction false} RecoveredAgain(o: U.UniversalAuthObject, g: U.UniversalAuthProgress, a: U.Answers)
    requires Providable(g, a) && g.remote.secret.Some? && g.status.rest.secretID == ""
    ensures Supplied(o, g, U.Recovered(o, g, a))
  {
    Agreement.NothingHappens(g, a.probe);
    RotatedAgain(o, g, a);
    var id := g.remote.secret.value.annotation;
    if id in g.remote.live {
      CheckedAgain(o, U.TakenOver(o, g, id), a);
    }
  }

  lemma {:induction false} EnsuredAgain(o: U.UniversalAuthObject, g: U.UniversalAuthProgress, a: U.Answers)
    requires Providable(g, a) && o.spec.named
    ensures Supplied(o, g, U.Ensured(o, g, a))
  {
    Agreement.NothingHappens(g, a.readSecret);
    if g.remote.secret.None? {
      RotatedAgain(o, g, a);
    } else if g.status.rest.secretID == "" {
      RecoveredAgain(o, g, a);
    } else if g.status.rest.nonce != o.spec.nonce {
      RotatedAgain(o, g, a);
    } else {
      CheckedAgain(o, g, a);
    }
  }
}
