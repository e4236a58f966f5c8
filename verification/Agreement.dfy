/** When no rotation was interrupted, the three places that know the client secret agree: the
    status, the published Secret, and the set of client secrets that work. Here others act
    between reconciles, not during one. */
module Agreement {
  import opened Basics
  import opened Lifecycle
  import opened UniversalAuths
  import opened Rotation

  predicate Quiet(a: Answers) {
    && a.find.outside == NOTHING && a.attach.outside == NOTHING && a.get.outside == NOTHING && a.update.outside == NOTHING
    && a.readSecret.outside == NOTHING && a.probe.outside == NOTHING && a.check.outside == NOTHING && a.create.outside == NOTHING
    && a.reread.outside == NOTHING && a.publish.outside == NOTHING && a.revoke.outside == NOTHING && a.detach.outside == NOTHING
  }

  lemma {:induction false} NothingHappens(g: UniversalAuthProgress, at: At)
    requires at.outside == NOTHING
    ensures Meanwhile(g, at) == g
  {
    assert Interfere(NOTHING, g.remote) == g.remote;
  }

  /** The published Secret carries this client secret: its ID, its value, and the current client
      ID, which survives exactly when the two data keys differ (or the two values happen to be
      the same). */
  predicate Carries(spec: Spec, i: Infra, id: Id) {
    && i.secret.Some? && i.auth.Some? && id in i.values && i.secret.value.annotation == id
    && Read(i.secret.value.data, ClientSecretKey(spec)) == i.values[id]
    && (HasClientID(spec, i) <==> (ClientIDKey(spec) != ClientSecretKey(spec) || i.values[id] == i.auth.value.clientID))
  }

  predicate HasClientID(spec: Spec, i: Infra)
    requires i.secret.Some? && i.auth.Some?
  {
    Read(i.secret.value.data, ClientIDKey(spec)) == i.auth.value.clientID
  }

  /** At most the recorded client secret works, and while it does, a published Secret carries it. */
  predicate Synced(spec: Spec, i: Infra, id: Id) {
    i.live <= {id} && (id in i.live && i.secret.Some? ==> Carries(spec, i, id))
  }

  /** The recorded client secret is the only one that works, and is published. */
  predicate Aligned(spec: Spec, i: Infra, id: Id) {
    id != "" && i.live == {id} && Carries(spec, i, id)
  }

  /** Exactly the client secret created is issued, under an ID not used before. */
  predicate Issues(g: UniversalAuthProgress, h: UniversalAuthProgress) {
    h.remote.issued == g.remote.issued + Made(h) && (h.created.Some? ==> h.created.value !in g.remote.issued && h.created.value != "")
  }

  lemma {:induction false} RotatedQuiet(o: UniversalAuthObject, g: UniversalAuthProgress, a: Answers)
    requires Quiet(a) && g.created.None? && g.error.None? && Coherent(g.remote) && Known(g.remote, g.status.rest.secretID)
    requires g.remote.live <= {g.status.rest.secretID}
    requires g.remote.auth.Some? && g.status.rest.clientID == g.remote.auth.value.clientID
    ensures var h := Rotated(o, g, a);
      && (h.created.None? ==> h.remote == g.remote && h.error.Some?)
      && Issues(g, h)
      && (h.error.None? ==> h.created == Some(h.status.rest.secretID) && Aligned(o.spec, h.remote, h.status.rest.secretID))
  {
    NothingHappens(g, a.create);
    var h := Meanwhile(g, a.create).(wrote := true);
    if !Unissued(h, a) && a.create.reply.Answered? {
      var made := Issued(h, a);
      PublishedQuiet(o, made, a, a.secretID, a.value);
      var k := Published(o, made, a, a.secretID, a.value);
      if k.error.None? {
        NothingHappens(k, a.revoke);
      }
    }
  }

  lemma {:induction false} PublishedQuiet(o: UniversalAuthObject, g: UniversalAuthProgress, a: Answers, id: Id, value: string)
    requires Quiet(a) && g.error.None?
    requires g.remote.auth.Some? && g.status.rest.clientID == g.remote.auth.value.clientID && id in g.remote.values && g.remote.values[id] == value
    ensures var h := Published(o, g, a, id, value);
      && h.created == g.created && h.status == g.status && h.remote == g.remote.(secret := h.remote.secret)
      && (h.error.None? ==> Carries(o.spec, h.remote, id))
  {
    NothingHappens(g, a.reread);
    NothingHappens(g, a.publish);
  }

  /** A quiet pass over the client secret: it ends aligned, or with an error; when it creates
      nothing it changes nothing. */
  lemma {:induction false} EnsuredQuiet(o: UniversalAuthObject, g: UniversalAuthProgress, a: Answers)
    requires Quiet(a) && g.created.None? && g.error.None? && Coherent(g.remote) && Known(g.remote, g.status.rest.secretID)
    requires Synced(o.spec, g.remote, g.status.rest.secretID)
    requires g.remote.auth.Some? && g.status.rest.clientID == g.remote.auth.value.clientID
    ensures var h := Ensured(o, g, a);
      && (h.created.None? ==> h.remote == g.remote && h.status.rest.secretID == g.status.rest.secretID)
      && (h.created.Some? && h.error.None? ==> h.status.rest.secretID == h.created.value)
      && Issues(g, h)
      && (h.error.None? ==> Aligned(o.spec, h.remote, h.status.rest.secretID))
  {
    NothingHappens(g, a.readSecret);
    NothingHappens(g, a.probe);
    NothingHappens(g, a.check);
    RotatedQuiet(o, g, a);
  }

  /** Before the client secret is looked at, nothing about it changes. */
  predicate Preserves(g: UniversalAuthProgress, h: UniversalAuthProgress) {
    && h.created == g.created && h.status.rest.secretID == g.status.rest.secretID
    && h.remote == g.remote.(auth := h.remote.auth) && Coherent(h.remote)
    && (g.remote.auth.Some? ==> h.remote.auth.Some? && h.remote.auth.value.clientID == g.remote.auth.value.clientID)
  }

  lemma {:induction false} AcquiredQuiet(o: UniversalAuthObject, g: UniversalAuthProgress, a: Answers)
    requires Quiet(a) && Coherent(g.remote)
    ensures Preserves(g, Acquired(o, Adopted(o, g, a), a))
  {
    NothingHappens(g, a.find);
    NothingHappens(Adopted(o, g, a), a.attach);
  }

  lemma {:induction false} AdjustedQuiet(o: UniversalAuthObject, g: UniversalAuthProgress, a: Answers)
    requires Quiet(a) && Coherent(g.remote) && g.remote.auth.Some?
    ensures var h := Adjusted(o, g, a);
      Preserves(g, h) && (h.error.None? ==> h.remote.auth.Some? && h.status.rest.clientID == h.remote.auth.value.clientID)
  {
    NothingHappens(g, a.update);
  }

  lemma {:induction false} PreservesSynced(spec: Spec, g: UniversalAuthProgress, h: UniversalAuthProgress, id: Id)
    requires Preserves(g, h) && Coherent(g.remote) && Synced(spec, g.remote, id)
    ensures Synced(spec, h.remote, id)
  {
  }

  /** How a quiet reconcile can end, `id` being what its object records afterwards. */
  predicate Ends(spec: Spec, g: UniversalAuthProgress, act: Act, remote: Infra, id: Id, recorded: bool) {
    && remote.issued == g.remote.issued + (if act.created.Some? then {act.created.value} else {})
    && (act.created.None? ==> Synced(spec, remote, id))
    && (act.created.Some? ==> act.created.value !in g.remote.issued && (id == act.created.value ==> Aligned(spec, remote, id)))
    && (act.outcome.Ready? && recorded ==> Aligned(spec, remote, id))
  }

  lemma {:induction false} SettleQuiet(o: UniversalAuthObject, g: UniversalAuthProgress, a: Answers)
    requires Quiet(a) && g.created.None? && g.error.None? && Coherent(g.remote)
    requires g.status.rest.secretID == o.status.rest.secretID && Known(g.remote, g.status.rest.secretID)
    requires Synced(o.spec, g.remote, g.status.rest.secretID)
    ensures var t := Settle(o, g, a);
      Ends(o.spec, g, t.act, t.remote, t.obj.status.rest.secretID, a.patch.Reached())
  {
    NothingHappens(g, a.get);
    if a.get.reply.Answered? && g.remote.auth.Some? {
      AdjustedQuiet(o, g, a);
      var h := Adjusted(o, g, a);
      PreservesSynced(o.spec, g, h, g.status.rest.secretID);
      if h.error.None? {
        EnsuredQuiet(o, h, a);
      }
    }
  }

  /** One quiet reconcile from a synced world: success that gets recorded aligns the three
      places, and only an interrupted rotation can leave the world out of sync. */
  lemma {:induction false} QuietReconcile(w: World, a: Answers)
    requires Quiet(a) && Proper(w) && Synced(w.o.spec, w.i, Recorded(w))
    ensures var v := Turned(w, a);
      && (!Interrupted(w, v) ==> Synced(v.o.spec, v.i, Recorded(v)))
      && (Reconcile(w.o, w.i, a).act.outcome.Ready? && a.patch.Reached() ==> Aligned(v.o.spec, v.i, Recorded(v)))
  {
    if Active(w.o) && a.ready && a.connected {
      var g := Acquired(w.o, Adopted(w.o, Start(w.o, w.i), a), a);
      AcquiredQuiet(w.o, Start(w.o, w.i), a);
      PreservesSynced(w.o.spec, Start(w.o, w.i), g, Recorded(w));
      if g.error.None? {
        SettleQuiet(w.o, g, a);
      }
    } else if w.o.meta.deleting && !w.o.meta.gone {
      RemoveQuiet(w, a);
    }
  }

  lemma {:induction false} RemoveQuiet(w: World, a: Answers)
    requires Quiet(a) && Proper(w) && Synced(w.o.spec, w.i, Recorded(w)) && w.o.meta.deleting
    ensures var t := Remove(w.o, w.i, a);
      t.remote.issued == w.i.issued && Synced(w.o.spec, t.remote, Recorded(w))
  {
    NothingHappens(Start(w.o, w.i), a.revoke);
    NothingHappens(Retired(Start(w.o, w.i), a, ""), a.detach);
  }

  /** Others act only between reconciles, and the output Secret's keys stay. */
  predicate CalmEvent(spec: Spec, e: Event) {
    match e
    case Reconciles(a) => Quiet(a)
    case Elsewhere(_) => true
    case Edits(o) => SameKeys(spec, o.spec)
  }

  predicate Calm(spec: Spec, es: seq<Event>) {
    forall k :: 0 <= k < |es| ==> CalmEvent(spec, es[k])
  }

  predicate SameKeys(spec: Spec, other: Spec) {
    ClientIDKey(spec) == ClientIDKey(other) && ClientSecretKey(spec) == ClientSecretKey(other)
  }

  lemma {:induction false} CalmReconcile(spec: Spec, w: World, a: Answers)
    requires Proper(w) && Synced(w.o.spec, w.i, Recorded(w)) && SameKeys(spec, w.o.spec)
    requires Quiet(a) && !Interrupted(w, Turned(w, a))
    ensures var v := Turned(w, a); Synced(v.o.spec, v.i, Recorded(v)) && SameKeys(spec, v.o.spec)
  {
    QuietReconcile(w, a);
    SpecStays(w, a);
  }

  lemma {:induction false} SpecStays(w: World, a: Answers)
    ensures Turned(w, a).o.spec == w.o.spec
  {
  }

  lemma {:induction false} CalmElsewhere(spec: Spec, i: Infra, x: Outside, id: Id)
    requires Coherent(i) && Synced(spec, i, id)
    ensures Synced(spec, Interfere(x, i), id)
  {
  }

  lemma {:induction false} CalmEdit(spec: Spec, other: Spec, i: Infra, id: Id)
    requires Synced(spec, i, id) && SameKeys(spec, other)
    ensures Synced(other, i, id)
  {
  }

  lemma {:induction false} CalmStep(spec: Spec, w: World, e: Event)
    requires Proper(w) && Synced(w.o.spec, w.i, Recorded(w)) && SameKeys(spec, w.o.spec)
    requires CalmEvent(spec, e) && !Interrupted(w, After(w, e))
    ensures var v := After(w, e); Synced(v.o.spec, v.i, Recorded(v)) && SameKeys(spec, v.o.spec)
  {
    match e
    case Reconciles(a) => CalmReconcile(spec, w, a);
    case Elsewhere(x) => CalmElsewhere(w.o.spec, w.i, x, Recorded(w));
    case Edits(o) => CalmEdit(w.o.spec, o.spec, w.i, Recorded(w));
  }

  lemma {:induction false} CalmRun(w: World, es: seq<Event>)
    requires Proper(w) && (w.o.meta.deleting || Safe(w.i)) && Synced(w.o.spec, w.i, Recorded(w))
    requires Calm(w.o.spec, es) && Interruptions(w, es) == 0
    ensures var v := Run(w, es); Synced(v.o.spec, v.i, Recorded(v)) && SameKeys(w.o.spec, v.o.spec)
  {
    if es != [] {
      var n := |es| - 1;
      forall k | 0 <= k < n ensures CalmEvent(w.o.spec, es[..n][k]) {
        assert es[..n][k] == es[k];
      }
      CalmRun(w, es[..n]);
      RunProper(w, es[..n]);
      CalmStep(w.o.spec, Run(w, es[..n]), es[n]);
    }
  }

  /** Three-way agreement: in a run without an interrupted rotation, a reconcile that succeeds
      and is recorded leaves the recorded ID, the annotation and the only working client secret
      the same, and the Secret holding its value. */
  lemma {:induction false} ThreeWayAgreement(w: World, es: seq<Event>, a: Answers)
    requires Proper(w) && (w.o.meta.deleting || Safe(w.i)) && w.i.live == {}
    requires Calm(w.o.spec, es) && Interruptions(w, es) == 0 && Quiet(a)
    requires var v := Run(w, es); Reconcile(v.o, v.i, a).act.outcome.Ready? && a.patch.Reached()
    ensures var v := Turned(Run(w, es), a); Aligned(v.o.spec, v.i, Recorded(v))
  {
    CalmRun(w, es);
    RunProper(w, es);
    QuietReconcile(Run(w, es), a);
  }

  /** Ready is sound: the auth method is attached to the identity; every setting that can be sent
      is as wanted, so that all are except exactly a list that is wanted empty and is not; the
      status shows them, the client secret it records works, and a Secret is published. */
  lemma {:induction false} ReadyIsSound(o: UniversalAuthObject, i: Infra, a: Answers)
    requires Quiet(a) && Coherent(i) && Known(i, o.status.rest.secretID)
    requires Reconcile(o, i, a).act.outcome.Ready? && a.patch.Reached()
    ensures var t := Reconcile(o, i, a);
      && t.obj.status.ready == Some(Verdict(true, Reconciled, o.meta.generation))
      && t.remote.auth.Some?
      && var auth := t.remote.auth.value;
      && auth.identity == i.identity && Shows(t.obj.status, auth)
      && AsWanted(o.spec.config, auth.config)
      && t.obj.status.rest.secretID in t.remote.live && t.remote.secret.Some?
  {
    AcquiredQuiet(o, Start(o, i), a);
    var g := Acquired(o, Adopted(o, Start(o, i), a), a);
    NothingHappens(g, a.get);
    AdjustedQuiet(o, g, a);
    AdjustedIsSound(o, g, a);
    var h := Adjusted(o, g, a);
    EnsuredOnlyRest(o, h, a);
    EnsuredLeavesWorking(o, h, a);
  }

  /** The status shows the auth method, up to lists that are empty. */
  predicate Shows(s: Status<Kept>, auth: Auth) {
    && s.id == auth.id && s.parent == auth.identity && s.rest.clientID == auth.clientID
    && s.rest.config.Some? && Lean(s.rest.config.value) == Lean(auth.config)
  }

  lemma {:induction false} AdjustedIsSound(o: UniversalAuthObject, g: UniversalAuthProgress, a: Answers)
    requires Quiet(a) && g.remote.auth.Some? && Adjusted(o, g, a).error.None?
    ensures var h := Adjusted(o, g, a);
      && h.remote.identity == g.remote.identity && h.remote.auth.Some?
      && var auth := h.remote.auth.value;
      && auth.identity == g.remote.identity && Shows(h.status, auth)
      && AsWanted(o.spec.config, auth.config)
  {
    hide AsWanted, Patched, NeedsUpdate;
    NothingHappens(g, a.update);
    PatchedIsAsWanted(o.spec.config, g.remote.auth.value.config);
  }

  lemma {:induction false} RotatedLeavesWorking(o: UniversalAuthObject, g: UniversalAuthProgress, a: Answers)
    requires Quiet(a) && g.error.None? && Coherent(g.remote) && Known(g.remote, g.status.rest.secretID)
    ensures var h := Rotated(o, g, a);
      h.remote.auth == g.remote.auth && h.remote.identity == g.remote.identity
      && (h.error.None? ==> h.status.rest.secretID in h.remote.live && h.remote.secret.Some?)
  {
    NothingHappens(g, a.create);
    NothingHappens(g, a.reread);
  }

  lemma {:induction false} EnsuredLeavesWorking(o: UniversalAuthObject, g: UniversalAuthProgress, a: Answers)
    requires Quiet(a) && g.error.None? && Coherent(g.remote) && Known(g.remote, g.status.rest.secretID)
    ensures var h := Ensured(o, g, a);
      h.remote.auth == g.remote.auth && h.remote.identity == g.remote.identity
      && (h.error.None? ==> h.status.rest.secretID in h.remote.live && h.remote.secret.Some?)
  {
    NothingHappens(g, a.readSecret);
    NothingHappens(g, a.probe);
    NothingHappens(g, a.check);
    RotatedLeavesWorking(o, g, a);
  }

  lemma {:induction false} StuckAdjusts(o: UniversalAuthObject, g: UniversalAuthProgress, a: Answers)
    requires Quiet(a) && g.remote.auth.Some? && AnyStuck(o.spec.config, g.remote.auth.value.config) && Adjusted(o, g, a).error.None?
    ensures var h := Adjusted(o, g, a);
      h.wrote && h.remote.auth.Some? && AnyStuck(o.spec.config, h.remote.auth.value.config)
  {
    NothingHappens(g, a.update);
  }

  lemma {:induction false} AcquiredLeavesAuth(o: UniversalAuthObject, g: UniversalAuthProgress, a: Answers)
    requires Quiet(a) && g.remote.auth.Some?
    ensures Acquired(o, Adopted(o, g, a), a).remote.auth == g.remote.auth
  {
    NothingHappens(g, a.find);
    NothingHappens(Adopted(o, g, a), a.attach);
  }

  lemma {:induction false} RotatedLeavesAuth(o: UniversalAuthObject, g: UniversalAuthProgress, a: Answers)
    requires Quiet(a)
    ensures Rotated(o, g, a).remote.auth == g.remote.auth && Rotated(o, g, a).wrote
  {
    NothingHappens(g, a.create);
  }

  lemma {:induction false} EnsuredLeavesAuth(o: UniversalAuthObject, g: UniversalAuthProgress, a: Answers)
    requires Quiet(a) && g.wrote
    ensures Ensured(o, g, a).remote.auth == g.remote.auth && Ensured(o, g, a).wrote
  {
    NothingHappens(g, a.readSecret);
    NothingHappens(g, a.probe);
    NothingHappens(g, a.check);
    RotatedLeavesAuth(o, g, a);
    if g.remote.secret.Some? {
      var h := g.(status := g.status.(rest := g.status.rest.(secretID := g.remote.secret.value.annotation, nonce := o.spec.nonce)));
      NothingHappens(h, a.check);
      RotatedLeavesAuth(o, h, a);
    }
  }

  /** A list that is wanted empty and is not is patched by every reconcile that succeeds,
      without effect: such a resource is never settled. */
  lemma {:induction false} StuckNeverSettles(o: UniversalAuthObject, i: Infra, a: Answers)
    requires Quiet(a) && i.auth.Some? && AnyStuck(o.spec.config, i.auth.value.config)
    requires Reconcile(o, i, a).act.outcome.Ready?
    ensures var t := Reconcile(o, i, a);
      t.act.writes && t.remote.auth.Some? && AnyStuck(o.spec.config, t.remote.auth.value.config)
  {
    AcquiredLeavesAuth(o, Start(o, i), a);
    var g := Acquired(o, Adopted(o, Start(o, i), a), a);
    NothingHappens(g, a.get);
    StuckAdjusts(o, g, a);
    EnsuredLeavesAuth(o, Adjusted(o, g, a), a);
  }
}
