/** What an interrupted rotation can leave behind: the output Secret names the new client secret
    while the status still records the old one, which works. When a reconcile may then store
    Ready=True all the same. */
module Interruption {
  import opened Basics
  import opened Lifecycle
  import opened UniversalAuths
  import opened Rotation
  import opened Agreement
  import opened Settling

  /** The recorded client secret works under the wanted nonce, and the Secret names another. */
  predicate Forked(w: World) {
    && Recorded(w) != "" && Recorded(w) in w.i.live && w.o.status.rest.nonce == w.o.spec.nonce
    && w.i.secret.Some? && w.i.secret.value.annotation != Recorded(w)
  }

  /** The progress before the client secret is looked at. */
  predicate Prepared(w: World, g: UniversalAuthProgress) {
    && g.error.None? && g.status.rest.secretID == Recorded(w) && g.status.rest.nonce == w.o.status.rest.nonce
    && g.remote == w.i.(auth := g.remote.auth)
  }

  predicate Splits(w: World, g: UniversalAuthProgress) {
    g.remote.secret.Some? && g.status.rest.secretID != g.remote.secret.value.annotation
  }

  lemma {:induction false} RotatedNames(w: World, g: UniversalAuthProgress, a: Answers)
    requires Quiet(a) && g.error.None? && Rotated(w.o, g, a).error.None?
    ensures var h := Rotated(w.o, g, a); !Splits(w, h)
  {
    NothingHappens(g, a.create);
    var made := Issued(Meanwhile(g, a.create).(wrote := true), a);
    NothingHappens(made, a.reread);
    NothingHappens(made, a.publish);
    NothingHappens(Published(w.o, made, a, a.secretID, a.value), a.revoke);
  }

  lemma {:induction false} EnsuredNames(w: World, g: UniversalAuthProgress, a: Answers)
    requires Quiet(a) && Prepared(w, g) && Ensured(w.o, g, a).error.None?
    ensures var h := Ensured(w.o, g, a);
      && (Splits(w, h) <==> Forked(w))
      && (Forked(w) ==> h.remote == g.remote && h.status.rest.secretID == Recorded(w) && h.status.rest.nonce == w.o.spec.nonce)
  {
    hide Rotated;
    NothingHappens(g, a.readSecret);
    NothingHappens(g, a.probe);
    NothingHappens(g, a.check);
    if Rotated(w.o, g, a).error.None? {
      RotatedNames(w, g, a);
    }
  }

  lemma {:induction false} SyncPrepares(w: World, a: Answers)
    requires Quiet(a) && Coherent(w.i) && Reconcile(w.o, w.i, a).act.outcome.Ready?
    ensures var g := Acquired(w.o, Adopted(w.o, Start(w.o, w.i), a), a);
      && Prepared(w, g) && g.remote.auth.Some?
      && Reconcile(w.o, w.i, a) == Settle(w.o, g, a)
  {
    var g := Start(w.o, w.i);
    NothingHappens(g, a.find);
    NothingHappens(Adopted(w.o, g, a), a.attach);
    NothingHappens(Acquired(w.o, Adopted(w.o, g, a), a), a.get);
  }

  lemma {:induction false} SettlePrepares(w: World, g: UniversalAuthProgress, a: Answers)
    requires Quiet(a) && Prepared(w, g) && g.remote.auth.Some? && Settle(w.o, g, a).act.outcome.Ready?
    ensures var h := Adjusted(w.o, g, a);
      Prepared(w, h) && Ensured(w.o, h, a).error.None? && Settle(w.o, g, a) == Succeed(Omit, w.o, Ensured(w.o, h, a), a.patch)
  {
    hide Ensured;
    NothingHappens(g, a.get);
    NothingHappens(g, a.update);
  }

  /** When Ready=True is stored, the Secret that is published names another client secret than
      the recorded one exactly when it already did before, with the recorded one still working
      under the wanted nonce: such a reconcile leaves both as they are. */
  lemma {:induction false} ReadyNamesAnotherExactly(w: World, a: Answers)
    requires Quiet(a) && Coherent(w.i) && Reconcile(w.o, w.i, a).act.outcome.Ready? && a.patch.Reached()
    ensures var v := Turned(w, a);
      && (v.i.secret.Some? && v.i.secret.value.annotation != Recorded(v) <==> Forked(w))
      && (Forked(w) ==> Forked(v) && v.i.secret == w.i.secret && Recorded(v) == Recorded(w))
  {
    SyncPrepares(w, a);
    var g := Acquired(w.o, Adopted(w.o, Start(w.o, w.i), a), a);
    SettlePrepares(w, g, a);
    var h := Adjusted(w.o, g, a);
    EnsuredNames(w, h, a);
    SucceededRecords(w.o, Ensured(w.o, h, a), a.patch);
  }

  lemma {:induction false} SucceededRecords(o: UniversalAuthObject, g: UniversalAuthProgress, patch: Reply)
    requires patch.Reached()
    ensures var t := Succeed(Omit, o, g, patch);
      && t.remote == g.remote && t.obj.spec == o.spec
      && t.obj.status.rest.secretID == g.status.rest.secretID && t.obj.status.rest.nonce == g.status.rest.nonce
  {
  }

  /** The same over runs in which others act between reconciles: after any such run, interrupted
      rotations or not. And without an interrupted one it cannot happen. */
  lemma {:induction false} NamesAnotherOnlyAfterInterruption(w: World, es: seq<Event>, a: Answers)
    requires Proper(w) && (w.o.meta.deleting || Safe(w.i)) && w.i.live == {} && Calm(w.o.spec, es) && Quiet(a)
    requires var v := Run(w, es); Reconcile(v.o, v.i, a).act.outcome.Ready? && a.patch.Reached()
    ensures var v := Turned(Run(w, es), a);
      && (v.i.secret.Some? && v.i.secret.value.annotation != Recorded(v) <==> Forked(Run(w, es)))
      && (Forked(Run(w, es)) ==> Interruptions(w, es) > 0)
  {
    RunProper(w, es);
    ReadyNamesAnotherExactly(Run(w, es), a);
    if Interruptions(w, es) == 0 {
      CalmRun(w, es);
    }
  }

  /** A resource whose client secret works, and whose Secret someone has deleted. */
  predicate Bereft(w: World) {
    && Proper(w) && Active(w.o) && w.o.spec.named && w.o.status.id != "" && w.i.secret.None? && w.i.auth.Some?
    && w.i.auth.value.identity == w.i.identity && !NeedsUpdate(w.o.spec.config, w.i.auth.value.config)
    && Recorded(w) != "" && Recorded(w) in w.i.live && w.o.status.rest.nonce == w.o.spec.nonce
  }

  /** It happens: the Secret is deleted, the rotation that follows fails to revoke the old client
      secret, and the next reconcile stores Ready=True with the Secret naming the new one. */
  lemma {:induction false} FailedRevokeForks(w: World, a: Answers, b: Answers)
    requires Bereft(w) && Usable(a.secretID, w.i.issued) && a.value != ""
    requires a == UniversalAuthAnswers(true, a.authID, a.clientID, a.defaults, a.secretID, a.value).(revoke := At(NOTHING, Failed(false)))
    requires b == UniversalAuthAnswers(true, b.authID, b.clientID, b.defaults, b.secretID, b.value)
    ensures var v := Turned(w, a);
      && Forked(v) && Interrupted(w, v) && v.i.secret.value.annotation == a.secretID && Recorded(v) == Recorded(w)
      && Reconcile(v.o, v.i, b).act.outcome.Ready? && Forked(Turned(v, b))
  {
    RotationForks(w, a);
    var v := Turned(w, a);
    ForkedIsReady(v, b);
    ReadyNamesAnotherExactly(v, b);
  }

  lemma {:induction false} RotationForks(w: World, a: Answers)
    requires Bereft(w) && Usable(a.secretID, w.i.issued) && a.value != ""
    requires a == UniversalAuthAnswers(true, a.authID, a.clientID, a.defaults, a.secretID, a.value).(revoke := At(NOTHING, Failed(false)))
    ensures var v := Turned(w, a);
      && Forked(v) && Interrupted(w, v) && v.i.secret.value.annotation == a.secretID && Recorded(v) == Recorded(w)
      && Coherent(v.i) && Active(v.o) && v.o.spec == w.o.spec && v.o.status.id == w.o.status.id && v.i.auth == w.i.auth && v.i.identity == w.i.identity
  {
    assert Interfere(NOTHING, w.i) == w.i;
    var g := Start(w.o, w.i).(status := Observe(w.o, w.o.status, w.i.auth.value));
    NothingHappens(g, a.readSecret);
    NothingHappens(g, a.create);
    var made := Issued(g.(wrote := true), a);
    NothingHappens(made, a.reread);
    NothingHappens(made, a.publish);
    var p := Published(w.o, made, a, a.secretID, a.value);
    NothingHappens(p, a.revoke);
    assert Adjusted(w.o, Start(w.o, w.i), a) == g;
  }

  lemma {:induction false} ForkedIsReady(w: World, b: Answers)
    requires Forked(w) && Active(w.o) && w.o.spec.named && w.o.status.id != "" && w.i.auth.Some?
    requires w.i.auth.value.identity == w.i.identity && !NeedsUpdate(w.o.spec.config, w.i.auth.value.config)
    requires b == UniversalAuthAnswers(true, b.authID, b.clientID, b.defaults, b.secretID, b.value)
    ensures Reconcile(w.o, w.i, b).act.outcome.Ready?
  {
    assert Interfere(NOTHING, w.i) == w.i;
  }
}
