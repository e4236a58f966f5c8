/** The client secret when others act at any moment, within a reconcile too: what is left of the
    agreement between the status, the published Secret and the client secrets that work. */
module Interference {
  import opened Basics
  import opened Lifecycle
  import opened UniversalAuths
  import opened Rotation
  import opened Agreement

  /** A Secret that is there names this client secret and carries its value. */
  predicate Names(spec: Spec, i: Infra, id: Id) {
    i.secret.Some? ==>
      && i.secret.value.annotation == id && id in i.values
      && Read(i.secret.value.data, ClientSecretKey(spec)) == i.values[id]
  }

  /** No other client secret works, and while this one does, a Secret that is there names it. */
  predicate Bounded(spec: Spec, i: Infra, id: Id) {
    Coherent(i) && Known(i, id) && i.live <= {id} && (id in i.live ==> Names(spec, i, id))
  }

  /** Progress measured against the stores `i` and the client secret `p` recorded at the start:
      until a client secret is created, everything is bounded by `p`. */
  predicate Trails(spec: Spec, i: Infra, p: Id, g: UniversalAuthProgress) {
    && g.remote.issued == i.issued + Made(g) && (g.created.Some? ==> g.created.value !in i.issued && g.created.value != "")
    && (g.created.None? ==> Bounded(spec, g.remote, p))
  }

  /** Progress that is about to be recorded. */
  predicate Lands(spec: Spec, g: UniversalAuthProgress) {
    Coherent(g.remote) && g.remote.live <= {g.status.rest.secretID} && Names(spec, g.remote, g.status.rest.secretID)
  }

  lemma {:induction false} MeanwhileBounded(spec: Spec, i: Infra, id: Id, x: Outside)
    requires Bounded(spec, i, id)
    ensures Bounded(spec, Interfere(x, i), id) && Interfere(x, i).issued == i.issued
    ensures Names(spec, i, id) ==> Names(spec, Interfere(x, i), id)
  {
  }

  /** What comes before the client secret is looked at. */
  predicate Untouched(spec: Spec, g: UniversalAuthProgress, h: UniversalAuthProgress, p: Id) {
    Bounded(spec, h.remote, p) && h.remote.issued == g.remote.issued && h.created == g.created && h.status.rest.secretID == g.status.rest.secretID
  }

  lemma {:induction false} AuthBounded(spec: Spec, i: Infra, id: Id, auth: Auth)
    requires Bounded(spec, i, id)
    ensures Bounded(spec, i.(auth := Some(auth)), id)
  {
  }

  lemma {:induction false} AdoptedBounded(o: UniversalAuthObject, g: UniversalAuthProgress, a: Answers, p: Id)
    requires Bounded(o.spec, g.remote, p)
    ensures Untouched(o.spec, g, Adopted(o, g, a), p)
  {
    MeanwhileBounded(o.spec, g.remote, p, a.find.outside);
  }

  lemma {:induction false} AcquiredBounded(o: UniversalAuthObject, g: UniversalAuthProgress, a: Answers, p: Id)
    requires Bounded(o.spec, g.remote, p)
    ensures Untouched(o.spec, g, Acquired(o, g, a), p)
  {
    MeanwhileBounded(o.spec, g.remote, p, a.attach.outside);
    var h := Meanwhile(g, a.attach);
    AuthBounded(o.spec, h.remote, p, Auth(a.authID, h.remote.identity, a.clientID, Patched(o.spec.config, a.defaults)));
  }

  lemma {:induction false} AdjustedBounded(o: UniversalAuthObject, g: UniversalAuthProgress, a: Answers, p: Id)
    requires Bounded(o.spec, g.remote, p) && g.remote.auth.Some?
    ensures Untouched(o.spec, g, Adjusted(o, g, a), p)
  {
    MeanwhileBounded(o.spec, g.remote, p, a.update.outside);
    var h := Meanwhile(g, a.update);
    if h.remote.auth.Some? {
      AuthBounded(o.spec, h.remote, p, h.remote.auth.value.(config := Patched(o.spec.config, h.remote.auth.value.config)));
    }
  }

  /** After a client secret was created, it and the recorded one may work. */
  predicate Between(i: Infra, p: Id, id: Id) {
    Coherent(i) && id in i.issued && id != "" && id != p && i.live <= {p, id}
  }

  lemma {:induction false} MeanwhileBetween(i: Infra, p: Id, id: Id, x: Outside)
    requires Between(i, p, id)
    ensures var j := Interfere(x, i);
      Between(j, p, id) && j.issued == i.issued && j.values == i.values && (j.secret.Some? ==> j.secret == i.secret)
  {
  }

  lemma {:induction false} PublishedBetween(o: UniversalAuthObject, g: UniversalAuthProgress, a: Answers, p: Id, id: Id, value: string)
    requires Between(g.remote, p, id) && id in g.remote.values && g.remote.values[id] == value && g.error.None?
    ensures var h := Published(o, g, a, id, value);
      && Between(h.remote, p, id) && h.remote.issued == g.remote.issued && h.created == g.created && h.status == g.status
      && (h.error.None? ==> Names(o.spec, h.remote, id))
  {
    MeanwhileBetween(g.remote, p, id, a.reread.outside);
    MeanwhileBetween(Meanwhile(g, a.reread).remote, p, id, a.publish.outside);
  }

  lemma {:induction false} RetiredBetween(spec: Spec, g: UniversalAuthProgress, a: Answers, id: Id)
    requires Between(g.remote, g.status.rest.secretID, id) && Names(spec, g.remote, id) && g.error.None? && Known(g.remote, g.status.rest.secretID)
    ensures var h := Retired(g, a, id);
      && h.remote.issued == g.remote.issued && h.created == g.created && h.status == g.status
      && (h.error.None? ==> Coherent(h.remote) && h.remote.live <= {id} && Names(spec, h.remote, id))
  {
    MeanwhileBetween(g.remote, g.status.rest.secretID, id, a.revoke.outside);
  }

  lemma {:induction false} IssuedBetween(spec: Spec, g: UniversalAuthProgress, a: Answers, p: Id)
    requires Bounded(spec, g.remote, p) && !Unissued(g, a)
    ensures Between(Issued(g, a).remote, p, a.secretID) && Issued(g, a).remote.issued == g.remote.issued + {a.secretID}
    ensures a.secretID in Issued(g, a).remote.values && Issued(g, a).remote.values[a.secretID] == a.value
  {
  }

  lemma {:induction false} RotatedTrails(o: UniversalAuthObject, g: UniversalAuthProgress, a: Answers)
    requires Bounded(o.spec, g.remote, g.status.rest.secretID) && g.created.None? && g.error.None?
    ensures var h := Rotated(o, g, a);
      && Trails(o.spec, g.remote, g.status.rest.secretID, h)
      && (h.error.None? ==> Lands(o.spec, h) && h.created == Some(h.status.rest.secretID))
  {
    var p := g.status.rest.secretID;
    MeanwhileBounded(o.spec, g.remote, p, a.create.outside);
    var h := Meanwhile(g, a.create).(wrote := true);
    if !Unissued(h, a) {
      IssuedBetween(o.spec, h, a, p);
      if a.create.reply.Answered? {
        PublishedBetween(o, Issued(h, a), a, p, a.secretID, a.value);
        var k := Published(o, Issued(h, a), a, a.secretID, a.value);
        if k.error.None? {
          RetiredBetween(o.spec, k, a, a.secretID);
        }
      }
    }
  }

  lemma {:induction false} CheckedTrails(o: UniversalAuthObject, g: UniversalAuthProgress, a: Answers)
    requires Bounded(o.spec, g.remote, g.status.rest.secretID) && g.created.None? && g.error.None?
    ensures var p := g.status.rest.secretID;
      var h := Checked(o, g, a, p);
      && Trails(o.spec, g.remote, p, h)
      && (h.error.None? ==> Lands(o.spec, h) && (h.created.Some? ==> h.created == Some(h.status.rest.secretID))
                            && (h.created.None? ==> h.status.rest.secretID == p))
  {
    MeanwhileBounded(o.spec, g.remote, g.status.rest.secretID, a.check.outside);
    RotatedTrails(o, Meanwhile(g, a.check), a);
  }

  /** With nothing recorded, no client secret works, so there is none to take over. */
  lemma {:induction false} RecoveredTrails(o: UniversalAuthObject, g: UniversalAuthProgress, a: Answers)
    requires Bounded(o.spec, g.remote, "") && g.status.rest.secretID == "" && g.created.None? && g.error.None? && g.remote.secret.Some?
    ensures var h := Recovered(o, g, a);
      Trails(o.spec, g.remote, "", h) && (h.error.None? ==> Lands(o.spec, h) && h.created == Some(h.status.rest.secretID))
  {
    MeanwhileBounded(o.spec, g.remote, "", a.probe.outside);
    RotatedTrails(o, g, a);
    RotatedTrails(o, Meanwhile(g, a.probe), a);
  }

  lemma {:induction false} EnsuredTrails(o: UniversalAuthObject, g: UniversalAuthProgress, a: Answers)
    requires Bounded(o.spec, g.remote, g.status.rest.secretID) && g.created.None? && g.error.None?
    ensures var p := g.status.rest.secretID;
      var h := Ensured(o, g, a);
      && Trails(o.spec, g.remote, p, h)
      && (h.error.None? ==> Lands(o.spec, h) && (h.created.Some? ==> h.created == Some(h.status.rest.secretID))
                            && (h.created.None? ==> h.status.rest.secretID == p))
  {
    var p := g.status.rest.secretID;
    MeanwhileBounded(o.spec, g.remote, p, a.readSecret.outside);
    var h := Meanwhile(g, a.readSecret);
    if a.readSecret.reply.Answered? && o.spec.named {
      if h.remote.secret.None? {
        RotatedTrails(o, h, a);
      } else if p == "" {
        RecoveredTrails(o, h, a);
      } else if h.status.rest.nonce != o.spec.nonce {
        RotatedTrails(o, h, a);
      } else {
        CheckedTrails(o, h, a);
      }
    }
  }

  /** How a reconcile ends, `id` being what its object records afterwards. */
  predicate Concludes(spec: Spec, i: Infra, t: UniversalAuthTurn, recorded: bool) {
    var id := t.obj.status.rest.secretID;
    && t.remote.issued == i.issued + (if t.act.created.Some? then {t.act.created.value} else {})
    && (t.act.created.Some? ==> t.act.created.value !in i.issued)
    && (t.act.created.None? || id == t.act.created.value ==> Coherent(t.remote) && t.remote.live <= {id} && (id in t.remote.live ==> Names(spec, t.remote, id)))
    && (t.act.outcome.Ready? && recorded ==> t.remote.live <= {id} && Names(spec, t.remote, id))
  }

  lemma {:induction false} FailedConcludes(o: UniversalAuthObject, i: Infra, g: UniversalAuthProgress, reason: Reason, patch: Reply)
    requires Trails(o.spec, i, o.status.rest.secretID, g) && Known(i, o.status.rest.secretID) && "" !in i.issued
    ensures Concludes(o.spec, i, Report(Omit, o, g, reason, patch), patch.Reached())
  {
  }

  lemma {:induction false} ForgottenConcludes(o: UniversalAuthObject, i: Infra, g: UniversalAuthProgress, patch: Reply)
    requires Trails(o.spec, i, o.status.rest.secretID, g) && g.created.None? && g.remote.auth.None?
    ensures Concludes(o.spec, i, Forgotten(o, g, patch), patch.Reached())
  {
  }

  lemma {:induction false} SucceededConcludes(o: UniversalAuthObject, i: Infra, g: UniversalAuthProgress, patch: Reply)
    requires Trails(o.spec, i, o.status.rest.secretID, g) && Lands(o.spec, g) && Known(i, o.status.rest.secretID) && "" !in i.issued
    requires g.created.Some? ==> g.created == Some(g.status.rest.secretID)
    requires g.created.None? ==> g.status.rest.secretID == o.status.rest.secretID
    ensures Concludes(o.spec, i, Succeed(Omit, o, g, patch), patch.Reached())
  {
  }

  lemma {:induction false} SettleConcludes(o: UniversalAuthObject, i: Infra, g: UniversalAuthProgress, a: Answers)
    requires Bounded(o.spec, g.remote, o.status.rest.secretID) && g.created.None? && g.error.None? && g.remote.issued == i.issued
    requires g.status.rest.secretID == o.status.rest.secretID && Known(i, o.status.rest.secretID) && "" !in i.issued
    ensures Concludes(o.spec, i, Settle(o, g, a), a.patch.Reached())
  {
    var p := o.status.rest.secretID;
    MeanwhileBounded(o.spec, g.remote, p, a.get.outside);
    var h := Meanwhile(g, a.get);
    if a.get.reply.Failed? {
      FailedConcludes(o, i, h, ExternalReadFailed, a.patch);
    } else if h.remote.auth.None? {
      ForgottenConcludes(o, i, h, a.patch);
    } else {
      AdjustedBounded(o, h, a, p);
      var k := Adjusted(o, h, a);
      if k.error.Some? {
        FailedConcludes(o, i, k, k.error.value, a.patch);
      } else {
        EnsuredTrails(o, k, a);
        var e := Ensured(o, k, a);
        if e.error.Some? {
          FailedConcludes(o, i, e, e.error.value, a.patch);
        } else {
          SucceededConcludes(o, i, e, a.patch);
        }
      }
    }
  }

  lemma {:induction false} SyncConcludes(o: UniversalAuthObject, i: Infra, a: Answers)
    requires Bounded(o.spec, i, o.status.rest.secretID)
    ensures Concludes(o.spec, i, Sync(o, i, a), a.patch.Reached())
  {
    var p := o.status.rest.secretID;
    if !a.ready || !a.connected {
      FailedConcludes(o, i, Start(o, i), if !a.ready then IdentityNotReady else ConnectionNotReady, a.patch);
    } else {
      AdoptedBounded(o, Start(o, i), a, p);
      var adopted := Adopted(o, Start(o, i), a);
      AcquiredBounded(o, adopted, a, p);
      var g := Acquired(o, adopted, a);
      if g.error.Some? {
        FailedConcludes(o, i, g, g.error.value, a.patch);
      } else {
        SettleConcludes(o, i, g, a);
      }
    }
  }

  lemma {:induction false} RetiredBounded(spec: Spec, g: UniversalAuthProgress, a: Answers, p: Id)
    requires Bounded(spec, g.remote, p) && g.status.rest.secretID == p
    ensures Bounded(spec, Retired(g, a, "").remote, p) && Retired(g, a, "").remote.issued == g.remote.issued
  {
    MeanwhileBounded(spec, g.remote, p, a.revoke.outside);
  }

  lemma {:induction false} RemoveBounded(w: World, a: Answers)
    requires Bounded(w.o.spec, w.i, Recorded(w))
    ensures var t := Remove(w.o, w.i, a); Bounded(w.o.spec, t.remote, Recorded(w)) && t.remote.issued == w.i.issued && t.obj.status == w.o.status
  {
    RetiredBounded(w.o.spec, Start(w.o, w.i), a, Recorded(w));
    MeanwhileBounded(w.o.spec, Retired(Start(w.o, w.i), a, "").remote, Recorded(w), a.detach.outside);
  }

  /** One reconcile, whatever others do meanwhile: unless a rotation is interrupted, no client
      secret works but the recorded one, and success that is recorded leaves every Secret that
      is there naming it. */
  lemma {:induction false} AnyReconcile(w: World, a: Answers)
    requires Proper(w) && Bounded(w.o.spec, w.i, Recorded(w))
    ensures var v := Turned(w, a);
      && (Proper(v) && !Interrupted(w, v) ==> Bounded(v.o.spec, v.i, Recorded(v)))
      && (Reconcile(w.o, w.i, a).act.outcome.Ready? && a.patch.Reached() ==>
            v.i.live <= {Recorded(v)} && Names(v.o.spec, v.i, Recorded(v)))
  {
    SpecStays(w, a);
    if Active(w.o) {
      SyncConcludes(w.o, w.i, a);
    } else if w.o.meta.deleting && !w.o.meta.gone {
      RemoveBounded(w, a);
    }
  }

  /** The data keys of the output Secret stay. */
  predicate KeepsKeys(spec: Spec, es: seq<Event>) {
    forall k :: 0 <= k < |es| ==> es[k].Edits? ==> SameKeys(spec, es[k].o.spec)
  }

  lemma {:induction false} EditBounded(spec: Spec, other: Spec, i: Infra, id: Id)
    requires Bounded(spec, i, id) && SameKeys(spec, other)
    ensures Bounded(other, i, id)
  {
  }

  lemma {:induction false} AnyStep(spec: Spec, w: World, e: Event)
    requires Proper(w) && Bounded(w.o.spec, w.i, Recorded(w)) && SameKeys(spec, w.o.spec) && Proper(After(w, e))
    requires (e.Edits? ==> SameKeys(spec, e.o.spec)) && !Interrupted(w, After(w, e))
    ensures var v := After(w, e); Bounded(v.o.spec, v.i, Recorded(v)) && SameKeys(spec, v.o.spec)
  {
    match e
    case Reconciles(a) =>
      AnyReconcile(w, a);
      SpecStays(w, a);
    case Elsewhere(x) => MeanwhileBounded(w.o.spec, w.i, Recorded(w), x);
    case Edits(o) => EditBounded(w.o.spec, o.spec, w.i, Recorded(w));
  }

  lemma {:induction false} AnyRun(w: World, es: seq<Event>)
    requires Proper(w) && (w.o.meta.deleting || Safe(w.i)) && Bounded(w.o.spec, w.i, Recorded(w))
    requires KeepsKeys(w.o.spec, es) && Interruptions(w, es) == 0
    ensures var v := Run(w, es); Bounded(v.o.spec, v.i, Recorded(v)) && SameKeys(w.o.spec, v.o.spec)
  {
    if es != [] {
      var n := |es| - 1;
      forall k | 0 <= k < n && es[..n][k].Edits? ensures SameKeys(w.o.spec, es[..n][k].o.spec) {
        assert es[..n][k] == es[k];
      }
      AnyRun(w, es[..n]);
      RunProper(w, es[..n]);
      RunProper(w, es);
      AnyStep(w.o.spec, Run(w, es[..n]), es[n]);
    }
  }

  /** Agreement whatever others do, and whenever: in a run without an interrupted rotation, a
      reconcile that succeeds and is recorded leaves no client secret working but the recorded
      one, and a Secret that is still there names it and carries its value. Others may have
      revoked it or deleted the Secret by then. */
  lemma {:induction false} AgreementUnderInterference(w: World, es: seq<Event>, a: Answers)
    requires Proper(w) && (w.o.meta.deleting || Safe(w.i)) && w.i.live == {}
    requires KeepsKeys(w.o.spec, es) && Interruptions(w, es) == 0
    requires var v := Run(w, es); Reconcile(v.o, v.i, a).act.outcome.Ready? && a.patch.Reached()
    ensures var v := Turned(Run(w, es), a); v.i.live <= {Recorded(v)} && Names(v.o.spec, v.i, Recorded(v))
  {
    AnyRun(w, es);
    RunProper(w, es);
    AnyReconcile(Run(w, es), a);
  }
}
