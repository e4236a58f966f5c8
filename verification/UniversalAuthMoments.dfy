/** The moments of one Universal Auth reconcile: what the stores are after every single change
    that it, or anyone else meanwhile, makes to them. The operator can stop between any two. */
module UniversalAuthMoments {
  import opened Basics
  import opened Lifecycle
  import opened UniversalAuths
  import opened Rotation

  /** Each function adds the moments of its namesake to those before. */
  function AdoptedMoments(o: UniversalAuthObject, g0: UniversalAuthProgress, a: Answers, past: seq<Infra>): seq<Infra> {
    if o.status.id != "" || !o.creation.CanAdopt() then past else past + [Meanwhile(g0, a.find).remote]
  }

  function AcquiredMoments(o: UniversalAuthObject, g0: UniversalAuthProgress, a: Answers, past: seq<Infra>): seq<Infra> {
    if g0.error.Some? || g0.status.id != "" || !o.creation.CanCreate() then past
    else
      var g := Meanwhile(g0, a.attach);
      var others := past + [g.remote];
      if g.remote.auth.Some? || a.authID == "" || a.clientID == "" || !a.attach.reply.Reached() then others
      else others + [Acquired(o, g0, a).remote]
  }

  function AdjustedMoments(o: UniversalAuthObject, g0: UniversalAuthProgress, a: Answers, past: seq<Infra>): seq<Infra>
    requires g0.remote.auth.Some?
  {
    if g0.remote.auth.value.identity != g0.remote.identity || !NeedsUpdate(o.spec.config, g0.remote.auth.value.config) then past
    else
      var g := Meanwhile(g0, a.update);
      var others := past + [g.remote];
      if g.remote.auth.None? || !a.update.reply.Reached() then others else others + [Adjusted(o, g0, a).remote]
  }

  function PublishedMoments(o: UniversalAuthObject, g0: UniversalAuthProgress, a: Answers, id: Id, value: string, past: seq<Infra>): seq<Infra> {
    var g := Meanwhile(g0, a.reread);
    var before := past + [g.remote];
    if a.reread.reply.Failed? || (g.remote.secret.Some? && g.remote.secret.value.foreign) then before
    else
      var h := Meanwhile(g, a.publish);
      var others := before + [h.remote];
      if (g.remote.secret.Some? && h.remote.secret.None?) || !a.publish.reply.Reached() then others
      else others + [Published(o, g0, a, id, value).remote]
  }

  function RetiredMoments(g0: UniversalAuthProgress, a: Answers, id: Id, past: seq<Infra>): seq<Infra> {
    if g0.status.rest.secretID in {"", id} then past
    else
      var others := past + [Meanwhile(g0, a.revoke).remote];
      if a.revoke.reply.Reached() then others + [Retired(g0, a, id).remote] else others
  }

  function RotatedMoments(o: UniversalAuthObject, g0: UniversalAuthProgress, a: Answers, past: seq<Infra>): seq<Infra> {
    var g := Meanwhile(g0, a.create).(wrote := true);
    var others := past + [g.remote];
    if Unissued(g, a) then others
    else
      var made := Issued(g, a);
      var issued := others + [made.remote];
      if a.create.reply.Failed? then issued
      else
        var p := Published(o, made, a, a.secretID, a.value);
        var published := PublishedMoments(o, made, a, a.secretID, a.value, issued);
        if p.error.Some? then published else RetiredMoments(p, a, a.secretID, published)
  }

  function CheckedMoments(o: UniversalAuthObject, g0: UniversalAuthProgress, a: Answers, id: Id, past: seq<Infra>): seq<Infra> {
    var g := Meanwhile(g0, a.check);
    var others := past + [g.remote];
    if a.check.reply.Failed? || id in g.remote.live then others else RotatedMoments(o, g, a, others)
  }

  function RecoveredMoments(o: UniversalAuthObject, g0: UniversalAuthProgress, a: Answers, past: seq<Infra>): seq<Infra>
    requires g0.remote.secret.Some?
  {
    var published := g0.remote.secret.value;
    if published.annotation == "" || Read(published.data, ClientIDKey(o.spec)) == "" || Read(published.data, ClientSecretKey(o.spec)) == "" then
      RotatedMoments(o, g0, a, past)
    else
      var g := Meanwhile(g0, a.probe);
      var others := past + [g.remote];
      if a.probe.reply.Answered? && published.annotation in g.remote.live then
        CheckedMoments(o, TakenOver(o, g, published.annotation), a, published.annotation, others)
      else RotatedMoments(o, g, a, others)
  }

  function EnsuredMoments(o: UniversalAuthObject, g0: UniversalAuthProgress, a: Answers, past: seq<Infra>): seq<Infra> {
    if !o.spec.named then past
    else
      var g := Meanwhile(g0, a.readSecret);
      var others := past + [g.remote];
      if a.readSecret.reply.Failed? then others
      else if g.remote.secret.None? then RotatedMoments(o, g, a, others)
      else if g.status.rest.secretID == "" then RecoveredMoments(o, g, a, others)
      else if g.status.rest.nonce != o.spec.nonce then RotatedMoments(o, g, a, others)
      else CheckedMoments(o, g, a, g.status.rest.secretID, others)
  }

  function SettleMoments(o: UniversalAuthObject, g0: UniversalAuthProgress, a: Answers, past: seq<Infra>): seq<Infra> {
    var g := Meanwhile(g0, a.get);
    var others := past + [g.remote];
    if a.get.reply.Failed? || g.remote.auth.None? then others
    else
      var h := Adjusted(o, g, a);
      var adjusted := AdjustedMoments(o, g, a, others);
      if h.error.Some? then adjusted else EnsuredMoments(o, h, a, adjusted)
  }

  function SyncMoments(o: UniversalAuthObject, i: Infra, a: Answers, past: seq<Infra>): seq<Infra> {
    if !a.ready || !a.connected then past
    else
      var adopted := Adopted(o, Start(o, i), a);
      var g := Acquired(o, adopted, a);
      var acquired := AcquiredMoments(o, adopted, a, AdoptedMoments(o, Start(o, i), a, past));
      if g.error.Some? then acquired else SettleMoments(o, g, a, acquired)
  }

  function RemoveMoments(o: UniversalAuthObject, i: Infra, a: Answers, past: seq<Infra>): seq<Infra> {
    if o.deletion != Delete || o.status.parent == "" || !a.connected then past
    else
      var g := Retired(Start(o, i), a, "");
      var retired := RetiredMoments(Start(o, i), a, "", past);
      if g.error.Some? || o.status.id == "" then retired
      else
        var r := Interfere(a.detach.outside, g.remote);
        var others := retired + [r];
        if a.detach.reply.Reached() then others + [r.(auth := None, live := {})] else others
  }

  /** The stores after every single change of one reconcile, added to those before. */
  function Moments(o: UniversalAuthObject, i: Infra, a: Answers, past: seq<Infra>): seq<Infra> {
    if o.meta.gone || NeedsFinalizer(o) then past
    else if o.meta.deleting then RemoveMoments(o, i, a, past)
    else SyncMoments(o, i, a, past)
  }

  predicate AllSafe(past: seq<Infra>) {
    forall k :: 0 <= k < |past| ==> Safe(past[k])
  }

  // ----- every moment is safe

  lemma {:induction false} AcquiredMomentsSafe(o: UniversalAuthObject, i: Infra, p: Id, g: UniversalAuthProgress, a: Answers, past: seq<Infra>)
    requires Tracks(i, p, g) && g.created.None? && AllSafe(past)
    ensures AllSafe(AcquiredMoments(o, g, a, past))
  {
    MeanwhileTracks(i, p, g, a.attach);
    AcquiredTracks(o, i, p, g, a);
  }

  lemma {:induction false} AdjustedMomentsSafe(o: UniversalAuthObject, i: Infra, p: Id, g: UniversalAuthProgress, a: Answers, past: seq<Infra>)
    requires Tracks(i, p, g) && g.created.None? && g.remote.auth.Some? && AllSafe(past)
    ensures AllSafe(AdjustedMoments(o, g, a, past))
  {
    MeanwhileTracks(i, p, g, a.update);
    AdjustedTracks(o, i, p, g, a);
  }

  lemma {:induction false} PublishedMomentsSafe(o: UniversalAuthObject, i: Infra, p: Id, g: UniversalAuthProgress, a: Answers, id: Id, value: string, past: seq<Infra>)
    requires Tracks(i, p, g) && g.created == Some(id) && id !in g.remote.revoked && id != "" && AllSafe(past)
    ensures AllSafe(PublishedMoments(o, g, a, id, value, past))
  {
    MeanwhileTracks(i, p, g, a.reread);
    MeanwhileTracks(i, p, Meanwhile(g, a.reread), a.publish);
    PublishedTracks(o, i, p, g, a, id, value);
  }

  lemma {:induction false} RetiredMomentsSafe(i: Infra, p: Id, g: UniversalAuthProgress, a: Answers, id: Id, past: seq<Infra>)
    requires Tracks(i, p, g) && g.error.None? && AllSafe(past)
    requires g.remote.secret.Some? ==> g.remote.secret.value.annotation == id
    ensures AllSafe(RetiredMoments(g, a, id, past))
  {
    MeanwhileTracks(i, p, g, a.revoke);
    RetiredTracks(i, p, g, a, id);
  }

  lemma {:induction false} RotatedMomentsSafe(o: UniversalAuthObject, i: Infra, p: Id, g: UniversalAuthProgress, a: Answers, past: seq<Infra>)
    requires Tracks(i, p, g) && g.created.None? && g.error.None? && AllSafe(past)
    ensures AllSafe(RotatedMoments(o, g, a, past))
  {
    MeanwhileTracks(i, p, g, a.create);
    var h := Meanwhile(g, a.create).(wrote := true);
    if !Unissued(h, a) {
      var made := Issued(h, a);
      var issued := past + [h.remote] + [made.remote];
      assert Tracks(i, p, made) && AllSafe(issued);
      if a.create.reply.Answered? {
        PublishedMomentsSafe(o, i, p, made, a, a.secretID, a.value, issued);
        PublishedTracks(o, i, p, made, a, a.secretID, a.value);
        var k := Published(o, made, a, a.secretID, a.value);
        if k.error.None? {
          RetiredMomentsSafe(i, p, k, a, a.secretID, PublishedMoments(o, made, a, a.secretID, a.value, issued));
        }
      }
    }
  }

  lemma {:induction false} CheckedMomentsSafe(o: UniversalAuthObject, i: Infra, p: Id, g: UniversalAuthProgress, a: Answers, past: seq<Infra>)
    requires Tracks(i, p, g) && g.created.None? && g.error.None? && AllSafe(past)
    ensures AllSafe(CheckedMoments(o, g, a, g.status.rest.secretID, past))
  {
    MeanwhileTracks(i, p, g, a.check);
    var h := Meanwhile(g, a.check);
    RotatedMomentsSafe(o, i, p, h, a, past + [h.remote]);
  }

  lemma {:induction false} RecoveredMomentsSafe(o: UniversalAuthObject, i: Infra, p: Id, g: UniversalAuthProgress, a: Answers, past: seq<Infra>)
    requires Tracks(i, p, g) && g.created.None? && g.error.None? && g.remote.secret.Some? && p == "" && AllSafe(past)
    ensures AllSafe(RecoveredMoments(o, g, a, past))
  {
    MeanwhileTracks(i, p, g, a.probe);
    var h := Meanwhile(g, a.probe);
    var id := g.remote.secret.value.annotation;
    RotatedMomentsSafe(o, i, p, g, a, past);
    RotatedMomentsSafe(o, i, p, h, a, past + [h.remote]);
    if id in h.remote.live {
      CheckedMomentsSafe(o, i, p, TakenOver(o, h, id), a, past + [h.remote]);
    }
  }

  lemma {:induction false} EnsuredMomentsSafe(o: UniversalAuthObject, i: Infra, g: UniversalAuthProgress, a: Answers, past: seq<Infra>)
    requires Tracks(i, g.status.rest.secretID, g) && g.created.None? && g.error.None? && AllSafe(past)
    ensures AllSafe(EnsuredMoments(o, g, a, past))
  {
    var p := g.status.rest.secretID;
    MeanwhileTracks(i, p, g, a.readSecret);
    var h := Meanwhile(g, a.readSecret);
    var others := past + [h.remote];
    RotatedMomentsSafe(o, i, p, h, a, others);
    CheckedMomentsSafe(o, i, p, h, a, others);
    if h.remote.secret.Some? && p == "" {
      RecoveredMomentsSafe(o, i, p, h, a, others);
    }
  }

  lemma {:induction false} SettleMomentsSafe(o: UniversalAuthObject, i: Infra, g: UniversalAuthProgress, a: Answers, past: seq<Infra>)
    requires Tracks(i, g.status.rest.secretID, g) && g.created.None? && g.error.None? && AllSafe(past)
    ensures AllSafe(SettleMoments(o, g, a, past))
  {
    var p := g.status.rest.secretID;
    MeanwhileTracks(i, p, g, a.get);
    var h := Meanwhile(g, a.get);
    var others := past + [h.remote];
    if a.get.reply.Answered? && h.remote.auth.Some? {
      AdjustedTracks(o, i, p, h, a);
      AdjustedMomentsSafe(o, i, p, h, a, others);
      var k := Adjusted(o, h, a);
      if k.error.None? {
        EnsuredMomentsSafe(o, i, k, a, AdjustedMoments(o, h, a, others));
      }
    }
  }

  /** One reconcile of a resource that is not being deleted: the published client secret is
      safe at every moment. */
  lemma {:induction false} ReconcileMomentsSafe(w: World, a: Answers, past: seq<Infra>)
    requires Proper(w) && Safe(w.i) && !w.o.meta.deleting && AllSafe(past)
    ensures AllSafe(Moments(w.o, w.i, a, past))
  {
    var p := Recorded(w);
    var g := Start(w.o, w.i);
    assert Tracks(w.i, p, g);
    if Active(w.o) && a.ready && a.connected {
      MeanwhileTracks(w.i, p, g, a.find);
      AdoptedTracks(w.o, w.i, p, g, a);
      var adopted := Adopted(w.o, g, a);
      var one := AdoptedMoments(w.o, g, a, past);
      AcquiredTracks(w.o, w.i, p, adopted, a);
      AcquiredMomentsSafe(w.o, w.i, p, adopted, a, one);
      var h := Acquired(w.o, adopted, a);
      if h.error.None? {
        SettleMomentsSafe(w.o, w.i, h, a, AcquiredMoments(w.o, adopted, a, one));
      }
    }
  }

  /** Publish before revoke, at every moment of every run: after any history, and after every
      single change that the next reconcile makes, the client secret that the published Secret
      names was never revoked by the operator. */
  lemma {:induction false} SafeAtEveryMoment(w: World, es: seq<Event>, a: Answers)
    requires Proper(w) && Safe(w.i) && !Run(w, es).o.meta.deleting
    ensures var v := Run(w, es); AllSafe(Moments(v.o, v.i, a, [v.i]))
  {
    RunProper(w, es);
    ReconcileMomentsSafe(Run(w, es), a, [Run(w, es).i]);
  }

  // ----- the last moment is the outcome

  /** The stores are as after the last of the moments. */
  predicate Reaches(past: seq<Infra>, i: Infra) {
    past != [] && past[|past| - 1] == i
  }

  lemma {:induction false} PublishedMomentsEnd(o: UniversalAuthObject, g: UniversalAuthProgress, a: Answers, id: Id, value: string, past: seq<Infra>)
    ensures Reaches(PublishedMoments(o, g, a, id, value, past), Published(o, g, a, id, value).remote)
  {
  }

  lemma {:induction false} RetiredMomentsEnd(g: UniversalAuthProgress, a: Answers, id: Id, past: seq<Infra>)
    requires Reaches(past, g.remote)
    ensures Reaches(RetiredMoments(g, a, id, past), Retired(g, a, id).remote)
  {
  }

  lemma {:induction false} RotatedMomentsEnd(o: UniversalAuthObject, g: UniversalAuthProgress, a: Answers, past: seq<Infra>)
    ensures Reaches(RotatedMoments(o, g, a, past), Rotated(o, g, a).remote)
  {
    var h := Meanwhile(g, a.create).(wrote := true);
    if !Unissued(h, a) && a.create.reply.Answered? {
      var made := Issued(h, a);
      var issued := past + [h.remote] + [made.remote];
      PublishedMomentsEnd(o, made, a, a.secretID, a.value, issued);
      var p := Published(o, made, a, a.secretID, a.value);
      if p.error.None? {
        RetiredMomentsEnd(p, a, a.secretID, PublishedMoments(o, made, a, a.secretID, a.value, issued));
      }
    }
  }

  lemma {:induction false} CheckedMomentsEnd(o: UniversalAuthObject, g: UniversalAuthProgress, a: Answers, id: Id, past: seq<Infra>)
    ensures Reaches(CheckedMoments(o, g, a, id, past), Checked(o, g, a, id).remote)
  {
    var h := Meanwhile(g, a.check);
    if a.check.reply.Answered? && id !in h.remote.live {
      RotatedMomentsEnd(o, h, a, past + [h.remote]);
    }
  }

  lemma {:induction false} RecoveredMomentsEnd(o: UniversalAuthObject, g: UniversalAuthProgress, a: Answers, past: seq<Infra>)
    requires g.remote.secret.Some?
    ensures Reaches(RecoveredMoments(o, g, a, past), Recovered(o, g, a).remote)
  {
    var published := g.remote.secret.value;
    if published.annotation == "" || Read(published.data, ClientIDKey(o.spec)) == "" || Read(published.data, ClientSecretKey(o.spec)) == "" {
      RotatedMomentsEnd(o, g, a, past);
    } else {
      var h := Meanwhile(g, a.probe);
      if a.probe.reply.Answered? && published.annotation in h.remote.live {
        CheckedMomentsEnd(o, TakenOver(o, h, published.annotation), a, published.annotation, past + [h.remote]);
      } else {
        RotatedMomentsEnd(o, h, a, past + [h.remote]);
      }
    }
  }

  lemma {:induction false} EnsuredMomentsEnd(o: UniversalAuthObject, g: UniversalAuthProgress, a: Answers, past: seq<Infra>)
    requires Reaches(past, g.remote)
    ensures Reaches(EnsuredMoments(o, g, a, past), Ensured(o, g, a).remote)
  {
    var h := Meanwhile(g, a.readSecret);
    var others := past + [h.remote];
    if o.spec.named && a.readSecret.reply.Answered? {
      if h.remote.secret.None? {
        RotatedMomentsEnd(o, h, a, others);
      } else if h.status.rest.secretID == "" {
        RecoveredMomentsEnd(o, h, a, others);
      } else if h.status.rest.nonce != o.spec.nonce {
        RotatedMomentsEnd(o, h, a, others);
      } else {
        CheckedMomentsEnd(o, h, a, h.status.rest.secretID, others);
      }
    }
  }

  lemma {:induction false} AdjustedMomentsEnd(o: UniversalAuthObject, g: UniversalAuthProgress, a: Answers, past: seq<Infra>)
    requires g.remote.auth.Some? && Reaches(past, g.remote)
    ensures Reaches(AdjustedMoments(o, g, a, past), Adjusted(o, g, a).remote)
  {
  }

  lemma {:induction false} SettleMomentsEnd(o: UniversalAuthObject, g: UniversalAuthProgress, a: Answers, past: seq<Infra>)
    ensures Reaches(SettleMoments(o, g, a, past), Settle(o, g, a).remote)
  {
    var h := Meanwhile(g, a.get);
    var others := past + [h.remote];
    if a.get.reply.Answered? && h.remote.auth.Some? {
      AdjustedMomentsEnd(o, h, a, others);
      var k := Adjusted(o, h, a);
      if k.error.None? {
        EnsuredMomentsEnd(o, k, a, AdjustedMoments(o, h, a, others));
      }
    }
  }

  lemma {:induction false} AcquiredMomentsEnd(o: UniversalAuthObject, i: Infra, a: Answers)
    ensures var adopted := Adopted(o, Start(o, i), a);
      Reaches(AcquiredMoments(o, adopted, a, AdoptedMoments(o, Start(o, i), a, [i])), Acquired(o, adopted, a).remote)
  {
  }

  /** The moments lead from the stores before the reconcile to those after it. */
  lemma {:induction false} MomentsEnd(o: UniversalAuthObject, i: Infra, a: Answers)
    ensures Reaches(Moments(o, i, a, [i]), Reconcile(o, i, a).remote)
  {
    if Active(o) && a.ready && a.connected {
      var adopted := Adopted(o, Start(o, i), a);
      var g := Acquired(o, adopted, a);
      AcquiredMomentsEnd(o, i, a);
      if g.error.None? {
        SettleMomentsEnd(o, g, a, AcquiredMoments(o, adopted, a, AdoptedMoments(o, Start(o, i), a, [i])));
      }
    }
  }
}
