/** The rotation protocol over whole runs: any number of reconciles, each call of which may
    fail or lose its reply, with a crash between any two of them, while others revoke client
    secrets, delete the output Secret or replace the auth method at any moment. */
module Rotation {
  import opened Basics
  import opened Lifecycle
  import opened UniversalAuths

  /** What always holds of the stores: client secrets belong to the attached auth method, and
      only issued IDs are live, revoked or published. */
  predicate Coherent(i: Infra) {
    && "" !in i.issued && i.live <= i.issued && i.revoked <= i.issued
    && (i.auth.None? ==> i.live == {})
    && (i.secret.Some? ==> Known(i, i.secret.value.annotation))
  }

  predicate Known(i: Infra, id: Id) {
    id == "" || id in i.issued
  }

  /** The client secret that the published Secret names was never revoked by the operator. */
  predicate Safe(i: Infra) {
    i.secret.Some? ==> i.secret.value.annotation !in i.revoked
  }

  function Made(g: UniversalAuthProgress): set<Id> {
    if g.created.Some? then {g.created.value} else {}
  }

  /** Progress measured against the stores `i` and the recorded client secret `p` at the start
      of the reconcile: at most one client secret more, and a recorded one is given up only
      when it no longer works. */
  predicate Tracks(i: Infra, p: Id, g: UniversalAuthProgress) {
    && Coherent(g.remote) && Safe(g.remote) && Known(g.remote, g.status.rest.secretID) && Known(i, p)
    && g.remote.issued == i.issued + Made(g) && g.remote.live <= i.live + Made(g)
    && (g.created.Some? ==> g.created.value !in i.issued)
    && (g.status.rest.secretID == p || p == "" || p !in g.remote.live)
  }

  lemma {:induction false} MeanwhileTracks(i: Infra, p: Id, g: UniversalAuthProgress, at: At)
    requires Tracks(i, p, g)
    ensures var h := Meanwhile(g, at);
      && Tracks(i, p, h) && h.status == g.status && h.created == g.created && h.error == g.error
      && (h.remote.secret.Some? ==> h.remote.secret == g.remote.secret)
  {
  }

  lemma {:induction false} AdoptedTracks(o: UniversalAuthObject, i: Infra, p: Id, g: UniversalAuthProgress, a: Answers)
    requires Tracks(i, p, g) && g.created.None?
    ensures var h := Adopted(o, g, a);
      Tracks(i, p, h) && h.created.None? && h.status.rest.secretID == g.status.rest.secretID
  {
    MeanwhileTracks(i, p, g, a.find);
  }

  lemma {:induction false} AcquiredTracks(o: UniversalAuthObject, i: Infra, p: Id, g: UniversalAuthProgress, a: Answers)
    requires Tracks(i, p, g) && g.created.None?
    ensures var h := Acquired(o, g, a);
      Tracks(i, p, h) && h.created.None? && h.status.rest.secretID == g.status.rest.secretID
  {
    MeanwhileTracks(i, p, g, a.attach);
  }

  /** A changed auth method. */
  lemma {:induction false} AuthTracks(i: Infra, p: Id, g: UniversalAuthProgress, auth: Auth)
    requires Tracks(i, p, g)
    ensures Tracks(i, p, g.(remote := g.remote.(auth := Some(auth))))
  {
  }

  lemma {:induction false} AdjustedTracks(o: UniversalAuthObject, i: Infra, p: Id, g: UniversalAuthProgress, a: Answers)
    requires Tracks(i, p, g) && g.created.None? && g.remote.auth.Some?
    ensures var h := Adjusted(o, g, a);
      Tracks(i, p, h) && h.created.None? && h.status.rest.secretID == g.status.rest.secretID
  {
    hide Meanwhile, Patched, NeedsUpdate;
    if NeedsUpdate(o.spec.config, g.remote.auth.value.config) {
      MeanwhileTracks(i, p, g, a.update);
      var h := Meanwhile(g, a.update);
      if h.remote.auth.Some? {
        AuthTracks(i, p, h, h.remote.auth.value.(config := Patched(o.spec.config, h.remote.auth.value.config)));
      }
    }
  }

  /** A published Secret that names the client secret just created. */
  lemma {:induction false} OutputTracks(i: Infra, p: Id, g: UniversalAuthProgress, output: Secret)
    requires Tracks(i, p, g) && g.created == Some(output.annotation) && output.annotation !in g.remote.revoked
    ensures Tracks(i, p, g.(remote := g.remote.(secret := Some(output))))
  {
  }

  /** What others do leaves the client secret just created unrevoked. */
  lemma {:induction false} MeanwhileRevokesNone(g: UniversalAuthProgress, at: At)
    ensures Meanwhile(g, at).remote.revoked == g.remote.revoked && Meanwhile(g, at).remote.issued == g.remote.issued
  {
  }

  /** Publishing leaves the new client secret named by the output Secret, if it is still there. */
  lemma {:induction false} PublishedTracks(o: UniversalAuthObject, i: Infra, p: Id, g: UniversalAuthProgress, a: Answers, id: Id, value: string)
    requires Tracks(i, p, g) && g.created == Some(id) && id !in g.remote.revoked && id != ""
    ensures var h := Published(o, g, a, id, value);
      && Tracks(i, p, h) && h.created == Some(id) && h.status == g.status
      && (h.error.None? && h.remote.secret.Some? ==> h.remote.secret.value.annotation == id)
  {
    hide Meanwhile;
    var h := Meanwhile(g, a.reread);
    MeanwhileTracks(i, p, g, a.reread);
    MeanwhileRevokesNone(g, a.reread);
    var k := Meanwhile(h, a.publish);
    MeanwhileTracks(i, p, h, a.publish);
    MeanwhileRevokesNone(h, a.publish);
    OutputTracks(i, p, k, Output(o, h, id, value));
  }

  /** A revoked client secret that the output Secret does not name. */
  lemma {:induction false} RevokedTracks(i: Infra, p: Id, g: UniversalAuthProgress, id: Id)
    requires Tracks(i, p, g) && id in g.remote.issued
    requires g.remote.secret.Some? ==> g.remote.secret.value.annotation != id
    ensures Tracks(i, p, g.(remote := g.remote.(live := g.remote.live - {id}, revoked := g.remote.revoked + {id})))
  {
  }

  /** Revoking what is recorded is safe when the output Secret names something else. */
  lemma {:induction false} RetiredTracks(i: Infra, p: Id, g: UniversalAuthProgress, a: Answers, id: Id)
    requires Tracks(i, p, g) && g.error.None?
    requires g.remote.secret.Some? ==> g.remote.secret.value.annotation == id
    ensures var h := Retired(g, a, id);
      && Tracks(i, p, h) && h.created == g.created && h.status == g.status
      && (h.error.None? ==> g.status.rest.secretID in {"", id} || g.status.rest.secretID !in h.remote.live)
  {
    if g.status.rest.secretID !in {"", id} {
      MeanwhileTracks(i, p, g, a.revoke);
      RevokedTracks(i, p, Meanwhile(g, a.revoke), g.status.rest.secretID);
    }
  }

  lemma {:induction false} RotatedTracks(o: UniversalAuthObject, i: Infra, p: Id, g: UniversalAuthProgress, a: Answers)
    requires Tracks(i, p, g) && g.created.None? && g.error.None?
    ensures Tracks(i, p, Rotated(o, g, a))
  {
    MeanwhileTracks(i, p, g, a.create);
    var h := Meanwhile(g, a.create).(wrote := true);
    if !Unissued(h, a) && a.create.reply.Answered? {
      var made := Issued(h, a);
      PublishedTracks(o, i, p, made, a, a.secretID, a.value);
      var k := Published(o, made, a, a.secretID, a.value);
      if k.error.None? {
        RetiredTracks(i, p, k, a, a.secretID);
      }
    }
  }

  lemma {:induction false} CheckedTracks(o: UniversalAuthObject, i: Infra, p: Id, g: UniversalAuthProgress, a: Answers)
    requires Tracks(i, p, g) && g.created.None? && g.error.None?
    ensures Tracks(i, p, Checked(o, g, a, g.status.rest.secretID))
  {
    MeanwhileTracks(i, p, g, a.check);
    RotatedTracks(o, i, p, Meanwhile(g, a.check), a);
  }

  lemma {:induction false} RecoveredTracks(o: UniversalAuthObject, i: Infra, p: Id, g: UniversalAuthProgress, a: Answers)
    requires Tracks(i, p, g) && g.created.None? && g.error.None? && g.remote.secret.Some? && p == ""
    ensures Tracks(i, p, Recovered(o, g, a))
  {
    MeanwhileTracks(i, p, g, a.probe);
    var h := Meanwhile(g, a.probe);
    RotatedTracks(o, i, p, g, a);
    RotatedTracks(o, i, p, h, a);
    var id := g.remote.secret.value.annotation;
    if id in h.remote.live {
      CheckedTracks(o, i, p, h.(status := h.status.(rest := h.status.rest.(secretID := id, nonce := o.spec.nonce))), a);
    }
  }

  lemma {:induction false} EnsuredTracks(o: UniversalAuthObject, i: Infra, g: UniversalAuthProgress, a: Answers)
    requires Tracks(i, g.status.rest.secretID, g) && g.created.None? && g.error.None?
    ensures Tracks(i, g.status.rest.secretID, Ensured(o, g, a))
  {
    var p := g.status.rest.secretID;
    MeanwhileTracks(i, p, g, a.readSecret);
    var h := Meanwhile(g, a.readSecret);
    RotatedTracks(o, i, p, h, a);
    CheckedTracks(o, i, p, h, a);
    if h.remote.secret.Some? && p == "" {
      RecoveredTracks(o, i, p, h, a);
    }
  }

  /** A Universal Auth resource with the stores around it. */
  datatype World = World(o: UniversalAuthObject, i: Infra)

  function Recorded(w: World): Id {
    w.o.status.rest.secretID
  }

  predicate Proper(w: World) {
    Coherent(w.i) && Known(w.i, Recorded(w))
  }

  function Turned(w: World, a: Answers): World {
    var t := Reconcile(w.o, w.i, a);
    World(t.obj, t.remote)
  }

  /** What a reconcile did to the client secrets: issued at most one, kept no other alive, and
      stopped recording one only when it does not work any more. */
  predicate Accounts(w: World, v: World) {
    && Proper(v)
    && w.i.issued <= v.i.issued && |v.i.issued - w.i.issued| <= 1
    && v.i.live <= w.i.live + (v.i.issued - w.i.issued)
    && (Recorded(v) == Recorded(w) || Recorded(w) == "" || Recorded(w) !in v.i.live)
  }

  lemma {:induction false} TrackedAccounts(w: World, g: UniversalAuthProgress, v: World)
    requires Tracks(w.i, Recorded(w), g) && v.i == g.remote
    requires Recorded(v) == Recorded(w) || Recorded(v) == g.status.rest.secretID
    requires Known(w.i, Recorded(w))
    ensures Accounts(w, v) && Safe(v.i)
  {
    assert v.i.issued - w.i.issued == Made(g);
  }

  /** Nothing works any more once the auth method is gone. */
  lemma {:induction false} ClearedTracks(i: Infra, p: Id, g: UniversalAuthProgress)
    requires Tracks(i, p, g) && g.remote.auth.None?
    ensures Tracks(i, p, g.(status := g.status.(rest := g.status.rest.(secretID := ""))))
  {
  }

  lemma {:induction false} SettleKeeps(w: World, g: UniversalAuthProgress, a: Answers)
    requires Tracks(w.i, Recorded(w), g) && g.created.None? && g.error.None? && g.status.rest.secretID == Recorded(w)
    requires Known(w.i, Recorded(w))
    ensures var t := Settle(w.o, g, a); Accounts(w, World(t.obj, t.remote)) && Safe(t.remote)
  {
    hide Tracks, Accounts, Safe, Adjusted, Ensured, Interfere, Known;
    var p := Recorded(w);
    var t := Settle(w.o, g, a);
    var v := World(t.obj, t.remote);
    MeanwhileTracks(w.i, p, g, a.get);
    var h := Meanwhile(g, a.get);
    if a.get.reply.Failed? {
      TrackedAccounts(w, h, v);
    } else if h.remote.auth.None? {
      ClearedTracks(w.i, p, h);
      TrackedAccounts(w, h.(status := h.status.(rest := h.status.rest.(secretID := ""))), v);
    } else {
      AdjustedTracks(w.o, w.i, p, h, a);
      var k := Adjusted(w.o, h, a);
      if k.error.Some? {
        TrackedAccounts(w, k, v);
      } else {
        EnsuredTracks(w.o, w.i, k, a);
        TrackedAccounts(w, Ensured(w.o, k, a), v);
      }
    }
  }

  /** Every reconcile of a resource that is not being deleted keeps the published client secret
      safe, whatever fails and wherever it stops. */
  lemma {:induction false} ReconcileKeeps(w: World, a: Answers)
    requires Proper(w) && Safe(w.i) && !w.o.meta.deleting
    ensures Accounts(w, Turned(w, a)) && Safe(Turned(w, a).i)
  {
    var p := Recorded(w);
    var g := Start(w.o, w.i);
    var v := Turned(w, a);
    assert Tracks(w.i, p, g);
    if !Active(w.o) || !a.ready || !a.connected {
      TrackedAccounts(w, g, v);
    } else {
      AdoptedTracks(w.o, w.i, p, g, a);
      AcquiredTracks(w.o, w.i, p, Adopted(w.o, g, a), a);
      var h := Acquired(w.o, Adopted(w.o, g, a), a);
      if h.error.Some? {
        TrackedAccounts(w, h, v);
      } else {
        SettleKeeps(w, h, a);
      }
    }
  }

  /** No client secret more, and none that did not work before. */
  predicate Shrinks(i: Infra, j: Infra) {
    Coherent(j) && j.issued == i.issued && j.live <= i.live
  }

  lemma {:induction false} InterfereShrinks(x: Outside, i: Infra)
    requires Coherent(i)
    ensures Shrinks(i, Interfere(x, i))
  {
  }

  lemma {:induction false} RetiredShrinks(g: UniversalAuthProgress, a: Answers, id: Id)
    requires Coherent(g.remote) && Known(g.remote, g.status.rest.secretID)
    ensures Shrinks(g.remote, Retired(g, a, id).remote)
  {
    InterfereShrinks(a.revoke.outside, g.remote);
  }

  lemma {:induction false} DeletionStays(w: World, a: Answers)
    requires w.o.meta.deleting
    ensures Turned(w, a).o.meta.deleting
  {
  }

  /** Deleting the resource only revokes and detaches. */
  lemma {:induction false} RemoveAccounts(w: World, a: Answers)
    requires Proper(w) && w.o.meta.deleting
    ensures Accounts(w, Turned(w, a))
  {
    hide Retired, Interfere;
    RetiredShrinks(Start(w.o, w.i), a, "");
    var r := Retired(Start(w.o, w.i), a, "").remote;
    InterfereShrinks(a.detach.outside, r);
    var v := Turned(w, a);
    assert Shrinks(w.i, v.i) && Recorded(v) == Recorded(w);
    assert v.i.issued - w.i.issued == {};
  }

  /** What can happen to the world: a reconcile, an act of others, or an edit of the resource
      (of anything but its status; a request to delete cannot be taken back). */
  datatype Event = Reconciles(a: Answers) | Elsewhere(x: Outside) | Edits(o: UniversalAuthObject)

  function After(w: World, e: Event): World {
    match e
    case Reconciles(a) => Turned(w, a)
    case Elsewhere(x) => w.(i := Interfere(x, w.i))
    case Edits(o) => w.(o := o.(status := w.o.status, meta := o.meta.(deleting := w.o.meta.deleting || o.meta.deleting)))
  }

  function Run(w: World, es: seq<Event>): World {
    if es == [] then w else After(Run(w, es[..|es| - 1]), es[|es| - 1])
  }

  /** A reconcile that created a client secret whose ID did not get into the status. */
  predicate Interrupted(w: World, v: World) {
    v.i.issued != w.i.issued && Recorded(v) !in v.i.issued - w.i.issued
  }

  function Interruptions(w: World, es: seq<Event>): nat {
    if es == [] then 0
    else
      var before := Run(w, es[..|es| - 1]);
      Interruptions(w, es[..|es| - 1]) + if Interrupted(before, After(before, es[|es| - 1])) then 1 else 0
  }

  /** Working client secrets that the status does not record. */
  function Loose(w: World): set<Id> {
    w.i.live - {Recorded(w)}
  }

  lemma {:induction false} SubsetSize(a: set<Id>, b: set<Id>)
    requires a <= b
    ensures |a| <= |b|
  {
    assert |b| == |a| + |b - a| by {
      assert b == a + (b - a);
    }
  }

  lemma {:induction false} LooseGrowth(w: World, v: World)
    requires Proper(w) && Accounts(w, v)
    ensures |Loose(v)| <= |Loose(w)| + if Interrupted(w, v) then 1 else 0
  {
    var made := v.i.issued - w.i.issued;
    if made == {} {
      SubsetSize(Loose(v), Loose(w));
    } else {
      var id :| id in made;
      assert |made - {id}| == 0;
      assert made == {id};
      if Interrupted(w, v) {
        SubsetSize(Loose(v), Loose(w) + {id});
      } else {
        SubsetSize(Loose(v), Loose(w));
      }
    }
  }

  lemma {:induction false} StepAccounts(w: World, e: Event)
    requires Proper(w) && (w.o.meta.deleting || Safe(w.i))
    ensures Accounts(w, After(w, e)) && (After(w, e).o.meta.deleting || Safe(After(w, e).i))
  {
    hide Turned;
    match e
    case Reconciles(a) =>
      if w.o.meta.deleting {
        DeletionStays(w, a);
        RemoveAccounts(w, a);
      } else {
        ReconcileKeeps(w, a);
      }
    case Elsewhere(x) =>
      assert After(w, e).i.issued - w.i.issued == {};
    case Edits(o) =>
      assert After(w, e).i.issued - w.i.issued == {};
  }

  lemma {:induction false} RunProper(w: World, es: seq<Event>)
    requires Proper(w) && (w.o.meta.deleting || Safe(w.i))
    ensures Proper(Run(w, es)) && (Run(w, es).o.meta.deleting || Safe(Run(w, es).i))
  {
    if es != [] {
      RunProper(w, es[..|es| - 1]);
      StepAccounts(Run(w, es[..|es| - 1]), es[|es| - 1]);
    }
  }

  /** Publish before revoke: as long as the resource is not being deleted, the client secret
      that the published Secret names has never been revoked by the operator, at the end of any
      run. What holds between two effects of one reconcile is in UniversalAuthMoments. */
  lemma {:induction false} PublishedIsNeverRevoked(w: World, es: seq<Event>)
    requires Proper(w) && Safe(w.i) && !Run(w, es).o.meta.deleting
    ensures Safe(Run(w, es).i)
  {
    RunProper(w, es);
  }

  /** Leak accounting: over any run, the client secrets that work without being recorded grow
      by at most one for every reconcile that created one and did not record it. */
  lemma {:induction false} LeakBound(w: World, es: seq<Event>)
    requires Proper(w) && (w.o.meta.deleting || Safe(w.i))
    ensures |Loose(Run(w, es))| <= |Loose(w)| + Interruptions(w, es)
    ensures w.i.live == {} ==> |Run(w, es).i.live| <= 1 + Interruptions(w, es)
  {
    if es != [] {
      var before := Run(w, es[..|es| - 1]);
      RunProper(w, es[..|es| - 1]);
      LeakBound(w, es[..|es| - 1]);
      StepAccounts(before, es[|es| - 1]);
      LooseGrowth(before, Run(w, es));
    }
    var v := Run(w, es);
    assert v.i.live <= Loose(v) + {Recorded(v)};
    SubsetSize(v.i.live, Loose(v) + {Recorded(v)});
    assert |Loose(v) + {Recorded(v)}| <= |Loose(v)| + 1;
  }
}
