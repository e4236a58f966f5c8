/** The state a reconcile works on, changed step by step: the object that Kubernetes stores, the
    copy of its status in memory, and what is outside. The methods are the helpers that every
    reconciler shares. */
module Reconcilers {
  import opened Basics
  import opened Lifecycle

  class Reconciler<S, X(==), R> {
    var stored: Object<S, X>
    var status: Status<X>
    var remote: R
    var created: Option<Id>
    var wrote: bool

    /** What was outside after every single change. */
    ghost var past: seq<R>

    /** What is held between two calls. */
    function Held(): Progress<X, R>
      reads this
    {
      Progress(status, remote, created, wrote, None)
    }

    function Ended(act: Act): Turn<S, X, R>
      reads this
    {
      Turn(stored, remote, act)
    }

    constructor (o: Object<S, X>, r: R)
      ensures stored == o && Held() == Start(o, r) && past == []
    {
      stored, status, remote, created, wrote := o, o.status, r, None, false;
      past := [];
    }

    /** One change of what is outside; there is no other way to change it. */
    method Become(r: R)
      modifies `remote, `past
      ensures remote == r && past == old(past) + [r]
    {
      remote := r;
      past := past + [r];
    }

    /** The read that opens a reconcile. */
    method Load()
      modifies this`status, this`created, this`wrote
      ensures Held() == Start(stored, remote)
    {
      status, created, wrote := stored.status, None, false;
    }

    /** `persistStatus`. */
    method PersistStatus(omit: X -> X, before: Status<X>, reply: Reply)
      modifies this`stored, this`wrote
      ensures stored == Persist(omit, old(stored), before, status, reply) && wrote == (old(wrote) || status != before)
    {
      if status == before {
        return;
      }
      wrote := true;
      if reply.Reached() {
        stored := stored.(status := MergePatch(omit, before, status, stored.status));
      }
    }

    method SetReady(ok: bool, reason: Reason)
      modifies this`status
      ensures status == Judged(stored, old(status), ok, reason)
    {
      status := status.(ready := Some(Verdict(ok, reason, stored.meta.generation)));
    }

    /** The error helper of each reconciler. */
    method Fail(omit: X -> X, reason: Reason, patch: Reply) returns (act: Act)
      modifies `stored, `status, `wrote
      ensures Ended(act) == Report(omit, old(stored), old(Held()), reason, patch)
    {
      var before := status;
      status := status.(observed := stored.meta.generation);
      SetReady(false, reason);
      PersistStatus(omit, before, patch);
      act := Act(Reported, created, None, false, wrote);
    }

    /** The remote entity is gone. */
    method Lose(omit: X -> X, parent: Id, rest: X, reason: Reason, patch: Reply) returns (act: Act)
      modifies `stored, `status, `wrote
      ensures Ended(act) == Forget(omit, old(stored), old(Held()), parent, rest, reason, patch)
    {
      var before := status;
      status := status.(id := "", parent := parent, rest := rest, observed := stored.meta.generation);
      SetReady(false, reason);
      PersistStatus(omit, before, patch);
      act := Act(Missing, created, None, false, wrote);
    }

    /** `before` is the copy made when the reconcile began. */
    method Finish(omit: X -> X, before: Status<X>, patch: Reply) returns (act: Act)
      requires before == stored.status
      modifies `stored, `status, `wrote
      ensures Ended(act) == Succeed(omit, old(stored), old(Held()), patch)
    {
      SetReady(true, Reconciled);
      PersistStatus(omit, before, patch);
      act := Act(Ready, created, None, false, wrote);
    }

    /** `ensureFinalizer`. */
    method EnsureFinalizer(update: Reply) returns (added: bool, act: Act)
      modifies this`stored
      ensures added == !old(stored).meta.finalizer
      ensures added ==> Ended(act) == AddFinalizer(old(stored), remote, update)
      ensures !added ==> stored == old(stored)
    {
      act := Act(Finalizing, None, None, false, true);
      added := !stored.meta.finalizer;
      if added {
        stored := stored.(meta := stored.meta.(finalizer := update.Reached()));
      }
    }

    /** `removeFinalizer`. */
    method RemoveFinalizer(sent: Option<Id>, update: Reply) returns (act: Act)
      modifies this`stored
      ensures Ended(act) == Release(old(stored), remote, sent, update)
    {
      act := Act(Releasing, None, sent, sent.Some?, sent.Some? || stored.meta.finalizer);
      if stored.meta.finalizer && update.Reached() {
        stored := stored.(meta := stored.meta.(finalizer := false, gone := true));
      }
    }

    /** A delete call that leaves `removed`, and then the finalizer. */
    method DeleteThenRelease(removed: R, delete: Reply, update: Reply) returns (act: Act)
      modifies `stored, `remote, `past
      ensures Ended(act) == DeleteRemote(old(stored), old(remote), removed, delete, update)
      ensures past == old(past) + if delete.Reached() then [removed] else []
    {
      if delete.Reached() {
        Become(removed);
      }
      if delete.Failed? {
        return Act(Releasing, None, Some(stored.status.id), false, true);
      }
      act := RemoveFinalizer(Some(stored.status.id), update);
    }
  }
}
