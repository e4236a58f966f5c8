/** The Universal Auth reconciler as it runs, proved to do what `UniversalAuths.Reconcile` says:
    the client secret is created, published, the previous one revoked, and the new one recorded,
    in this order. What is outside is changed by `Become` alone, which keeps every moment, and
    the moments of each method are those that `UniversalAuthMoments` lists. */
module UniversalAuthController {
  import opened Basics
  import opened Lifecycle
  import opened UniversalAuths
  import opened UniversalAuthMoments
  import opened Reconcilers

  type Controller = Reconciler<Spec, Kept, Infra>

  /** Others act before a call. */
  method Await(c: Controller, at: At)
    modifies c`remote, c`past
    ensures c.remote == Interfere(at.outside, old(c.remote)) && c.past == old(c.past) + [c.remote]
  {
    c.Become(Interfere(at.outside, c.remote));
  }

  /** `setUniversalAuthObservedState`. */
  method SetObservedState(c: Controller, auth: Auth)
    modifies c`status
    ensures c.status == Observe(c.stored, old(c.status), auth)
  {
    c.status := c.status.(id := auth.id, parent := auth.identity, rest := c.status.rest.(clientID := auth.clientID, config := Some(auth.config)),
                          observed := c.stored.meta.generation);
  }

  /** The adopt and attach steps; `error` ends the reconcile. */
  method AcquireAuth(c: Controller, a: Answers) returns (error: Option<Reason>)
    requires c.Held() == Start(c.stored, c.remote)
    modifies c
    ensures c.stored == old(c.stored)
    ensures c.Held().(error := error) == Acquired(c.stored, Adopted(c.stored, Start(c.stored, old(c.remote)), a), a)
    ensures c.past == AcquiredMoments(c.stored, Adopted(c.stored, Start(c.stored, old(c.remote)), a), a,
      AdoptedMoments(c.stored, Start(c.stored, old(c.remote)), a, old(c.past)))
  {
    var creation := c.stored.creation;
    if c.status.id == "" && creation.CanAdopt() {
      Await(c, a.find);
      if a.find.reply.Failed? {
        return Some(ExternalReadFailed);
      }
      if c.remote.auth.Some? {
        if c.remote.auth.value.identity != c.remote.identity {
          return Some(ExternalAuthMismatch);
        }
        SetObservedState(c, c.remote.auth.value);
      } else if !creation.CanCreate() {
        return Some(RemoteAuthMissing);
      }
    }
    if c.status.id == "" {
      if !creation.CanCreate() {
        return Some(CreationNotAllowed);
      }
      Await(c, a.attach);
      c.wrote := true;
      if c.remote.auth.Some? || a.authID == "" || a.clientID == "" || !a.attach.reply.Reached() {
        return Some(ExternalCreateFailed);
      }
      var attached := Auth(a.authID, c.remote.identity, a.clientID, Patched(c.stored.spec.config, a.defaults));
      c.Become(c.remote.(auth := Some(attached)));
      if a.attach.reply.Failed? {
        return Some(ExternalCreateFailed);
      }
      SetObservedState(c, attached);
    }
    error := None;
  }

  /** The drift correction of the auth method that was just read. */
  method AdjustAuth(c: Controller, a: Answers) returns (error: Option<Reason>)
    requires c.remote.auth.Some?
    modifies c
    ensures c.stored == old(c.stored) && c.Held().(error := error) == Adjusted(c.stored, old(c.Held()), a)
    ensures c.past == AdjustedMoments(c.stored, old(c.Held()), a, old(c.past))
  {
    var current := c.remote.auth.value;
    if current.identity != c.remote.identity {
      return Some(ExternalAuthMismatch);
    }
    if NeedsUpdate(c.stored.spec.config, current.config) {
      Await(c, a.update);
      c.wrote := true;
      if c.remote.auth.None? || !a.update.reply.Reached() {
        return Some(ExternalUpdateFailed);
      }
      current := c.remote.auth.value.(config := Patched(c.stored.spec.config, c.remote.auth.value.config));
      c.Become(c.remote.(auth := Some(current)));
      if a.update.reply.Failed? {
        return Some(ExternalUpdateFailed);
      }
    }
    SetObservedState(c, current);
    error := None;
  }

  /** `ensureUniversalAuthClientSecret`. */
  method EnsureClientSecret(c: Controller, a: Answers) returns (error: Option<Reason>)
    modifies c
    ensures c.stored == old(c.stored) && c.Held().(error := error) == Ensured(c.stored, old(c.Held()), a)
    ensures c.past == EnsuredMoments(c.stored, old(c.Held()), a, old(c.past))
  {
    hide Rotated, RotatedMoments, Interfere;
    var spec := c.stored.spec;
    if !spec.named {
      return Some(ClientSecretNotReady);
    }
    var clientSecretID := c.status.rest.secretID;
    var needsRotation := clientSecretID == "" || c.status.rest.nonce != spec.nonce;
    Await(c, a.readSecret);
    if a.readSecret.reply.Failed? {
      return Some(ClientSecretNotReady);
    }
    if c.remote.secret.None? {
      needsRotation := true;
    } else if clientSecretID == "" {
      var published := c.remote.secret.value;
      clientSecretID := published.annotation;
      if clientSecretID != "" && Read(published.data, ClientIDKey(spec)) != "" && Read(published.data, ClientSecretKey(spec)) != "" {
        Await(c, a.probe);
        if a.probe.reply.Answered? && clientSecretID in c.remote.live {
          needsRotation := false;
          c.status := c.status.(rest := c.status.rest.(secretID := clientSecretID, nonce := spec.nonce));
        }
      }
    }
    if !needsRotation {
      Await(c, a.check);
      if a.check.reply.Failed? {
        return Some(ClientSecretNotReady);
      }
      if clientSecretID in c.remote.live {
        c.status := c.status.(rest := c.status.rest.(secretID := clientSecretID));
        return None;
      }
    }
    error := RotateClientSecret(c, a);
  }

  /** The rest of `ensureUniversalAuthClientSecret`: create, publish, revoke, record. */
  method RotateClientSecret(c: Controller, a: Answers) returns (error: Option<Reason>)
    modifies c
    ensures c.stored == old(c.stored) && c.Held().(error := error) == Rotated(c.stored, old(c.Held()), a)
    ensures c.past == RotatedMoments(c.stored, old(c.Held()), a, old(c.past))
  {
    Await(c, a.create);
    c.wrote := true;
    var r := c.remote;
    if r.auth.None? || !Usable(a.secretID, r.issued) || a.value == "" || !a.create.reply.Reached() {
      return Some(ClientSecretNotReady);
    }
    c.created := Some(a.secretID);
    c.Become(r.(live := r.live + {a.secretID}, issued := r.issued + {a.secretID}, values := r.values[a.secretID := a.value]));
    if a.create.reply.Failed? {
      return Some(ClientSecretNotReady);
    }
    error := PublishSecret(c, a, a.secretID, a.value);
    if error.Some? {
      return;
    }
    error := RevokePrevious(c, a, a.secretID);
    if error.Some? {
      return;
    }
    c.status := c.status.(rest := c.status.rest.(secretID := a.secretID, nonce := c.stored.spec.nonce));
  }

  /** `publishUniversalAuthSecret`. */
  method PublishSecret(c: Controller, a: Answers, id: Id, value: string) returns (error: Option<Reason>)
    modifies c`remote, c`past
    ensures c.Held().(error := error) == Published(c.stored, old(c.Held()), a, id, value)
    ensures c.past == PublishedMoments(c.stored, old(c.Held()), a, id, value, old(c.past))
  {
    Await(c, a.reread);
    if a.reread.reply.Failed? {
      return Some(ClientSecretNotReady);
    }
    var data: map<string, string> := map[];
    var update := c.remote.secret.Some?;
    if update {
      if c.remote.secret.value.foreign {
        return Some(ClientSecretNotReady);
      }
      data := c.remote.secret.value.data;
    }
    data := data[ClientIDKey(c.stored.spec) := c.status.rest.clientID];
    data := data[ClientSecretKey(c.stored.spec) := value];
    Await(c, a.publish);
    if (update && c.remote.secret.None?) || !a.publish.reply.Reached() {
      return Some(ClientSecretNotReady);
    }
    c.Become(c.remote.(secret := Some(Secret(data, id, false))));
    error := if a.publish.reply.Failed? then Some(ClientSecretNotReady) else None;
  }

  /** `RevokeUniversalAuthClientSecret` of the client secret that the status still records. */
  method RevokePrevious(c: Controller, a: Answers, id: Id) returns (error: Option<Reason>)
    modifies c`remote, c`past
    ensures c.Held().(error := error) == Retired(old(c.Held()), a, id)
    ensures c.past == RetiredMoments(old(c.Held()), a, id, old(c.past))
  {
    var previous := c.status.rest.secretID;
    if previous == "" || previous == id {
      return None;
    }
    Await(c, a.revoke);
    if a.revoke.reply.Reached() {
      c.Become(c.remote.(live := c.remote.live - {previous}, revoked := c.remote.revoked + {previous}));
    }
    error := if a.revoke.reply.Failed? then Some(ClientSecretNotReady) else None;
  }

  /** The read-back and everything after it. */
  method SettleAuth(c: Controller, a: Answers, before: Status<Kept>) returns (act: Act)
    requires before == c.stored.status
    modifies c
    ensures c.Ended(act) == Settle(old(c.stored), old(c.Held()), a)
    ensures c.past == SettleMoments(old(c.stored), old(c.Held()), a, old(c.past))
  {
    hide Adjusted, Ensured, AdjustedMoments, EnsuredMoments, Interfere;
    Await(c, a.get);
    if a.get.reply.Failed? {
      act := c.Fail(Omit, ExternalReadFailed, a.patch);
      return;
    }
    if c.remote.auth.None? {
      act := ForgetAuth(c, a.patch);
      return;
    }
    var error := AdjustAuth(c, a);
    if error.None? {
      error := EnsureClientSecret(c, a);
    }
    if error.Some? {
      act := c.Fail(Omit, error.value, a.patch);
      return;
    }
    act := c.Finish(Omit, before, a.patch);
  }

  /** `clearUniversalAuthStatus` and what follows it: the observed generation stays. */
  method ForgetAuth(c: Controller, patch: Reply) returns (act: Act)
    modifies c
    ensures c.Ended(act) == Forgotten(old(c.stored), old(c.Held()), patch)
    ensures c.past == old(c.past)
  {
    var before := c.status;
    c.status := c.status.(id := "", parent := "", rest := CLEARED);
    c.SetReady(false, RemoteAuthMissing);
    c.PersistStatus(Omit, before, patch);
    act := Act(Missing, c.created, None, false, c.wrote);
  }

  /** `Reconcile`. */
  method ReconcileAuth(c: Controller, a: Answers) returns (act: Act)
    modifies c
    ensures c.Ended(act) == Reconcile(old(c.stored), old(c.remote), a)
    ensures c.past == Moments(old(c.stored), old(c.remote), a, old(c.past))
  {
    c.Load();
    if c.stored.meta.gone {
      return Act(Idle, None, None, false, false);
    }
    if !c.stored.meta.deleting && c.stored.deletion == Delete {
      var added: bool;
      added, act := c.EnsureFinalizer(a.finalizer);
      if added {
        return;
      }
    }
    if c.stored.meta.deleting {
      act := ReconcileDeletion(c, a);
      return;
    }
    act := SyncAuth(c, a);
  }

  method SyncAuth(c: Controller, a: Answers) returns (act: Act)
    requires c.Held() == Start(c.stored, c.remote)
    modifies c
    ensures c.Ended(act) == Sync(old(c.stored), old(c.remote), a)
    ensures c.past == SyncMoments(old(c.stored), old(c.remote), a, old(c.past))
  {
    var before := c.status;
    if !a.ready {
      act := c.Fail(Omit, IdentityNotReady, a.patch);
      return;
    }
    if !a.connected {
      act := c.Fail(Omit, ConnectionNotReady, a.patch);
      return;
    }
    var error := AcquireAuth(c, a);
    if error.Some? {
      act := c.Fail(Omit, error.value, a.patch);
      return;
    }
    act := SettleAuth(c, a, before);
  }

  /** `reconcileUniversalAuthDeletion`. */
  method ReconcileDeletion(c: Controller, a: Answers) returns (act: Act)
    requires c.Held() == Start(c.stored, c.remote)
    modifies c
    ensures c.Ended(act) == Remove(old(c.stored), old(c.remote), a)
    ensures c.past == RemoveMoments(old(c.stored), old(c.remote), a, old(c.past))
  {
    if c.stored.deletion != Delete || c.status.parent == "" {
      act := c.RemoveFinalizer(None, a.finalizer);
      return;
    }
    if !a.connected {
      return Act(Releasing, None, None, false, false);
    }
    var error := RevokePrevious(c, a, "");
    if error.Some? {
      return Act(Releasing, None, None, false, true);
    }
    if c.status.id == "" {
      act := c.RemoveFinalizer(None, a.finalizer);
      return;
    }
    Await(c, a.detach);
    act := c.DeleteThenRelease(c.remote.(auth := None, live := {}), a.detach.reply, a.finalizer);
  }
}
