/** The Kubernetes Auth reconciler: direct service-account authentication of one identity. */
module KubernetesAuths {
  import opened Basics
  import opened Csv
  import opened Lifecycle

  /** Empty strings and None mean unset; `ca` and `jwt` say whether the Secret with the CA
      certificate and the one with the token-review JWT are referenced. */
  datatype Spec = Spec(
    namespaces: seq<string>, names: seq<string>, host: string, audience: string, mode: string,
    verify: Option<bool>, ca: bool, jwt: bool, trusted: Option<seq<string>>,
    ttl: Option<int>, maxTtl: Option<int>, uses: Option<int>)

  datatype KubernetesAuth = KubernetesAuth(
    id: Id, namespaces: string, names: string, host: string, audience: string, mode: string,
    verify: bool, ca: string, jwt: string, trusted: Option<seq<string>>,
    ttl: int, maxTtl: int, uses: int)

  /** The referenced Secret values; an unreferenced one is empty. */
  datatype Secrets = Secrets(ca: string, jwt: string)

  /** What the status shows besides the ID and the identity (the parent); a nil list is None. */
  datatype Shown = Shown(
    host: string, namespaces: Option<seq<string>>, names: Option<seq<string>>, audience: string, mode: string, verify: bool,
    ca: bool, jwt: bool, trusted: Option<seq<string>>, ttl: int, maxTtl: int, uses: int)

  /** Stored, empty lists are left out, and read back as none at all. */
  function Omit(shown: Shown): Shown {
    shown.(namespaces := Omitted(shown.namespaces), names := Omitted(shown.names), trusted := Omitted(shown.trusted))
  }

  /** The status is one that was stored. */
  predicate ReadBack(o: KubernetesAuthObject) {
    Omit(o.status.rest) == o.status.rest
  }

  type KubernetesAuthObject = Object<Spec, Shown>

  /** At most one Kubernetes Auth per identity. */
  type Store = map<Id, KubernetesAuth>

  /** `identity` is the observed identity ID: None when it could not be read, and empty when it
      is missing or has none yet; `addresses` says that all trusted addresses parse. */
  datatype Answers = Answers(
    finalizer: Reply, addresses: bool, identity: Option<Id>, connected: bool, find: Reply, secrets: Option<Secrets>,
    attach: Reply, id: Id, defaults: KubernetesAuth, get: Reply, update: Reply, patch: Reply, delete: Reply)

  type KubernetesAuthTurn = Turn<Spec, Shown, Store>
  type KubernetesAuthProgress = Progress<Shown, Store>

  function Mode(spec: Spec): string {
    if spec.mode == "" then "api" else spec.mode
  }

  predicate ValidSeconds(value: Option<int>) {
    value.Some? ==> 0 <= value.value <= 315360000
  }

  /** Trimmed, and without the four characters that are looked for inside. */
  predicate ValidHost(host: string) {
    Trimmed(host) && forall i :: 0 <= i < |host| ==> host[i] != ' ' && host[i] != '\t' && host[i] != '\r' && host[i] != '\n'
  }

  /** `validateKubernetesAuthSpec`, apart from the syntax of addresses. */
  predicate ValidSpec(spec: Spec) {
    && ValidValues(spec.namespaces) && ValidValues(spec.names)
    && ValidHost(spec.host)
    && (spec.mode == "" || spec.mode == "api")
    && (spec.verify.Some? ==> spec.verify.value == spec.ca)
    && ValidSeconds(spec.ttl) && ValidSeconds(spec.maxTtl)
    && (spec.uses.Some? ==> spec.uses.value >= 0)
  }

  function WhenSet(value: string): Option<string> {
    if value != "" then Some(value) else None
  }

  function When(set_: bool, value: string): Option<string> {
    if set_ then Some(value) else None
  }

  /** `kubernetesAuthNeedsUpdate`. */
  predicate NeedsUpdate(spec: Spec, k: KubernetesAuth, s: Secrets) {
    || k.namespaces != Print(spec.namespaces) || k.names != Print(spec.names)
    || Differs(WhenSet(spec.host), k.host) || Differs(WhenSet(spec.audience), k.audience)
    || (spec.mode != "" && k.mode != Mode(spec))
    || Differs(spec.verify, k.verify)
    || Differs(When(spec.ca, s.ca), k.ca) || Differs(When(spec.jwt, s.jwt), k.jwt)
    || (spec.trusted.Some? && k.trusted != spec.trusted)
    || Differs(spec.ttl, k.ttl) || Differs(spec.maxTtl, k.maxTtl) || Differs(spec.uses, k.uses)
  }

  /** What the server stores after `kubernetesAuthPatchFrom`: optional fields travel as
      pointers, so a set-but-empty list is sent; the review mode is always sent. */
  function Patched(spec: Spec, k: KubernetesAuth, s: Secrets): KubernetesAuth {
    KubernetesAuth(
      k.id, Print(spec.namespaces), Print(spec.names), Or(WhenSet(spec.host), k.host), Or(WhenSet(spec.audience), k.audience), Mode(spec),
      Or(spec.verify, k.verify), Or(When(spec.ca, s.ca), k.ca), Or(When(spec.jwt, s.jwt), k.jwt),
      if spec.trusted.Some? then spec.trusted else k.trusted,
      Or(spec.ttl, k.ttl), Or(spec.maxTtl, k.maxTtl), Or(spec.uses, k.uses))
  }

  /** What attaching stores: the defaults of the server, overridden by what the request has. A
      list that is set but empty is left out of this request. */
  function Attached(spec: Spec, a: Answers, s: Secrets): KubernetesAuth {
    Patched(if spec.trusted == Some([]) then spec.(trusted := None) else spec, a.defaults.(id := a.id), s)
  }

  /** `setKubernetesAuthObservedState`. */
  function Observe(o: KubernetesAuthObject, m: Status<Shown>, k: KubernetesAuth, identity: Id): Status<Shown> {
    Status(k.id, identity, o.meta.generation, m.ready, Show(k))
  }

  function Show(k: KubernetesAuth): Shown {
    Shown(k.host, Slice(k.namespaces), Slice(k.names), k.audience, k.mode, k.verify, k.ca != "", k.jwt != "",
          k.trusted, k.ttl, k.maxTtl, k.uses)
  }

  /** A list that the server holds is empty, or splits to nothing. */
  predicate AnyEmpty(k: KubernetesAuth) {
    k.trusted == Some([]) || SplitsToNothing(k.namespaces) || SplitsToNothing(k.names)
  }

  /** What is observed is not what is read back exactly when a list is empty. */
  lemma {:induction false} EmptyIsOmitted(k: KubernetesAuth)
    ensures Omit(Show(k)) != Show(k) <==> AnyEmpty(k)
  {
    var shown := Show(k);
    assert Omitted(shown.namespaces) == shown.namespaces <==> !SplitsToNothing(k.namespaces);
    assert Omitted(shown.names) == shown.names <==> !SplitsToNothing(k.names);
    assert Omitted(shown.trusted) == shown.trusted <==> k.trusted != Some([]);
  }

  /** The final observation. */
  function Observed(o: KubernetesAuthObject, g: KubernetesAuthProgress, k: KubernetesAuth, identity: Id): KubernetesAuthProgress {
    g.(status := Observe(o, g.status, k, identity))
  }

  /** Adopt what is attached; then, with the Secrets at hand, attach when nothing is. */
  function Acquire(o: KubernetesAuthObject, s: Store, a: Answers, identity: Id): KubernetesAuthProgress {
    var g := Start(o, s);
    if o.status.id == "" && o.creation.CanAdopt() && a.find.Failed? then g.(error := Some(ExternalReadFailed))
    else
      var h := if o.status.id == "" && o.creation.CanAdopt() && identity in s then g.(status := Observe(o, g.status, s[identity], identity)) else g;
      if a.secrets.None? then h.(error := Some(SecretNotReady))
      else if h.status.id != "" then h
      else if !o.creation.CanCreate() then h.(error := Some(CreationNotAllowed))
      else if !(identity !in s && a.id != "" && a.attach.Reached()) then h.(wrote := true, error := Some(ExternalCreateFailed))
      else
        var k := Attached(o.spec, a, a.secrets.value);
        var made := h.(remote := s[identity := k], created := Some(a.id), wrote := true);
        if a.attach.Failed? then made.(error := Some(ExternalCreateFailed))
        else made.(status := Observe(o, h.status, k, identity))
  }

  function Settle(o: KubernetesAuthObject, g: KubernetesAuthProgress, a: Answers, identity: Id): KubernetesAuthTurn
    requires a.secrets.Some?
  {
    if a.get.Failed? then Report(Omit, o, g, ExternalReadFailed, a.patch)
    else if identity !in g.remote then Forget(Omit, o, g, g.status.parent, g.status.rest, RemoteKubernetesAuthMissing, a.patch)
    else
      var k := g.remote[identity];
      if !NeedsUpdate(o.spec, k, a.secrets.value) then Succeed(Omit, o, Observed(o, g, k, identity), a.patch)
      else
        var p := Patched(o.spec, k, a.secrets.value);
        var h := g.(wrote := true, remote := if a.update.Reached() then g.remote[identity := p] else g.remote);
        if a.update.Failed? then Report(Omit, o, h, ExternalUpdateFailed, a.patch)
        else Succeed(Omit, o, Observed(o, h, p, identity), a.patch)
  }

  function Sync(o: KubernetesAuthObject, s: Store, a: Answers): KubernetesAuthTurn {
    if !(ValidSpec(o.spec) && a.addresses) then Report(Omit, o, Start(o, s), InvalidSpec, a.patch)
    else if a.identity.None? then Report(Omit, o, Start(o, s), IdentityReadFailed, a.patch)
    else if a.identity.value == "" then Report(Omit, o, Start(o, s), IdentityNotReady, a.patch)
    else if !a.connected then Report(Omit, o, Start(o, s), ConnectionNotReady, a.patch)
    else
      var g := Acquire(o, s, a, a.identity.value);
      if g.error.Some? then Report(Omit, o, g, g.error.value, a.patch)
      else Settle(o, g, a, a.identity.value)
  }

  /** `reconcileKubernetesAuthDeletion`: keyed by the identity. */
  function Remove(o: KubernetesAuthObject, s: Store, a: Answers): KubernetesAuthTurn {
    if o.deletion != Delete || o.status.parent == "" then Release(o, s, None, a.finalizer)
    else if !a.connected then Turn(o, s, Act(Releasing, None, None, false, false))
    else DeleteRemote(o, s, s - {o.status.parent}, a.delete, a.finalizer)
  }

  /** One reconcile of one Kubernetes Auth resource. */
  function Reconcile(o: KubernetesAuthObject, s: Store, a: Answers): KubernetesAuthTurn {
    if o.meta.gone then Skip(o, s)
    else if NeedsFinalizer(o) then AddFinalizer(o, s, a.finalizer)
    else if o.meta.deleting then Remove(o, s, a)
    else Sync(o, s, a)
  }

  /** Drift-patch law: the patch always satisfies the drift test, and leaves every unset field
      as it was, apart from the review mode, which becomes the default. */
  lemma {:induction false} PatchSettlesDrift(spec: Spec, k: KubernetesAuth, s: Secrets)
    ensures !NeedsUpdate(spec, Patched(spec, k, s), s)
    ensures var p := Patched(spec, k, s);
      && p.id == k.id && p.mode == Mode(spec)
      && (spec.host == "" ==> p.host == k.host) && (spec.audience == "" ==> p.audience == k.audience)
      && (spec.verify.None? ==> p.verify == k.verify) && (!spec.ca ==> p.ca == k.ca) && (!spec.jwt ==> p.jwt == k.jwt)
      && (spec.trusted.None? ==> p.trusted == k.trusted) && (spec.ttl.None? ==> p.ttl == k.ttl)
      && (spec.maxTtl.None? ==> p.maxTtl == k.maxTtl) && (spec.uses.None? ==> p.uses == k.uses)
  {
  }

  /** The allowlists that the patch stores are shown, when no value has a comma, as exactly the
      declared ones in sorted order. */
  lemma {:induction false} AllowlistsReadBack(spec: Spec, k: KubernetesAuth, s: Secrets)
    requires ValidSpec(spec)
    ensures var shown := Show(Patched(spec, k, s));
      && (shown.namespaces == Some(Sorting.Sort(spec.namespaces)) <==> forall i :: 0 <= i < |spec.namespaces| ==> ',' !in spec.namespaces[i])
      && (shown.names == Some(Sorting.Sort(spec.names)) <==> forall i :: 0 <= i < |spec.names| ==> ',' !in spec.names[i])
  {
    RoundTrip(spec.namespaces);
    RoundTrip(spec.names);
  }

  lemma {:induction false} AcquireCurrent(o: KubernetesAuthObject, s: Store, a: Answers, identity: Id)
    ensures Current(o, Acquire(o, s, a, identity))
  {
  }

  lemma {:induction false} SettleTimely(o: KubernetesAuthObject, g: KubernetesAuthProgress, a: Answers, identity: Id)
    requires a.secrets.Some? && Current(o, g)
    ensures Timely(o, Settle(o, g, a, identity).obj)
  {
    if a.get.Failed? {
      ReportTimely(Omit, o, g, ExternalReadFailed, a.patch);
    } else if identity !in g.remote {
      ForgetTimely(Omit, o, g, g.status.parent, g.status.rest, RemoteKubernetesAuthMissing, a.patch);
    } else {
      var k := g.remote[identity];
      if !NeedsUpdate(o.spec, k, a.secrets.value) {
        SucceedTimely(Omit, o, Observed(o, g, k, identity), a.patch);
      } else {
        CorrectedTimely(o, g, a, identity);
      }
    }
  }

  lemma {:induction false} CorrectedTimely(o: KubernetesAuthObject, g: KubernetesAuthProgress, a: Answers, identity: Id)
    requires a.secrets.Some? && Current(o, g) && a.get.Answered? && identity in g.remote
    requires NeedsUpdate(o.spec, g.remote[identity], a.secrets.value)
    ensures Timely(o, Settle(o, g, a, identity).obj)
  {
    var p := Patched(o.spec, g.remote[identity], a.secrets.value);
    var h := g.(wrote := true, remote := if a.update.Reached() then g.remote[identity := p] else g.remote);
    if a.update.Failed? {
      ReportTimely(Omit, o, h, ExternalUpdateFailed, a.patch);
    } else {
      SucceedTimely(Omit, o, Observed(o, h, p, identity), a.patch);
    }
  }

  lemma {:induction false} SyncTimely(o: KubernetesAuthObject, s: Store, a: Answers)
    ensures Timely(o, Sync(o, s, a).obj)
  {
    var reason := if !(ValidSpec(o.spec) && a.addresses) then InvalidSpec
                  else if a.identity.None? then IdentityReadFailed
                  else if a.identity.value == "" then IdentityNotReady else ConnectionNotReady;
    ReportTimely(Omit, o, Start(o, s), reason, a.patch);
    if a.identity.Some? {
      AcquireCurrent(o, s, a, a.identity.value);
      var g := Acquire(o, s, a, a.identity.value);
      if g.error.Some? {
        ReportTimely(Omit, o, g, g.error.value, a.patch);
      } else {
        SettleTimely(o, g, a, a.identity.value);
      }
    }
  }

  /** A reconcile keeps the generations in the status in order. */
  lemma {:induction false} ReconcileTimely(o: KubernetesAuthObject, s: Store, a: Answers)
    ensures Timely(o, Reconcile(o, s, a).obj)
  {
    if Active(o) {
      SyncTimely(o, s, a);
    }
  }

  /** The stored status shows the auth method that is attached to the identity, up to lists that
      are empty. */
  predicate Shows(o: KubernetesAuthObject, t: KubernetesAuthTurn, identity: Id) {
    && t.obj.status.ready == Some(Verdict(true, Reconciled, o.meta.generation))
    && t.obj.status.parent == identity && identity in t.remote && t.remote[identity].id == t.obj.status.id
    && Omit(t.obj.status.rest) == Omit(Show(t.remote[identity]))
  }

  lemma {:induction false} FinishShows(o: KubernetesAuthObject, g: KubernetesAuthProgress, k: KubernetesAuth, patch: Reply, identity: Id)
    requires patch.Reached() && identity in g.remote && g.remote[identity] == k
    ensures Shows(o, Succeed(Omit, o, Observed(o, g, k, identity), patch), identity)
  {
  }

  lemma {:induction false} SettleShows(o: KubernetesAuthObject, g: KubernetesAuthProgress, a: Answers, identity: Id)
    requires a.secrets.Some? && a.patch.Reached() && Settle(o, g, a, identity).act.outcome.Ready?
    ensures Shows(o, Settle(o, g, a, identity), identity)
  {
    var k := g.remote[identity];
    if NeedsUpdate(o.spec, k, a.secrets.value) {
      var p := Patched(o.spec, k, a.secrets.value);
      FinishShows(o, g.(wrote := true, remote := g.remote[identity := p]), p, a.patch, identity);
    } else {
      FinishShows(o, g, k, a.patch, identity);
    }
  }

  lemma {:induction false} SettleIsSound(o: KubernetesAuthObject, g: KubernetesAuthProgress, a: Answers, identity: Id)
    requires a.secrets.Some? && a.patch.Reached() && Settle(o, g, a, identity).act.outcome.Ready?
    ensures identity in Settle(o, g, a, identity).remote
    ensures !NeedsUpdate(o.spec, Settle(o, g, a, identity).remote[identity], a.secrets.value)
  {
    PatchSettlesDrift(o.spec, g.remote[identity], a.secrets.value);
  }

  /** Ready is sound: Kubernetes Auth is attached to the identity and nothing the spec wants
      differs from it. */
  lemma {:induction false} ReadyIsSound(o: KubernetesAuthObject, s: Store, a: Answers)
    requires Reconcile(o, s, a).act.outcome.Ready? && a.patch.Reached()
    ensures a.identity.Some? && a.secrets.Some? && Shows(o, Reconcile(o, s, a), a.identity.value)
    ensures !NeedsUpdate(o.spec, Reconcile(o, s, a).remote[a.identity.value], a.secrets.value)
  {
    hide Settle, Shows, NeedsUpdate;
    SettleShows(o, Acquire(o, s, a, a.identity.value), a, a.identity.value);
    SettleIsSound(o, Acquire(o, s, a, a.identity.value), a, a.identity.value);
  }

  /** What attaching stores needs no correction, unless a list is wanted empty that the server
      does not default to empty: that request leaves it out, unlike the patch. */
  lemma {:induction false} AttachedFits(spec: Spec, a: Answers, s: Secrets)
    ensures NeedsUpdate(spec, Attached(spec, a, s), s) <==> spec.trusted == Some([]) && a.defaults.trusted != Some([])
  {
  }

  lemma {:induction false} SettleLeavesMeta(o: KubernetesAuthObject, g: KubernetesAuthProgress, a: Answers, identity: Id)
    requires a.secrets.Some?
    ensures Settle(o, g, a, identity).obj.meta == o.meta
  {
  }

  lemma {:induction false} SyncLeavesMeta(o: KubernetesAuthObject, s: Store, a: Answers)
    ensures Sync(o, s, a).obj.meta == o.meta
  {
    if a.identity.Some? && a.secrets.Some? {
      SettleLeavesMeta(o, Acquire(o, s, a, a.identity.value), a, a.identity.value);
    }
  }

  /** With policy Delete the object disappears only once nothing is attached to the identity
      that its status names. */
  lemma {:induction false} GoneOnlyAfterDetach(o: KubernetesAuthObject, s: Store, a: Answers)
    requires o.deletion == Delete && o.status.parent != "" && !o.meta.gone && Reconcile(o, s, a).obj.meta.gone
    ensures Reconcile(o, s, a).remote == s - {o.status.parent}
  {
    SyncLeavesMeta(o, s, a);
  }

  /** What a reconcile stores has no empty list in it. */
  lemma {:induction false} StaysReadBack(o: KubernetesAuthObject, s: Store, a: Answers)
    requires ReadBack(o)
    ensures ReadBack(Reconcile(o, s, a).obj)
  {
    if Active(o) && a.identity.Some? {
      var g := Acquire(o, s, a, a.identity.value);
      if g.error.None? {
        SettleStaysReadBack(o, g, a, a.identity.value);
      }
    }
  }

  lemma {:induction false} SettleStaysReadBack(o: KubernetesAuthObject, g: KubernetesAuthProgress, a: Answers, identity: Id)
    requires ReadBack(o) && a.secrets.Some?
    ensures ReadBack(Settle(o, g, a, identity).obj)
  {
  }
}
