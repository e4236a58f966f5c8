/** The Universal Auth reconciler of one identity: the auth method, and the protocol that
    creates a client secret, publishes it in a Kubernetes Secret, revokes the previous one and
    records the new one in the status. */
module UniversalAuths {
  import opened Basics
  import opened Lifecycle

  /** None is unset; a list may also be set and empty. */
  datatype ConfigSpec = ConfigSpec(
    secretIPs: Option<seq<string>>, tokenIPs: Option<seq<string>>,
    ttl: Option<int>, maxTtl: Option<int>, uses: Option<int>, period: Option<int>,
    lockout: Option<bool>, threshold: Option<int>, duration: Option<int>, reset: Option<int>)

  datatype Config = Config(
    secretIPs: Option<seq<string>>, tokenIPs: Option<seq<string>>,
    ttl: int, maxTtl: int, uses: int, period: int, lockout: bool, threshold: int, duration: int, reset: int)

  /** `named` says that the reference to the output Secret is not blank. */
  datatype Spec = Spec(config: Option<ConfigSpec>, named: bool, clientIDKey: string, clientSecretKey: string, nonce: string)

  datatype Auth = Auth(id: Id, identity: Id, clientID: Id, config: Config)

  /** The output Secret: its data, the annotation that names the client secret (empty when it
      has none), and whether another resource controls it. */
  datatype Secret = Secret(data: map<string, string>, annotation: Id, foreign: bool)

  /** What the status keeps besides the auth ID and the identity (the parent); the settings
      are a copy of those observed. */
  datatype Kept = Kept(clientID: Id, secretID: Id, nonce: string, config: Option<Config>)

  /** Stored, empty lists are left out, and read back as none at all. */
  function Omit(kept: Kept): Kept {
    kept.(config := if kept.config.Some? then Some(Lean(kept.config.value)) else None)
  }

  function Lean(c: Config): Config {
    c.(secretIPs := Omitted(c.secretIPs), tokenIPs := Omitted(c.tokenIPs))
  }

  /** The status is one that was stored. */
  predicate ReadBack(o: UniversalAuthObject) {
    Omit(o.status.rest) == o.status.rest
  }

  const CLEARED := Kept("", "", "", None)

  type UniversalAuthObject = Object<Spec, Kept>

  /** Everything outside the resource: the output Secret, the auth method, and the client
      secrets created by the operator: those that still work, all ever issued, those that the
      operator has asked to revoke, and their values. */
  datatype Infra = Infra(
    identity: Id, secret: Option<Secret>, auth: Option<Auth>,
    live: set<Id>, issued: set<Id>, revoked: set<Id>, values: map<Id, string>)

  /** What others do just before a call: revoke client secrets, delete the output Secret,
      replace or remove the auth method (and with it its client secrets), change its settings. */
  datatype Outside = Outside(revoke: set<Id>, dropSecret: bool, auth: Option<Option<Auth>>, config: Option<Config>)

  const NOTHING := Outside({}, false, None, None)

  function Interfere(x: Outside, i: Infra): Infra {
    var j := i.(live := i.live - x.revoke, secret := if x.dropSecret then None else i.secret);
    var k := if x.auth.Some? then j.(auth := x.auth.value, live := {}) else j;
    if x.config.Some? && k.auth.Some? then k.(auth := Some(k.auth.value.(config := x.config.value))) else k
  }

  /** One call: what others do first, and the answer. */
  datatype At = At(outside: Outside, reply: Reply)

  datatype Answers = Answers(
    finalizer: Reply, ready: bool, connected: bool,
    find: At, attach: At, authID: Id, clientID: Id, defaults: Config, get: At, update: At,
    readSecret: At, probe: At, check: At, create: At, secretID: Id, value: string,
    reread: At, publish: At, revoke: At, patch: Reply, detach: At)

  type UniversalAuthTurn = Turn<Spec, Kept, Infra>
  type UniversalAuthProgress = Progress<Kept, Infra>

  /** `universalAuthSecretKey`. */
  function ClientIDKey(spec: Spec): string {
    if spec.clientIDKey != "" then spec.clientIDKey else "clientId"
  }

  function ClientSecretKey(spec: Spec): string {
    if spec.clientSecretKey != "" then spec.clientSecretKey else "clientSecret"
  }

  /** `universalAuthConfigNeedsUpdate`. */
  predicate NeedsUpdate(spec: Option<ConfigSpec>, c: Config) {
    spec.Some? && (
      var s := spec.value;
      || (s.secretIPs.Some? && s.secretIPs != c.secretIPs) || (s.tokenIPs.Some? && s.tokenIPs != c.tokenIPs)
      || Differs(s.ttl, c.ttl) || Differs(s.maxTtl, c.maxTtl) || Differs(s.uses, c.uses) || Differs(s.period, c.period)
      || Differs(s.lockout, c.lockout) || Differs(s.threshold, c.threshold) || Differs(s.duration, c.duration) || Differs(s.reset, c.reset))
  }

  /** A list travels as a plain slice that is left out when empty. */
  function SentList(wanted: Option<seq<string>>, current: Option<seq<string>>): Option<seq<string>> {
    if wanted.Some? && wanted.value != [] then wanted else current
  }

  /** What the server stores after a request built from the spec. */
  function Patched(spec: Option<ConfigSpec>, c: Config): Config {
    if spec.None? then c
    else
      var s := spec.value;
      Config(SentList(s.secretIPs, c.secretIPs), SentList(s.tokenIPs, c.tokenIPs),
             Or(s.ttl, c.ttl), Or(s.maxTtl, c.maxTtl), Or(s.uses, c.uses), Or(s.period, c.period),
             Or(s.lockout, c.lockout), Or(s.threshold, c.threshold), Or(s.duration, c.duration), Or(s.reset, c.reset))
  }

  /** A list that is wanted empty and is not. */
  predicate Stuck(wanted: Option<seq<string>>, current: Option<seq<string>>) {
    wanted == Some([]) && current != Some([])
  }

  /** A list of the settings is wanted empty and is not. */
  predicate AnyStuck(spec: Option<ConfigSpec>, c: Config) {
    spec.Some? && (Stuck(spec.value.secretIPs, c.secretIPs) || Stuck(spec.value.tokenIPs, c.tokenIPs))
  }

  /** Drift-patch law: after the request the drift test is false, except exactly when a list
      that is wanted empty is not; unset fields keep their values. */
  lemma {:induction false} PatchSettlesDrift(spec: Option<ConfigSpec>, c: Config)
    ensures NeedsUpdate(spec, Patched(spec, c)) <==> AnyStuck(spec, c)
    ensures spec.None? ==> Patched(spec, c) == c
    ensures spec.Some? ==>
      var s, p := spec.value, Patched(spec, c);
      && (s.secretIPs.None? ==> p.secretIPs == c.secretIPs) && (s.tokenIPs.None? ==> p.tokenIPs == c.tokenIPs)
      && (s.ttl.None? ==> p.ttl == c.ttl) && (s.maxTtl.None? ==> p.maxTtl == c.maxTtl)
      && (s.uses.None? ==> p.uses == c.uses) && (s.period.None? ==> p.period == c.period)
      && (s.lockout.None? ==> p.lockout == c.lockout) && (s.threshold.None? ==> p.threshold == c.threshold)
      && (s.duration.None? ==> p.duration == c.duration) && (s.reset.None? ==> p.reset == c.reset)
  {
  }

  /** Every setting that can be sent is as wanted; then all are, except exactly a list that is
      wanted empty and is not. */
  predicate AsWanted(spec: Option<ConfigSpec>, c: Config) {
    Patched(spec, c) == c && (NeedsUpdate(spec, c) <==> AnyStuck(spec, c))
  }

  lemma {:induction false} PatchedIsAsWanted(spec: Option<ConfigSpec>, c: Config)
    ensures AsWanted(spec, Patched(spec, c))
    ensures !NeedsUpdate(spec, c) ==> AsWanted(spec, c)
  {
  }

  /** `setUniversalAuthObservedState`. */
  function Observe(o: UniversalAuthObject, m: Status<Kept>, auth: Auth): Status<Kept> {
    Status(auth.id, auth.identity, o.meta.generation, m.ready, m.rest.(clientID := auth.clientID, config := Some(auth.config)))
  }

  function Fails(g: UniversalAuthProgress, reason: Reason): UniversalAuthProgress {
    g.(error := Some(reason))
  }

  function Meanwhile(g: UniversalAuthProgress, at: At): UniversalAuthProgress {
    g.(remote := Interfere(at.outside, g.remote))
  }

  /** Adopt what is attached. */
  function Adopted(o: UniversalAuthObject, g0: UniversalAuthProgress, a: Answers): UniversalAuthProgress {
    if o.status.id != "" || !o.creation.CanAdopt() then g0
    else
      var g := Meanwhile(g0, a.find);
      if a.find.reply.Failed? then Fails(g, ExternalReadFailed)
      else if g.remote.auth.None? then (if o.creation.CanCreate() then g else Fails(g, RemoteAuthMissing))
      else if g.remote.auth.value.identity != g.remote.identity then Fails(g, ExternalAuthMismatch)
      else g.(status := Observe(o, g.status, g.remote.auth.value))
  }

  /** Attach when nothing is; the server refuses a second auth method. */
  function Acquired(o: UniversalAuthObject, g0: UniversalAuthProgress, a: Answers): UniversalAuthProgress {
    if g0.error.Some? || g0.status.id != "" then g0
    else if !o.creation.CanCreate() then Fails(g0, CreationNotAllowed)
    else
      var g := Meanwhile(g0, a.attach).(wrote := true);
      var auth := Auth(a.authID, g.remote.identity, a.clientID, Patched(o.spec.config, a.defaults));
      if g.remote.auth.Some? || a.authID == "" || a.clientID == "" || !a.attach.reply.Reached() then Fails(g, ExternalCreateFailed)
      else
        var h := g.(remote := g.remote.(auth := Some(auth)));
        if a.attach.reply.Failed? then Fails(h, ExternalCreateFailed) else h.(status := Observe(o, g.status, auth))
  }

  /** Correct drift in the settings just read. */
  function Adjusted(o: UniversalAuthObject, g0: UniversalAuthProgress, a: Answers): UniversalAuthProgress
    requires g0.remote.auth.Some?
  {
    if g0.remote.auth.value.identity != g0.remote.identity then Fails(g0, ExternalAuthMismatch)
    else if !NeedsUpdate(o.spec.config, g0.remote.auth.value.config) then g0.(status := Observe(o, g0.status, g0.remote.auth.value))
    else
      var g := Meanwhile(g0, a.update).(wrote := true);
      if g.remote.auth.None? || !a.update.reply.Reached() then Fails(g, ExternalUpdateFailed)
      else
        var auth := g.remote.auth.value.(config := Patched(o.spec.config, g.remote.auth.value.config));
        var h := g.(remote := g.remote.(auth := Some(auth)));
        if a.update.reply.Failed? then Fails(h, ExternalUpdateFailed) else h.(status := Observe(o, g.status, auth))
  }

  /** `ensureUniversalAuthClientSecret`. */
  function Ensured(o: UniversalAuthObject, g0: UniversalAuthProgress, a: Answers): UniversalAuthProgress {
    if !o.spec.named then Fails(g0, ClientSecretNotReady)
    else
      var g := Meanwhile(g0, a.readSecret);
      var held := g.status.rest.secretID;
      if a.readSecret.reply.Failed? then Fails(g, ClientSecretNotReady)
      else if g.remote.secret.None? then Rotated(o, g, a)
      else if held == "" then Recovered(o, g, a)
      else if g.status.rest.nonce != o.spec.nonce then Rotated(o, g, a)
      else Checked(o, g, a, held)
  }

  /** The status records the client secret that the published Secret names. */
  function TakenOver(o: UniversalAuthObject, g: UniversalAuthProgress, id: Id): UniversalAuthProgress {
    g.(status := g.status.(rest := g.status.rest.(secretID := id, nonce := o.spec.nonce)))
  }

  /** No client secret recorded: the one that the published Secret names is taken over when
      its data is there and it still works. */
  function Recovered(o: UniversalAuthObject, g0: UniversalAuthProgress, a: Answers): UniversalAuthProgress
    requires g0.remote.secret.Some?
  {
    var published := g0.remote.secret.value;
    if published.annotation == "" || Read(published.data, ClientIDKey(o.spec)) == "" || Read(published.data, ClientSecretKey(o.spec)) == "" then
      Rotated(o, g0, a)
    else
      var g := Meanwhile(g0, a.probe);
      if a.probe.reply.Answered? && published.annotation in g.remote.live then
        Checked(o, TakenOver(o, g, published.annotation), a, published.annotation)
      else Rotated(o, g, a)
  }

  /** The recorded client secret still works, or is replaced. */
  function Checked(o: UniversalAuthObject, g0: UniversalAuthProgress, a: Answers, id: Id): UniversalAuthProgress {
    var g := Meanwhile(g0, a.check);
    if a.check.reply.Failed? then Fails(g, ClientSecretNotReady)
    else if id in g.remote.live then g.(status := g.status.(rest := g.status.rest.(secretID := id)))
    else Rotated(o, g, a)
  }

  /** The server refuses to create a client secret, or the call does not get to it. */
  predicate Unissued(g: UniversalAuthProgress, a: Answers) {
    g.remote.auth.None? || !Usable(a.secretID, g.remote.issued) || a.value == "" || !a.create.reply.Reached()
  }

  /** A client secret more. */
  function Issued(g: UniversalAuthProgress, a: Answers): UniversalAuthProgress {
    var r := g.remote;
    g.(created := Some(a.secretID),
       remote := r.(live := r.live + {a.secretID}, issued := r.issued + {a.secretID}, values := r.values[a.secretID := a.value]))
  }

  /** Create, publish, revoke, record. */
  function Rotated(o: UniversalAuthObject, g0: UniversalAuthProgress, a: Answers): UniversalAuthProgress {
    var g := Meanwhile(g0, a.create).(wrote := true);
    if Unissued(g, a) then Fails(g, ClientSecretNotReady)
    else
      var made := Issued(g, a);
      if a.create.reply.Failed? then Fails(made, ClientSecretNotReady)
      else
        var p := Published(o, made, a, a.secretID, a.value);
        if p.error.Some? then p
        else
          var h := Retired(p, a, a.secretID);
          if h.error.Some? then h
          else h.(status := h.status.(rest := h.status.rest.(secretID := a.secretID, nonce := o.spec.nonce)))
  }

  /** `publishUniversalAuthSecret`: read again, then create or update. An update of a Secret
      that has meanwhile been deleted fails. */
  function Published(o: UniversalAuthObject, g0: UniversalAuthProgress, a: Answers, id: Id, value: string): UniversalAuthProgress {
    var g := Meanwhile(g0, a.reread);
    if a.reread.reply.Failed? then Fails(g, ClientSecretNotReady)
    else if g.remote.secret.Some? && g.remote.secret.value.foreign then Fails(g, ClientSecretNotReady)
    else Written(Meanwhile(g, a.publish), Output(o, g, id, value), g.remote.secret.Some?, a.publish.reply)
  }

  /** The output Secret as it is to be: other data is kept. */
  function Output(o: UniversalAuthObject, g: UniversalAuthProgress, id: Id, value: string): Secret {
    var data := if g.remote.secret.Some? then g.remote.secret.value.data else map[];
    Secret(data[ClientIDKey(o.spec) := g.status.rest.clientID][ClientSecretKey(o.spec) := value], id, false)
  }

  function Written(g: UniversalAuthProgress, output: Secret, update: bool, reply: Reply): UniversalAuthProgress {
    if (update && g.remote.secret.None?) || !reply.Reached() then Fails(g, ClientSecretNotReady)
    else
      var h := g.(remote := g.remote.(secret := Some(output)));
      if reply.Failed? then Fails(h, ClientSecretNotReady) else h
  }

  /** Revoke the client secret that the status still records. */
  function Retired(g0: UniversalAuthProgress, a: Answers, id: Id): UniversalAuthProgress {
    var previous := g0.status.rest.secretID;
    if previous == "" || previous == id then g0
    else
      var g := Meanwhile(g0, a.revoke);
      var h := if a.revoke.reply.Reached() then g.(remote := g.remote.(live := g.remote.live - {previous}, revoked := g.remote.revoked + {previous})) else g;
      if a.revoke.reply.Failed? then Fails(h, ClientSecretNotReady) else h
  }

  /** The auth method is gone: the status is cleared, but not its observed generation. */
  function Forgotten(o: UniversalAuthObject, g: UniversalAuthProgress, patch: Reply): UniversalAuthTurn {
    var after := Judged(o, Status("", "", g.status.observed, g.status.ready, CLEARED), false, RemoteAuthMissing);
    Turn(Persist(Omit, o, g.status, after, patch), g.remote, Act(Missing, g.created, None, false, g.wrote || after != g.status))
  }

  /** A list of the settings that the server holds is empty. */
  predicate AnyEmpty(c: Config) {
    c.secretIPs == Some([]) || c.tokenIPs == Some([])
  }

  /** What is observed is not what is read back exactly when a list is empty. */
  lemma {:induction false} EmptyIsOmitted(c: Config)
    ensures Lean(c) != c <==> AnyEmpty(c)
  {
    assert Omitted(c.secretIPs) == c.secretIPs <==> c.secretIPs != Some([]);
    assert Omitted(c.tokenIPs) == c.tokenIPs <==> c.tokenIPs != Some([]);
  }

  function Settle(o: UniversalAuthObject, g0: UniversalAuthProgress, a: Answers): UniversalAuthTurn {
    var g := Meanwhile(g0, a.get);
    if a.get.reply.Failed? then Report(Omit, o, g, ExternalReadFailed, a.patch)
    else if g.remote.auth.None? then Forgotten(o, g, a.patch)
    else
      var h := Adjusted(o, g, a);
      if h.error.Some? then Report(Omit, o, h, h.error.value, a.patch)
      else
        var k := Ensured(o, h, a);
        if k.error.Some? then Report(Omit, o, k, k.error.value, a.patch) else Succeed(Omit, o, k, a.patch)
  }

  function Sync(o: UniversalAuthObject, i: Infra, a: Answers): UniversalAuthTurn {
    if !a.ready then Report(Omit, o, Start(o, i), IdentityNotReady, a.patch)
    else if !a.connected then Report(Omit, o, Start(o, i), ConnectionNotReady, a.patch)
    else
      var g := Acquired(o, Adopted(o, Start(o, i), a), a);
      if g.error.Some? then Report(Omit, o, g, g.error.value, a.patch) else Settle(o, g, a)
  }

  /** `reconcileUniversalAuthDeletion`: revoke, detach, let the object go. */
  function Remove(o: UniversalAuthObject, i: Infra, a: Answers): UniversalAuthTurn {
    if o.deletion != Delete || o.status.parent == "" then Release(o, i, None, a.finalizer)
    else if !a.connected then Turn(o, i, Act(Releasing, None, None, false, false))
    else
      var g := Retired(Start(o, i), a, "");
      if g.error.Some? then Turn(o, g.remote, Act(Releasing, None, None, false, true))
      else if o.status.id == "" then Release(o, g.remote, None, a.finalizer)
      else
        var r := Interfere(a.detach.outside, g.remote);
        DeleteRemote(o, r, r.(auth := None, live := {}), a.detach.reply, a.finalizer)
  }

  /** One reconcile of one Universal Auth resource. */
  function Reconcile(o: UniversalAuthObject, i: Infra, a: Answers): UniversalAuthTurn {
    if o.meta.gone then Skip(o, i)
    else if NeedsFinalizer(o) then AddFinalizer(o, i, a.finalizer)
    else if o.meta.deleting then Remove(o, i, a)
    else Sync(o, i, a)
  }

  /** Looking after the client secret touches nothing else in the status. */
  predicate OnlyRest(g: UniversalAuthProgress, h: UniversalAuthProgress) {
    h.status == g.status.(rest := h.status.rest) && h.status.rest.clientID == g.status.rest.clientID && h.status.rest.config == g.status.rest.config
  }

  lemma {:induction false} RotatedOnlyRest(o: UniversalAuthObject, g: UniversalAuthProgress, a: Answers)
    ensures OnlyRest(g, Rotated(o, g, a))
  {
  }

  lemma {:induction false} EnsuredOnlyRest(o: UniversalAuthObject, g: UniversalAuthProgress, a: Answers)
    ensures OnlyRest(g, Ensured(o, g, a))
  {
    var h := Meanwhile(g, a.readSecret);
    RotatedOnlyRest(o, h, a);
    RotatedOnlyRest(o, Meanwhile(h, a.check), a);
    if h.remote.secret.Some? && h.status.rest.secretID == "" {
      RecoveredOnlyRest(o, h, a);
    }
  }

  lemma {:induction false} RecoveredOnlyRest(o: UniversalAuthObject, g: UniversalAuthProgress, a: Answers)
    requires g.remote.secret.Some?
    ensures OnlyRest(g, Recovered(o, g, a))
  {
    var h := Meanwhile(g, a.probe);
    RotatedOnlyRest(o, g, a);
    RotatedOnlyRest(o, h, a);
    var k := h.(status := h.status.(rest := h.status.rest.(secretID := g.remote.secret.value.annotation, nonce := o.spec.nonce)));
    RotatedOnlyRest(o, Meanwhile(k, a.check), a);
  }

  lemma {:induction false} ForgottenTimely(o: UniversalAuthObject, g: UniversalAuthProgress, patch: Reply)
    requires Current(o, g)
    ensures Timely(o, Forgotten(o, g, patch).obj)
  {
  }

  lemma {:induction false} SettleTimely(o: UniversalAuthObject, g: UniversalAuthProgress, a: Answers)
    requires Current(o, g) && g.error.None?
    ensures Timely(o, Settle(o, g, a).obj)
  {
    var h := Meanwhile(g, a.get);
    if a.get.reply.Failed? {
      ReportTimely(Omit, o, h, ExternalReadFailed, a.patch);
    } else if h.remote.auth.None? {
      ForgottenTimely(o, h, a.patch);
    } else {
      var k := Adjusted(o, h, a);
      if k.error.Some? {
        ReportTimely(Omit, o, k, k.error.value, a.patch);
      } else {
        EnsuredOnlyRest(o, k, a);
        var e := Ensured(o, k, a);
        if e.error.Some? {
          ReportTimely(Omit, o, e, e.error.value, a.patch);
        } else {
          SucceedTimely(Omit, o, e, a.patch);
        }
      }
    }
  }

  /** A reconcile keeps the generations in the status in order. */
  lemma {:induction false} ReconcileTimely(o: UniversalAuthObject, i: Infra, a: Answers)
    ensures Timely(o, Reconcile(o, i, a).obj)
  {
    if Active(o) && a.ready && a.connected {
      var g := Acquired(o, Adopted(o, Start(o, i), a), a);
      assert Current(o, g);
      if g.error.None? {
        SettleTimely(o, g, a);
      }
    }
  }

  /** With policy Delete the object disappears only once the recorded client secret does not
      work and, when an auth method is recorded, none is attached and no client secret works. */
  lemma {:induction false} GoneOnlyAfterDetach(o: UniversalAuthObject, i: Infra, a: Answers)
    requires o.deletion == Delete && o.status.parent != "" && !o.meta.gone && Reconcile(o, i, a).obj.meta.gone
    ensures var r := Reconcile(o, i, a).remote;
      && (o.status.rest.secretID != "" ==> o.status.rest.secretID !in r.live && o.status.rest.secretID in r.revoked)
      && (o.status.id != "" ==> r.auth.None? && r.live == {})
  {
    assert o.meta.deleting && Reconcile(o, i, a) == Remove(o, i, a);
  }
}
