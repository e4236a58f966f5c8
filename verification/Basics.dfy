/** Names shared by every part of the model. */
module Basics {

  /** An identifier handed out by Infisical; the empty string is "no identifier". */
  type Id = string

  datatype Option<+T> = None | Some(value: T)

  /** The answer to one call.
      A faithful server answers with the value it stores, or with 404 when it stores none;
      every other failure is `Failed`, and `applied` says whether the server had carried the
      call out before the reply was lost.
      A crash is not a separate answer: a crash before a call leaves both stores exactly as
      if that call and every later call of the same reconcile had failed unapplied. */
  datatype Reply = Answered | Failed(applied: bool) {
    predicate Reached() {
      Answered? || applied
    }
  }

  /** One field of a merge patch (section 2 of RFC 7396): a field that did not change between
      the two in-memory copies is not part of the patch and keeps its stored value. */
  function Pick<T(==)>(before: T, after: T, stored: T): T {
    if before == after then stored else after
  }

  /** An optional field of a spec: what it wants, or else what there is. */
  function Or<T>(wanted: Option<T>, current: T): T {
    if wanted.Some? then wanted.value else current
  }

  predicate Differs<T(==)>(wanted: Option<T>, current: T) {
    wanted.Some? && wanted.value != current
  }

  /** Reading a Go map: a missing key reads as the empty string. */
  function Read(m: map<string, string>, key: string): string {
    if key in m then m[key] else ""
  }

  /** What is left of a slice that was stored: an empty one is left out (`omitempty`), and read
      back as none at all. */
  function Omitted<T>(slice: Option<seq<T>>): Option<seq<T>> {
    if slice.Some? && |slice.value| == 0 then None else slice
  }

  /** A server never hands out an empty identifier or one it already used. An answer that
      breaks this rule is not a faithful server's answer and is read as a failed call. */
  predicate Usable(id: Id, issued: set<Id>) {
    id != "" && id !in issued
  }

  /** The reasons the operator reports. */
  datatype Reason =
    | ReconciliationSucceeded | NotStalled | BlockedByStall | Progressing | Reconciled
    | ConfigurationInvalid | InvalidSpec | RoleConfigurationInvalid | CreationNotAllowed
    | ExternalProjectMismatch | ExternalIdentityMismatch | ExternalOrganizationMismatch | ExternalAuthMismatch
    | OrganizationNotReady | ProjectNotReady | IdentityNotReady | ConnectionNotReady | SecretNotReady | ClientSecretNotReady
    | ProjectReadFailed | IdentityReadFailed | ExternalReadFailed | ExternalCreateFailed | ExternalUpdateFailed
    | ExternalRestoreFailed | ExternalMembershipFailed | RoleMembershipReconcileFailed
    | RemoteOrganizationMissing | RemoteProjectMissing | RemoteEnvironmentMissing | RemoteIdentityMissing
    | RemoteAuthMissing | RemoteKubernetesAuthMissing | ConnectionUnavailable
  {
    /** `isStalledReason`: nothing but a correction of the resource can help. */
    predicate Stalls() {
      ConfigurationInvalid? || InvalidSpec? || RoleConfigurationInvalid? || CreationNotAllowed?
      || ExternalProjectMismatch? || ExternalIdentityMismatch? || ExternalOrganizationMismatch? || ExternalAuthMismatch?
    }
  }
}
