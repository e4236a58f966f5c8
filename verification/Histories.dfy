/** The histories of every kind of resource, made of its own reconciles and of edits, are runs:
    what is proved about runs holds of each kind. */
module Histories {
  import opened Basics
  import opened Lifecycle
  import opened LifecycleRuns
  import O = Organizations
  import P = Projects
  import E = Environments
  import I = Identities
  import K = KubernetesAuths
  import U = UniversalAuths

  ghost predicate OrganizationEvent(o: O.OrganizationObject, e: Event, p: O.OrganizationObject) {
    if e.Edited? then Edit(o, p) else exists s, a :: O.Reconcile(o, s, a).obj == p && O.Reconcile(o, s, a).act == e.act
  }

  ghost predicate ProjectEvent(o: P.ProjectObject, e: Event, p: P.ProjectObject) {
    if e.Edited? then Edit(o, p) else exists s, a :: P.Reconcile(o, s, a).obj == p && P.Reconcile(o, s, a).act == e.act
  }

  ghost predicate EnvironmentEvent(o: E.EnvironmentObject, e: Event, p: E.EnvironmentObject) {
    if e.Edited? then Edit(o, p) else exists s, a :: E.Reconcile(o, s, a).obj == p && E.Reconcile(o, s, a).act == e.act
  }

  /** The scope of an identity is immutable. */
  ghost predicate IdentityEvent(o: I.IdentityObject, e: Event, p: I.IdentityObject) {
    && p.spec.scope == o.spec.scope
    && if e.Edited? then Edit(o, p) else exists s, a :: I.Reconcile(o, s, a).obj == p && I.Reconcile(o, s, a).act == e.act
  }

  ghost predicate KubernetesAuthChange(o: K.KubernetesAuthObject, p: K.KubernetesAuthObject) {
    Edit(o, p) || exists s, a :: K.Reconcile(o, s, a).obj == p
  }

  ghost predicate UniversalAuthChange(o: U.UniversalAuthObject, p: U.UniversalAuthObject) {
    Edit(o, p) || exists i, a :: U.Reconcile(o, i, a).obj == p
  }

  lemma {:induction false} OrganizationHistory(os: seq<O.OrganizationObject>, es: seq<Event>)
    requires |os| == |es| + 1 && forall i :: 0 <= i < |es| ==> OrganizationEvent(os[i], es[i], os[i + 1])
    ensures Run(false, os, es) && TimelyRun(os)
  {
    forall i | 0 <= i < |es| ensures Linked(false, os[i], es[i], os[i + 1]) {
      assert OrganizationEvent(os[i], es[i], os[i + 1]);
      if es[i].Turned? {
        var s, a :| O.Reconcile(os[i], s, a).obj == os[i + 1] && O.Reconcile(os[i], s, a).act == es[i].act;
        O.ReconcileSteps(os[i], s, a);
      }
    }
    RunIsTimely(false, os, es);
  }

  lemma {:induction false} ProjectHistory(os: seq<P.ProjectObject>, es: seq<Event>)
    requires |os| == |es| + 1 && forall i :: 0 <= i < |es| ==> ProjectEvent(os[i], es[i], os[i + 1])
    ensures Run(false, os, es) && TimelyRun(os)
  {
    forall i | 0 <= i < |es| ensures Linked(false, os[i], es[i], os[i + 1]) {
      assert ProjectEvent(os[i], es[i], os[i + 1]);
      if es[i].Turned? {
        var s, a :| P.Reconcile(os[i], s, a).obj == os[i + 1] && P.Reconcile(os[i], s, a).act == es[i].act;
        P.ReconcileSteps(os[i], s, a);
      }
    }
    RunIsTimely(false, os, es);
  }

  lemma {:induction false} EnvironmentHistory(os: seq<E.EnvironmentObject>, es: seq<Event>)
    requires |os| == |es| + 1 && forall i :: 0 <= i < |es| ==> EnvironmentEvent(os[i], es[i], os[i + 1])
    ensures Run(true, os, es) && TimelyRun(os)
  {
    forall i | 0 <= i < |es| ensures Linked(true, os[i], es[i], os[i + 1]) {
      assert EnvironmentEvent(os[i], es[i], os[i + 1]);
      if es[i].Turned? {
        var s, a :| E.Reconcile(os[i], s, a).obj == os[i + 1] && E.Reconcile(os[i], s, a).act == es[i].act;
        E.ReconcileSteps(os[i], s, a);
      }
    }
    RunIsTimely(true, os, es);
  }

  lemma {:induction false} ScopeStays(os: seq<I.IdentityObject>, es: seq<Event>, i: nat)
    requires |os| == |es| + 1 && i < |os| && forall k :: 0 <= k < |es| ==> IdentityEvent(os[k], es[k], os[k + 1])
    ensures os[i].spec.scope == os[0].spec.scope
  {
    if i > 0 {
      ScopeStays(os, es, i - 1);
      assert IdentityEvent(os[i - 1], es[i - 1], os[i]);
    }
  }

  /** Deleting a project-scoped identity needs the ID of its project. */
  lemma {:induction false} IdentityHistory(os: seq<I.IdentityObject>, es: seq<Event>)
    requires |os| == |es| + 1 && forall i :: 0 <= i < |es| ==> IdentityEvent(os[i], es[i], os[i + 1])
    ensures Run(!os[0].spec.scope.OrganizationScope?, os, es) && TimelyRun(os)
  {
    var needsParent := !os[0].spec.scope.OrganizationScope?;
    forall i | 0 <= i < |es| ensures Linked(needsParent, os[i], es[i], os[i + 1]) {
      ScopeStays(os, es, i);
      assert IdentityEvent(os[i], es[i], os[i + 1]);
      if es[i].Turned? {
        var s, a :| I.Reconcile(os[i], s, a).obj == os[i + 1] && I.Reconcile(os[i], s, a).act == es[i].act;
        I.ReconcileSteps(os[i], s, a);
      }
    }
    RunIsTimely(needsParent, os, es);
  }

  lemma {:induction false} KubernetesAuthHistory(os: seq<K.KubernetesAuthObject>)
    requires os != [] && forall i :: 0 <= i < |os| - 1 ==> KubernetesAuthChange(os[i], os[i + 1])
    ensures TimelyRun(os)
  {
    forall i | 0 <= i < |os| - 1 ensures TimelyOrEdit(os[i], os[i + 1]) {
      assert KubernetesAuthChange(os[i], os[i + 1]);
      if !Edit(os[i], os[i + 1]) {
        var s, a :| K.Reconcile(os[i], s, a).obj == os[i + 1];
        K.ReconcileTimely(os[i], s, a);
      }
    }
  }

  lemma {:induction false} UniversalAuthHistory(os: seq<U.UniversalAuthObject>)
    requires os != [] && forall i :: 0 <= i < |os| - 1 ==> UniversalAuthChange(os[i], os[i + 1])
    ensures TimelyRun(os)
  {
    forall i | 0 <= i < |os| - 1 ensures TimelyOrEdit(os[i], os[i + 1]) {
      assert UniversalAuthChange(os[i], os[i + 1]);
      if !Edit(os[i], os[i + 1]) {
        var s, a :| U.Reconcile(os[i], s, a).obj == os[i + 1];
        U.ReconcileTimely(os[i], s, a);
      }
    }
  }
}
