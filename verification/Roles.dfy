/** Project roles: validation of a declared list, the request built from it, and the two
    independently written comparisons of a declared list with observed roles. */
module Roles {
  import opened Basics
  import opened Sorting

  /** One role of a membership; a time-bound role is temporary. */
  datatype Role = Role(slug: string, temporary: bool)

  const BUILT_IN: set<string> := {"admin", "member", "viewer", "no-access"}

  predicate BuiltIn(slugs: seq<string>) {
    forall i :: 0 <= i < |slugs| ==> slugs[i] in BUILT_IN
  }

  predicate Distinct<T(==)>(s: seq<T>) {
    forall i, j :: 0 <= i < j < |s| ==> s[i] != s[j]
  }

  /** A list the operator accepts: built-in slugs, none twice. */
  predicate Valid(spec: seq<string>) {
    Distinct(spec) && BuiltIn(spec)
  }

  function Slugs(roles: seq<Role>): seq<string> {
    seq(|roles|, i requires 0 <= i < |roles| => roles[i].slug)
  }

  /** What the membership API is sent for a list of slugs: every role permanent. */
  function Permanent(slugs: seq<string>): (r: seq<Role>)
    ensures |r| == |slugs| && Slugs(r) == slugs && AllPermanent(r)
  {
    seq(|slugs|, i requires 0 <= i < |slugs| => Role(slugs[i], false))
  }

  predicate AllPermanent(roles: seq<Role>) {
    forall i :: 0 <= i < |roles| ==> !roles[i].temporary
  }

  /** The observed roles are exactly the declared ones, and none of them expires. */
  predicate Grants(observed: seq<Role>, declared: seq<string>) {
    AllPermanent(observed) && multiset(Slugs(observed)) == multiset(declared)
  }

  /** `identityRoleSlugs`: the sorted list, or None when the declaration is rejected. */
  method ValidatedSlugs(spec: seq<string>) returns (slugs: Option<seq<string>>)
    ensures slugs.Some? <==> Valid(spec)
    ensures slugs.Some? ==> slugs.value == Sort(spec)
  {
    if |spec| == 0 {
      return Some([]);
    }
    var seen: set<string> := {};
    for i := 0 to |spec|
      invariant seen == set k | 0 <= k < i :: spec[k]
      invariant Distinct(spec[..i]) && BuiltIn(spec[..i])
    {
      if spec[i] !in BUILT_IN {
        return None;
      }
      if spec[i] in seen {
        var k :| 0 <= k < i && spec[k] == spec[i];
        return None;
      }
      seen := seen + {spec[i]};
    }
    assert spec[..] == spec;
    slugs := Some(Sort(spec));
  }

  /** `identityMembershipRequest`. */
  method MembershipRequest(slugs: seq<string>) returns (roles: seq<Role>)
    ensures roles == Permanent(slugs)
  {
    roles := [];
    for i := 0 to |slugs|
      invariant roles == Permanent(slugs[..i])
    {
      roles := roles + [Role(slugs[i], false)];
      assert slugs[..i + 1] == slugs[..i] + [slugs[i]];
    }
    assert slugs[..] == slugs;
  }

  /** Every desired slug occurs among the permanent observed roles. */
  predicate Covers(observed: seq<Role>, desired: seq<string>) {
    forall i :: 0 <= i < |desired| ==> Role(desired[i], false) in observed
  }

  predicate ClientEqual(observed: seq<Role>, desired: seq<string>) {
    |observed| == |desired| && Covers(observed, desired)
  }

  /** The client's `identityMembershipRolesEqual`: equal lengths and a search per role. */
  method ClientRolesEqual(observed: seq<Role>, desired: seq<string>) returns (equal: bool)
    ensures equal <==> ClientEqual(observed, desired)
  {
    if |observed| != |desired| {
      return false;
    }
    for i := 0 to |desired|
      invariant Covers(observed, desired[..i])
    {
      var found := false;
      for j := 0 to |observed|
        invariant !found ==> Role(desired[i], false) !in observed[..j]
        invariant found ==> Role(desired[i], false) in observed
      {
        if observed[j].slug == desired[i] && !observed[j].temporary {
          assert observed[j] == Role(desired[i], false);
          found := true;
          break;
        }
      }
      if !found {
        assert observed[..] == observed;
        return false;
      }
    }
    assert desired[..] == desired;
    equal := true;
  }

  /** A nil slice (the empty list that `identityRoleSlugs` returns for no roles) is not deeply
      equal to the empty slice the loop builds from no roles. */
  predicate ControllerEqual(want: seq<string>, current: seq<Role>) {
    want != [] && AllPermanent(current) && want == Sort(Slugs(current))
  }

  /** The controller's `identityRoleSlugsEqual`: reject temporary roles, sort, compare. */
  method ControllerRolesEqual(want: seq<string>, current: seq<Role>) returns (equal: bool)
    ensures equal <==> ControllerEqual(want, current)
  {
    var observed: seq<string> := [];
    for i := 0 to |current|
      invariant AllPermanent(current[..i]) && observed == Slugs(current[..i])
    {
      if current[i].temporary {
        return false;
      }
      assert current[..i + 1] == current[..i] + [current[i]];
      observed := observed + [current[i].slug];
    }
    assert current[..|current|] == current;
    equal := want != [] && want == Sort(observed);
  }

  /** Pigeonhole: as many observed roles as distinct desired ones, each desired one found
      among the permanent roles, leaves no room for anything else. */
  lemma {:induction false} CoveringIsExact(observed: seq<Role>, desired: seq<string>)
    requires Distinct(desired) && |observed| == |desired| && Covers(observed, desired)
    ensures Grants(observed, desired)
  {
    if desired != [] {
      var last := |desired| - 1;
      var j :| 0 <= j < |observed| && observed[j] == Role(desired[last], false);
      var rest := observed[..j] + observed[j + 1..];
      forall i | 0 <= i < last ensures Role(desired[i], false) in rest {
        var k :| 0 <= k < |observed| && observed[k] == Role(desired[i], false);
        assert k != j;
        assert observed[k] == if k < j then rest[k] else rest[k - 1];
      }
      CoveringIsExact(rest, desired[..last]);
      RemoveOne(observed, j);
      assert desired == desired[..last] + [desired[last]];
    }
  }

  lemma RemoveOne(observed: seq<Role>, j: nat)
    requires j < |observed|
    ensures var rest := observed[..j] + observed[j + 1..];
      && multiset(Slugs(observed)) == multiset(Slugs(rest)) + multiset{observed[j].slug}
      && (AllPermanent(observed) <==> AllPermanent(rest) && !observed[j].temporary)
  {
    var rest := observed[..j] + observed[j + 1..];
    var s := Slugs(observed);
    assert s == s[..j] + [s[j]] + s[j + 1..];
    assert Slugs(rest) == s[..j] + s[j + 1..];
    forall i | 0 <= i < |observed| ensures i == j || observed[i] in rest {
      if i != j {
        assert observed[i] == rest[if i < j then i else i - 1];
      }
    }
  }

  /** The two comparisons are one: for a valid list, the client's search holds exactly when the
      membership grants the declared roles, and so does the controller's sort unless the
      declared list is empty. */
  lemma ComparisonsAgree(observed: seq<Role>, spec: seq<string>)
    requires Valid(spec)
    ensures ClientEqual(observed, spec) <==> Grants(observed, spec)
    ensures ControllerEqual(Sort(spec), observed) <==> Grants(observed, spec) && spec != []
    ensures ClientEqual(observed, spec) != ControllerEqual(Sort(spec), observed) <==> spec == [] && observed == []
  {
    SortCanonical(spec, Slugs(observed));
    if ClientEqual(observed, spec) {
      CoveringIsExact(observed, spec);
    }
    if Grants(observed, spec) {
      assert |multiset(Slugs(observed))| == |multiset(spec)|;
      forall i | 0 <= i < |spec| ensures Role(spec[i], false) in observed {
        assert spec[i] in multiset(Slugs(observed));
        var k :| 0 <= k < |observed| && Slugs(observed)[k] == spec[i];
        assert observed[k] == Role(spec[i], false);
      }
    }
  }

  lemma {:induction false} SortValid(spec: seq<string>)
    requires Valid(spec)
    ensures Valid(Sort(spec))
  {
    var sorted := Sort(spec);
    SortLaw(spec);
    forall i | 0 <= i < |sorted| ensures sorted[i] in BUILT_IN {
      assert sorted[i] in multiset(spec);
    }
    SameElementsDistinct(spec, sorted);
  }

  lemma {:induction false} SameElementsDistinct<T>(s: seq<T>, t: seq<T>)
    requires Distinct(s) && multiset(s) == multiset(t)
    ensures Distinct(t)
  {
    forall i, j | 0 <= i < j < |t| ensures t[i] != t[j] {
      DistinctCounts(s, t[i]);
      assert t == t[..j] + [t[j]] + t[j + 1..];
      assert t[i] in t[..j];
    }
  }

  lemma {:induction false} DistinctCounts<T>(s: seq<T>, x: T)
    requires Distinct(s)
    ensures multiset(s)[x] <= 1
  {
    if s != [] {
      var n := |s| - 1;
      assert s == s[..n] + [s[n]];
      DistinctCounts(s[..n], x);
    }
  }

  /** What the operator writes for a valid list is read back as equal by both comparisons. */
  lemma WrittenRolesAreGranted(spec: seq<string>)
    requires Valid(spec) && spec != []
    ensures Grants(Permanent(Sort(spec)), spec)
    ensures ControllerEqual(Sort(spec), Permanent(Sort(spec)))
    ensures ClientEqual(Permanent(spec), spec)
  {
    SortLaw(spec);
    ComparisonsAgree(Permanent(Sort(spec)), spec);
    ComparisonsAgree(Permanent(spec), spec);
  }
}
