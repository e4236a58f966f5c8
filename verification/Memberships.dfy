/** Project role memberships of machine identities: the client's "ensure", the controller's
    reconciliation of one membership, and its loop over the bindings of an identity. */
module Memberships {
  import opened Basics
  import opened Sorting
  import opened Roles

  /** The roles each identity holds in each project. */
  type Members = map<Key, seq<Role>>

  datatype Key = Key(project: Id, identity: Id)

  datatype Read = Found(roles: seq<Role>) | Absent | Broken

  function Look(projects: set<Id>, members: Members, key: Key, reply: Reply): Read {
    if reply.Failed? then Broken
    else if key.project in projects && key in members then Found(members[key])
    else Absent
  }

  /** A create or an update: both replace the complete role list of one membership, and both
      are answered with 404 when the project does not exist. */
  function Written(projects: set<Id>, members: Members, key: Key, slugs: seq<string>, reply: Reply): Members {
    if key.project in projects && reply.Reached() then members[key := Permanent(slugs)] else members
  }

  predicate WriteOk(projects: set<Id>, key: Key, reply: Reply) {
    key.project in projects && reply.Answered?
  }

  /** How one membership call sequence ended: the remote roles, success, and writes sent. */
  datatype Ended = Ended(members: Members, ok: bool, writes: nat)

  datatype Seat = Seat(read: Reply, write: Reply)

  /** `EnsureIdentityProjectMembership`. */
  function Ensure(projects: set<Id>, members: Members, key: Key, slugs: seq<string>, a: Seat): Ended {
    match Look(projects, members, key, a.read)
    case Broken => Ended(members, false, 0)
    case Found(roles) =>
      if ClientEqual(roles, slugs) then Ended(members, true, 0)
      else Ended(Written(projects, members, key, slugs, a.write), WriteOk(projects, key, a.write), 1)
    case Absent => Ended(Written(projects, members, key, slugs, a.write), WriteOk(projects, key, a.write), 1)
  }

  datatype Calls = Calls(read: Reply, create: Reply, reread: Reply, update: Reply, last: Reply)

  predicate SameAt(m: Members, n: Members, key: Key) {
    (key in m <==> key in n) && (key in m ==> m[key] == n[key])
  }

  /** `reconcileIdentityMembership`, for a validated and sorted list of slugs. */
  function BindOne(projects: set<Id>, members: Members, key: Key, slugs: seq<string>, a: Calls): Ended {
    if slugs == [] then Ended(members, true, 0)
    else match Look(projects, members, key, a.read)
      case Broken => Ended(members, false, 0)
      case Absent =>
        var m := Written(projects, members, key, slugs, a.create);
        if !WriteOk(projects, key, a.create) || a.reread.Failed? then Ended(m, false, 1)
        else Correct(projects, m, key, slugs, a, 1)
      case Found(_) => Correct(projects, members, key, slugs, a, 0)
  }

  /** The comparison with what was read, and the update when it differs. */
  function Correct(projects: set<Id>, members: Members, key: Key, slugs: seq<string>, a: Calls, writes: nat): Ended
    requires key in members
  {
    if ControllerEqual(slugs, members[key]) then Ended(members, true, writes)
    else
      Ended(Written(projects, members, key, slugs, a.update),
            WriteOk(projects, key, a.update) && a.last.Answered?, writes + 1)
  }

  /** One membership: at most one write, which gives exactly the declared permanent roles;
      success means they are granted. */
  lemma {:induction false} BindOneLaw(projects: set<Id>, members: Members, key: Key, slugs: seq<string>, a: Calls)
    requires Valid(slugs) && Sort(slugs) == slugs
    ensures var r := BindOne(projects, members, key, slugs, a);
      && r.writes <= 1
      && (r.ok && slugs != [] ==> key in r.members && Grants(r.members[key], slugs))
      && (SameAt(members, r.members, key) || (r.writes == 1 && r.members[key] == Permanent(slugs) && key.project in projects))
      && (slugs == [] ==> r.members == members && r.ok)
  {
    if slugs != [] {
      WrittenRolesAreGranted(slugs);
      match Look(projects, members, key, a.read)
      case Broken =>
      case Absent =>
      case Found(observed) => ComparisonsAgree(observed, slugs);
    }
  }

  /** Nothing but this membership changes. */
  lemma {:induction false} BindOneFrame(projects: set<Id>, members: Members, key: Key, slugs: seq<string>, a: Calls, other: Key)
    requires other != key
    ensures SameAt(members, BindOne(projects, members, key, slugs, a).members, other)
  {
  }

  /** A binding with its project resolved. */
  datatype Binding = Binding(project: Id, roles: seq<string>)

  datatype Loop = Loop(members: Members, ok: bool, done: nat, writes: seq<nat>)

  /** `reconcileOrganizationProjectMemberships`: binding after binding, up to the first error. */
  function BindAll(projects: set<Id>, members: Members, identity: Id, bs: seq<Binding>, calls: seq<Calls>): Loop
    requires |calls| == |bs|
    decreases |bs|
  {
    if bs == [] then Loop(members, true, 0, [])
    else if !Valid(bs[0].roles) then Loop(members, false, 0, [])
    else
      var one := BindOne(projects, members, Key(bs[0].project, identity), Sort(bs[0].roles), calls[0]);
      if !one.ok then Loop(one.members, false, 0, [one.writes])
      else
        var rest := BindAll(projects, one.members, identity, bs[1..], calls[1..]);
        Loop(rest.members, rest.ok, rest.done + 1, [one.writes] + rest.writes)
  }

  predicate DistinctProjects(bs: seq<Binding>) {
    forall i, j :: 0 <= i < j < |bs| ==> bs[i].project != bs[j].project
  }

  predicate Concerns(bs: seq<Binding>, identity: Id, key: Key) {
    key.identity == identity && exists i :: 0 <= i < |bs| && bs[i].project == key.project
  }

  /** The state in which the loop goes on to the second binding, if it does. */
  function Onward(projects: set<Id>, members: Members, identity: Id, bs: seq<Binding>, calls: seq<Calls>): (one: Ended)
    requires |calls| == |bs| && bs != []
  {
    BindOne(projects, members, Key(bs[0].project, identity), Sort(bs[0].roles), calls[0])
  }

  predicate GoesOn(projects: set<Id>, members: Members, identity: Id, bs: seq<Binding>, calls: seq<Calls>)
    requires |calls| == |bs|
  {
    bs != [] && Valid(bs[0].roles) && Onward(projects, members, identity, bs, calls).ok
  }

  lemma {:induction false} Unfold(projects: set<Id>, members: Members, identity: Id, bs: seq<Binding>, calls: seq<Calls>)
    requires |calls| == |bs| && bs != []
    ensures var r := BindAll(projects, members, identity, bs, calls);
      var one := Onward(projects, members, identity, bs, calls);
      if GoesOn(projects, members, identity, bs, calls) then
        var rest := BindAll(projects, one.members, identity, bs[1..], calls[1..]);
        r.members == rest.members && r.ok == rest.ok && r.done == rest.done + 1 && r.writes == [one.writes] + rest.writes
      else
        !r.ok && r.done == 0 && |r.writes| <= 1
        && (Valid(bs[0].roles) ==> r.members == one.members && r.writes == [one.writes])
        && (!Valid(bs[0].roles) ==> r.members == members && r.writes == [])
  {
  }

  lemma {:induction false} SortFits(roles: seq<string>)
    requires Valid(roles)
    ensures Valid(Sort(roles)) && Sort(Sort(roles)) == Sort(roles)
    ensures multiset(Sort(roles)) == multiset(roles) && (Sort(roles) == [] <==> roles == [])
  {
    SortLaw(roles);
    SortValid(roles);
    SortCanonical(roles, Sort(roles));
  }

  /** One membership, in terms of the roles as declared. */
  lemma {:induction false} DeclaredLaw(projects: set<Id>, members: Members, key: Key, roles: seq<string>, a: Calls)
    requires Valid(roles)
    ensures var one := BindOne(projects, members, key, Sort(roles), a);
      && one.writes <= 1
      && (one.ok && roles != [] ==> key in one.members && Grants(one.members[key], roles))
      && (SameAt(members, one.members, key) || (key in one.members && one.members[key] == Permanent(Sort(roles))))
      && (roles == [] ==> one.members == members && one.ok)
  {
    SortFits(roles);
    ReorderedLaw(projects, members, key, roles, Sort(roles), a);
  }

  lemma {:induction false} ReorderedLaw(projects: set<Id>, members: Members, key: Key, roles: seq<string>, slugs: seq<string>, a: Calls)
    requires Valid(slugs) && Sort(slugs) == slugs && multiset(slugs) == multiset(roles) && (slugs == [] <==> roles == [])
    ensures var one := BindOne(projects, members, key, slugs, a);
      && one.writes <= 1
      && (one.ok && roles != [] ==> key in one.members && Grants(one.members[key], roles))
      && (SameAt(members, one.members, key) || (key in one.members && one.members[key] == Permanent(slugs)))
      && (roles == [] ==> one.members == members && one.ok)
  {
    BindOneLaw(projects, members, key, slugs, a);
  }

  /** The first binding, in terms of its declared roles. */
  lemma {:induction false} FirstBinding(projects: set<Id>, members: Members, identity: Id, bs: seq<Binding>, calls: seq<Calls>)
    requires |calls| == |bs| && bs != [] && Valid(bs[0].roles)
    ensures var one := Onward(projects, members, identity, bs, calls);
      var key := Key(bs[0].project, identity);
      && one.writes <= 1
      && (one.ok && bs[0].roles != [] ==> key in one.members && Grants(one.members[key], bs[0].roles))
      && (SameAt(members, one.members, key) || (key in one.members && one.members[key] == Permanent(Sort(bs[0].roles))))
      && (bs[0].roles == [] ==> one.members == members && one.ok)
  {
    DeclaredLaw(projects, members, Key(bs[0].project, identity), bs[0].roles, calls[0]);
  }

  function Total(writes: seq<nat>): nat {
    if writes == [] then 0 else writes[0] + Total(writes[1..])
  }

  lemma {:induction false} TotalHead(first: nat, rest: seq<nat>)
    ensures Total([first] + rest) == first + Total(rest)
  {
    assert ([first] + rest)[1..] == rest;
  }

  /** No binding cost more than one write. */
  predicate Sparing(writes: seq<nat>) {
    forall i :: 0 <= i < |writes| ==> writes[i] <= 1
  }

  lemma {:induction false} SparingHead(first: nat, rest: seq<nat>)
    requires first <= 1 && Sparing(rest)
    ensures Sparing([first] + rest)
  {
  }

  /** Each binding costs at most one write, and success means every binding was reached. */
  lemma {:induction false} LoopWrites(projects: set<Id>, members: Members, identity: Id, bs: seq<Binding>, calls: seq<Calls>)
    requires |calls| == |bs|
    ensures var r := BindAll(projects, members, identity, bs, calls);
      && |r.writes| <= |bs| && Sparing(r.writes)
      && r.done <= |bs| && (r.ok <==> r.done == |bs|)
    decreases |bs|
  {
    if bs != [] {
      Unfold(projects, members, identity, bs, calls);
      if Valid(bs[0].roles) {
        FirstBinding(projects, members, identity, bs, calls);
      }
      if GoesOn(projects, members, identity, bs, calls) {
        var one := Onward(projects, members, identity, bs, calls);
        LoopWrites(projects, one.members, identity, bs[1..], calls[1..]);
        SparingHead(one.writes, BindAll(projects, one.members, identity, bs[1..], calls[1..]).writes);
      }
    }
  }

  /** Only the memberships of this identity in bound projects ever change. */
  lemma {:induction false} LoopFrame(projects: set<Id>, members: Members, identity: Id, bs: seq<Binding>, calls: seq<Calls>, k: Key)
    requires |calls| == |bs| && !Concerns(bs, identity, k)
    ensures SameAt(members, BindAll(projects, members, identity, bs, calls).members, k)
    decreases |bs|
  {
    if bs != [] {
      Unfold(projects, members, identity, bs, calls);
      BindOneFrame(projects, members, Key(bs[0].project, identity), Sort(bs[0].roles), calls[0], k);
      if GoesOn(projects, members, identity, bs, calls) {
        assert forall i :: 0 <= i < |bs| - 1 ==> bs[1..][i] == bs[i + 1];
        LoopFrame(projects, Onward(projects, members, identity, bs, calls).members, identity, bs[1..], calls[1..], k);
      }
    }
  }

  lemma {:induction false} BindOneKeeps(projects: set<Id>, members: Members, key: Key, slugs: seq<string>, a: Calls)
    ensures members.Keys <= BindOne(projects, members, key, slugs, a).members.Keys
  {
  }

  /** No membership is ever taken away. */
  lemma {:induction false} LoopKeeps(projects: set<Id>, members: Members, identity: Id, bs: seq<Binding>, calls: seq<Calls>)
    requires |calls| == |bs|
    ensures members.Keys <= BindAll(projects, members, identity, bs, calls).members.Keys
    decreases |bs|
  {
    if bs != [] {
      Unfold(projects, members, identity, bs, calls);
      BindOneKeeps(projects, members, Key(bs[0].project, identity), Sort(bs[0].roles), calls[0]);
      if GoesOn(projects, members, identity, bs, calls) {
        LoopKeeps(projects, Onward(projects, members, identity, bs, calls).members, identity, bs[1..], calls[1..]);
      }
    }
  }

  lemma {:induction false} HeadNotConcerned(bs: seq<Binding>, identity: Id)
    requires DistinctProjects(bs) && bs != []
    ensures !Concerns(bs[1..], identity, Key(bs[0].project, identity)) && DistinctProjects(bs[1..])
  {
    assert forall i :: 0 <= i < |bs| - 1 ==> bs[1..][i] == bs[i + 1];
  }

  /** What the loop leaves of the membership of binding i: before the point it reached, the
      declared roles exactly (nothing touched when none are declared); after that point, what
      was there; at that point, what was there or exactly what was asked. */
  ghost predicate Settled(members: Members, r: Loop, key: Key, roles: seq<string>, i: nat) {
    if i < r.done then (if roles == [] then SameAt(members, r.members, key) else key in r.members && Grants(r.members[key], roles))
    else SameAt(members, r.members, key) || (i == r.done && key in r.members && r.members[key] == Permanent(Sort(roles)))
  }

  /** What a first binding leaves is what a loop leaves that only later bindings continue. */
  lemma {:induction false} SettledFirst(members: Members, one: Ended, r: Loop, key: Key, roles: seq<string>)
    requires one.ok && roles != [] ==> key in one.members && Grants(one.members[key], roles)
    requires SameAt(members, one.members, key) || (key in one.members && one.members[key] == Permanent(Sort(roles)))
    requires roles == [] ==> one.members == members
    requires SameAt(one.members, r.members, key) && (r.done == 0 || one.ok)
    ensures Settled(members, r, key, roles, 0)
  {
  }

  lemma {:induction false} SettledLater(members: Members, middle: Members, rest: Loop, r: Loop, key: Key, roles: seq<string>, i: nat)
    requires SameAt(members, middle, key) && Settled(middle, rest, key, roles, i)
    requires r.members == rest.members && r.done == rest.done + 1
    ensures Settled(members, r, key, roles, i + 1)
  {
  }

  /** For bindings of distinct projects, every binding is settled. */
  lemma {:induction false} LoopLaw(projects: set<Id>, members: Members, identity: Id, bs: seq<Binding>, calls: seq<Calls>, i: nat)
    requires |calls| == |bs| && DistinctProjects(bs) && i < |bs|
    ensures Settled(members, BindAll(projects, members, identity, bs, calls), Key(bs[i].project, identity), bs[i].roles, i)
    decreases |bs|
  {
    if Valid(bs[0].roles) {
      if i == 0 {
        LoopLawFirst(projects, members, identity, bs, calls);
      } else {
        var key := Key(bs[i].project, identity);
        BindOneFrame(projects, members, Key(bs[0].project, identity), Sort(bs[0].roles), calls[0], key);
        Unfold(projects, members, identity, bs, calls);
        if GoesOn(projects, members, identity, bs, calls) {
          var middle := Onward(projects, members, identity, bs, calls).members;
          HeadNotConcerned(bs, identity);
          LoopLaw(projects, middle, identity, bs[1..], calls[1..], i - 1);
          var rest := BindAll(projects, middle, identity, bs[1..], calls[1..]);
          SettledLater(members, middle, rest, BindAll(projects, members, identity, bs, calls), key, bs[i].roles, i - 1);
        }
      }
    }
  }

  lemma {:induction false} LoopLawFirst(projects: set<Id>, members: Members, identity: Id, bs: seq<Binding>, calls: seq<Calls>)
    requires |calls| == |bs| && DistinctProjects(bs) && bs != [] && Valid(bs[0].roles)
    ensures Settled(members, BindAll(projects, members, identity, bs, calls), Key(bs[0].project, identity), bs[0].roles, 0)
  {
    var key := Key(bs[0].project, identity);
    Unfold(projects, members, identity, bs, calls);
    FirstBinding(projects, members, identity, bs, calls);
    var one := Onward(projects, members, identity, bs, calls);
    if one.ok {
      HeadNotConcerned(bs, identity);
      LoopFrame(projects, one.members, identity, bs[1..], calls[1..], key);
    }
    SettledFirst(members, one, BindAll(projects, members, identity, bs, calls), key, bs[0].roles);
  }

  /** How the loop goes on from binding `i`. */
  lemma {:induction false} UnfoldAt(projects: set<Id>, members: Members, identity: Id, bs: seq<Binding>, calls: seq<Calls>, i: nat)
    requires |calls| == |bs| && i < |bs|
    ensures var r := BindAll(projects, members, identity, bs[i..], calls[i..]);
      var one := BindOne(projects, members, Key(bs[i].project, identity), Sort(bs[i].roles), calls[i]);
      if !Valid(bs[i].roles) then r.members == members && !r.ok && r.done == 0 && Total(r.writes) == 0
      else if !one.ok then r.members == one.members && !r.ok && r.done == 0 && Total(r.writes) == one.writes
      else Continues(r, BindAll(projects, one.members, identity, bs[i + 1..], calls[i + 1..]), 1, one.writes)
  {
    assert bs[i..][0] == bs[i] && bs[i..][1..] == bs[i + 1..];
    assert calls[i..][0] == calls[i] && calls[i..][1..] == calls[i + 1..];
    Unfold(projects, members, identity, bs[i..], calls[i..]);
    var one := Onward(projects, members, identity, bs[i..], calls[i..]);
    TotalHead(one.writes, []);
    TotalHead(one.writes, BindAll(projects, one.members, identity, bs[i + 1..], calls[i + 1..]).writes);
  }

  /** A loop seen from a later point: `done` bindings were reached before it, at the cost of
      `wrote` writes. */
  predicate Continues(whole: Loop, rest: Loop, done: nat, wrote: int) {
    && whole.members == rest.members && whole.ok == rest.ok && whole.done == done + rest.done
    && Total(whole.writes) == wrote + Total(rest.writes)
  }

  // ----- bindings that share a project

  /** The last binding of a project that declares roles. */
  function LastOf(bs: seq<Binding>, project: Id): (k: Option<nat>)
    ensures k.Some? ==> k.value < |bs| && bs[k.value].project == project && bs[k.value].roles != []
    ensures forall i :: (if k.Some? then k.value + 1 else 0) <= i < |bs| && bs[i].project == project ==> bs[i].roles == []
  {
    if bs == [] then None
    else
      var later := LastOf(bs[1..], project);
      assert forall i :: 1 <= i < |bs| ==> bs[i] == bs[1..][i - 1];
      if later.Some? then Some(later.value + 1)
      else if bs[0].project == project && bs[0].roles != [] then Some(0)
      else None
  }

  lemma {:induction false} HeadKeeps(projects: set<Id>, members: Members, identity: Id, bs: seq<Binding>, calls: seq<Calls>, project: Id)
    requires |calls| == |bs| && bs != [] && Valid(bs[0].roles) && !(bs[0].project == project && bs[0].roles != [])
    ensures SameAt(members, Onward(projects, members, identity, bs, calls).members, Key(project, identity))
  {
    if bs[0].project != project {
      BindOneFrame(projects, members, Key(bs[0].project, identity), Sort(bs[0].roles), calls[0], Key(project, identity));
    } else {
      FirstBinding(projects, members, identity, bs, calls);
    }
  }

  /** After a loop that succeeds, whatever the projects of the bindings, a project's membership
      is what the last binding with roles declares, and untouched when there is none. */
  lemma {:induction false} LastBindingWins(projects: set<Id>, members: Members, identity: Id, bs: seq<Binding>, calls: seq<Calls>, project: Id)
    requires |calls| == |bs| && BindAll(projects, members, identity, bs, calls).ok
    ensures var r := BindAll(projects, members, identity, bs, calls);
      var key := Key(project, identity);
      match LastOf(bs, project)
      case None => SameAt(members, r.members, key)
      case Some(k) => key in r.members && Grants(r.members[key], bs[k].roles)
    decreases |bs|
  {
    if bs != [] {
      Unfold(projects, members, identity, bs, calls);
      var middle := Onward(projects, members, identity, bs, calls).members;
      LastBindingWins(projects, middle, identity, bs[1..], calls[1..], project);
      if bs[0].project == project && bs[0].roles != [] {
        FirstBinding(projects, members, identity, bs, calls);
      } else {
        HeadKeeps(projects, members, identity, bs, calls, project);
      }
    }
  }

  /** So a binding with roles is granted exactly when the last binding of its project declares
      the same roles. */
  lemma {:induction false} GrantedExactlyAsTheLast(projects: set<Id>, members: Members, identity: Id, bs: seq<Binding>, calls: seq<Calls>, i: nat)
    requires |calls| == |bs| && i < |bs| && bs[i].roles != [] && BindAll(projects, members, identity, bs, calls).ok
    ensures LastOf(bs, bs[i].project).Some?
    ensures var r := BindAll(projects, members, identity, bs, calls);
      var key := Key(bs[i].project, identity);
      key in r.members
      && (Grants(r.members[key], bs[i].roles) <==> multiset(bs[i].roles) == multiset(bs[LastOf(bs, bs[i].project).value].roles))
  {
    LastBindingWins(projects, members, identity, bs, calls, bs[i].project);
  }

  /** Every call answered. */
  const SERVED := Calls(Answered, Answered, Answered, Answered, Answered)

  /** When every call succeeds, so does the loop over bindings of existing projects. */
  lemma {:induction false} BindAllReaches(projects: set<Id>, members: Members, identity: Id, bs: seq<Binding>, calls: seq<Calls>)
    requires |calls| == |bs| && forall i :: 0 <= i < |bs| ==> calls[i] == SERVED && Valid(bs[i].roles) && bs[i].project in projects
    ensures BindAll(projects, members, identity, bs, calls).ok
    decreases |bs|
  {
    if bs != [] {
      assert calls[0] == SERVED && bs[0].project in projects;
      BindAllReaches(projects, Onward(projects, members, identity, bs, calls).members, identity, bs[1..], calls[1..]);
      Unfold(projects, members, identity, bs, calls);
    }
  }

  /** References that differ by name can still name one project, through two resources that
      adopted it: then the loop succeeds, and the first binding is not granted. */
  lemma {:induction false} SharedProjectLosesFirst(project: Id, identity: Id)
    ensures var bs := [Binding(project, ["admin"]), Binding(project, ["viewer"])];
      var r := BindAll({project}, map[], identity, bs, [SERVED, SERVED]);
      r.ok && Key(project, identity) in r.members && !Grants(r.members[Key(project, identity)], ["admin"])
  {
    var bs := [Binding(project, ["admin"]), Binding(project, ["viewer"])];
    assert Valid(["admin"]) && Valid(["viewer"]);
    BindAllReaches({project}, map[], identity, bs, [SERVED, SERVED]);
    LastIsViewer(project, bs);
    GrantedExactlyAsTheLast({project}, map[], identity, bs, [SERVED, SERVED], 0);
  }

  lemma {:induction false} LastIsViewer(project: Id, bs: seq<Binding>)
    requires bs == [Binding(project, ["admin"]), Binding(project, ["viewer"])]
    ensures LastOf(bs, project) == Some(1) && multiset(["admin"]) != multiset(["viewer"])
  {
    var viewer: seq<string> := ["viewer"];
    assert viewer[0] in multiset(viewer);
    assert viewer[0] !in multiset(["admin"]);
    assert bs[1].project == project && bs[1].roles != [];
  }

  // ----- which memberships are written to

  /** The loop sent a write for this membership, whether or not it arrived or changed anything. */
  ghost predicate WroteTo(r: Loop, bs: seq<Binding>, identity: Id, key: Key) {
    key.identity == identity && exists i :: 0 <= i < |r.writes| && i < |bs| && r.writes[i] > 0 && bs[i].project == key.project
  }

  lemma {:induction false} OneChangedWasWritten(projects: set<Id>, members: Members, key: Key, slugs: seq<string>, a: Calls, other: Key)
    ensures var one := BindOne(projects, members, key, slugs, a);
      SameAt(members, one.members, other) || (other == key && one.writes > 0)
  {
    if other != key {
      BindOneFrame(projects, members, key, slugs, a, other);
    }
  }

  lemma {:induction false} WroteToFirst(r: Loop, bs: seq<Binding>, identity: Id)
    requires r.writes != [] && bs != [] && r.writes[0] > 0
    ensures WroteTo(r, bs, identity, Key(bs[0].project, identity))
  {
  }

  lemma {:induction false} WroteToLater(r: Loop, rest: Loop, bs: seq<Binding>, identity: Id, key: Key)
    requires bs != [] && r.writes != [] && r.writes[1..] == rest.writes && WroteTo(rest, bs[1..], identity, key)
    ensures WroteTo(r, bs, identity, key)
  {
    var i :| 0 <= i < |rest.writes| && i < |bs| - 1 && rest.writes[i] > 0 && bs[1..][i].project == key.project;
    assert r.writes[i + 1] > 0 && bs[i + 1].project == key.project;
  }

  /** A membership that changed was written to. */
  lemma {:induction false} ChangedWasWritten(projects: set<Id>, members: Members, identity: Id, bs: seq<Binding>, calls: seq<Calls>, key: Key)
    requires |calls| == |bs|
    ensures var r := BindAll(projects, members, identity, bs, calls);
      SameAt(members, r.members, key) || WroteTo(r, bs, identity, key)
    decreases |bs|
  {
    if bs != [] {
      Unfold(projects, members, identity, bs, calls);
      var r := BindAll(projects, members, identity, bs, calls);
      if Valid(bs[0].roles) {
        OneChangedWasWritten(projects, members, Key(bs[0].project, identity), Sort(bs[0].roles), calls[0], key);
        if r.writes[0] > 0 {
          WroteToFirst(r, bs, identity);
        }
      }
      if GoesOn(projects, members, identity, bs, calls) {
        var middle := Onward(projects, members, identity, bs, calls).members;
        ChangedWasWritten(projects, middle, identity, bs[1..], calls[1..], key);
        var rest := BindAll(projects, middle, identity, bs[1..], calls[1..]);
        if WroteTo(rest, bs[1..], identity, key) {
          WroteToLater(r, rest, bs, identity, key);
        }
      }
    }
  }

  /** The membership endpoints as the operator's client uses them: every call may change the
      remote memberships in place. */
  class Client {
    const projects: set<Id>
    var members: Members
    var writes: int

    constructor (projects: set<Id>, members: Members)
      ensures this.projects == projects && this.members == members && writes == 0
    {
      this.projects, this.members, writes := projects, members, 0;
    }

    /** `GetIdentityMembership`. */
    method Get(key: Key, reply: Reply) returns (read: Read)
      ensures read == Look(projects, members, key, reply)
    {
      read := Look(projects, members, key, reply);
    }

    /** `CreateIdentityMembership` and `UpdateIdentityMembership`. */
    method Write(key: Key, slugs: seq<string>, reply: Reply) returns (ok: bool)
      modifies this
      ensures members == Written(projects, old(members), key, slugs, reply) && ok == WriteOk(projects, key, reply)
      ensures writes == old(writes) + 1
    {
      writes := writes + 1;
      if key.project in projects && reply.Reached() {
        var request := MembershipRequest(slugs);
        members := members[key := request];
      }
      ok := key.project in projects && reply.Answered?;
    }

    /** `EnsureIdentityProjectMembership`. */
    method EnsureMembership(key: Key, slugs: seq<string>, a: Seat) returns (ok: bool)
      modifies this
      ensures var r := Ensure(projects, old(members), key, slugs, a);
        members == r.members && ok == r.ok && writes == old(writes) + r.writes
    {
      var membership := Get(key, a.read);
      if membership.Found? {
        var equal := ClientRolesEqual(membership.roles, slugs);
        if equal {
          return true;
        }
        ok := Write(key, slugs, a.write);
        return;
      }
      if membership.Broken? {
        return false;
      }
      ok := Write(key, slugs, a.write);
    }

    /** `reconcileIdentityMembership`. */
    method ReconcileMembership(key: Key, slugs: seq<string>, a: Calls) returns (ok: bool)
      modifies this
      ensures var r := BindOne(projects, old(members), key, slugs, a);
        members == r.members && ok == r.ok && writes == old(writes) + r.writes
    {
      if |slugs| == 0 {
        return true;
      }
      var membership := Get(key, a.read);
      if membership.Broken? {
        return false;
      }
      if membership.Absent? {
        var created := Write(key, slugs, a.create);
        if !created {
          return false;
        }
        membership := Get(key, a.reread);
        if !membership.Found? {
          return false;
        }
      }
      var equal := ControllerRolesEqual(slugs, membership.roles);
      if !equal {
        var updated := Write(key, slugs, a.update);
        if !updated {
          return false;
        }
        membership := Get(key, a.last);
        if !membership.Found? {
          return false;
        }
      }
      ok := true;
    }

    /** `reconcileOrganizationProjectMemberships`. */
    method ReconcileBindings(identity: Id, bs: seq<Binding>, calls: seq<Calls>) returns (ok: bool, done: nat)
      requires |calls| == |bs|
      modifies this
      ensures var r := BindAll(projects, old(members), identity, bs, calls);
        members == r.members && ok == r.ok && done == r.done
        && writes == old(writes) + Total(r.writes)
    {
      ghost var whole := BindAll(projects, members, identity, bs, calls);
      done := 0;
      assert bs[0..] == bs && calls[0..] == calls;
      for i := 0 to |bs|
        invariant done == i
        invariant Continues(whole, BindAll(projects, members, identity, bs[i..], calls[i..]), done, writes - old(writes))
      {
        UnfoldAt(projects, members, identity, bs, calls, i);
        var slugs := ValidatedSlugs(bs[i].roles);
        if slugs.None? {
          return false, done;
        }
        var bound := ReconcileMembership(Key(bs[i].project, identity), slugs.value, calls[i]);
        if !bound {
          return false, done;
        }
        done := done + 1;
      }
      ok := true;
    }
  }
}
