/** Identity metadata: the two-map comparison of wanted and observed entries. */
module Metadata {
  import opened Basics

  datatype Entry = Entry(key: string, value: string)

  predicate UniqueKeys(entries: seq<Entry>) {
    forall i, j :: 0 <= i < j < |entries| ==> entries[i].key != entries[j].key
  }

  /** The map a Go loop builds from a list: the last entry of a key wins. */
  function MapOf(entries: seq<Entry>): (m: map<string, string>)
    ensures |m| <= |entries|
  {
    if entries == [] then map[]
    else
      var last := entries[|entries| - 1];
      MapOf(entries[..|entries| - 1])[last.key := last.value]
  }

  predicate HasKey(entries: seq<Entry>, key: string) {
    exists i :: 0 <= i < |entries| && entries[i].key == key
  }

  lemma {:induction false} KeysOfMap(entries: seq<Entry>, key: string)
    ensures key in MapOf(entries) <==> HasKey(entries, key)
  {
    if entries != [] {
      var n := |entries| - 1;
      KeysOfMap(entries[..n], key);
      if HasKey(entries[..n], key) {
        var i :| 0 <= i < n && entries[..n][i].key == key;
        assert entries[i].key == key;
      } else if HasKey(entries, key) {
        assert forall i :: 0 <= i < n ==> entries[..n][i] == entries[i];
      }
    }
  }

  /** What the comparison decides: nothing wanted, or the same number of entries, no key twice
      on either side, and every wanted value read back. */
  predicate Matches(want: Option<seq<Entry>>, current: seq<Entry>) {
    want.None? || (
      && |want.value| == |current| && UniqueKeys(want.value) && UniqueKeys(current)
      && forall i :: 0 <= i < |want.value| ==> Finds(want.value[i], current))
  }

  /** A wanted entry is found as itself; wanted empty, it may also be absent. */
  predicate Finds(entry: Entry, current: seq<Entry>) {
    entry in current || (entry.value == "" && forall j :: 0 <= j < |current| ==> current[j].key != entry.key)
  }

  lemma LastKey(entries: seq<Entry>)
    requires entries != []
    ensures var n := |entries| - 1;
      UniqueKeys(entries) <==> UniqueKeys(entries[..n]) && !HasKey(entries[..n], entries[n].key)
  {
    var n := |entries| - 1;
    assert forall i :: 0 <= i < n ==> entries[i] == entries[..n][i];
  }

  lemma {:induction false} UniqueKeysBySize(entries: seq<Entry>)
    ensures |MapOf(entries)| == |entries| <==> UniqueKeys(entries)
  {
    if entries != [] {
      var n := |entries| - 1;
      LastKey(entries);
      KeysOfMap(entries[..n], entries[n].key);
      UniqueKeysBySize(entries[..n]);
    }
  }

  lemma {:induction false} UniqueKeysReadBack(entries: seq<Entry>, i: nat)
    requires UniqueKeys(entries) && i < |entries|
    ensures Read(MapOf(entries), entries[i].key) == entries[i].value
  {
    var n := |entries| - 1;
    if i < n {
      KeysOfMap(entries[..n], entries[i].key);
      assert entries[..n][i] == entries[i];
      UniqueKeysReadBack(entries[..n], i);
    }
  }

  lemma ReadFinds(entry: Entry, current: seq<Entry>)
    requires UniqueKeys(current)
    ensures Read(MapOf(current), entry.key) == entry.value <==> Finds(entry, current)
  {
    KeysOfMap(current, entry.key);
    if HasKey(current, entry.key) {
      var j :| 0 <= j < |current| && current[j].key == entry.key;
      UniqueKeysReadBack(current, j);
      if entry in current {
        var k :| 0 <= k < |current| && current[k] == entry;
      }
    }
  }

  /** The two loops that fill a map. */
  method Collect(entries: seq<Entry>) returns (m: map<string, string>)
    ensures m == MapOf(entries)
  {
    m := map[];
    for i := 0 to |entries|
      invariant m == MapOf(entries[..i])
    {
      assert entries[..i + 1][..i] == entries[..i];
      m := m[entries[i].key := entries[i].value];
    }
    assert entries[..|entries|] == entries;
  }

  /** `identityMetadataEqual`. */
  method MetadataEqual(want: Option<seq<Entry>>, current: seq<Entry>) returns (equal: bool)
    ensures equal <==> Matches(want, current)
  {
    if want.None? {
      return true;
    }
    if |want.value| != |current| {
      return false;
    }
    var wanted := Collect(want.value);
    var observed := Collect(current);
    UniqueKeysBySize(want.value);
    UniqueKeysBySize(current);
    if |wanted| != |want.value| || |observed| != |current| {
      return false;
    }
    forall i | 0 <= i < |want.value| ensures want.value[i].key in wanted {
      KeysOfMap(want.value, want.value[i].key);
    }
    var left := wanted.Keys;
    while left != {}
      invariant left <= wanted.Keys
      invariant forall i :: 0 <= i < |want.value| && want.value[i].key !in left ==> Finds(want.value[i], current)
    {
      var key :| key in left;
      KeysOfMap(want.value, key);
      ghost var i :| 0 <= i < |want.value| && want.value[i].key == key;
      UniqueKeysReadBack(want.value, i);
      ReadFinds(want.value[i], current);
      if Read(observed, key) != wanted[key] {
        return false;
      }
      left := left - {key};
      forall k | 0 <= k < |want.value| && want.value[k].key == key ensures Finds(want.value[k], current) {
        assert k == i;
      }
    }
    equal := true;
  }

  /** Inclusion of equally many distinct entries is equality: the pigeonhole step. */
  lemma {:induction false} InclusionIsPermutation(want: seq<Entry>, current: seq<Entry>)
    requires UniqueKeys(want) && |want| == |current|
    requires forall i :: 0 <= i < |want| ==> want[i] in current
    ensures multiset(want) == multiset(current)
  {
    if want != [] {
      var n := |want| - 1;
      var j :| 0 <= j < |current| && current[j] == want[n];
      var rest := current[..j] + current[j + 1..];
      forall i | 0 <= i < n ensures want[..n][i] in rest {
        var k :| 0 <= k < |current| && current[k] == want[i];
        assert want[i].key != want[n].key;
        assert current[k] == if k < j then rest[k] else rest[k - 1];
      }
      InclusionIsPermutation(want[..n], rest);
      assert want == want[..n] + [want[n]];
      assert current == current[..j] + [current[j]] + current[j + 1..];
    }
  }

  /** With no empty value wanted, the comparison is true exactly when both lists have unique
      keys and the observed entries are a permutation of the wanted ones. */
  lemma MatchesIsPermutation(want: seq<Entry>, current: seq<Entry>)
    requires forall i :: 0 <= i < |want| ==> want[i].value != ""
    ensures Matches(Some(want), current)
      <==> UniqueKeys(want) && UniqueKeys(current) && multiset(want) == multiset(current)
  {
    if Matches(Some(want), current) {
      forall i | 0 <= i < |want| ensures want[i] in current {
        assert Finds(want[i], current);
      }
      InclusionIsPermutation(want, current);
    } else if multiset(want) == multiset(current) {
      assert |multiset(want)| == |want| && |multiset(current)| == |current|;
      forall i | 0 <= i < |want| ensures Finds(want[i], current) {
        assert want[i] in multiset(current);
      }
    }
  }

  /** An entry wanted with an empty value is read back from a list that does not have it. */
  lemma EmptyValueHidesAbsence()
    ensures Matches(Some([Entry("owner", "")]), [Entry("team", "x")])
  {
    assert Finds(Entry("owner", ""), [Entry("team", "x")]);
  }

  /** After the wanted list has been written, the comparison is true unless a key repeats. */
  lemma WrittenMatches(want: seq<Entry>)
    ensures Matches(Some(want), want) <==> UniqueKeys(want)
  {
    forall i | 0 <= i < |want| ensures Finds(want[i], want) {
      assert want[i] in want;
    }
  }
}
