/** The comma-separated allowlists of Kubernetes Auth: validation, printing and parsing. */
module Csv {
  import opened Basics
  import opened Sorting

  /** White space within Latin-1, as `unicode.IsSpace` has it. */
  predicate Space(c: char) {
    || c == ' ' || c == '\t' || c == '\n' || c == '\r'
    || c == '\U{0B}' || c == '\U{0C}' || c == '\U{85}' || c == '\U{A0}'
  }

  function TrimLeft(s: string): string {
    if s != "" && Space(s[0]) then TrimLeft(s[1..]) else s
  }

  function TrimRight(s: string): string {
    if s != "" && Space(s[|s| - 1]) then TrimRight(s[..|s| - 1]) else s
  }

  lemma {:induction false} TrimLeftLaw(s: string)
    ensures var r := TrimLeft(s); |r| <= |s| && r == s[|s| - |r|..] && (r != "" ==> !Space(r[0]))
  {
    if s != "" && Space(s[0]) {
      TrimLeftLaw(s[1..]);
    }
  }

  lemma {:induction false} TrimRightLaw(s: string)
    ensures var r := TrimRight(s); |r| <= |s| && r == s[..|r|] && (r != "" ==> !Space(r[|r| - 1]))
  {
    if s != "" && Space(s[|s| - 1]) {
      TrimRightLaw(s[..|s| - 1]);
    }
  }

  predicate Trimmed(s: string) {
    s == "" || (!Space(s[0]) && !Space(s[|s| - 1]))
  }

  /** `strings.TrimSpace`. */
  function Trim(s: string): string {
    TrimRight(TrimLeft(s))
  }

  /** Trimming yields a trimmed string, and leaves exactly the trimmed ones as they are. */
  lemma {:induction false} TrimLaw(s: string)
    ensures Trimmed(Trim(s)) && (Trim(s) == s <==> Trimmed(s))
  {
    var l := TrimLeft(s);
    var r := TrimRight(l);
    TrimLeftLaw(s);
    TrimRightLaw(l);
    if r != "" {
      assert r[0] == l[0];
    }
    if Trimmed(s) {
      assert l == s;
    }
  }

  lemma {:induction false} TrimChars(s: string, c: char)
    requires c in Trim(s)
    ensures c in s
  {
    TrimLeftLaw(s);
    TrimRightLaw(TrimLeft(s));
    assert c in TrimLeft(s);
  }

  /** `strings.Join(values, ",")`. */
  function Join(values: seq<string>): string {
    if values == [] then ""
    else if |values| == 1 then values[0]
    else values[0] + "," + Join(values[1..])
  }

  /** `strings.Split(value, ",")`: always at least one part. */
  function Split(value: string): (parts: seq<string>)
    ensures parts != []
  {
    if value == "" then [""]
    else
      var rest := Split(value[1..]);
      if value[0] == ',' then [""] + rest else [[value[0]] + rest[0]] + rest[1..]
  }

  lemma {:induction false} SplitLaw(value: string)
    ensures forall i :: 0 <= i < |Split(value)| ==> ',' !in Split(value)[i]
  {
    if value != "" {
      SplitLaw(value[1..]);
    }
  }

  /** Splitting loses nothing. */
  lemma {:induction false} JoinSplit(value: string)
    ensures Join(Split(value)) == value
  {
    if value != "" {
      JoinSplit(value[1..]);
      var rest := Split(value[1..]);
      assert value == [value[0]] + value[1..];
      if value[0] == ',' {
        assert ([""] + rest)[1..] == rest;
      } else {
        var head := [value[0]] + rest[0];
        assert ([head] + rest[1..])[1..] == rest[1..];
      }
    }
  }

  /** What the operator's validation asks of an allowlist value. */
  predicate Acceptable(value: string) {
    value != "" && Trimmed(value)
  }

  /** A value that survives the comma-separated form: the validation does not ask for the
      absence of commas. */
  predicate Plain(value: string) {
    Acceptable(value) && ',' !in value
  }

  predicate AllPlain(values: seq<string>) {
    forall i :: 0 <= i < |values| ==> Plain(values[i])
  }

  /** The parts that `splitCSV` keeps: trimmed, and not empty. */
  function Kept(parts: seq<string>): seq<string> {
    if parts == [] then []
    else if Trim(parts[0]) == "" then Kept(parts[1..])
    else [Trim(parts[0])] + Kept(parts[1..])
  }

  lemma {:induction false} PartIsPlain(part: string)
    requires ',' !in part && Trim(part) != ""
    ensures Plain(Trim(part))
  {
    TrimLaw(part);
    if ',' in Trim(part) {
      TrimChars(part, ',');
      assert false;
    }
  }

  lemma {:induction false} KeptIsPlain(parts: seq<string>)
    requires forall i :: 0 <= i < |parts| ==> ',' !in parts[i]
    ensures AllPlain(Kept(parts))
  {
    if parts != [] {
      KeptIsPlain(parts[1..]);
      if Trim(parts[0]) != "" {
        PartIsPlain(parts[0]);
      }
    }
  }

  function Parse(value: string): seq<string> {
    if Trim(value) == "" then [] else Kept(Split(value))
  }

  /** `splitCSV` returns a nil slice for a blank value. */
  function Slice(value: string): Option<seq<string>> {
    if Trim(value) == "" then None else Some(Parse(value))
  }

  /** Not blank, and yet without a part that counts. */
  predicate SplitsToNothing(value: string) {
    Trim(value) != "" && Parse(value) == []
  }

  function Print(values: seq<string>): string {
    Join(Sort(values))
  }

  lemma {:induction false} KeptConcat(a: seq<string>, part: string)
    ensures Kept(a + [part]) == Kept(a) + if Trim(part) == "" then [] else [Trim(part)]
  {
    if a != [] {
      assert (a + [part])[1..] == a[1..] + [part];
      KeptConcat(a[1..], part);
    } else {
      assert ([part])[1..] == [];
    }
  }

  lemma {:induction false} KeptStep(parts: seq<string>, i: nat)
    requires i < |parts|
    ensures Kept(parts[..i + 1]) == Kept(parts[..i]) + if Trim(parts[i]) == "" then [] else [Trim(parts[i])]
  {
    KeptConcat(parts[..i], parts[i]);
    assert parts[..i + 1] == parts[..i] + [parts[i]];
  }

  /** The loop of `splitCSV`. */
  method KeepParts(parts: seq<string>) returns (result: seq<string>)
    ensures result == Kept(parts)
  {
    result := [];
    for i := 0 to |parts|
      invariant result == Kept(parts[..i])
    {
      KeptStep(parts, i);
      var part := Trim(parts[i]);
      if part != "" {
        result := result + [part];
      }
    }
    assert parts[..|parts|] == parts;
  }

  /** `splitCSV`. */
  method SplitCsv(value: string) returns (result: Option<seq<string>>)
    ensures result == Slice(value)
  {
    if Trim(value) == "" {
      return None;
    }
    var parts := Split(value);
    var kept := KeepParts(parts);
    result := Some(kept);
  }

  /** What the validation asks of one value, and in what terms it asks it. */
  lemma {:induction false} AcceptableLaw(value: string)
    ensures Acceptable(value) <==> !(value == "" || Trim(value) == "" || value != Trim(value))
  {
    TrimLaw(value);
  }

  /** `validateKubernetesAuthValues`: the index of the first rejected value, if any. */
  method RejectedValue(values: seq<string>) returns (rejected: Option<nat>)
    ensures rejected.None? <==> values != [] && forall k :: 0 <= k < |values| ==> Acceptable(values[k])
    ensures rejected.Some? && values != [] ==>
      && rejected.value < |values| && !Acceptable(values[rejected.value])
      && forall k :: 0 <= k < rejected.value ==> Acceptable(values[k])
  {
    if |values| == 0 {
      return Some(0);
    }
    for i := 0 to |values|
      invariant forall k :: 0 <= k < i ==> Acceptable(values[k])
    {
      AcceptableLaw(values[i]);
      if values[i] == "" || Trim(values[i]) == "" || values[i] != Trim(values[i]) {
        return Some(i);
      }
    }
    rejected := None;
  }

  lemma {:induction false} SplitPart(value: string, rest: string)
    requires ',' !in value
    ensures Split(value) == [value]
    ensures Split(value + "," + rest) == [value] + Split(rest)
  {
    var s := value + "," + rest;
    if value == "" {
      assert s == "," + rest && s[1..] == rest;
    } else {
      SplitPart(value[1..], rest);
      assert s[1..] == value[1..] + "," + rest && value == [value[0]] + value[1..];
      assert Split(s) == [[value[0]] + value[1..]] + ([value[1..]] + Split(rest))[1..];
    }
  }

  lemma {:induction false} SplitJoin(values: seq<string>)
    requires values != [] && forall i :: 0 <= i < |values| ==> ',' !in values[i]
    ensures Split(Join(values)) == values
  {
    if |values| == 1 {
      SplitPart(values[0], "");
    } else {
      SplitPart(values[0], Join(values[1..]));
      SplitJoin(values[1..]);
      assert values == [values[0]] + values[1..];
    }
  }

  lemma {:induction false} KeptPlain(parts: seq<string>)
    requires AllPlain(parts)
    ensures Kept(parts) == parts
  {
    if parts != [] {
      TrimLaw(parts[0]);
      KeptPlain(parts[1..]);
      assert parts == [parts[0]] + parts[1..];
    }
  }

  lemma {:induction false} JoinPlainIsNotBlank(values: seq<string>)
    requires AllPlain(values) && values != []
    ensures Trim(Join(values)) != ""
  {
    var s := Join(values);
    assert s != "" && s[0] == values[0][0];
    assert TrimLeft(s) == s;
    if TrimRight(s) == "" {
      TrimRightBlank(s);
    }
  }

  lemma {:induction false} TrimRightBlank(s: string)
    requires TrimRight(s) == ""
    ensures forall i :: 0 <= i < |s| ==> Space(s[i])
  {
    if s != "" {
      TrimRightBlank(s[..|s| - 1]);
    }
  }

  lemma {:induction false} SameElements(a: seq<string>, b: seq<string>)
    requires multiset(a) == multiset(b)
    ensures AllPlain(a) ==> AllPlain(b)
  {
    forall i | AllPlain(a) && 0 <= i < |b| ensures Plain(b[i]) {
      assert b[i] in multiset(a);
    }
  }

  /** Print then parse gives the sorted list back exactly when every value is plain. */
  lemma {:induction false} RoundTrip(values: seq<string>)
    ensures Parse(Print(values)) == Sort(values) <==> AllPlain(values)
  {
    var sorted := Sort(values);
    SortLaw(values);
    SameElements(values, sorted);
    SameElements(sorted, values);
    if AllPlain(values) {
      if sorted != [] {
        SplitJoin(sorted);
        KeptPlain(sorted);
        JoinPlainIsNotBlank(sorted);
      }
    } else {
      SplitLaw(Print(values));
      KeptIsPlain(Split(Print(values)));
    }
  }

  /** The allowlist drift test compares printed lists. On plain values it therefore sees
      exactly a difference of multisets: order never matters, repetition always does. */
  lemma {:induction false} DriftIsMultisetDifference(a: seq<string>, b: seq<string>)
    requires AllPlain(a) && AllPlain(b)
    ensures Print(a) == Print(b) <==> multiset(a) == multiset(b)
  {
    RoundTrip(a);
    RoundTrip(b);
    SortCanonical(a, b);
  }

  // ----- what commas hide

  /** What the operator's validation accepts. */
  predicate ValidValues(values: seq<string>) {
    values != [] && forall i :: 0 <= i < |values| ==> Acceptable(values[i])
  }

  /** A value with a comma between two acceptable values in order: it is how those two print. */
  predicate Ambiguous(value: string) {
    exists k :: 0 <= k < |value| && SplitsAt(value, k)
  }

  predicate SplitsAt(value: string, k: nat)
    requires k < |value|
  {
    value[k] == ',' && Acceptable(value[..k]) && Acceptable(value[k + 1..]) && Leq(value[..k], value[k + 1..])
  }

  lemma {:induction false} LeqPrefix(x: string, y: string, z: string)
    requires Leq(x, y)
    ensures Leq(x, y + z)
  {
    if x != "" {
      assert (y + z)[1..] == y[1..] + z;
      if x[0] == y[0] {
        LeqPrefix(x[1..], y[1..], z);
      }
    }
  }

  lemma {:induction false} JoinAcceptable(values: seq<string>)
    requires ValidValues(values)
    ensures Acceptable(Join(values))
  {
    if |values| > 1 {
      JoinAcceptable(values[1..]);
      var s := Join(values);
      assert s == values[0] + "," + Join(values[1..]);
      assert s[|s| - 1] == Join(values[1..])[|Join(values[1..])| - 1];
    }
  }

  lemma {:induction false} SortAccepted(values: seq<string>)
    requires ValidValues(values)
    ensures ValidValues(Sort(values)) && |Sort(values)| == |values| && Sorted(Sort(values))
  {
    SortLaw(values);
    var sorted := Sort(values);
    forall i | 0 <= i < |sorted| ensures Acceptable(sorted[i]) {
      assert sorted[i] in multiset(values);
    }
  }

  /** An accepted list of two or more values prints like the single value that it prints as. */
  lemma {:induction false} LongListsAreAmbiguous(values: seq<string>)
    requires ValidValues(values) && |values| > 1
    ensures Acceptable(Print(values)) && Ambiguous(Print(values))
  {
    SortAccepted(values);
    var sorted := Sort(values);
    JoinAcceptable(sorted);
    JoinAcceptable(sorted[1..]);
    var rest := Join(sorted[1..]);
    if |sorted| > 2 {
      assert rest == sorted[1] + ("," + Join(sorted[1..][1..]));
      LeqPrefix(sorted[0], sorted[1], "," + Join(sorted[1..][1..]));
    }
    var s := Print(values);
    assert s == sorted[0] + "," + rest;
    assert s[..|sorted[0]|] == sorted[0] && s[|sorted[0]| + 1..] == rest;
    assert SplitsAt(s, |sorted[0]|);
  }

  lemma {:induction false} SinglePrint(value: string)
    ensures Print([value]) == value
  {
    assert [value][1..] == [] && Sort([]) == [];
    assert Sort([value]) == Insert(value, []) == [value];
  }

  lemma {:induction false} PairPrint(p: string, q: string)
    requires Leq(p, q)
    ensures Print([p, q]) == p + "," + q
  {
    assert [p, q][1..] == [q] && [q][1..] == [] && Sort([]) == [];
    assert Sort([q]) == Insert(q, []) == [q];
    assert Sort([p, q]) == Insert(p, [q]) == [p] + [q];
    assert [p] + [q] == [p, q];
    assert Join([p, q]) == p + "," + Join([p, q][1..]);
  }

  /** The other accepted list that prints alike, when there is one. */
  lemma {:induction false} Lookalike(values: seq<string>) returns (other: seq<string>)
    requires ValidValues(values) && !(|values| == 1 && !Ambiguous(values[0]))
    ensures ValidValues(other) && Print(other) == Print(values) && multiset(other) != multiset(values)
  {
    if |values| > 1 {
      LongListsAreAmbiguous(values);
      other := [Print(values)];
      SinglePrint(Print(values));
    } else {
      var k :| 0 <= k < |values[0]| && SplitsAt(values[0], k);
      var p, q := values[0][..k], values[0][k + 1..];
      other := [p, q];
      PairPrint(p, q);
      SinglePrint(values[0]);
      assert values[0] == p + "," + q && values == [values[0]];
    }
    assert |multiset(other)| == |other| && |multiset(values)| == |values|;
  }

  lemma {:induction false} SinglesPrintApart(values: seq<string>, other: seq<string>)
    requires ValidValues(other) && |values| == 1 && !Ambiguous(values[0]) && Print(other) == Print(values)
    ensures multiset(other) == multiset(values)
  {
    SinglePrint(values[0]);
    assert values == [values[0]];
    if |other| > 1 {
      LongListsAreAmbiguous(other);
      assert false;
    }
    SinglePrint(other[0]);
    assert other == [other[0]];
  }

  /** What the drift test can tell apart: an accepted allowlist prints unlike every other one
      exactly when it has one value, and that value is not itself how two others print. */
  lemma {:induction false} ToldApartExactly(values: seq<string>)
    requires ValidValues(values)
    ensures (forall other :: ValidValues(other) && Print(other) == Print(values) ==> multiset(other) == multiset(values))
      <==> |values| == 1 && !Ambiguous(values[0])
  {
    if |values| == 1 && !Ambiguous(values[0]) {
      forall other | ValidValues(other) && Print(other) == Print(values) ensures multiset(other) == multiset(values) {
        SinglesPrintApart(values, other);
      }
    } else {
      var other := Lookalike(values);
    }
  }
}
