/** The payload of a composed form: what it holds, and that the order of the fields does not matter. */
module Payloads {
  import opened Prelude
  import opened Texts
  import opened JsonPaths
  import opened Composer

  function KeyPath(field: Field): Path {
    Split(field.key, '.')
  }

  function Emitted(field: Field): Option<Value> {
    match FieldValue(field)
    case Success(value) => value
    case Failure(_) => None
  }

  predicate AllValid(fields: seq<Field>) {
    forall k | 0 <= k < |fields| :: FieldValue(fields[k]).Success?
  }

  /** An object for the first segment of every dotted key that has none yet. */
  function WithParents(root: Members, fields: seq<Field>): Members {
    if fields == [] then root
    else
      var before, path := WithParents(root, fields[..|fields| - 1]), KeyPath(fields[|fields| - 1]);
      if |path| > 1 && path[0] !in before then before[path[0] := Obj(map[])] else before
  }

  function InsertField(root: Members, field: Field): Members {
    if Emitted(field).Some? then InsertPath(root, KeyPath(field), Emitted(field).value) else root
  }

  function Filled(root: Members, fields: seq<Field>): Members {
    if fields == [] then root else InsertField(Filled(root, fields[..|fields| - 1]), fields[|fields| - 1])
  }

  function Base(actionType: string, fields: seq<Field>): Members {
    WithParents(map["type" := Str(actionType)], fields)
  }

  function Payload(actionType: string, fields: seq<Field>): Members {
    Filled(Base(actionType, fields), fields)
  }

  method BuildPayload(actionType: string, fields: seq<Field>) returns (r: Result<Value, FieldError>)
    ensures r.Success? <==> AllValid(fields)
    ensures r.Success? ==> r.value == Obj(Payload(actionType, fields))
    ensures r.Failure? ==>
              exists i | 0 <= i < |fields| :: FieldValue(fields[i]) == Failure(r.error) && AllValid(fields[..i])
  {
    hide FieldValue, KeyPath, InsertPath;
    var root: Members := map["type" := Str(actionType)];
    for i := 0 to |fields|
      invariant root == Base(actionType, fields[..i])
    {
      assert fields[..i + 1][..i] == fields[..i];
      var path := KeyPath(fields[i]);
      if |path| > 1 && path[0] !in root {
        root := root[path[0] := Obj(map[])];
      }
    }
    assert fields[..|fields|] == fields;
    for i := 0 to |fields|
      invariant AllValid(fields[..i])
      invariant root == Filled(Base(actionType, fields), fields[..i])
    {
      assert fields[..i + 1][..i] == fields[..i];
      var value := FieldValue(fields[i]);
      if value.Failure? {
        return Failure(value.error);
      }
      if value.value.Some? {
        root := InsertPath(root, KeyPath(fields[i]), value.value.value);
      }
    }
    r := Success(Obj(root));
  }

  // ---------------------------------------------------------------- what the payload holds

  /** No key lies on the way to another, and none is at or under `type`. */
  predicate Separate(fields: seq<Field>) {
    && (forall i, j | 0 <= i < j < |fields| :: Apart(KeyPath(fields[i]), KeyPath(fields[j])))
    && (forall i | 0 <= i < |fields| :: KeyPath(fields[i])[0] != "type")
  }

  lemma SeparatePrefix(fields: seq<Field>, n: nat)
    requires Separate(fields) && n <= |fields|
    ensures Separate(fields[..n])
  {
    hide KeyPath, Apart;
  }

  lemma NeverAnObject(field: Field)
    ensures Emitted(field).Some? ==> !Emitted(field).value.Obj?
  {
  }

  lemma FieldLookup(root: Members, field: Field, q: Path)
    ensures var at, path := Lookup(InsertField(root, field), q), KeyPath(field);
            if Emitted(field).None? || Apart(path, q) then at == Lookup(root, q)
            else if path == q then at == Emitted(field)
            else if q < path then at.Some? && at.value.Obj?
            else at == None
  {
    hide FieldValue, KeyPath;
    NeverAnObject(field);
    if Emitted(field).Some? {
      LookupInserted(root, KeyPath(field), Emitted(field).value, q);
    }
  }

  /** Fields whose paths are all apart from `q` leave what is there alone. */
  lemma {:induction false} FilledApart(root: Members, fields: seq<Field>, q: Path)
    requires forall k | 0 <= k < |fields| :: Emitted(fields[k]).Some? ==> Apart(KeyPath(fields[k]), q)
    ensures Lookup(Filled(root, fields), q) == Lookup(root, q)
  {
    hide Emitted, KeyPath, Apart, InsertField, Lookup;
    if fields != [] {
      var n := |fields| - 1;
      FilledApart(root, fields[..n], q);
      FieldLookup(Filled(root, fields[..n]), fields[n], q);
    }
  }

  /** The value of a field is where its key says. */
  lemma {:induction false} FilledAt(root: Members, fields: seq<Field>, i: nat)
    requires Separate(fields) && i < |fields| && Emitted(fields[i]).Some?
    ensures Lookup(Filled(root, fields), KeyPath(fields[i])) == Emitted(fields[i])
  {
    hide Emitted, KeyPath, InsertField, Lookup;
    var n, q := |fields| - 1, KeyPath(fields[i]);
    FieldLookup(Filled(root, fields[..n]), fields[n], q);
    if i < n {
      SeparatePrefix(fields, n);
      FilledAt(root, fields[..n], i);
      assert Apart(q, KeyPath(fields[n]));
    }
  }

  /** Below the value of a field there is nothing. */
  lemma {:induction false} FilledBelow(root: Members, fields: seq<Field>, i: nat, q: Path)
    requires Separate(fields) && i < |fields| && Emitted(fields[i]).Some? && KeyPath(fields[i]) < q
    ensures Lookup(Filled(root, fields), q) == None
  {
    hide Emitted, KeyPath, InsertField, Lookup;
    var n := |fields| - 1;
    FieldLookup(Filled(root, fields[..n]), fields[n], q);
    if i < n {
      SeparatePrefix(fields, n);
      FilledBelow(root, fields[..n], i, q);
      StillApart(KeyPath(fields[i]), KeyPath(fields[n]), q);
    }
  }

  lemma StillApart(p: Path, other: Path, below: Path)
    requires Apart(p, other) && p < below
    ensures Apart(other, below)
  {
    if other <= below {
      PrefixesCompare(p, other, below);
    }
  }

  /** On the way to the value of a field there are objects. */
  lemma {:induction false} FilledAbove(root: Members, fields: seq<Field>, i: nat, q: Path)
    requires Separate(fields) && i < |fields| && Emitted(fields[i]).Some? && q < KeyPath(fields[i])
    ensures var at := Lookup(Filled(root, fields), q); at.Some? && at.value.Obj?
  {
    hide Emitted, KeyPath, InsertField, Lookup;
    var n := |fields| - 1;
    FieldLookup(Filled(root, fields[..n]), fields[n], q);
    if i < n {
      SeparatePrefix(fields, n);
      FilledAbove(root, fields[..n], i, q);
    }
  }

  predicate IsParent(fields: seq<Field>, name: string) {
    exists i | 0 <= i < |fields| :: |KeyPath(fields[i])| > 1 && KeyPath(fields[i])[0] == name
  }

  lemma {:induction false} ParentsAre(root: Members, fields: seq<Field>, name: string)
    ensures name in WithParents(root, fields) <==> name in root || IsParent(fields, name)
    ensures name in WithParents(root, fields) ==>
              WithParents(root, fields)[name] == if name in root then root[name] else Obj(map[])
  {
    hide KeyPath;
    if fields != [] {
      var n := |fields| - 1;
      ParentsAre(root, fields[..n], name);
      ParentsAre(root, fields[..n], KeyPath(fields[n])[0]);
      assert IsParent(fields, name) <==>
             IsParent(fields[..n], name) || (|KeyPath(fields[n])| > 1 && KeyPath(fields[n])[0] == name);
    }
  }

  /** Some field has `q` on the way to its key, and shows it: by its value, or because `q` is the
   *  first segment of a dotted key. */
  predicate OnTheWay(fields: seq<Field>, q: Path) {
    exists i | 0 <= i < |fields| :: q < KeyPath(fields[i]) && (Emitted(fields[i]).Some? || |q| == 1)
  }

  lemma BaseLookup(actionType: string, fields: seq<Field>, q: Path)
    ensures Lookup(Base(actionType, fields), q)
         == if q == ["type"] then Some(Str(actionType))
            else if |q| == 1 && IsParent(fields, q[0]) then Some(Obj(map[]))
            else None
  {
    hide KeyPath, IsParent;
    ParentsAre(map["type" := Str(actionType)], fields, q[0]);
    if |q| == 1 {
      assert q == [q[0]];
    }
  }

  /** What belongs at `q`: the type, a field's value at its key and nothing for a field left out,
   *  objects on the way, and nothing anywhere else. */
  predicate Expected(at: Option<Value>, actionType: string, fields: seq<Field>, q: Path) {
    && (q == ["type"] ==> at == Some(Str(actionType)))
    && (forall i | 0 <= i < |fields| && KeyPath(fields[i]) == q :: at == Emitted(fields[i]))
    && (OnTheWay(fields, q) ==> at.Some? && at.value.Obj?)
    && (at.Some? ==>
        q == ["type"] || OnTheWay(fields, q) || exists i | 0 <= i < |fields| :: KeyPath(fields[i]) == q)
  }

  lemma Symmetric(fields: seq<Field>, i: nat, j: nat)
    requires Separate(fields) && i < |fields| && j < |fields| && i != j
    ensures Apart(KeyPath(fields[i]), KeyPath(fields[j]))
  {
    hide KeyPath;
  }

  /** From the key of a field downwards no other field has a part. */
  lemma AtOrBelow(fields: seq<Field>, i: nat, q: Path)
    requires Separate(fields) && i < |fields| && KeyPath(fields[i]) <= q
    ensures !OnTheWay(fields, q) && q != ["type"]
    ensures forall j | 0 <= j < |fields| && KeyPath(fields[j]) == q :: j == i
  {
    hide KeyPath, Emitted, Separate;
    forall j | 0 <= j < |fields| && q <= KeyPath(fields[j])
      ensures j == i
    {
      if j != i {
        Symmetric(fields, i, j);
      }
    }
    NotType(fields, i);
  }

  lemma NotType(fields: seq<Field>, i: nat)
    requires Separate(fields) && i < |fields|
    ensures KeyPath(fields[i])[0] != "type"
  {
    hide KeyPath, Apart;
  }

  lemma Touched(root: Members, actionType: string, fields: seq<Field>, i: nat, q: Path)
    requires Separate(fields) && i < |fields| && Emitted(fields[i]).Some? && !Apart(KeyPath(fields[i]), q)
    ensures Expected(Lookup(Filled(root, fields), q), actionType, fields, q)
  {
    hide Emitted, KeyPath, Lookup, Filled, Separate;
    if KeyPath(fields[i]) <= q {
      AtOrBelow(fields, i, q);
      if KeyPath(fields[i]) == q {
        FilledAt(root, fields, i);
      } else {
        FilledBelow(root, fields, i, q);
      }
    } else {
      FilledAbove(root, fields, i, q);
      NotType(fields, i);
      forall j | 0 <= j < |fields|
        ensures KeyPath(fields[j]) != q
      {
        if j != i {
          Symmetric(fields, i, j);
        }
      }
    }
  }

  lemma Untouched(actionType: string, fields: seq<Field>, q: Path)
    requires Separate(fields)
    requires forall i | 0 <= i < |fields| && Emitted(fields[i]).Some? :: Apart(KeyPath(fields[i]), q)
    ensures Expected(Lookup(Base(actionType, fields), q), actionType, fields, q)
  {
    hide Emitted, KeyPath, Lookup, Base, Separate;
    BaseLookup(actionType, fields, q);
    if |q| == 1 && IsParent(fields, q[0]) {
      var i :| 0 <= i < |fields| && |KeyPath(fields[i])| > 1 && KeyPath(fields[i])[0] == q[0];
      assert q < KeyPath(fields[i]) && OnTheWay(fields, q);
      NotType(fields, i);
    }
    forall j | 0 <= j < |fields| && KeyPath(fields[j]) == q
      ensures Lookup(Base(actionType, fields), q) == None
    {
      AtOrBelow(fields, j, q);
    }
  }

  /** The payload of fields with separate keys holds exactly what belongs there, at every path. */
  lemma PayloadExactly(actionType: string, fields: seq<Field>, q: Path)
    requires Separate(fields)
    ensures Expected(Lookup(Payload(actionType, fields), q), actionType, fields, q)
  {
    hide Emitted, KeyPath, Lookup, Filled, Base, Separate, Expected;
    var base := Base(actionType, fields);
    if i :| 0 <= i < |fields| && Emitted(fields[i]).Some? && !Apart(KeyPath(fields[i]), q) {
      Touched(base, actionType, fields, i, q);
    } else {
      FilledApart(base, fields, q);
      Untouched(actionType, fields, q);
    }
  }

  // ---------------------------------------------------------------- the order of the fields

  lemma FieldsCommute(root: Members, f: Field, g: Field)
    requires Apart(KeyPath(f), KeyPath(g))
    ensures InsertField(InsertField(root, f), g) == InsertField(InsertField(root, g), f)
  {
    hide FieldValue, KeyPath, InsertPath;
    if Emitted(f).Some? && Emitted(g).Some? {
      InsertionsCommute(root, KeyPath(f), Emitted(f).value, KeyPath(g), Emitted(g).value);
    }
  }

  function Without(fields: seq<Field>, i: nat): seq<Field>
    requires i < |fields|
  {
    fields[..i] + fields[i + 1..]
  }

  /** Any field may be moved to the end. */
  lemma {:induction false} MovedLast(root: Members, fields: seq<Field>, i: nat)
    requires Separate(fields) && i < |fields|
    ensures Filled(root, fields) == InsertField(Filled(root, Without(fields, i)), fields[i])
  {
    hide KeyPath, InsertField, Separate;
    var n := |fields| - 1;
    if i < n {
      var most := fields[..n];
      SeparatePrefix(fields, n);
      MovedLast(root, most, i);
      Symmetric(fields, i, n);
      FieldsCommute(Filled(root, Without(most, i)), fields[i], fields[n]);
      assert Without(fields, i)[..n - 1] == Without(most, i);
    } else {
      assert Without(fields, i) == fields[..n];
    }
  }

  lemma SeparateWithout(fields: seq<Field>, i: nat)
    requires Separate(fields) && i < |fields|
    ensures Separate(Without(fields, i))
  {
    hide KeyPath, Apart;
  }

  lemma TakenOut(f: seq<Field>, i: nat)
    requires i < |f|
    ensures multiset(f) == multiset(Without(f, i)) + multiset{f[i]}
  {
    assert f == f[..i] + [f[i]] + f[i + 1..];
  }

  lemma Cancelled(a: multiset<Field>, b: multiset<Field>, x: Field)
    requires a + multiset{x} == b + multiset{x}
    ensures a == b
  {
    hide *;
    assert a == (a + multiset{x}) - multiset{x};
    assert b == (b + multiset{x}) - multiset{x};
  }

  lemma SameWithoutOne(f: seq<Field>, i: nat, g: seq<Field>)
    requires i < |f| && g != [] && multiset(f) == multiset(g) && f[i] == g[|g| - 1]
    ensures multiset(Without(f, i)) == multiset(g[..|g| - 1])
  {
    var n := |g| - 1;
    TakenOut(f, i);
    TakenOut(g, n);
    assert Without(g, n) == g[..n];
    Cancelled(multiset(Without(f, i)), multiset(g[..n]), f[i]);
  }

  lemma {:induction false} FilledPermuted(root: Members, f: seq<Field>, g: seq<Field>)
    requires Separate(f) && multiset(f) == multiset(g)
    ensures Filled(root, f) == Filled(root, g)
    decreases |g|
  {
    hide KeyPath, InsertField, Separate;
    if g == [] {
      assert |multiset(f)| == 0;
    } else {
      var n := |g| - 1;
      assert g[n] in multiset(g);
      var i :| 0 <= i < |f| && f[i] == g[n];
      SameWithoutOne(f, i, g);
      SeparateWithout(f, i);
      MovedLast(root, f, i);
      FilledPermuted(root, Without(f, i), g[..n]);
    }
  }

  lemma SameMembers(f: seq<Field>, g: seq<Field>)
    requires multiset(f) == multiset(g)
    ensures forall k | 0 <= k < |f| :: f[k] in g
  {
    forall k | 0 <= k < |f|
      ensures f[k] in g
    {
      assert f[k] in multiset(f);
    }
  }

  lemma BasePermuted(actionType: string, f: seq<Field>, g: seq<Field>)
    requires multiset(f) == multiset(g)
    ensures Base(actionType, f) == Base(actionType, g)
  {
    hide KeyPath, WithParents;
    SameMembers(f, g);
    SameMembers(g, f);
    forall name
      ensures IsParent(f, name) == IsParent(g, name)
    {
    }
    var root: Members := map["type" := Str(actionType)];
    forall name
      ensures name in Base(actionType, f) <==> name in Base(actionType, g)
      ensures name in Base(actionType, f) ==> Base(actionType, f)[name] == Base(actionType, g)[name]
    {
      ParentsAre(root, f, name);
      ParentsAre(root, g, name);
    }
  }

  /** Fields with separate keys give the same payload in every order, or are refused in every order. */
  lemma OrderDoesNotMatter(actionType: string, f: seq<Field>, g: seq<Field>)
    requires Separate(f) && multiset(f) == multiset(g)
    ensures AllValid(f) == AllValid(g)
    ensures Payload(actionType, f) == Payload(actionType, g)
  {
    hide FieldValue, Filled, Base, Separate;
    SameMembers(f, g);
    SameMembers(g, f);
    BasePermuted(actionType, f, g);
    FilledPermuted(Base(actionType, f), f, g);
  }

  /** The order of two fields that both have a value is immaterial only when their keys are apart, or
   *  are one key with one value. */
  lemma TwoFieldOrder(actionType: string, f: Field, g: Field)
    requires Emitted(f).Some? && Emitted(g).Some?
    ensures Payload(actionType, [f, g]) == Payload(actionType, [g, f]) <==>
            Apart(KeyPath(f), KeyPath(g)) || (KeyPath(f) == KeyPath(g) && Emitted(f) == Emitted(g))
  {
    hide FieldValue, KeyPath, Base, InsertPath, Lookup;
    assert multiset([f, g]) == multiset([g, f]);
    BasePermuted(actionType, [f, g], [g, f]);
    var base := Base(actionType, [f, g]);
    TwoFilled(base, f, g);
    TwoFilled(base, g, f);
    if Apart(KeyPath(f), KeyPath(g)) {
      FieldsCommute(base, f, g);
    } else if KeyPath(f) <= KeyPath(g) {
      LastWins(base, f, g);
    } else {
      LastWins(base, g, f);
    }
  }

  lemma TwoFilled(base: Members, f: Field, g: Field)
    ensures Filled(base, [f, g]) == InsertField(InsertField(base, f), g)
  {
    hide InsertField;
    assert [f, g][..1] == [f] && [f][..0] == [];
    assert Filled(base, [f]) == InsertField(Filled(base, []), f);
  }

  lemma LastWins(base: Members, f: Field, g: Field)
    requires Emitted(f).Some? && Emitted(g).Some? && KeyPath(f) <= KeyPath(g)
    ensures InsertField(InsertField(base, f), g) == InsertField(InsertField(base, g), f) <==>
            KeyPath(f) == KeyPath(g) && Emitted(f) == Emitted(g)
  {
    hide FieldValue, KeyPath, Lookup;
    FieldLookup(InsertField(base, f), g, KeyPath(f));
    FieldLookup(InsertField(base, g), f, KeyPath(f));
    NeverAnObject(f);
  }
}
