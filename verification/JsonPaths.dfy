/** JSON values and the insertion of a value at a dotted path. */
module JsonPaths {
  import opened Prelude

  datatype Value =
    | Null
    | Bool(b: bool)
    | Num(n: int)
    | Str(s: string)
    | Arr(items: seq<Value>)
    | Obj(members: map<string, Value>)

  type Members = map<string, Value>

  type Path = p: seq<string> | p != [] witness [""]

  /** The members of the object at `key`; anything else there counts as an empty object. */
  function Inner(root: Members, key: string): Members {
    if key in root && root[key].Obj? then root[key].members else map[]
  }

  function InsertPath(root: Members, path: Path, value: Value): Members
    decreases |path|
  {
    if |path| == 1 then root[path[0] := value]
    else root[path[0] := Obj(InsertPath(Inner(root, path[0]), path[1..], value))]
  }

  function Lookup(root: Members, path: Path): Option<Value>
    decreases |path|
  {
    if path[0] !in root then None
    else if |path| == 1 then Some(root[path[0]])
    else Lookup(Inner(root, path[0]), path[1..])
  }

  /** Neither path lies on the way to the other. */
  predicate Apart(p: Path, q: Path) {
    !(p <= q) && !(q <= p)
  }

  lemma PrefixStep(p: Path, q: Path)
    ensures p <= q <==> p[0] == q[0] && p[1..] <= q[1..]
    ensures p == q <==> p[0] == q[0] && p[1..] == q[1..]
  {
    assert p == [p[0]] + p[1..] && q == [q[0]] + q[1..];
  }

  lemma PrefixesCompare(p: Path, q: Path, whole: Path)
    requires p <= whole && q <= whole
    ensures !Apart(p, q)
  {
    assert forall k | 0 <= k < |p| :: p[k] == whole[k];
    assert forall k | 0 <= k < |q| :: q[k] == whole[k];
  }

  /** What an insertion leaves at the first segment of its path. */
  function Placed(inner: Members, p: Path, v: Value): Value {
    if |p| == 1 then v else Obj(InsertPath(inner, p[1..], v))
  }

  lemma InsertedHere(root: Members, p: Path, v: Value)
    ensures InsertPath(root, p, v) == root[p[0] := Placed(Inner(root, p[0]), p, v)]
  {
  }

  /** An insertion is seen at its path, makes objects of everything on the way there, and is seen
   *  nowhere else. */
  lemma {:induction false} LookupInserted(root: Members, p: Path, value: Value, q: Path)
    ensures q == p ==> Lookup(InsertPath(root, p, value), q) == Some(value)
    ensures q < p ==> var found := Lookup(InsertPath(root, p, value), q); found.Some? && found.value.Obj?
    ensures p < q && !value.Obj? ==> Lookup(InsertPath(root, p, value), q) == None
    ensures Apart(p, q) ==> Lookup(InsertPath(root, p, value), q) == Lookup(root, q)
    decreases |p|
  {
    hide InsertPath;
    InsertedHere(root, p, value);
    PrefixStep(p, q);
    PrefixStep(q, p);
    if |p| > 1 && |q| > 1 && p[0] == q[0] {
      LookupInserted(Inner(root, p[0]), p[1..], value, q[1..]);
    }
  }

  /** Insertions at paths that are apart commute, whatever the object held before. */
  lemma {:induction false} InsertionsCommute(root: Members, p: Path, v: Value, q: Path, w: Value)
    requires Apart(p, q)
    ensures InsertPath(InsertPath(root, p, v), q, w) == InsertPath(InsertPath(root, q, w), p, v)
    decreases |p|
  {
    hide InsertPath, Placed;
    if p[0] == q[0] {
      PrefixStep(p, q);
      PrefixStep(q, p);
      InsertionsCommute(Inner(root, p[0]), p[1..], v, q[1..], w);
      BothInside(root, p, v, q, w);
      BothInside(root, q, w, p, v);
    } else {
      SideBySide(root, p, v, q, w);
      SideBySide(root, q, w, p, v);
      OtherOrder(root, p[0], Placed(Inner(root, p[0]), p, v), q[0], Placed(Inner(root, q[0]), q, w));
    }
  }

  lemma BothInside(root: Members, p: Path, v: Value, q: Path, w: Value)
    requires |p| > 1 && |q| > 1 && p[0] == q[0]
    ensures InsertPath(InsertPath(root, p, v), q, w)
         == root[p[0] := Obj(InsertPath(InsertPath(Inner(root, p[0]), p[1..], v), q[1..], w))]
  {
    hide InsertPath;
    var once := InsertPath(root, p, v);
    InsertedHere(root, p, v);
    InsertedHere(once, q, w);
    assert Inner(once, q[0]) == InsertPath(Inner(root, p[0]), p[1..], v);
    Overwritten(root, p[0], once[p[0]], Placed(Inner(once, q[0]), q, w));
  }

  lemma SideBySide(root: Members, p: Path, v: Value, q: Path, w: Value)
    requires p[0] != q[0]
    ensures InsertPath(InsertPath(root, p, v), q, w)
         == root[p[0] := Placed(Inner(root, p[0]), p, v)][q[0] := Placed(Inner(root, q[0]), q, w)]
  {
    hide InsertPath, Placed;
    InsertedHere(root, p, v);
    InsertedHere(InsertPath(root, p, v), q, w);
  }

  lemma Overwritten(root: Members, k: string, v: Value, w: Value)
    ensures root[k := v][k := w] == root[k := w]
  {
  }

  lemma OtherOrder(root: Members, j: string, v: Value, k: string, w: Value)
    requires j != k
    ensures root[j := v][k := w] == root[k := w][j := v]
  {
  }

  /** Where one path is on the way to the other, the order decides. */
  lemma ComparableDoNotCommute(p: Path, q: Path)
    requires p < q
    ensures InsertPath(InsertPath(map[], p, Null), q, Null) != InsertPath(InsertPath(map[], q, Null), p, Null)
  {
    LookupInserted(InsertPath(map[], p, Null), q, Null, p);
    LookupInserted(InsertPath(map[], q, Null), p, Null, p);
  }
}
