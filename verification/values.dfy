/** The generic structured values exchanged over match comms: string-keyed
    records whose values are numbers, strings, lists or nested records. */
module Values {

  /** One value of a record, as the host queue delivers it. */
  datatype Value =
    | Int(i: int)
    | Real(r: real)
    | Str(s: string)
    | List(items: seq<Value>)
    | Map(entries: map<string, Value>)

  /** A raw record: what one `put_nowait` pushes and one `get_nowait` pops. */
  type Record = map<string, Value>

  /** Python's `==` on these values: an int equals a float of the same
      magnitude, lists compare element-wise and dicts key-wise; values of
      different kinds are never equal. */
  predicate PyEq(a: Value, b: Value)
    ensures PyEq(a, b) ==> a.Str? == b.Str? && a.List? == b.List? && a.Map? == b.Map?
    ensures PyEq(a, b) && a.List? ==> |a.items| == |b.items|
    ensures PyEq(a, b) && a.Map? ==> a.entries.Keys == b.entries.Keys
    decreases a
  {
    match a
    case Int(x) => (b.Int? && b.i == x) || (b.Real? && b.r == x as real)
    case Real(x) => (b.Real? && b.r == x) || (b.Int? && b.i as real == x)
    case Str(x) => b.Str? && b.s == x
    case List(xs) =>
      && b.List?
      && |xs| == |b.items|
      && forall k :: 0 <= k < |xs| ==> PyEq(xs[k], b.items[k])
    case Map(m) =>
      && b.Map?
      && m.Keys == b.entries.Keys
      && forall key :: key in m ==> PyEq(m[key], b.entries[key])
  }

  /** Every value equals itself, however deeply it nests. */
  lemma {:induction false} PyEqReflexive(a: Value)
    ensures PyEq(a, a)
    decreases a
  {
    match a
    case Int(_) =>
    case Real(_) =>
    case Str(_) =>
    case List(xs) =>
      forall k | 0 <= k < |xs|
        ensures PyEq(xs[k], xs[k])
      {
        PyEqReflexive(xs[k]);
      }
    case Map(m) =>
      forall key | key in m
        ensures PyEq(m[key], m[key])
      {
        PyEqReflexive(m[key]);
      }
  }

  /** Python's `==` is symmetric on these values. */
  lemma {:induction false} PyEqSymmetric(a: Value, b: Value)
    requires PyEq(a, b)
    ensures PyEq(b, a)
    decreases a
  {
    match a
    case Int(_) =>
    case Real(_) =>
    case Str(_) =>
    case List(xs) =>
      forall k | 0 <= k < |xs|
        ensures PyEq(b.items[k], xs[k])
      {
        PyEqSymmetric(xs[k], b.items[k]);
      }
    case Map(m) =>
      forall key | key in b.entries
        ensures PyEq(b.entries[key], m[key])
      {
        PyEqSymmetric(m[key], b.entries[key]);
      }
  }

  /** Only the two numeric kinds ever compare equal across kinds: a string
      never equals an int, whatever its characters. */
  lemma PyEqIntOnlyNumbers(a: Value, n: int)
    ensures PyEq(a, Int(n)) <==> a == Int(n) || a == Real(n as real)
  {
  }
}
