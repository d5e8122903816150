/** `try_convert_direction`: turn a direction given in any of the shapes
    agents use into a list of three floats. */
module Direction {
  import opened Wrappers
  import opened Values

  /** The two exceptions a conversion can end in. */
  datatype ConvertError = TypeError | ValueError

  /** Python's `float(v)`. Strings are parsed by `parseLiteral`, standing for
      the interpreter's float-literal reader; one it cannot read raises
      `ValueError`, and a list or dict raises `TypeError`. */
  function Float(v: Value, parseLiteral: string -> Option<real>): (r: Result<real, ConvertError>)
    ensures v.Int? ==> r == Success(v.i as real)
    ensures v.Real? ==> r == Success(v.r)
    ensures (v.List? || v.Map?) ==> r == Failure(TypeError)
    ensures v.Str? ==> (r.Failure? <==> parseLiteral(v.s).None?) && (r.Failure? ==> r.error == ValueError)
    ensures v.Str? && r.Success? ==> parseLiteral(v.s) == Some(r.value)
  {
    match v
    case Int(i) => Success(i as real)
    case Real(x) => Success(x)
    case Str(s) =>
      (match parseLiteral(s)
       case Some(x) => Success(x)
       case None => Failure(ValueError))
    case List(_) => Failure(TypeError)
    case Map(_) => Failure(TypeError)
  }

  /** The `for` loop that converts every axis in place: it stops at the first
      axis `float` refuses and raises that axis's error. */
  function FloatAll(vs: seq<Value>, parseLiteral: string -> Option<real>): (r: Result<seq<real>, ConvertError>)
    ensures r.Success? <==> forall i :: 0 <= i < |vs| ==> Float(vs[i], parseLiteral).Success?
    ensures r.Success? ==>
      && |r.value| == |vs|
      && forall i :: 0 <= i < |vs| ==> Float(vs[i], parseLiteral) == Success(r.value[i])
    ensures r.Failure? ==>
      exists i :: 0 <= i < |vs| && Float(vs[i], parseLiteral) == Failure(r.error)
                && forall k :: 0 <= k < i ==> Float(vs[k], parseLiteral).Success?
    decreases |vs|
  {
    if |vs| == 0 then Success([])
    else
      match Float(vs[0], parseLiteral)
      case Failure(e) => Failure(e)
      case Success(x) =>
        (match FloatAll(vs[1..], parseLiteral)
         case Failure(e) => Failure(e)
         case Success(xs) => Success([x] + xs))
  }

  /** What the converter can learn about its argument through `hasattr`:
      its `data` attribute, the elements `list(...)` yields if it is
      indexable, and its `x`, `y` and `z` attributes. A field is `None` when
      the attribute is absent. */
  datatype DirectionInput = DirectionInput(
    data: Option<DirectionInput>,
    items: Option<seq<Value>>,
    x: Option<Value>,
    y: Option<Value>,
    z: Option<Value>)

  /** The coordinates the converter gathers from an already unwrapped input:
      the elements of an indexable, else `[x, y]` or `[x, y, z]`, else none. */
  function Coordinates(d: DirectionInput): (c: Option<seq<Value>>)
    ensures d.items.Some? ==> c == d.items
    ensures d.items.None? && d.x.Some? && d.y.Some? ==>
      c.Some? && |c.value| == (if d.z.Some? then 3 else 2)
      && c.value[0] == d.x.value && c.value[1] == d.y.value
      && (d.z.Some? ==> c.value[2] == d.z.value)
    ensures c.None? <==> d.items.None? && (d.x.None? || d.y.None?)
  {
    if d.items.Some? then d.items
    else if d.x.Some? && d.y.Some? then
      Some([d.x.value, d.y.value] + (if d.z.Some? then [d.z.value] else []))
    else None
  }

  /** `try_convert_direction(direction)`. A `data` attribute is unwrapped
      once; two coordinates get `0.0` appended; exactly three are converted
      with `float`; anything else raises `TypeError`. */
  function TryConvertDirection(d: DirectionInput, parseLiteral: string -> Option<real>): (r: Result<seq<real>, ConvertError>)
    ensures r.Success? ==> |r.value| == 3
  {
    var inner := if d.data.Some? then d.data.value else d;
    match Coordinates(inner)
    case None => Failure(TypeError)
    case Some(c) =>
      var padded := if |c| == 2 then c + [Real(0.0)] else c;
      if |padded| == 3 then FloatAll(padded, parseLiteral) else Failure(TypeError)
  }
}

/** Properties of the direction converter over all inputs. */
module DirectionProperties {
  import opened Wrappers
  import opened Values
  import opened Direction

  /** An indexable with the given elements and no other attributes. */
  function Indexable(items: seq<Value>): DirectionInput {
    DirectionInput(None, Some(items), None, None, None)
  }

  /** The input after its `data` attribute (if any) has been unwrapped. */
  function Unwrapped(d: DirectionInput): DirectionInput {
    if d.data.Some? then d.data.value else d
  }

  /** When `float` maps each value to the matching real, the loop yields
      exactly those reals. */
  lemma FloatAllOf(vs: seq<Value>, rs: seq<real>, parseLiteral: string -> Option<real>)
    requires |vs| == |rs|
    requires forall i :: 0 <= i < |vs| ==> Float(vs[i], parseLiteral) == Success(rs[i])
    ensures FloatAll(vs, parseLiteral) == Success(rs)
  {
    var r := FloatAll(vs, parseLiteral);
    assert r.Success?;
    assert forall i :: 0 <= i < |vs| ==> r.value[i] == rs[i] by {
      forall i | 0 <= i < |vs|
        ensures r.value[i] == rs[i]
      {
        assert Float(vs[i], parseLiteral) == Success(r.value[i]);
      }
    }
    assert r.value == rs;
  }

  /** Conversion succeeds exactly when two or three coordinates were found
      and `float` accepts each of them. */
  lemma ConvertSucceedsExactly(d: DirectionInput, parseLiteral: string -> Option<real>)
    ensures TryConvertDirection(d, parseLiteral).Success? <==>
      && Coordinates(Unwrapped(d)).Some?
      && |Coordinates(Unwrapped(d)).value| in {2, 3}
      && forall i :: 0 <= i < |Coordinates(Unwrapped(d)).value| ==>
           Float(Coordinates(Unwrapped(d)).value[i], parseLiteral).Success?
  {
    var c := Coordinates(Unwrapped(d));
    if c.Some? && |c.value| == 2 {
      var padded := c.value + [Real(0.0)];
      assert Float(padded[2], parseLiteral).Success?;
      assert forall i :: 0 <= i < 2 ==> padded[i] == c.value[i];
    }
  }

  /** Two coordinates `[a, b]` become `[float(a), float(b), 0.0]`. */
  lemma ConvertPair(d: DirectionInput, a: Value, b: Value, fa: real, fb: real, parseLiteral: string -> Option<real>)
    requires Coordinates(Unwrapped(d)) == Some([a, b])
    requires Float(a, parseLiteral) == Success(fa) && Float(b, parseLiteral) == Success(fb)
    ensures TryConvertDirection(d, parseLiteral) == Success([fa, fb, 0.0])
  {
    assert [a, b] + [Real(0.0)] == [a, b, Real(0.0)];
    FloatAllOf([a, b, Real(0.0)], [fa, fb, 0.0], parseLiteral);
  }

  /** Three coordinates are converted element-wise, in order. */
  lemma ConvertTriple(d: DirectionInput, a: Value, b: Value, c: Value, fa: real, fb: real, fc: real,
                      parseLiteral: string -> Option<real>)
    requires Coordinates(Unwrapped(d)) == Some([a, b, c])
    requires Float(a, parseLiteral) == Success(fa) && Float(b, parseLiteral) == Success(fb)
    requires Float(c, parseLiteral) == Success(fc)
    ensures TryConvertDirection(d, parseLiteral) == Success([fa, fb, fc])
  {
    FloatAllOf([a, b, c], [fa, fb, fc], parseLiteral);
  }

  /** Any other number of coordinates raises `TypeError`; longer inputs are
      not truncated. */
  lemma ConvertRejectsOtherLengths(d: DirectionInput, parseLiteral: string -> Option<real>)
    requires Coordinates(Unwrapped(d)).Some?
    requires |Coordinates(Unwrapped(d)).value| !in {2, 3}
    ensures TryConvertDirection(d, parseLiteral) == Failure(TypeError)
  {
  }

  /** An input that is neither indexable nor has both `x` and `y` raises
      `TypeError`. */
  lemma ConvertRejectsShapeless(d: DirectionInput, parseLiteral: string -> Option<real>)
    requires Unwrapped(d).items.None?
    requires Unwrapped(d).x.None? || Unwrapped(d).y.None?
    ensures TryConvertDirection(d, parseLiteral) == Failure(TypeError)
  {
  }

  /** `x`/`y` attributes give `[x, y, 0.0]`, or `[x, y, z]` with `z`. */
  lemma ConvertAttributes(x: Value, y: Value, z: Option<Value>, parseLiteral: string -> Option<real>)
    requires Float(x, parseLiteral).Success? && Float(y, parseLiteral).Success?
    requires z.Some? ==> Float(z.value, parseLiteral).Success?
    ensures TryConvertDirection(DirectionInput(None, None, Some(x), Some(y), z), parseLiteral)
      == Success([Float(x, parseLiteral).value, Float(y, parseLiteral).value,
                  if z.Some? then Float(z.value, parseLiteral).value else 0.0])
  {
    var fx, fy := Float(x, parseLiteral).value, Float(y, parseLiteral).value;
    if z.None? {
      assert [x, y] + [] + [Real(0.0)] == [x, y, Real(0.0)];
      FloatAllOf([x, y, Real(0.0)], [fx, fy, 0.0], parseLiteral);
    } else {
      assert [x, y] + [z.value] == [x, y, z.value];
      FloatAllOf([x, y, z.value], [fx, fy, Float(z.value, parseLiteral).value], parseLiteral);
    }
  }

  /** A `data` attribute is unwrapped once, before anything else: the
      wrapped object's own `data` is not looked at. */
  lemma DataUnwrappedOnce(d: DirectionInput, parseLiteral: string -> Option<real>)
    requires d.data.Some?
    ensures TryConvertDirection(d, parseLiteral)
      == TryConvertDirection(d.data.value.(data := None), parseLiteral)
  {
  }

  /** An indexable input wins over `x`/`y`/`z` attributes. */
  lemma IndexableTakesPrecedence(d: DirectionInput, parseLiteral: string -> Option<real>)
    requires d.data.None? && d.items.Some?
    ensures TryConvertDirection(d, parseLiteral) == TryConvertDirection(Indexable(d.items.value), parseLiteral)
  {
  }

  /** Converting a converted direction again changes nothing. */
  lemma ConvertIdempotent(d: DirectionInput, parseLiteral: string -> Option<real>)
    requires TryConvertDirection(d, parseLiteral).Success?
    ensures var v := TryConvertDirection(d, parseLiteral).value;
      TryConvertDirection(Indexable([Real(v[0]), Real(v[1]), Real(v[2])]), parseLiteral) == Success(v)
  {
    var v := TryConvertDirection(d, parseLiteral).value;
    var again := [Real(v[0]), Real(v[1]), Real(v[2])];
    FloatAllOf(again, v, parseLiteral);
  }
}
