/** Python dictionary values as they occur in the agent state, in cached
    payloads and in provider responses. */
module Json {
  import opened Text

  datatype Value =
    | Null
    | Bool(b: bool)
    | Int(i: int)
    | Real(r: real)
    | Str(s: string)
    | List(items: seq<Value>)
    | Dict(entries: map<string, Value>)

  /** Python truthiness (`if v:`). */
  predicate Truthy(v: Value) {
    match v
    case Null => false
    case Bool(b) => b
    case Int(i) => i != 0
    case Real(r) => r != 0.0
    case Str(s) => s != []
    case List(items) => items != []
    case Dict(m) => m != map[]
  }

  /** Python's `d.get(key, default)`. */
  function Get(d: map<string, Value>, key: string, default: Value): (v: Value)
    ensures key in d ==> v == d[key]
    ensures key !in d ==> v == default
  {
    if key in d then d[key] else default
  }

  /** A Python `list[str]`. */
  function StrList(xs: seq<string>): (v: Value)
    ensures v.List? && |v.items| == |xs|
  {
    List(seq(|xs|, i requires 0 <= i < |xs| => Str(xs[i])))
  }

  /** Reads a `list[str]` back; `None` for any other value. */
  function AsStrList(v: Value): Option<seq<string>>
  {
    if v.List? && forall i :: 0 <= i < |v.items| ==> v.items[i].Str? then
      Some(seq(|v.items|, i requires 0 <= i < |v.items| => v.items[i].s))
    else None
  }

  lemma StrListRoundTrip(xs: seq<string>)
    ensures AsStrList(StrList(xs)) == Some(xs)
  {
    var v := StrList(xs);
    assert forall i :: 0 <= i < |v.items| ==> v.items[i] == Str(xs[i]);
    assert seq(|v.items|, i requires 0 <= i < |v.items| => v.items[i].s) == xs;
  }

  /** A Python number: `bool` counts as the integer 0 or 1. */
  predicate IsNumber(v: Value) { v.Bool? || v.Int? || v.Real? }

  /** Python's `int` value of a bool or an int: `True` is 1, `False` is 0. */
  function IntOf(v: Value): (r: int)
    requires v.Bool? || v.Int?
    ensures v == Bool(true) ==> r == 1
    ensures v == Bool(false) ==> r == 0
    ensures v.Int? ==> r == v.i
  {
    if v.Bool? then (if v.b then 1 else 0) else v.i
  }

  /** The value a number takes in mixed `float` arithmetic. */
  function RealOf(v: Value): (r: real)
    requires IsNumber(v)
    ensures v.Real? ==> r == v.r
    ensures !v.Real? ==> r == IntOf(v) as real
  {
    if v.Real? then v.r else IntOf(v) as real
  }

  /** Python's `a + b` on two values: list and string concatenation, the sum
      of two numbers (an `int` unless one side is a `float`), and a
      `TypeError` (here `None`) for any other pair. */
  function Concat(a: Value, b: Value): (r: Option<Value>)
    ensures a.List? && b.List? ==> r == Some(List(a.items + b.items))
    ensures a.Str? && b.Str? ==> r == Some(Str(a.s + b.s))
    ensures a.Int? && b.Int? ==> r == Some(Int(a.i + b.i))
    ensures IsNumber(a) && IsNumber(b) ==> r.Some? && (r.value.Real? <==> a.Real? || b.Real?)
    ensures IsNumber(a) && IsNumber(b) ==>
      r == Some(if a.Real? || b.Real? then Real(RealOf(a) + RealOf(b)) else Int(IntOf(a) + IntOf(b)))
    ensures r.Some? <==> (a.List? && b.List?) || (a.Str? && b.Str?) || (IsNumber(a) && IsNumber(b))
  {
    if a.List? && b.List? then Some(List(a.items + b.items))
    else if a.Str? && b.Str? then Some(Str(a.s + b.s))
    else if IsNumber(a) && IsNumber(b) then
      if a.Real? || b.Real? then Some(Real(RealOf(a) + RealOf(b)))
      else Some(Int(IntOf(a) + IntOf(b)))
    else None
  }
}
