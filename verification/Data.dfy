/**
 Constants of the bytecode container and the run-time values of the machine.

 A value that Rust keeps behind an `Rc` is a `Ref` into a heap of objects, so that
 `eq?` can tell two allocations with equal contents apart.  A closure is a
 reference to the allocation made by MAKE_FUNCTION.  Floats are 64-bit patterns.
 */
module Data {
  datatype Const =
    | CInt(n: int)
    | CFloat(bits: int)
    | CBool(b: bool)
    | CChar(c: char)
    | CStr(s: string)
    | CSymbol(s: string)
    | CList(items: seq<Const>)
    | CVector(items: seq<Const>)
    | CPair(car: Const, cdr: Const)
    | CUnspecified

  datatype Value =
    | Int(n: int)
    | Float(bits: int)
    | Bool(b: bool)
    | Char(c: char)
    | Symbol(s: string)
    | Native(name: string)
    | Closure(id: nat)
    | Nil
    | Ref(id: nat)
    | Eof
    | Unspecified

  datatype Object =
    | StrObj(s: string)
    | PairObj(car: Value, cdr: Value)
    | ListObj(items: seq<Value>)
    | VectorObj(items: seq<Value>)
    | HashObj(entries: seq<(Value, Value)>)

  /** Everything outside variables that a native procedure can read or change. */
  datatype World = World(objects: seq<Object>, output: string)

  function Allocate(o: Object, w: World): (Value, World) {
    (Ref(|w.objects|), w.(objects := w.objects + [o]))
  }

  function ConstToValue(c: Const, w: World): (Value, World) {
    match c
    case CInt(n) => (Int(n), w)
    case CFloat(bits) => (Float(bits), w)
    case CBool(b) => (Bool(b), w)
    case CChar(ch) => (Char(ch), w)
    case CStr(s) => Allocate(StrObj(s), w)
    case CSymbol(s) => (Symbol(s), w)
    case CList(items) =>
      if items == [] then (Nil, w)
      else
        var (vs, w') := ConstsToValues(items, w);
        Allocate(ListObj(vs), w')
    case CVector(items) =>
      var (vs, w') := ConstsToValues(items, w);
      Allocate(VectorObj(vs), w')
    case CPair(car, cdr) =>
      var (a, w1) := ConstToValue(car, w);
      var (d, w2) := ConstToValue(cdr, w1);
      Allocate(PairObj(a, d), w2)
    case CUnspecified => (Unspecified, w)
  }

  function ConstsToValues(items: seq<Const>, w: World): (r: (seq<Value>, World)) {
    if items == [] then ([], w)
    else
      var (v, w1) := ConstToValue(items[0], w);
      var (vs, w2) := ConstsToValues(items[1..], w1);
      ([v] + vs, w2)
  }

  predicate Truthy(v: Value) {
    v != Bool(false)
  }

  /** A 64-bit pattern is a NaN when its exponent is all ones and its mantissa is not zero. */
  predicate IsNan(bits: int) {
    bits % 0x8000_0000_0000_0000 > 0x7FF0_0000_0000_0000
  }

  /** `value_eqv`: atoms by value, allocations by identity, any NaN equal to any NaN. */
  predicate ValueEqv(a: Value, b: Value) {
    a == b || (a.Float? && b.Float? && IsNan(a.bits) && IsNan(b.bits))
  }
}
