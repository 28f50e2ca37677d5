/**
 * Unit-tagged physical quantities (models.py): the seven units, the fixed
 * conversion table, and the unit-checked arithmetic and comparisons shared
 * by Speed, Payload and Fuel.
 */
module Models {
  import opened Results

  /** The `Unit` string enum. */
  datatype Unit = MS | KMH | MPH | KG | TONS | LITER | GALLON

  /**
   * The string value each enum member carries. `Unit` is a `str` enum, so
   * `_have_same_unit` compares these strings; modelling that comparison by
   * equality of `Unit` values is faithful because the seven strings are
   * distinct (SymbolInjective). Symbols are also what two enum members are
   * ordered by (RawGt).
   */
  function Symbol(u: Unit): string
  {
    match u
    case MS => "m/s"
    case KMH => "km/h"
    case MPH => "mph"
    case KG => "kg"
    case TONS => "tons"
    case LITER => "liter"
    case GALLON => "gallons"
  }

  /** The physical dimension a unit measures; the table only converts within one. */
  datatype Family = Velocity | Mass | Volume

  function FamilyOf(u: Unit): Family
  {
    match u
    case MS | KMH | MPH => Velocity
    case KG | TONS => Mass
    case LITER | GALLON => Volume
  }

  /** `operator.mul` or `operator.truediv`. */
  datatype Op = Mul | TrueDiv

  /** One entry of the conversion table: the operator and its right operand. */
  datatype Conversion = Conversion(op: Op, factor: real)

  /** The 17-entry `conversion_table` dictionary, keyed by (from, to). */
  const ConversionTable: map<(Unit, Unit), Conversion> := map[
    (KMH, MS) := Conversion(TrueDiv, 3.6),
    (KMH, MPH) := Conversion(TrueDiv, 1.60934),
    (KMH, KMH) := Conversion(Mul, 1.0),
    (MPH, KMH) := Conversion(Mul, 1.60934),
    (MPH, MS) := Conversion(Mul, 0.44704),
    (MPH, MPH) := Conversion(Mul, 1.0),
    (MS, MPH) := Conversion(TrueDiv, 0.44704),
    (MS, KMH) := Conversion(Mul, 3.6),
    (MS, MS) := Conversion(Mul, 1.0),
    (KG, TONS) := Conversion(TrueDiv, 1000.0),
    (KG, KG) := Conversion(Mul, 1.0),
    (TONS, KG) := Conversion(Mul, 1000.0),
    (TONS, TONS) := Conversion(Mul, 1.0),
    (GALLON, LITER) := Conversion(Mul, 3.78541),
    (GALLON, GALLON) := Conversion(Mul, 1.0),
    (LITER, GALLON) := Conversion(TrueDiv, 3.78541),
    (LITER, LITER) := Conversion(Mul, 1.0)
  ]

  /** Dictionary lookup of `(a, b)`: absent exactly for a cross-family pair. */
  function Lookup(a: Unit, b: Unit): (r: Option<Conversion>)
    ensures r.Some? <==> FamilyOf(a) == FamilyOf(b)
    ensures r.Some? ==> r.value.factor > 0.0
    ensures a == b ==> r == Some(Conversion(Mul, 1.0))
  {
    if (a, b) in ConversionTable then Some(ConversionTable[(a, b)]) else None
  }

  /** `op(x, factor)`; every factor in the table is positive, so the division is defined. */
  function Apply(c: Conversion, x: real): real
    requires c.factor != 0.0
  {
    match c.op
    case Mul => x * c.factor
    case TrueDiv => x / c.factor
  }

  function Inverse(op: Op): Op
  {
    match op
    case Mul => TrueDiv
    case TrueDiv => Mul
  }

  /** The exceptions models.py raises (all as a bare `Exception`, told apart by message). */
  datatype Error =
    | UnitMismatch                    // "unit mismatch"
    | CannotConvert(src: Unit, dst: Unit)  // "Cannot convert {src} to {dst}"
    | MissingUnitAttribute            // AttributeError: an operand without `.unit`
    | Unorderable                     // TypeError: `>` between a number and a `str`

  /** Which subclass of `Value` an object is. */
  datatype Kind = SpeedKind | PayloadKind | FuelKind

  /** A `Speed`, `Payload` or `Fuel`: a magnitude tagged with a unit. */
  datatype Value = Value(kind: Kind, mag: real, unit: Unit)

  /** `_DEFAULT_SPEED_UNIT`, `_DEFAULT_PAYLOAD_UNIT`, `_DEFAULT_FUEL_UNIT`. */
  function DefaultUnit(kind: Kind): Unit
  {
    match kind
    case SpeedKind => KMH
    case PayloadKind => KG
    case FuelKind => LITER
  }

  /** Construction `Speed(value, unit)` etc. with `__post_init__` filling a missing unit. */
  function Make(kind: Kind, mag: real, unit: Option<Unit>): (v: Value)
    ensures v.kind == kind && v.mag == mag
    ensures unit.Some? ==> v.unit == unit.value
    ensures unit.None? ==> v.unit == DefaultUnit(kind)
  {
    Value(kind, mag, if unit.None? then DefaultUnit(kind) else unit.value)
  }

  /** Base `Value.convert_to`: the table entry for (own unit, target), or "Cannot convert". */
  function ConversionTo(v: Value, target: Unit): (r: Result<Conversion, Error>)
    ensures r.Ok? <==> FamilyOf(v.unit) == FamilyOf(target)
    ensures r.Ok? ==> Lookup(v.unit, target) == Some(r.value)
    ensures r.Err? ==> r.error == CannotConvert(v.unit, target)
  {
    match Lookup(v.unit, target)
    case Some(c) => Ok(c)
    case None => Err(CannotConvert(v.unit, target))
  }

  /** `_assert_same_unit`: passes exactly when both operands carry the same unit. */
  function AssertSameUnit(a: Value, b: Value): (r: Outcome<Error>)
    ensures r.Pass? <==> a.unit == b.unit
    ensures r.Fail? ==> r.error == UnitMismatch
  {
    if a.unit == b.unit then Pass else Fail(UnitMismatch)
  }

  /** `a + b`: a bare magnitude, not a new `Value`. */
  function Add(a: Value, b: Value): (r: Result<real, Error>)
    ensures r.Err? <==> a.unit != b.unit
    ensures r.Err? ==> r.error == UnitMismatch
    ensures r.Ok? ==> r.value - b.mag == a.mag
  {
    if AssertSameUnit(a, b).Fail? then Err(UnitMismatch) else Ok(a.mag + b.mag)
  }

  /** `a - b`: a bare magnitude, not a new `Value`. */
  function Sub(a: Value, b: Value): (r: Result<real, Error>)
    ensures r.Err? <==> a.unit != b.unit
    ensures r.Err? ==> r.error == UnitMismatch
    ensures r.Ok? ==> r.value + b.mag == a.mag
  {
    if AssertSameUnit(a, b).Fail? then Err(UnitMismatch) else Ok(a.mag - b.mag)
  }

  /** `a > b` */
  function Gt(a: Value, b: Value): (r: Result<bool, Error>)
    ensures r.Err? <==> a.unit != b.unit
    ensures r.Err? ==> r.error == UnitMismatch
    ensures r.Ok? ==> (r.value <==> a.mag > b.mag)
  {
    if AssertSameUnit(a, b).Fail? then Err(UnitMismatch) else Ok(a.mag > b.mag)
  }

  /** `a >= b` */
  function Ge(a: Value, b: Value): (r: Result<bool, Error>)
    ensures r.Err? <==> a.unit != b.unit
    ensures r.Err? ==> r.error == UnitMismatch
    ensures r.Ok? ==> (r.value <==> a.mag >= b.mag)
  {
    if AssertSameUnit(a, b).Fail? then Err(UnitMismatch) else Ok(a.mag >= b.mag)
  }

  /** `a < b` */
  function Lt(a: Value, b: Value): (r: Result<bool, Error>)
    ensures r.Err? <==> a.unit != b.unit
    ensures r.Err? ==> r.error == UnitMismatch
    ensures r.Ok? ==> (r.value <==> a.mag < b.mag)
  {
    if AssertSameUnit(a, b).Fail? then Err(UnitMismatch) else Ok(a.mag < b.mag)
  }

  /** `a <= b` */
  function Le(a: Value, b: Value): (r: Result<bool, Error>)
    ensures r.Err? <==> a.unit != b.unit
    ensures r.Err? ==> r.error == UnitMismatch
    ensures r.Ok? ==> (r.value <==> a.mag <= b.mag)
  {
    if AssertSameUnit(a, b).Fail? then Err(UnitMismatch) else Ok(a.mag <= b.mag)
  }

  /** An operand of a Python operator: a bare number (what `+` and `-` return) or a `Value`. */
  datatype Operand = Num(x: real) | Obj(v: Value)

  function Magnitude(o: Operand): real
  {
    match o
    case Num(x) => x
    case Obj(v) => v.mag
  }

  /**
   * Python's `a <= b` over numbers and values. With a `Value` on the left,
   * `Value.__le__` reads `b.unit`. With a number on the left and a `Value` on
   * the right, the number's own `__le__` declines, so Python calls the
   * reflected `b.__ge__(a)`, which reads `a.unit`. A number has no `unit`
   * attribute, so both mixed cases raise AttributeError.
   */
  function PyLe(a: Operand, b: Operand): (r: Result<bool, Error>)
    ensures r.Ok? <==> a.Num? == b.Num? && (a.Obj? ==> a.v.unit == b.v.unit)
    ensures a.Num? != b.Num? ==> r == Err(MissingUnitAttribute)
    ensures a.Obj? && b.Obj? ==> r == Le(a.v, b.v)
    ensures r.Ok? ==> (r.value <==> Magnitude(a) <= Magnitude(b))
  {
    match (a, b)
    case (Num(x), Num(y)) => Ok(x <= y)
    case (Obj(_), Num(_)) => Err(MissingUnitAttribute)
    case (Num(_), Obj(_)) => Err(MissingUnitAttribute)
    case (Obj(v), Obj(w)) => Le(v, w)
  }

  // ---------------------------------------------------------------------------
  // Properties of the conversion table
  // ---------------------------------------------------------------------------

  /** Every non-identity entry has a reverse entry with the same factor and the opposite operator. */
  lemma ReverseEntry(a: Unit, b: Unit)
    requires a != b && Lookup(a, b).Some?
    ensures Lookup(b, a) == Some(Conversion(Inverse(Lookup(a, b).value.op), Lookup(a, b).value.factor))
  {
  }

  /** Undoing an operator with its inverse and the same positive factor gives back the operand. */
  lemma ApplyInverse(c: Conversion, x: real)
    requires c.factor > 0.0
    ensures Apply(Conversion(Inverse(c.op), c.factor), Apply(c, x)) == x
  {
    var f := c.factor;
    if c.op == Mul {
      assert x * f / f == x;
    } else {
      assert x / f * f == x;
    }
  }

  /** Converting there and back returns the original magnitude (over the reals). */
  lemma ApplyRoundTrip(a: Unit, b: Unit, x: real)
    requires FamilyOf(a) == FamilyOf(b)
    ensures Apply(Lookup(b, a).value, Apply(Lookup(a, b).value, x)) == x
  {
    if a != b {
      ReverseEntry(a, b);
      ApplyInverse(Lookup(a, b).value, x);
    }
  }

  /** Converting to a value's own unit leaves the magnitude unchanged. */
  lemma ConvertToOwnUnit(v: Value)
    ensures ConversionTo(v, v.unit).Ok?
    ensures Apply(ConversionTo(v, v.unit).value, v.mag) == v.mag
  {
  }

  // ---------------------------------------------------------------------------
  // Subclass `convert_to`, as written and as intended
  // ---------------------------------------------------------------------------

  /** A Python attribute value: the dataclass fields are untyped at run time. */
  datatype PyField = UnitField(u: Unit) | NumberField(x: real)

  /** A `Speed`/`Payload`/`Fuel` object exactly as stored, whatever its field contents. */
  datatype RawValue = RawValue(kind: Kind, value: PyField, unit: PyField)

  /** A raw object is a well-formed `Value` when `value` holds a number and `unit` a unit. */
  predicate WellFormed(o: RawValue)
  {
    o.value.NumberField? && o.unit.UnitField?
  }

  /**
   * `Speed.convert_to` etc. as written: the result is constructed with the
   * target unit as first positional argument and the converted number as
   * second, so the unit lands in the `value` field and the number in `unit`;
   * because that `unit` is not None, `__post_init__` keeps it.
   */
  function ConvertAsWritten(v: Value, target: Unit): (r: Result<RawValue, Error>)
    ensures r.Ok? <==> FamilyOf(v.unit) == FamilyOf(target)
    ensures r.Err? ==> r.error == CannotConvert(v.unit, target)
    ensures r.Ok? ==> r.value.kind == v.kind && r.value.value == UnitField(target)
    ensures r.Ok? ==> r.value.unit == NumberField(Apply(Lookup(v.unit, target).value, v.mag))
  {
    match ConversionTo(v, target)
    case Err(e) => Err(e)
    case Ok(c) => Ok(RawValue(v.kind, UnitField(target), NumberField(Apply(c, v.mag))))
  }

  /** `_have_same_unit` on raw objects: Python `==` between the two `unit` fields. */
  function RawSameUnit(a: RawValue, b: RawValue): bool
  {
    a.unit == b.unit
  }

  /** Python's `str` ordering: lexicographic by character code, a proper prefix being smaller. */
  function StrGt(a: string, b: string): (r: bool)
    ensures a == b ==> !r
  {
    if a == [] then false
    else if b == [] then true
    else if a[0] != b[0] then a[0] > b[0]
    else StrGt(a[1..], b[1..])
  }

  /** String `>` is asymmetric: never both `a > b` and `b > a`. */
  lemma {:induction false} StrGtAsymmetric(a: string, b: string)
    ensures !(StrGt(a, b) && StrGt(b, a))
  {
    if a != [] && b != [] && a[0] == b[0] {
      StrGtAsymmetric(a[1..], b[1..]);
    }
  }

  /**
   * `Value.__gt__` on raw objects: "unit mismatch" unless the `unit` fields
   * are equal; then `>` on the `value` fields, which orders two numbers by
   * magnitude and two enum members by their strings, and raises TypeError
   * for a number against an enum member.
   */
  function RawGt(a: RawValue, b: RawValue): (r: Result<bool, Error>)
    ensures r.Err? <==> a.unit != b.unit || a.value.NumberField? != b.value.NumberField?
    ensures r.Err? ==> (r.error == UnitMismatch <==> a.unit != b.unit)
    ensures r.Err? && r.error != UnitMismatch ==> r.error == Unorderable
    ensures r.Ok? && a.value.NumberField? ==> (r.value <==> a.value.x > b.value.x)
    ensures r.Ok? && a.value == b.value ==> !r.value
  {
    if !RawSameUnit(a, b) then Err(UnitMismatch)
    else
      match (a.value, b.value)
      case (NumberField(x), NumberField(y)) => Ok(x > y)
      case (UnitField(u), UnitField(w)) => Ok(StrGt(Symbol(u), Symbol(w)))
      case _ => Err(Unorderable)
  }

  function ToRaw(v: Value): (o: RawValue)
    ensures WellFormed(o)
  {
    RawValue(v.kind, NumberField(v.mag), UnitField(v.unit))
  }

  /**
   * The result of the as-written conversion is never a well-formed value, and
   * comparing it with any well-formed value raises "unit mismatch" — even a
   * value already in the target unit.
   */
  lemma ConvertAsWrittenIsMalformed(v: Value, target: Unit, w: Value)
    requires FamilyOf(v.unit) == FamilyOf(target)
    ensures !WellFormed(ConvertAsWritten(v, target).value)
    ensures RawGt(ConvertAsWritten(v, target).value, ToRaw(w)) == Err(UnitMismatch)
  {
  }

  /** Concrete instance: 36 km/h converted to m/s holds `value == m/s` and `unit == 10.0`. */
  lemma ConvertAsWrittenExample()
    ensures ConvertAsWritten(Value(SpeedKind, 36.0, KMH), MS)
         == Ok(RawValue(SpeedKind, UnitField(MS), NumberField(10.0)))
  {
  }

  /**
   * The evident intent of the subclass `convert_to`: a value of the same kind,
   * tagged with the target unit, whose magnitude is the table-driven result.
   */
  function Convert(v: Value, target: Unit): (r: Result<Value, Error>)
    ensures r.Ok? <==> FamilyOf(v.unit) == FamilyOf(target)
    ensures r.Err? ==> r.error == CannotConvert(v.unit, target)
    ensures r.Ok? ==> r.value.kind == v.kind && r.value.unit == target
    ensures r.Ok? ==> r.value.mag == Apply(Lookup(v.unit, target).value, v.mag)
  {
    match ConversionTo(v, target)
    case Err(e) => Err(e)
    case Ok(c) => Ok(Value(v.kind, Apply(c, v.mag), target))
  }

  /** The corrected conversion round-trips: converting there and back gives back the value. */
  lemma ConvertRoundTrip(v: Value, target: Unit)
    requires FamilyOf(v.unit) == FamilyOf(target)
    ensures Convert(Convert(v, target).value, v.unit) == Ok(v)
  {
    ApplyRoundTrip(v.unit, target, v.mag);
  }

  /** Converting to the value's own unit is the identity. */
  lemma ConvertIdentity(v: Value)
    ensures Convert(v, v.unit) == Ok(v)
  {
  }

  // ---------------------------------------------------------------------------
  // Properties of the unit-checked operators
  // ---------------------------------------------------------------------------

  /** `+` then `-` of the same operand gives back the first magnitude. */
  lemma AddSubInverse(a: Value, b: Value)
    requires a.unit == b.unit
    ensures Sub(Value(a.kind, Add(a, b).value, a.unit), b) == Ok(a.mag)
  {
  }

  /** `a < b` is `b > a`, and `a <= b` is `b >= a`, mismatches included. */
  lemma ComparisonDuality(a: Value, b: Value)
    ensures Lt(a, b) == Gt(b, a)
    ensures Le(a, b) == Ge(b, a)
  {
  }

  /** For same-unit operands, `a <= b` is `not a > b` and `a >= b` is `not a < b`. */
  lemma ComparisonComplement(a: Value, b: Value)
    requires a.unit == b.unit
    ensures Le(a, b) == Ok(!Gt(a, b).value)
    ensures Ge(a, b) == Ok(!Lt(a, b).value)
  {
  }

  /** Every operator raises "unit mismatch" on operands with different units. */
  lemma MismatchAlwaysRaises(a: Value, b: Value)
    requires a.unit != b.unit
    ensures Add(a, b) == Err(UnitMismatch) && Sub(a, b) == Err(UnitMismatch)
    ensures Gt(a, b) == Err(UnitMismatch) && Ge(a, b) == Err(UnitMismatch)
    ensures Lt(a, b) == Err(UnitMismatch) && Le(a, b) == Err(UnitMismatch)
  {
  }

  /** The default units belong to the family each kind measures, and an explicit unit is kept. */
  lemma DefaultUnits(mag: real, u: Unit)
    ensures Make(SpeedKind, mag, None).unit == KMH
    ensures Make(PayloadKind, mag, None).unit == KG
    ensures Make(FuelKind, mag, None).unit == LITER
    ensures forall k: Kind :: Make(k, mag, Some(u)).unit == u
  {
  }

  /** Distinct enum members carry distinct strings. */
  lemma SymbolInjective(a: Unit, b: Unit)
    requires Symbol(a) == Symbol(b)
    ensures a == b
  {
  }
}
