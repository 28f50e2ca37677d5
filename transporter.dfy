/**
 * A transporter (transporter.py): fixed limits, a current payload, fuel and
 * speed, and the MQTT messages it publishes, recorded in an outbox in the
 * order they are sent.
 */
module Transporters {
  import opened Results
  import opened Models
  import opened Topics

  /** The `qos` argument of `MqttClient.publish`: 0 unless the caller says otherwise. */
  type Qos = q: nat | q <= 2

  /** The numeric fields `Transporter.__repr__` renders into the announcement. */
  datatype Summary = Summary(id: int, speed: real, payload: real, fuel: real,
                             maxSpeed: real, maxPayload: real, maxFuel: real)

  /** What a message carries: the announcement, or a value (`str(value)` on the wire). */
  datatype Body = Announcement(summary: Summary) | Reading(value: Value)

  /** One call of `publish(topic, payload, qos)`. */
  datatype Message = Message(topic: string, body: Body, qos: Qos)

  /** The exceptions the transporter's operations raise. */
  datatype TransporterError =
    | Raised(cause: Models.Error)  // raised inside a `Value` operator and propagated
    | CapacityExceeded             // ValueError "load ... exceeds available capacity"
    | SpeedLimitExceeded           // ValueError "requested speed ... exceeds maximum speed"
    | UnexpectedType               // TypeError "Unexpected type"

  function Lift<T>(r: Result<T, Models.Error>): (l: Result<T, TransporterError>)
    ensures l.Ok? <==> r.Ok?
    ensures l.Ok? ==> l.value == r.value
    ensures l.Err? ==> l.error == Raised(r.error)
  {
    match r
    case Ok(x) => Ok(x)
    case Err(e) => Err(Raised(e))
  }

  /** `current + load` stored back as a value of the current kind and unit. */
  function Loaded(current: Value, load: Value): (v: Value)
    ensures v.kind == current.kind && v.unit == current.unit
    ensures v.mag - load.mag == current.mag
  {
    current.(mag := current.mag + load.mag)
  }

  // ---------------------------------------------------------------------------
  // `check_capacity`, as written and as intended
  // ---------------------------------------------------------------------------

  /**
   * `check_capacity` as written: the current amount plus the load, which `+`
   * returns as a bare number, is compared with `<=` against the maximum, a
   * `Value`; that comparison raises AttributeError (see Models.PyLe).
   */
  function CheckCapacityAsWritten(payload: Value, fuel: Value, maxPayload: Value, maxFuel: Value,
                                  load: Value): (r: Result<bool, TransporterError>)
    ensures load.kind == SpeedKind ==> r == Err(UnexpectedType)
    ensures load.kind == PayloadKind && payload.unit != load.unit ==> r == Err(Raised(UnitMismatch))
    ensures load.kind == FuelKind && fuel.unit != load.unit ==> r == Err(Raised(UnitMismatch))
  {
    match load.kind
    case PayloadKind =>
      (match Add(payload, load)
       case Err(e) => Err(Raised(e))
       case Ok(sum) => Lift(PyLe(Num(sum), Obj(maxPayload))))
    case FuelKind =>
      (match Add(fuel, load)
       case Err(e) => Err(Raised(e))
       case Ok(sum) => Lift(PyLe(Num(sum), Obj(maxFuel))))
    case SpeedKind => Err(UnexpectedType)
  }

  /** As written, `check_capacity` never returns: every Payload or Fuel load raises. */
  lemma CheckCapacityAsWrittenAlwaysRaises(payload: Value, fuel: Value, maxPayload: Value,
                                           maxFuel: Value, load: Value)
    ensures CheckCapacityAsWritten(payload, fuel, maxPayload, maxFuel, load).Err?
    ensures load.kind == PayloadKind && payload.unit == load.unit ==>
      CheckCapacityAsWritten(payload, fuel, maxPayload, maxFuel, load) == Err(Raised(MissingUnitAttribute))
    ensures load.kind == FuelKind && fuel.unit == load.unit ==>
      CheckCapacityAsWritten(payload, fuel, maxPayload, maxFuel, load) == Err(Raised(MissingUnitAttribute))
  {
  }

  /** 90 kg loaded with 5 kg under a 100 kg limit: as written it raises instead of answering True. */
  lemma CheckCapacityAsWrittenExample()
    ensures CheckCapacityAsWritten(Value(PayloadKind, 90.0, KG), Value(FuelKind, 0.0, LITER),
                                   Value(PayloadKind, 100.0, KG), Value(FuelKind, 80.0, LITER),
                                   Value(PayloadKind, 5.0, KG))
         == Err(Raised(MissingUnitAttribute))
    ensures Fits(Value(PayloadKind, 90.0, KG), Value(PayloadKind, 5.0, KG), Value(PayloadKind, 100.0, KG))
         == Ok(true)
  {
  }

  /**
   * The evident intent of `check_capacity` for one dimension: the sum, kept
   * as a value in the current unit, compared with the maximum.
   */
  function Fits(current: Value, load: Value, max: Value): (r: Result<bool, Models.Error>)
    ensures r.Ok? <==> current.unit == load.unit && load.unit == max.unit
    ensures r.Err? ==> r.error == UnitMismatch
    ensures r.Ok? ==> (r.value <==> current.mag + load.mag <= max.mag)
  {
    match Add(current, load)
    case Err(e) => Err(e)
    case Ok(sum) => Le(Value(current.kind, sum, current.unit), max)
  }

  /** A load that fits leaves the stored amount within the limit, in the limit's unit. */
  lemma FitsKeepsLimit(current: Value, load: Value, max: Value)
    requires Fits(current, load, max) == Ok(true)
    ensures Loaded(current, load).unit == max.unit
    ensures Loaded(current, load).mag <= max.mag
  {
  }

  /**
   * Checking and adding two same-unit loads one after the other is exactly
   * checking and adding a single load of their sum: the checks compose.
   */
  lemma FitsSequential(current: Value, first: Value, second: Value, max: Value)
    requires first.unit == second.unit
    ensures Fits(Loaded(current, first), second, max)
         == Fits(current, first.(mag := first.mag + second.mag), max)
    ensures Loaded(Loaded(current, first), second) == Loaded(current, first.(mag := first.mag + second.mag))
  {
  }

  // ---------------------------------------------------------------------------
  // The transporter
  // ---------------------------------------------------------------------------

  const ZeroPayload: Value := Make(PayloadKind, 0.0, None)
  const ZeroFuel: Value := Make(FuelKind, 0.0, None)
  const ZeroSpeed: Value := Make(SpeedKind, 0.0, None)

  class Transporter {
    const id: int
    const maxPayload: Value
    const maxFuel: Value
    const maxSpeed: Value
    var payload: Value
    var fuel: Value
    var speed: Value
    /** Every message this transporter's client has published, oldest first. */
    var outbox: seq<Message>

    /** The announcement contents: the magnitudes `__repr__` prints. */
    function Summarize(): (s: Summary)
      reads this
      ensures s.id == id
    {
      Summary(id, speed.mag, payload.mag, fuel.mag, maxSpeed.mag, maxPayload.mag, maxFuel.mag)
    }

    /** The current amount a load of `kind` adds to. */
    function Current(kind: Kind): Value
      reads this
    {
      match kind
      case PayloadKind => payload
      case FuelKind => fuel
      case SpeedKind => speed
    }

    /** The limit a value of `kind` is held to. */
    function Max(kind: Kind): Value
      reads this
    {
      match kind
      case PayloadKind => maxPayload
      case FuelKind => maxFuel
      case SpeedKind => maxSpeed
    }

    /** Payload and fuel are within their limits, in the limits' units. */
    ghost predicate WithinLimits()
      reads this
    {
      && payload.unit == maxPayload.unit && payload.mag <= maxPayload.mag
      && fuel.unit == maxFuel.unit && fuel.mag <= maxFuel.mag
    }

    /**
     * The constructor without the MQTT connection and the location task: the
     * fields, then the announcement on the shared topic at qos 0. Omitted
     * amounts default to zero in the kind's default unit.
     */
    constructor (id: int, maxPayload: Value, maxFuel: Value, maxSpeed: Value,
                 payload: Value := ZeroPayload, fuel: Value := ZeroFuel, speed: Value := ZeroSpeed)
      ensures this.id == id
      ensures this.maxPayload == maxPayload && this.maxFuel == maxFuel && this.maxSpeed == maxSpeed
      ensures this.payload == payload && this.fuel == fuel && this.speed == speed
      ensures outbox == [Message(NewTransporterTopic,
                                 Announcement(Summary(id, speed.mag, payload.mag, fuel.mag,
                                                      maxSpeed.mag, maxPayload.mag, maxFuel.mag)), 0)]
    {
      this.id := id;
      this.maxPayload, this.maxFuel, this.maxSpeed := maxPayload, maxFuel, maxSpeed;
      this.payload, this.fuel, this.speed := payload, fuel, speed;
      outbox := [];
      new;
      Publish(NewTransporterTopic, Announcement(Summarize()), 0);
    }

    /** `MqttClient.publish`: one more message at the end of the outbox. */
    method Publish(topic: string, body: Body, qos: Qos)
      modifies this`outbox
      ensures outbox == old(outbox) + [Message(topic, body, qos)]
    {
      outbox := outbox + [Message(topic, body, qos)];
    }

    /**
     * `check_capacity`, with the comparison done as intended (see Fits and
     * CheckCapacityAsWritten). It reads the state and changes nothing.
     */
    function CheckCapacity(load: Value): (r: Result<bool, TransporterError>)
      reads this
      ensures r == Err(UnexpectedType) <==> load.kind == SpeedKind
      ensures load.kind != SpeedKind ==>
        (r.Ok? <==> Current(load.kind).unit == load.unit && load.unit == Max(load.kind).unit)
      ensures load.kind != SpeedKind && r.Err? ==> r.error == Raised(UnitMismatch)
      ensures r.Ok? ==> (r.value <==> Current(load.kind).mag + load.mag <= Max(load.kind).mag)
    {
      match load.kind
      case PayloadKind => Lift(Fits(payload, load, maxPayload))
      case FuelKind => Lift(Fits(fuel, load, maxFuel))
      case SpeedKind => Err(UnexpectedType)
    }

    /** The error `load` raises for a load CheckCapacity does not accept. */
    function LoadError(load: Value): (e: TransporterError)
      reads this
      requires CheckCapacity(load) != Ok(true)
      ensures CheckCapacity(load) == Ok(false) ==> e == CapacityExceeded
    {
      if CheckCapacity(load).Err? then CheckCapacity(load).error else CapacityExceeded
    }

    /**
     * `load`: a Payload adds to the payload, a Fuel to the fuel, once the
     * capacity check accepts it; a rejected load changes nothing.
     */
    method Load(load: Value) returns (r: Outcome<TransporterError>)
      modifies this`payload, this`fuel
      ensures r.Pass? <==> old(CheckCapacity(load)) == Ok(true)
      ensures r.Fail? ==> r.error == old(LoadError(load))
      ensures r.Fail? ==> payload == old(payload) && fuel == old(fuel)
      ensures r.Pass? && load.kind == PayloadKind ==>
        payload == Loaded(old(payload), load) && fuel == old(fuel)
      ensures r.Pass? && load.kind == FuelKind ==>
        fuel == Loaded(old(fuel), load) && payload == old(payload)
      ensures r.Pass? ==> Current(load.kind).unit == Max(load.kind).unit
      ensures r.Pass? ==> Current(load.kind).mag <= Max(load.kind).mag
      ensures old(WithinLimits()) ==> WithinLimits()
    {
      var fits := CheckCapacity(load);
      if fits != Ok(true) {
        return Fail(LoadError(load));
      }
      if load.kind == PayloadKind {
        FitsKeepsLimit(payload, load, maxPayload);
        payload := Loaded(payload, load);
      }
      if load.kind == FuelKind {
        FitsKeepsLimit(fuel, load, maxFuel);
        fuel := Loaded(fuel, load);
      }
      r := Pass;
    }

    /**
     * The `speed` setter: rejects a speed above the maximum (or in another
     * unit), otherwise publishes it on the speed topic at qos 0. As in the
     * source, it never stores the new speed.
     */
    method SetSpeed(v: Value) returns (r: Outcome<TransporterError>)
      modifies this`outbox
      ensures v.unit != maxSpeed.unit ==> r == Fail(Raised(UnitMismatch))
      ensures v.unit == maxSpeed.unit && v.mag > maxSpeed.mag ==> r == Fail(SpeedLimitExceeded)
      ensures r.Pass? <==> v.unit == maxSpeed.unit && v.mag <= maxSpeed.mag
      ensures r.Fail? ==> outbox == old(outbox)
      ensures r.Pass? ==> outbox == old(outbox) + [Message(Topic(SpeedTemplate, id), Reading(v), 0)]
    {
      match Gt(v, maxSpeed)
      case Err(e) =>
        return Fail(Raised(e));
      case Ok(tooFast) =>
        if tooFast {
          return Fail(SpeedLimitExceeded);
        }
        Publish(Topic(SpeedTemplate, id), Reading(v), 0);
        r := Pass;
    }

    /** `stop`: the stored speed's magnitude becomes 0; nothing is published. */
    method Stop()
      modifies this`speed
      ensures speed == old(speed).(mag := 0.0)
    {
      speed := speed.(mag := 0.0);
    }

    /** The `payload` setter: `load`, then the delivered amount on the payload topic at qos 0. */
    method SetPayload(v: Value) returns (r: Outcome<TransporterError>)
      modifies this`payload, this`fuel, this`outbox
      ensures r.Pass? <==> old(CheckCapacity(v)) == Ok(true)
      ensures r.Fail? ==> r.error == old(LoadError(v))
      ensures r.Fail? ==> payload == old(payload) && fuel == old(fuel) && outbox == old(outbox)
      ensures r.Pass? && v.kind == PayloadKind ==> payload == Loaded(old(payload), v) && fuel == old(fuel)
      ensures r.Pass? && v.kind == FuelKind ==> fuel == Loaded(old(fuel), v) && payload == old(payload)
      ensures r.Pass? ==> outbox == old(outbox) + [Message(Topic(PayloadTemplate, id), Reading(v), 0)]
    {
      r := Load(v);
      if r.Pass? {
        Publish(Topic(PayloadTemplate, id), Reading(v), 0);
      }
    }

    /** The `fuel` setter: `load`, then the delivered amount on the fuel topic at qos 2. */
    method SetFuel(v: Value) returns (r: Outcome<TransporterError>)
      modifies this`payload, this`fuel, this`outbox
      ensures r.Pass? <==> old(CheckCapacity(v)) == Ok(true)
      ensures r.Fail? ==> r.error == old(LoadError(v))
      ensures r.Fail? ==> payload == old(payload) && fuel == old(fuel) && outbox == old(outbox)
      ensures r.Pass? && v.kind == PayloadKind ==> payload == Loaded(old(payload), v) && fuel == old(fuel)
      ensures r.Pass? && v.kind == FuelKind ==> fuel == Loaded(old(fuel), v) && payload == old(payload)
      ensures r.Pass? ==> outbox == old(outbox) + [Message(Topic(FuelTemplate, id), Reading(v), 2)]
    {
      r := Load(v);
      if r.Pass? {
        Publish(Topic(FuelTemplate, id), Reading(v), 2);
      }
    }
  }

  /** A 100 kg transporter holding 90 kg: 5 kg fits, a further 15 kg does not and changes nothing. */
  method CapacityScenario()
  {
    var t := new Transporter(0, Make(PayloadKind, 100.0, None), ZeroFuel, ZeroSpeed,
                             Make(PayloadKind, 90.0, None));
    assert |t.outbox| == 1 && t.outbox[0].topic == NewTransporterTopic;
    var r := t.Load(Make(PayloadKind, 5.0, None));
    assert r.Pass? && t.payload == Value(PayloadKind, 95.0, KG);
    r := t.Load(Make(PayloadKind, 15.0, None));
    assert r == Fail(CapacityExceeded) && t.payload == Value(PayloadKind, 95.0, KG);
    assert |t.outbox| == 1;
  }

  /** Speeds above the limit or in another unit are refused without a publish; stop zeroes the speed. */
  method SpeedScenario()
  {
    var t := new Transporter(0, ZeroPayload, ZeroFuel, Make(SpeedKind, 100.0, None));
    var r := t.SetSpeed(Make(SpeedKind, 120.0, None));
    assert r == Fail(SpeedLimitExceeded) && |t.outbox| == 1;
    r := t.SetSpeed(Make(SpeedKind, 30.0, Some(MPH)));
    assert r == Fail(Raised(UnitMismatch)) && |t.outbox| == 1;
    t.Stop();
    assert t.speed.mag == 0.0 && |t.outbox| == 1;
  }
}
