# cargosystem transporter core, in Dafny

This project models the two pieces of the cargosystem simulator that hold
checkable logic:

- **Unit-tagged values** (`models.py`): the seven units, the 17-entry
  conversion table, `Value` with its unit-checked `+`, `-`, `>`, `>=`, `<`,
  `<=`, and the default units of `Speed`, `Payload` and `Fuel`
  (`models.dfy`, module `Models`).
- **The transporter** (`transporter.py`): a class with a fixed id and fixed
  limits, a mutable payload, fuel and speed, and an outbox. Every MQTT
  `publish` appends one `Message(topic, body, qos)` to the outbox
  (`transporter.dfy`, module `Transporters`). The topic strings of
  `common.py` and the `template.format(id)` that fills them in are in
  `topics.dfy` (module `Topics`). Exceptions are `Result`/`Outcome` values
  (`results.dfy`).

Magnitudes are Dafny `real`s. The round trip through the conversion table is
exact over the reals. It is not exact over IEEE doubles.

Two places where the code does not do what it evidently intends are recorded
under "## Findings". Each is modelled twice: once as written, with a lemma
that exhibits the defect, and once as evidently intended.

1. The subclass `convert_to` swaps its constructor arguments.
2. `check_capacity` compares a bare number with a `Value`, which always
   raises.

The `Transporter` class deviates from the code deliberately in two places,
both following from the second finding:

- It uses the intended capacity check (`Fits`) instead of the one that
  always raises.
- A successful `Load` stores the sum as a `Value` of the current amount's
  kind and unit. The code would store the bare number that `+` returns
  (transporter.py:71, 73), but as written that line is never reached,
  because the check before it always raises.

Everything else follows the code literally:

- The speed setter validates and publishes, but never stores the new speed.
- `stop` zeroes the stored speed and publishes nothing.
- The payload setter publishes on the payload topic whatever kind of load it
  was given, and the fuel setter publishes on the fuel topic.
- The constructor does not check the initial amounts against the limits.
  So "payload ≤ max payload" is not an invariant of every transporter.
  Instead, `Load` keeps it when it already holds (`WithinLimits`), and a
  successful load always leaves the loaded amount within its limit.
- Speed is never checked against the stored speed, so it carries no such
  invariant.

## Model

| member | source | states |
|---|---|---|
| Models.Lookup | src/transport_sequencing/models.py:33-54 | the table has an entry for (a, b) exactly when a and b are in the same family (velocity, mass, volume); every factor is positive; each unit maps to itself by multiply-by-1 |
| Models.ReverseEntry | src/transport_sequencing/models.py:37-53 | for every entry (a, b) with a ≠ b, the entry (b, a) has the same factor and the opposite operator |
| Models.ApplyRoundTrip | src/transport_sequencing/models.py:37-53 | applying the entry for (a, b) and then the entry for (b, a) returns the original magnitude |
| Models.ConversionTo | src/transport_sequencing/models.py:63-66 | base `convert_to` returns the table entry for (own unit, target), and raises "Cannot convert" exactly for a cross-family pair |
| Models.ConvertToOwnUnit | src/transport_sequencing/models.py:39-53 | converting a value to its own unit succeeds and leaves the magnitude unchanged |
| Models.Make | src/transport_sequencing/models.py:103-147 | a constructed Speed/Payload/Fuel keeps the given magnitude and an explicit unit, and gets the kind's default unit when none is given |
| Models.DefaultUnits | src/transport_sequencing/models.py:103-105 | the defaults are km/h for Speed, kg for Payload and liter for Fuel; an explicit unit is kept for every kind |
| Models.SymbolInjective | src/transport_sequencing/models.py:23-30 | the seven enum members carry seven distinct strings |
| Models.AssertSameUnit | src/transport_sequencing/models.py:68-73 | the guard passes exactly when both units are equal, and otherwise raises "unit mismatch" |
| Models.Add | src/transport_sequencing/models.py:78-80 | `+` raises "unit mismatch" exactly when the units differ; otherwise it returns a bare number from which subtracting b gives a back |
| Models.Sub | src/transport_sequencing/models.py:82-84 | `-` raises "unit mismatch" exactly when the units differ; otherwise it returns a bare number to which adding b gives a back |
| Models.Gt | src/transport_sequencing/models.py:86-88 | `>` raises "unit mismatch" exactly when the units differ; otherwise it is true iff a's magnitude is the larger |
| Models.Ge | src/transport_sequencing/models.py:90-92 | `>=` raises exactly on differing units; otherwise it agrees with magnitude order |
| Models.Lt | src/transport_sequencing/models.py:94-96 | `<` raises exactly on differing units; otherwise it agrees with magnitude order |
| Models.Le | src/transport_sequencing/models.py:98-100 | `<=` raises exactly on differing units; otherwise it agrees with magnitude order |
| Models.AddSubInverse | src/transport_sequencing/models.py:78-84 | for same-unit operands, `(a + b) - b` rewrapped in a's unit gives back a's magnitude |
| Models.ComparisonDuality | src/transport_sequencing/models.py:86-100 | `a < b` equals `b > a` and `a <= b` equals `b >= a`, including the mismatch error |
| Models.ComparisonComplement | src/transport_sequencing/models.py:86-100 | for same-unit operands, `a <= b` is `not a > b` and `a >= b` is `not a < b` |
| Models.MismatchAlwaysRaises | src/transport_sequencing/models.py:71-100 | all six operators raise "unit mismatch" on operands with different units |
| Models.PyLe | src/transport_sequencing/models.py:90-100 | Python's `<=` between a number and a Value, in either order, raises AttributeError (the reflected `__ge__` reads `.unit` of the number); between two Values it is `Value.__le__`, including its unit-mismatch error |
| Models.ConvertAsWritten | src/transport_sequencing/models.py:117-119 | subclass `convert_to` as written: for a same-family target the result's `value` field holds the target unit and its `unit` field the converted number; for any other pair it raises "Cannot convert" |
| Models.RawGt | src/transport_sequencing/models.py:86-88 | `>` on objects as stored: "unit mismatch" exactly when the `unit` fields differ; otherwise TypeError for a number against an enum member, magnitude order for two numbers, and false for equal `value` fields |
| Models.StrGtAsymmetric | src/transport_sequencing/models.py:86-88 | the string ordering `>` uses on two enum members never holds in both directions |
| Models.ConvertAsWrittenIsMalformed | src/transport_sequencing/models.py:117-119 | the as-written result is never a well-formed value, and comparing it with any value raises "unit mismatch" |
| Models.ConvertAsWrittenExample | src/transport_sequencing/models.py:117-119 | 36 km/h converted to m/s yields an object whose `value` is m/s and whose `unit` is 10 |
| Models.Convert | src/transport_sequencing/models.py:117-147 | intended subclass `convert_to`: same kind, tagged with the target unit, with the magnitude the table entry gives; raises "Cannot convert" exactly for a cross-family pair |
| Models.ConvertRoundTrip | src/transport_sequencing/models.py:37-54 | converting to any same-family unit and back returns the original value |
| Models.ConvertIdentity | src/transport_sequencing/models.py:39-53 | converting a value to its own unit returns it unchanged |
| Topics.NatText | src/transport_sequencing/transporter.py:93 | `str(n)` of a non-negative id is a non-empty string of decimal digits with no leading zero |
| Topics.IdText | src/transport_sequencing/transporter.py:108 | `str(id)` is non-empty and starts with '-' exactly for a negative id |
| Topics.ParseNatText | src/transport_sequencing/transporter.py:120 | reading the decimal text of an id back gives the id |
| Topics.IdTextInjective | src/transport_sequencing/transporter.py:93 | distinct ids render as distinct strings |
| Topics.NegativeTextInjective | src/transport_sequencing/transporter.py:93 | distinct negative ids render as distinct strings |
| Topics.FormatSplice | src/transport_sequencing/common.py:5-7 | `template.format(arg)` on a template whose placeholder is its first brace replaces the placeholder with `arg` |
| Topics.TopicShapes | src/transport_sequencing/common.py:5-7 | the speed, payload and fuel topics of id n are `cargosystem/transporter/` + str(n) + `/speed`, `/payload`, `/fuel` |
| Topics.TopicInjective | src/transport_sequencing/common.py:5-7 | a speed, payload or fuel topic is the same for two ids exactly when the ids are equal, so two transporters never share one |
| Topics.TopicsDistinct | src/transport_sequencing/common.py:4-7 | one transporter's speed, payload and fuel topics differ from each other and from the announcement topic |
| Transporters.CheckCapacityAsWritten | src/transport_sequencing/transporter.py:75-80 | `check_capacity` as written: a Speed raises TypeError; a load whose unit differs from the current amount raises "unit mismatch" |
| Transporters.CheckCapacityAsWrittenAlwaysRaises | src/transport_sequencing/transporter.py:77-79 | as written, `check_capacity` raises for every input; for a same-unit Payload or Fuel it raises AttributeError |
| Transporters.CheckCapacityAsWrittenExample | src/transport_sequencing/transporter.py:77 | 90 kg + 5 kg against 100 kg raises AttributeError as written, where the intended check answers true |
| Transporters.Fits | src/transport_sequencing/transporter.py:77-79 | intended capacity check: it answers exactly when the current, load and limit units agree (else "unit mismatch"), and it is true iff current + load ≤ limit |
| Transporters.FitsKeepsLimit | src/transport_sequencing/transporter.py:67-73 | a load that fits leaves the stored amount at or below the limit, in the limit's unit |
| Transporters.FitsSequential | src/transport_sequencing/transporter.py:67-79 | for any two loads in the same unit, checking and adding the second after adding the first is the same as checking and adding their sum at once |
| Transporters.Transporter.constructor | src/transport_sequencing/transporter.py:10-53 | the fields are set from the arguments, with omitted amounts defaulting to zero in the kind's default unit; the outbox is exactly one announcement of the initial state on `cargosystem/transporter/new_transporter` at qos 0 |
| Transporters.Transporter.Publish | src/transport_sequencing/mqtt_client.py:33-38 | a publish appends exactly one message (topic, body, qos) and changes nothing else |
| Transporters.Transporter.CheckCapacity | src/transport_sequencing/transporter.py:75-80 | reads the state only; a Speed raises TypeError; otherwise it answers exactly when the units agree, and the answer is whether the matching current amount plus the load is within the matching limit |
| Transporters.Transporter.LoadError | src/transport_sequencing/transporter.py:68-69 | a load the check answers false for raises the capacity ValueError |
| Transporters.Transporter.Load | src/transport_sequencing/transporter.py:67-73 | succeeds exactly when the check answers true; on failure nothing changes; a Payload changes only the payload and a Fuel only the fuel, by adding the load; afterwards the loaded amount is within its limit; it preserves WithinLimits; speed, limits and outbox are never written |
| Transporters.Transporter.SetSpeed | src/transport_sequencing/transporter.py:86-95 | a speed in another unit raises "unit mismatch", one above the limit raises ValueError, and neither publishes; otherwise exactly one message goes out on `cargosystem/transporter/{id}/speed` at qos 0; the stored speed never changes |
| Transporters.Transporter.Stop | src/transport_sequencing/transporter.py:97-98 | the stored speed's magnitude becomes 0, its unit is kept, and nothing is published |
| Transporters.Transporter.SetPayload | src/transport_sequencing/transporter.py:104-110 | the same effect on payload and fuel as Load; only after a successful load is exactly one message published on `.../{id}/payload` at qos 0; a failed load publishes nothing |
| Transporters.Transporter.SetFuel | src/transport_sequencing/transporter.py:116-123 | the same effect on payload and fuel as Load; only after a successful load is exactly one message published on `.../{id}/fuel` at qos 2; a failed load publishes nothing |

## Left out

- MQTT connection and client setup (transporter.py:29-32, 49; mqtt_client.py): external I/O. A publish is an outbox append.
- The location task `_publish_location` (transporter.py:55-65) and the `pub_loc` flag: an asyncio task with a sleep. The location itself (`Coords`, `locations.get_random_coord`) is random, Decimal-valued and has no logic to verify.
- The announcement's rendered string (`__repr__`, transporter.py:36-46): the outbox records the six magnitudes and the id that it prints, without the location. Published values are recorded as `Value`s rather than as `str(value)`.
- Object identity: the default `Speed(value=0)` is shared between transporters, and `stop` mutates the caller's speed object in place. The model uses value semantics, so that aliasing is not captured. Since `stop` only ever writes 0 to the shared default, this is observably the same for it.
- Float rounding: magnitudes are exact reals. The speed factors are not mutually consistent (3.6 × 0.44704 ≠ 1.60934), so no property about chained conversions through a third unit is claimed.
- The remaining Python types: the `speed`/`payload`/`fuel` parameters accept any `Value`. An object that is not a `Value` at all is not modelled, apart from the bare numbers that `+` returns (Models.PyLe).
- The entity producer (producer.py), the event logger (eventlogger.py), main.py and consumer.py: cooperative concurrency, randomness and I/O orchestration. They are not part of this model.
- Transporters.Transporter.Load: stores the sum as a `Value` in the current amount's kind and unit, where the code (transporter.py:71, 73) would store the bare number from `+`; that path is unreachable as written, because `check_capacity` raises first. The model follows the evident intent, as for the check.

## Findings

| source | as written | input that shows it | evidently intended | confidence | as-written member | corrected member |
|---|---|---|---|---|---|---|
| src/transport_sequencing/models.py:119 | `Speed(unit, op(self.value, arg))` (likewise Payload at 133 and Fuel at 147) passes the target unit as `value` and the number as `unit` | `Speed(36, KMH).convert_to(MS)` gives an object with `value = MS` and `unit = 10.0`, which raises "unit mismatch" against any Speed | `Speed(op(self.value, arg), unit)`: a value in the target unit that round-trips | high (not executed) | Models.ConvertAsWrittenIsMalformed | Models.ConvertRoundTrip |
| src/transport_sequencing/transporter.py:77 | `(self._payload + load) <= self._max_payload` (and the fuel line 79) compares the bare number from `+` with a `Value`; Python falls back to the reflected `Value.__ge__`, which reads `.unit` of the number | payload 90 kg, max 100 kg, load 5 kg: AttributeError instead of True, so `load` and both setters can never succeed | compare `current + load` with the limit in the same unit, and store the sum back as a value | high (not executed) | Transporters.CheckCapacityAsWrittenAlwaysRaises | Transporters.Fits |
