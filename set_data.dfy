/**
  How `SetDataOnSimObject` (simconnect.go) packs the caller's values: one row
  of eight doubles per item, in the order of the fields of the struct it
  registers for them.

  Floating-point values are modelled as reals: every float32 widens exactly
  to a float64, so the widening changes no value.
*/
module SetData {
  import opened Wrappers
  import opened Schema

  /** `SetSimObjectDataExpose`: the values a caller sets on a simulation object. */
  datatype SetSimObjectDataExpose = SetSimObjectDataExpose(
    airspeed: real, altitude: real, bank: real, heading: real,
    latitude: real, longitude: real, onGround: bool, pitch: real)

  /** `b2i`: a boolean as the double the engine expects. */
  function B2i(b: bool): (x: real)
    ensures x == 1.0 || x == 0.0
    ensures I2b(x) == b
  {
    if b then 1.0 else 0.0
  }

  /** Reading the double back: any value other than 1 is false. */
  function I2b(x: real): bool
  {
    x == 1.0
  }

  /** `b2i` maps true to 1 and false to 0, and is undone by reading 1 back as true. */
  lemma B2iSpec(b: bool)
    ensures b ==> B2i(b) == 1.0
    ensures !b ==> B2i(b) == 0.0
    ensures I2b(B2i(b)) == b
  {
  }

  /** The row of eight doubles built for one item. */
  function Row(d: SetSimObjectDataExpose): seq<real>
  {
    [d.airspeed, d.altitude, d.bank, d.heading, d.latitude, d.longitude, B2i(d.onGround), d.pitch]
  }

  /** The rows built for all items, in order. */
  function Rows(data: seq<SetSimObjectDataExpose>): (rows: seq<seq<real>>)
    ensures |rows| == |data|
    ensures forall i | 0 <= i < |data| :: rows[i] == Row(data[i])
  {
    seq(|data|, i requires 0 <= i < |data| => Row(data[i]))
  }

  /** The item a row encodes, reading its slots in the registered field order. */
  function UnpackRow(row: seq<real>): SetSimObjectDataExpose
    requires |row| == 8
  {
    SetSimObjectDataExpose(row[0], row[1], row[2], row[3], row[4], row[5], I2b(row[6]), row[7])
  }

  /** A row holds every value of its item: unpacking it gives the item back. */
  lemma RowRoundTrip(d: SetSimObjectDataExpose)
    ensures |Row(d)| == 8
    ensures UnpackRow(Row(d)) == d
  {
    B2iSpec(d.onGround);
  }

  /** The value of the item's field with the same Go name, as the engine receives it. */
  function FieldValue(d: SetSimObjectDataExpose, fieldName: string): Option<real>
  {
    match fieldName
    case "Airspeed" => Some(d.airspeed)
    case "Altitude" => Some(d.altitude)
    case "Bank" => Some(d.bank)
    case "Heading" => Some(d.heading)
    case "Latitude" => Some(d.latitude)
    case "Longitude" => Some(d.longitude)
    case "OnGround" => Some(B2i(d.onGround))
    case "Pitch" => Some(d.pitch)
    case _ => None
  }

  /**
    Slot `i` of a row holds the value of the `i`-th field registered for the
    set-data struct (its field `i + 1`, after the header), so the engine
    reads each value under the field it was registered for.
  */
  lemma RowMatchesRegisteredOrder(d: SetSimObjectDataExpose)
    ensures |Row(d)| == |Payload(InternalSimObjectShape)| == 8
    ensures forall i | 0 <= i < 8 :: FieldValue(d, Payload(InternalSimObjectShape)[i].fieldName) == Some(Row(d)[i])
  {
    var fs := Payload(InternalSimObjectShape);
    assert fs[0].fieldName == "Airspeed" && fs[1].fieldName == "Altitude";
    assert fs[2].fieldName == "Bank" && fs[3].fieldName == "Heading";
    assert fs[4].fieldName == "Latitude" && fs[5].fieldName == "Longitude";
    assert fs[6].fieldName == "OnGround" && fs[7].fieldName == "Pitch";
  }
}
