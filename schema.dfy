/**
  Record shapes and what registering one asks of the engine
  (simconnect.go, `registerDataDefinition` and the records it is given).

  A record is a Go struct whose first field embeds the response header and
  whose other fields carry `name` and `unit` tags. Registration walks the
  fields after the header in declaration order; each field needs a name tag
  and a type the wire-type table accepts, and becomes one add-field call.
*/
module Schema {
  import opened Wrappers
  import opened SimconnectData
  import Utils
  import opened Native
  import opened SeqFacts

  /** Go's reflect kinds; an array carries its length and its element type's name. */
  datatype GoKind =
    | Invalid | Bool | Int | Int8 | Int16 | Int32 | Int64
    | Uint | Uint8 | Uint16 | Uint32 | Uint64 | Uintptr
    | Float32 | Float64 | Complex64 | Complex128
    | Array(len: nat, elem: string)
    | Chan | Func | Interface | Map | Pointer | Slice | String | Struct | UnsafePointer

  /** `Kind.String()` in Go's reflect package. */
  function KindString(k: GoKind): (s: string)
    ensures s == "array" <==> k.Array?
  {
    match k
    case Invalid => "invalid"
    case Bool => "bool"
    case Int => "int"
    case Int8 => "int8"
    case Int16 => "int16"
    case Int32 => "int32"
    case Int64 => "int64"
    case Uint => "uint"
    case Uint8 => "uint8"
    case Uint16 => "uint16"
    case Uint32 => "uint32"
    case Uint64 => "uint64"
    case Uintptr => "uintptr"
    case Float32 => "float32"
    case Float64 => "float64"
    case Complex64 => "complex64"
    case Complex128 => "complex128"
    case Array(_, _) => "array"
    case Chan => "chan"
    case Func => "func"
    case Interface => "interface"
    case Map => "map"
    case Pointer => "ptr"
    case Slice => "slice"
    case String => "string"
    case Struct => "struct"
    case UnsafePointer => "unsafe.Pointer"
  }

  /** The decimal digit for `d`. */
  function DigitChar(d: nat): char
    requires d < 10
  {
    (48 + d) as char
  }

  /** The decimal numeral of `n`, as `%d` prints it. */
  function Decimal(n: nat): (s: string)
    ensures |s| >= 1
    ensures n >= 10 ==> |s| >= 2
  {
    if n < 10 then [DigitChar(n)] else Decimal(n / 10) + [DigitChar(n % 10)]
  }

  /** Distinct numbers print differently. */
  lemma {:induction false} DecimalInjective(n: nat, m: nat)
    requires Decimal(n) == Decimal(m)
    ensures n == m
  {
    if n >= 10 && m >= 10 {
      var a, b := Decimal(n), Decimal(m);
      assert a[|a| - 1] == DigitChar(n % 10) && b[|b| - 1] == DigitChar(m % 10);
      assert Decimal(n / 10) == a[..|a| - 1] == b[..|b| - 1] == Decimal(m / 10);
      DecimalInjective(n / 10, m / 10);
    }
  }

  /** The type name the registration loop looks a field up by. */
  function FieldType(k: GoKind): string
  {
    var s := KindString(k);
    if s == "array" then "[" + Decimal(k.len) + "]byte" else s
  }

  /** Equal text around two strings means the strings are equal. */
  lemma BracketCancel(a: string, b: string)
    requires "[" + a + "]byte" == "[" + b + "]byte"
    ensures a == b
  {
    assert a == ("[" + a + "]byte")[1..|a| + 1];
    assert b == ("[" + b + "]byte")[1..|b| + 1];
  }

  /** The kinds whose type name the wire-type table accepts. */
  predicate KindAccepted(k: GoKind)
  {
    || k in {Bool, Int32, Int64, Float32, Float64}
    || (k.Array? && k.len in {8, 32, 64, 128, 256, 260})
  }

  /**
    A field's type resolves exactly for bool, int32, int64, float32 and
    float64 and for arrays of the six string lengths. An array is looked up by
    its length alone: `[8]int32` resolves as an 8-byte string.
  */
  lemma FieldTypeAccepted(k: GoKind)
    ensures FieldType(k) in Utils.SupportedFieldTypes <==> KindAccepted(k)
  {
    match k
    case Array(n, elem) =>
      if FieldType(k) in Utils.SupportedFieldTypes {
        ListedArrayNameIsAccepted(n, elem);
      }
      if KindAccepted(k) {
        AcceptedArrayNameIsListed(n, elem);
      }
    case Invalid =>
    case Bool =>
    case Int =>
    case Int8 =>
    case Int16 =>
    case Int32 =>
    case Int64 =>
    case Uint =>
    case Uint8 =>
    case Uint16 =>
    case Uint32 =>
    case Uint64 =>
    case Uintptr =>
    case Float32 =>
    case Float64 =>
    case Complex64 =>
    case Complex128 =>
    case Chan =>
    case Func =>
    case Interface =>
    case Map =>
    case Pointer =>
    case Slice =>
    case String =>
    case Struct =>
    case UnsafePointer =>
  }

  /** An array whose type name the table lists has one of the six string lengths. */
  lemma ListedArrayNameIsAccepted(n: nat, elem: string)
    requires FieldType(Array(n, elem)) in Utils.SupportedFieldTypes
    ensures n in {8, 32, 64, 128, 256, 260}
  {
    var d := Decimal(n);
    assert FieldType(Array(n, elem)) == "[" + d + "]byte";
    assert FieldType(Array(n, elem))[0] == '[';
    var lit: string :|
      lit in {"8", "32", "64", "128", "256", "260"} && FieldType(Array(n, elem)) == "[" + lit + "]byte";
    BracketCancel(d, lit);
    StringLengthOfNumeral(n, lit);
  }

  /** A number whose numeral is one of the six string lengths is that length. */
  lemma StringLengthOfNumeral(n: nat, lit: string)
    requires lit in {"8", "32", "64", "128", "256", "260"} && Decimal(n) == lit
    ensures n in {8, 32, 64, 128, 256, 260}
  {
    if lit == "8" { assert Decimal(8) == lit; DecimalInjective(n, 8); }
    else if lit == "32" { assert Decimal(32) == lit; DecimalInjective(n, 32); }
    else if lit == "64" { assert Decimal(64) == lit; DecimalInjective(n, 64); }
    else if lit == "128" { assert Decimal(128) == lit; DecimalInjective(n, 128); }
    else if lit == "256" { assert Decimal(256) == lit; DecimalInjective(n, 256); }
    else { assert Decimal(260) == lit; DecimalInjective(n, 260); }
  }

  /** An array of one of the six string lengths has a type name the table lists. */
  lemma AcceptedArrayNameIsListed(n: nat, elem: string)
    requires n in {8, 32, 64, 128, 256, 260}
    ensures FieldType(Array(n, elem)) in Utils.SupportedFieldTypes
  {
    var name := FieldType(Array(n, elem));
    if n == 8 {
      assert name in Utils.SupportedFieldTypes by { assert Decimal(n) == "8"; assert name == "[8]byte"; }
    } else if n == 32 {
      assert name in Utils.SupportedFieldTypes by { assert Decimal(n) == "32"; assert name == "[32]byte"; }
    } else if n == 64 {
      assert name in Utils.SupportedFieldTypes by { assert Decimal(n) == "64"; assert name == "[64]byte"; }
    } else if n == 128 {
      assert name in Utils.SupportedFieldTypes by { assert Decimal(n) == "128"; assert name == "[128]byte"; }
    } else if n == 256 {
      assert name in Utils.SupportedFieldTypes by { assert Decimal(n) == "256"; assert name == "[256]byte"; }
    } else {
      assert name in Utils.SupportedFieldTypes by { assert Decimal(n) == "260"; assert name == "[260]byte"; }
    }
  }

  /** One struct field: its Go name, its `name` and `unit` tags ("" when absent) and its kind. */
  datatype FieldDecl = FieldDecl(fieldName: string, nameTag: string, unitTag: string, kind: GoKind)

  /** A record type: its Go type name and its fields in declaration order, the header first. */
  datatype RecordShape = RecordShape(name: string, fields: seq<FieldDecl>)

  /** The fields registration walks: all but the leading header field. */
  function Payload(shape: RecordShape): (fs: seq<FieldDecl>)
    ensures |fs| == if shape.fields == [] then 0 else |shape.fields| - 1
    ensures forall i | 0 <= i < |fs| :: fs[i] == shape.fields[i + 1]
  {
    if shape.fields == [] then [] else shape.fields[1..]
  }

  /** What one add-field call registers: name tag, unit tag and data-type tag. */
  datatype AddArgs = AddArgs(name: string, unit: string, dataType: u32)

  /**
    The checks the registration loop makes on one field, in its order: the
    name tag first, then the type.
  */
  function CheckField(f: FieldDecl): Result<AddArgs, Error>
  {
    var fieldType := FieldType(f.kind);
    if f.nameTag == "" then Err(NameTagNotFound(f.fieldName))
    else
      var (dataType, err) := Utils.DerefDataType(fieldType);
      if err.Some? then Err(DataTypeNotImplemented(fieldType))
      else Ok(AddArgs(f.nameTag, f.unitTag, dataType))
  }

  /**
    A field passes exactly when it has a name tag and an accepted kind; a
    missing name tag is reported before an unsupported type; a passing field
    registers its own tags and a valid data-type tag.
  */
  lemma CheckFieldOutcome(f: FieldDecl)
    ensures CheckField(f).Ok? <==> f.nameTag != "" && KindAccepted(f.kind)
    ensures f.nameTag == "" ==> CheckField(f) == Err(NameTagNotFound(f.fieldName))
    ensures f.nameTag != "" && !KindAccepted(f.kind) ==> CheckField(f) == Err(DataTypeNotImplemented(FieldType(f.kind)))
    ensures CheckField(f).Ok? ==> CheckField(f).value.name == f.nameTag && CheckField(f).value.unit == f.unitTag
    ensures CheckField(f).Ok? ==> CheckField(f).value.dataType == Utils.DerefDataType(FieldType(f.kind)).0 != DATATYPE_INVALID
  {
    FieldTypeAccepted(f.kind);
  }

  /** The outcome of the checks on each field, in order. */
  function Checks(fs: seq<FieldDecl>): (rs: seq<Result<AddArgs, Error>>)
    ensures |rs| == |fs|
    ensures forall i | 0 <= i < |fs| :: rs[i] == CheckField(fs[i])
  {
    seq(|fs|, i requires 0 <= i < |fs| => CheckField(fs[i]))
  }

  /**
    What a run of checked fields registers when the engine accepts every
    call: the arguments of each field in order up to the first failed check,
    and that check's error, if any.
  */
  function Collect(rs: seq<Result<AddArgs, Error>>): (p: (seq<AddArgs>, Option<Error>))
    ensures |p.0| <= |rs|
    ensures forall i | 0 <= i < |p.0| :: rs[i] == Ok(p.0[i])
    ensures p.1.None? ==> |p.0| == |rs|
    ensures p.1.Some? ==> |p.0| < |rs| && rs[|p.0|] == Err(p.1.value)
  {
    if rs == [] then ([], None)
    else match rs[0]
      case Err(e) => ([], Some(e))
      case Ok(args) =>
        var rest := Collect(rs[1..]);
        ([args] + rest.0, rest.1)
  }

  /** The add-field arguments registration makes for `fs`, and the check failure that stops it, if any. */
  function Plan(fs: seq<FieldDecl>): (p: (seq<AddArgs>, Option<Error>))
    ensures |p.0| <= |fs|
    ensures forall i | 0 <= i < |p.0| :: CheckField(fs[i]) == Ok(p.0[i])
    ensures p.1.None? ==> |p.0| == |fs|
    ensures p.1.Some? ==> |p.0| < |fs| && CheckField(fs[|p.0|]) == Err(p.1.value)
  {
    Collect(Checks(fs))
  }

  /** The plan for a run of fields is the first field's outcome followed by the plan for the rest. */
  lemma PlanCons(fs: seq<FieldDecl>)
    requires fs != []
    ensures CheckField(fs[0]).Err? ==> Plan(fs) == ([], Some(CheckField(fs[0]).error))
    ensures CheckField(fs[0]).Ok? ==> Plan(fs) == ([CheckField(fs[0]).value] + Plan(fs[1..]).0, Plan(fs[1..]).1)
  {
    assert Checks(fs)[1..] == Checks(fs[1..]);
  }

  /** When every check passes, the run registers each field's arguments and reports no failure. */
  lemma {:induction false} CollectAllOk(rs: seq<Result<AddArgs, Error>>)
    requires forall i | 0 <= i < |rs| :: rs[i].Ok?
    ensures Collect(rs).1.None?
    ensures |Collect(rs).0| == |rs|
    ensures forall i | 0 <= i < |rs| :: Collect(rs).0[i] == rs[i].value
  {
    var p := Collect(rs);
    if p.1.Some? {
      assert false;
    }
  }

  /** The engine call that registers one field under `defineID`. */
  function AddCall(defineID: u32, args: AddArgs): (c: Call)
    ensures c.AddToDataDefinition? && c.defineID == defineID && c.datumType == args.dataType
    ensures c.datumName == NulTerminated(args.name)
    ensures c.unitsName.None? <==> args.unit == ""
    ensures c.unitsName.Some? ==> c.unitsName.value == NulTerminated(args.unit)
    ensures c.datumID == SIMCONNECT_UNUSED
  {
    AddToDataDefinition(
      defineID, NulTerminated(args.name),
      if args.unit == "" then None else Some(NulTerminated(args.unit)),
      args.dataType, SIMCONNECT_UNUSED)
  }

  /** The calls for a plan. */
  function AddCalls(defineID: u32, plan: seq<AddArgs>): (cs: seq<Call>)
    ensures |cs| == |plan|
    ensures forall i | 0 <= i < |plan| :: cs[i] == AddCall(defineID, plan[i])
  {
    seq(|plan|, i requires 0 <= i < |plan| => AddCall(defineID, plan[i]))
  }

  /** `[]byte(s + "\x00")` */
  function NulTerminated(s: string): string
  {
    s + ['\0']
  }

  /** The string a C reader sees in a NUL-terminated buffer: everything before the first NUL. */
  function CString(b: string): (s: string)
    ensures '\0' !in s
    ensures |s| <= |b| && s == b[..|s|]
  {
    if b == [] || b[0] == '\0' then [] else [b[0]] + CString(b[1..])
  }

  /**
    The engine reads back the name the client sent, unless the name itself
    holds a NUL, in which case it reads only the part before it.
  */
  lemma {:induction false} CStringOfNulTerminated(s: string)
    ensures '\0' !in s ==> CString(NulTerminated(s)) == s
    ensures '\0' in s ==> |CString(NulTerminated(s))| < |s|
  {
    if s != [] && s[0] != '\0' {
      CStringOfNulTerminated(s[1..]);
      assert NulTerminated(s)[1..] == NulTerminated(s[1..]);
    }
  }

  /**
    `registerDataDefinition` once `shape`'s id is newly allocated: the calls
    it makes after `log` and the error it returns. Each field is checked and
    then added; the first failed check or rejected add ends the walk, and
    nothing done before it is undone.
  */
  function Register(respond: (seq<Call>, Call) -> Reply, log: seq<Call>, defineID: u32, fs: seq<FieldDecl>): (r: (seq<Call>, Option<Error>))
    decreases |fs|
  {
    if fs == [] then ([], None)
    else match CheckField(fs[0])
      case Err(e) => ([], Some(e))
      case Ok(args) =>
        var c := AddCall(defineID, args);
        if Rejected(respond(log, c).status) then ([c], Some(AddToDataDefinitionFailed(args.name)))
        else
          var rest := Register(respond, log + [c], defineID, fs[1..]);
          ([c] + rest.0, rest.1)
  }

  /**
    One field of the walk after `log`: the add call it makes, if its check
    passes, and its error, if any.
  */
  function FieldRegistration(respond: (seq<Call>, Call) -> Reply, log: seq<Call>, defineID: u32, f: FieldDecl): (r: (seq<Call>, Option<Error>))
    ensures |r.0| == 1 <==> CheckField(f).Ok?
    ensures |r.0| <= 1
    ensures CheckField(f).Err? ==> r.0 == [] && r.1 == Some(CheckField(f).error)
    ensures CheckField(f).Ok? ==> r.0[0] == AddCall(defineID, CheckField(f).value)
    ensures CheckField(f).Ok? ==> (r.1.Some? <==> Rejected(respond(log, r.0[0]).status))
  {
    match CheckField(f)
    case Err(e) => ([], Some(e))
    case Ok(args) =>
      var c := AddCall(defineID, args);
      ([c], if Rejected(respond(log, c).status) then Some(AddToDataDefinitionFailed(args.name)) else None)
  }

  /** The walk is its first field followed, if that field raised no error, by the walk of the rest. */
  lemma RegisterStep(respond: (seq<Call>, Call) -> Reply, log: seq<Call>, defineID: u32, fs: seq<FieldDecl>)
    requires fs != []
    ensures var (cs, e) := FieldRegistration(respond, log, defineID, fs[0]);
      var r := Register(respond, log, defineID, fs);
      && (e.Some? ==> r.0 == cs && r.1 == e)
      && (e.None? ==> r.0 == cs + Register(respond, log + cs, defineID, fs[1..]).0 && r.1 == Register(respond, log + cs, defineID, fs[1..]).1)
  {
  }

  /**
    The walk of `fs` after `log0`, once the calls `done` are made and the
    fields `rest` are left, moves on by one field: the field's error ends it,
    otherwise its call joins `done`.
  */
  lemma RegisterAdvance(respond: (seq<Call>, Call) -> Reply, log0: seq<Call>, defineID: u32, fs: seq<FieldDecl>, done: seq<Call>, rest: seq<FieldDecl>)
    requires rest != []
    requires Register(respond, log0, defineID, fs).0 == done + Register(respond, log0 + done, defineID, rest).0
    requires Register(respond, log0, defineID, fs).1 == Register(respond, log0 + done, defineID, rest).1
    ensures var (cs, e) := FieldRegistration(respond, log0 + done, defineID, rest[0]);
      var r := Register(respond, log0, defineID, fs);
      && (e.Some? ==> r.0 == done + cs && r.1 == e)
      && (e.None? ==>
            && r.0 == (done + cs) + Register(respond, log0 + (done + cs), defineID, rest[1..]).0
            && r.1 == Register(respond, log0 + (done + cs), defineID, rest[1..]).1)
  {
    RegisterStep(respond, log0 + done, defineID, rest);
    var (cs, e) := FieldRegistration(respond, log0 + done, defineID, rest[0]);
    if e.None? {
      var later := Register(respond, log0 + (done + cs), defineID, rest[1..]);
      AppendAssociative(log0, done, cs);
      AppendAssociative(done, cs, later.0);
    }
  }

  /**
    Registration makes only add-field calls, all under its definition id,
    at most one per field.
  */
  lemma {:induction false} RegisterOnlyAdds(respond: (seq<Call>, Call) -> Reply, log: seq<Call>, defineID: u32, fs: seq<FieldDecl>)
    ensures |Register(respond, log, defineID, fs).0| <= |fs|
    ensures forall c | c in Register(respond, log, defineID, fs).0 :: c.AddToDataDefinition? && c.defineID == defineID
    decreases |fs|
  {
    if fs != [] && CheckField(fs[0]).Ok? {
      var c := AddCall(defineID, CheckField(fs[0]).value);
      if !Rejected(respond(log, c).status) {
        RegisterOnlyAdds(respond, log + [c], defineID, fs[1..]);
      }
    }
  }

  /**
    The same walk stated from its parts: the planned add calls are made in
    field order up to and including the first one the engine rejects, which
    is then the error; if none is rejected, the error is the failed check, if
    any.
  */
  function PlannedOutcome(respond: (seq<Call>, Call) -> Reply, log: seq<Call>, defineID: u32, plan: (seq<AddArgs>, Option<Error>)): (seq<Call>, Option<Error>)
  {
    var calls := AddCalls(defineID, plan.0);
    match FirstRejected(respond, log, calls)
    case None => (calls, plan.1)
    case Some(j) => (calls[..j + 1], Some(AddToDataDefinitionFailed(plan.0[j].name)))
  }

  /** The calls for one more field ahead of a plan. */
  lemma AddCallsCons(defineID: u32, args: AddArgs, plan: seq<AddArgs>)
    ensures AddCalls(defineID, [args] + plan) == [AddCall(defineID, args)] + AddCalls(defineID, plan)
  {
  }

  /** A rejected call ahead of a run ends the outcome with that call and its error. */
  lemma PlannedOutcomeConsRejected(respond: (seq<Call>, Call) -> Reply, log: seq<Call>, defineID: u32, args: AddArgs, plan: (seq<AddArgs>, Option<Error>))
    requires Rejected(respond(log, AddCall(defineID, args)).status)
    ensures var out := PlannedOutcome(respond, log, defineID, ([args] + plan.0, plan.1));
      out.0 == [AddCall(defineID, args)] && out.1 == Some(AddToDataDefinitionFailed(args.name))
  {
    var c := AddCall(defineID, args);
    var rest := AddCalls(defineID, plan.0);
    AddCallsCons(defineID, args, plan.0);
    FirstRejectedCons(respond, log, c, rest);
    ConsParts(args, plan.0);
    TakeCons(c, rest, 0);
    AppendEmpty([c], rest[..0]);
  }

  /** An accepted call ahead of a run shifts the outcome of the run by that call. */
  lemma PlannedOutcomeConsAccepted(respond: (seq<Call>, Call) -> Reply, log: seq<Call>, defineID: u32, args: AddArgs, plan: (seq<AddArgs>, Option<Error>))
    requires !Rejected(respond(log, AddCall(defineID, args)).status)
    ensures var c := AddCall(defineID, args);
      var out := PlannedOutcome(respond, log, defineID, ([args] + plan.0, plan.1));
      var rest := PlannedOutcome(respond, log + [c], defineID, plan);
      out.0 == [c] + rest.0 && out.1 == rest.1
  {
    var c := AddCall(defineID, args);
    var rest := AddCalls(defineID, plan.0);
    AddCallsCons(defineID, args, plan.0);
    FirstRejectedCons(respond, log, c, rest);
    var j := FirstRejected(respond, log + [c], rest);
    if j.Some? {
      TakeCons(c, rest, j.value + 1);
      ConsParts(args, plan.0);
      assert ([args] + plan.0)[j.value + 1] == plan.0[j.value];
    }
  }

  /** The walk agrees with the plan and the engine's first rejection. */
  lemma {:induction false} RegisterMatchesPlan(respond: (seq<Call>, Call) -> Reply, log: seq<Call>, defineID: u32, fs: seq<FieldDecl>)
    ensures Register(respond, log, defineID, fs) == PlannedOutcome(respond, log, defineID, Plan(fs))
    decreases |fs|
  {
    if fs != [] {
      PlanCons(fs);
      var r := CheckField(fs[0]);
      if r.Ok? {
        if Rejected(respond(log, AddCall(defineID, r.value)).status) {
          PlannedOutcomeConsRejected(respond, log, defineID, r.value, Plan(fs[1..]));
        } else {
          PlannedOutcomeConsAccepted(respond, log, defineID, r.value, Plan(fs[1..]));
          RegisterMatchesPlan(respond, log + [AddCall(defineID, r.value)], defineID, fs[1..]);
        }
      }
    }
  }

  // ---------------------------------------------------------------------------
  // The records the client registers

  /** The embedded response header every record starts with. */
  const HeaderField := FieldDecl("RecvSimobjectDataByType", "", "", Struct)

  /** `Report`: the user aircraft's state. */
  const ReportShape := RecordShape("Report", [
    HeaderField,
    FieldDecl("Title", "Title", "", Array(256, "uint8")),
    FieldDecl("ATCAirline", "ATC Airline", "", Array(128, "uint8")),
    FieldDecl("ATCFlightNumber", "ATC Flight Number", "", Array(128, "uint8")),
    FieldDecl("ATCID", "ATC ID", "", Array(128, "uint8")),
    FieldDecl("Kohlsman", "Kohlsman setting hg", "inHg", Float64),
    FieldDecl("Altitude", "Plane Altitude", "feet", Float64),
    FieldDecl("AltitudeAboveGround", "Plane Alt Above Ground", "feet", Float64),
    FieldDecl("Latitude", "Plane Latitude", "degrees", Float64),
    FieldDecl("Longitude", "Plane Longitude", "degrees", Float64),
    FieldDecl("Airspeed", "Airspeed Indicated", "knot", Float64),
    FieldDecl("AirspeedBarberPole", "Airspeed Barber Pole", "knot", Float64),
    FieldDecl("GroundSpeed", "Ground Velocity", "knots", Float64),
    FieldDecl("OnGround", "Sim On Ground", "bool", Int32),
    FieldDecl("Heading", "Plane Heading Degrees True", "", Float32),
    FieldDecl("HeadingMag", "Plane Heading Degrees Magnetic", "", Float32),
    FieldDecl("Pitch", "Plane Pitch Degrees", "", Float32),
    FieldDecl("Bank", "Plane Bank Degrees", "", Float32),
    FieldDecl("GForce", "G Force", "", Float32),
    FieldDecl("VerticalSpeedRelativeToWorld", "Velocity World Y", "Feet per second", Float32),
    FieldDecl("VerticalSpeedAircraft", "Vertical Speed", "Feet per second", Float32),
    FieldDecl("FuelTotal", "Fuel Total Quantity Weight", "kg", Float32),
    FieldDecl("WindSpeed", "Ambient Wind Velocity", "knot", Float32),
    FieldDecl("WindDirection", "Ambient Wind Direction", "radians", Float32),
    FieldDecl("FuelCapacity", "FUEL TOTAL CAPACITY", "gallons", Float32),
    FieldDecl("FuelWeightPerGallon", "FUEL WEIGHT PER GALLON", "kg", Float32),
    FieldDecl("FuelFlow", "ESTIMATED FUEL FLOW", "kilograms per second", Float32),
    FieldDecl("AmbientTemperature", "Ambient Temperature", "Celsius", Float32),
    FieldDecl("AmbientPressure", "Ambient Pressure", "inHg", Float32),
    FieldDecl("Parked", "Plane In Parking State", "", Int32),
    FieldDecl("Engine1Combustion", "General Eng Combustion:1", "bool", Int32),
    FieldDecl("Engine2Combustion", "General Eng Combustion:2", "bool", Int32),
    FieldDecl("Engine3Combustion", "General Eng Combustion:3", "bool", Int32),
    FieldDecl("Engine4Combustion", "General Eng Combustion:4", "bool", Int32),
    FieldDecl("EngineCount", "Number Of Engines", "", Int32)])

  /**
    The anonymous struct `SetDataOnSimObject` registers. An anonymous type
    has the empty name, so it is cached under "".
  */
  const InternalSimObjectShape := RecordShape("", [
    HeaderField,
    FieldDecl("Airspeed", "Airspeed Indicated", "knot", Float64),
    FieldDecl("Altitude", "Plane Altitude", "feet", Float64),
    FieldDecl("Bank", "Plane Bank Degrees", "", Float64),
    FieldDecl("Heading", "Plane Heading Degrees True", "", Float64),
    FieldDecl("Latitude", "Plane Latitude", "degrees", Float64),
    FieldDecl("Longitude", "Plane Longitude", "degrees", Float64),
    FieldDecl("OnGround", "Sim On Ground", "bool", Float64),
    FieldDecl("Pitch", "Plane Pitch Degrees", "", Float64)])

  /** Every field of a run passes the checks: registration plans one call per field and no failure. */
  lemma PlanOfValidFields(fs: seq<FieldDecl>)
    requires forall i | 0 <= i < |fs| :: fs[i].nameTag != "" && KindAccepted(fs[i].kind)
    ensures Plan(fs).1.None? && |Plan(fs).0| == |fs|
    ensures forall i | 0 <= i < |fs| :: Plan(fs).0[i].name == fs[i].nameTag && Plan(fs).0[i].unit == fs[i].unitTag
  {
    var rs := Checks(fs);
    forall i | 0 <= i < |fs|
      ensures rs[i].Ok? && rs[i].value.name == fs[i].nameTag && rs[i].value.unit == fs[i].unitTag
    {
      CheckFieldOutcome(fs[i]);
    }
    CollectAllOk(rs);
  }

  /** The fields `Report` registers all carry a name tag and an accepted kind. */
  lemma ReportFieldsValid()
    ensures |ReportShape.fields| == 35
    ensures forall i | 1 <= i < 35 :: ReportShape.fields[i].nameTag != "" && KindAccepted(ReportShape.fields[i].kind)
  {
  }

  /** Registering `Report` plans 34 add calls, one per field after the header, and cannot fail a check. */
  lemma ReportPlan()
    ensures Plan(Payload(ReportShape)).1.None?
    ensures |Plan(Payload(ReportShape)).0| == 34
    ensures forall i | 0 <= i < 34 :: Plan(Payload(ReportShape)).0[i].name == ReportShape.fields[i + 1].nameTag
  {
    ReportFieldsValid();
    var fs := Payload(ReportShape);
    assert forall i | 0 <= i < |fs| :: fs[i].nameTag != "" && KindAccepted(fs[i].kind) by {
      forall i | 0 <= i < |fs|
        ensures fs[i].nameTag != "" && KindAccepted(fs[i].kind)
      {
        assert fs[i] == ReportShape.fields[i + 1];
      }
    }
    PlanOfValidFields(fs);
  }

  /**
    Registering the set-data struct plans eight FLOAT64 add calls, in the
    order Airspeed, Altitude, Bank, Heading, Latitude, Longitude, OnGround,
    Pitch, each under its own name tag.
  */
  lemma InternalSimObjectPlan()
    ensures Plan(Payload(InternalSimObjectShape)).1.None?
    ensures |Plan(Payload(InternalSimObjectShape)).0| == 8
    ensures forall i | 0 <= i < 8 :: Plan(Payload(InternalSimObjectShape)).0[i].dataType == DATATYPE_FLOAT64
    ensures forall i | 0 <= i < 8 :: Plan(Payload(InternalSimObjectShape)).0[i].name == InternalSimObjectShape.fields[i + 1].nameTag
  {
    var fs := Payload(InternalSimObjectShape);
    assert forall i | 0 <= i < 8 :: fs[i].nameTag != "" && fs[i].kind == Float64;
    forall i | 0 <= i < 8
      ensures CheckField(fs[i]).Ok? && CheckField(fs[i]).value.dataType == DATATYPE_FLOAT64
    {
      CheckFieldOutcome(fs[i]);
    }
    PlanOfValidFields(fs);
  }
}
