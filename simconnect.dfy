/**
  The client session (simconnect.go, `SimconnectInstance`): its definition
  registry, registration of record types, the data requests, the polling
  loop and the two entry points that read a Report, and `SetDataOnSimObject`.

  The session calls into the engine through `engine`, which records every
  call; each method is proved against a function that states the calls it
  makes, the registry afterwards and the result.
*/
module Simconnect {
  import opened Wrappers
  import opened SimconnectData
  import Utils
  import opened Native
  import opened SeqFacts
  import opened Schema
  import opened Registry
  import opened Dispatch
  import opened SetData

  /** A Go map read: the stored value, or 0 for a missing key. */
  function MapRead(m: map<string, u32>, key: string): (v: u32)
    ensures key in m ==> v == m[key]
    ensures key !in m ==> v == 0
  {
    if key in m then m[key] else 0
  }

  /** The object a Report is requested for. */
  datatype Query = UserAircraft | OnObject(objectID: u32)

  /** The request `GetReport` (`UserAircraft`) or `GetReportOnObjectID` makes under the Report id. */
  function RequestFor(query: Query, defineID: u32): (c: Call)
    ensures c.RequestDataOnSimObjectType? || c.RequestDataOnSimObject?
    ensures c.requestID == defineID && c.defineID == defineID
    ensures c.RequestDataOnSimObjectType? <==> query.UserAircraft?
    ensures c.RequestDataOnSimObjectType? ==> c.objectType == SIMOBJECT_TYPE_USER && c.radius == 0
    ensures query.OnObject? ==> c.objectID == query.objectID && c.period == SIMCONNECT_PERIOD_ONCE
  {
    match query
    case UserAircraft => RequestDataOnSimObjectType(defineID, defineID, 0, SIMOBJECT_TYPE_USER)
    case OnObject(objectID) => RequestDataOnSimObject(defineID, defineID, objectID, SIMCONNECT_PERIOD_ONCE)
  }

  /** The error for a rejected request. */
  function RequestFailure(query: Query, defineID: u32): Error
  {
    match query
    case UserAircraft => RequestDataFailed(defineID, defineID)
    case OnObject(objectID) => RequestDataOnObjectFailed(defineID, defineID, objectID)
  }

  /** The calls registering a record makes after `log`, and its error, from registry `reg`. */
  function Registration(respond: (seq<Call>, Call) -> Reply, log: seq<Call>, reg: Registry, shape: RecordShape): (seq<Call>, Option<Error>)
  {
    var (defineID, created, _) := DefinitionID(reg, shape.name);
    if created then Register(respond, log, defineID, Payload(shape)) else ([], None)
  }

  /**
    `processSimObjectTypeData` after `log`, with `reportID` the id a Report
    request was made under: the polls made, and what the message carries or
    the error.
  */
  function ReceiveSimObject(respond: (seq<Call>, Call) -> Reply, log: seq<Call>, reportID: u32): (seq<Call>, Result<SimObjectData, Error>)
  {
    var (n, out) := PollLoop(respond, log, MAX_ATTEMPTS, None);
    (Polls(n),
     match out
     case Err(e) => Err(e)
     case Ok(mem) => DemuxSimObject(mem, reportID))
  }

  /** The Report's bytes, or the error; an object id where a Report is expected is an error. */
  function AsReport(out: Result<SimObjectData, Error>): (r: Result<seq<u8>, Error>)
    ensures r.Ok? <==> out.Ok? && out.value.ReportData?
    ensures r.Ok? ==> r.value == out.value.mem
    ensures out.Err? ==> r == Err(out.error)
    ensures out.Ok? && out.value.ObjectID? ==> r == Err(NotAReport)
  {
    match out
    case Err(e) => Err(e)
    case Ok(ReportData(mem)) => Ok(mem)
    case Ok(ObjectID(_)) => Err(NotAReport)
  }

  /** The key `processSimObjectTypeData` reads the Report request id under. */
  const REPORT_KEY := "Report"

  /**
    Reading the answer to a Report request after `log`, with registry `reg`:
    the polls made, and the Report's bytes or the error.
  */
  function ReceiveReport(respond: (seq<Call>, Call) -> Reply, log: seq<Call>, reg: Registry): (seq<Call>, Result<seq<u8>, Error>)
  {
    var (polls, out) := ReceiveSimObject(respond, log, MapRead(reg.definitionMap, REPORT_KEY));
    (polls, AsReport(out))
  }

  /**
    Requesting a record of type `name` once it is registered, and reading the
    answer as a Report: the calls made after `log`, the registry afterwards,
    and the Report's bytes or the error.
  */
  function RequestReport(respond: (seq<Call>, Call) -> Reply, log: seq<Call>, reg: Registry, name: string, query: Query): (seq<Call>, Registry, Result<seq<u8>, Error>)
  {
    var (defineID, _, reg1) := DefinitionID(reg, name);
    var req := RequestFor(query, defineID);
    if Rejected(respond(log, req).status) then ([req], reg1, Err(RequestFailure(query, defineID)))
    else
      var (polls, out) := ReceiveReport(respond, log + [req], reg1);
      ([req] + polls, reg1, out)
  }

  /**
    Registering `shape`, then requesting a record of it and reading the answer
    as a Report, after `log` from registry `reg`: the calls made, the registry
    afterwards, and the Report's bytes or the error.
  */
  function RecordQuery(respond: (seq<Call>, Call) -> Reply, log: seq<Call>, reg: Registry, shape: RecordShape, query: Query): (seq<Call>, Registry, Result<seq<u8>, Error>)
  {
    var reg1 := DefinitionID(reg, shape.name).2;
    var (regCalls, regErr) := Registration(respond, log, reg, shape);
    if regErr.Some? then (regCalls, reg1, Err(regErr.value))
    else
      var (calls, reg2, out) := RequestReport(respond, log + regCalls, reg1, shape.name, query);
      (regCalls + calls, reg2, out)
  }

  /** `GetReport` / `GetReportOnObjectID` after `log` from registry `reg`. */
  function ReportQuery(respond: (seq<Call>, Call) -> Reply, log: seq<Call>, reg: Registry, query: Query): (seq<Call>, Registry, Result<seq<u8>, Error>)
  {
    RecordQuery(respond, log, reg, ReportShape, query)
  }

  /**
    `SetDataOnSimObject` after `log` from registry `reg`: the calls made, the
    registry afterwards and the error, if any.
  */
  function SetDataQuery(respond: (seq<Call>, Call) -> Reply, log: seq<Call>, reg: Registry, objectID: u32, data: seq<SetSimObjectDataExpose>): (seq<Call>, Registry, Option<Error>)
  {
    var reg1 := DefinitionID(reg, InternalSimObjectShape.name).2;
    var (regCalls, regErr) := Registration(respond, log, reg, InternalSimObjectShape);
    if regErr.Some? then (regCalls, reg1, regErr)
    else
      var (defineID, _, reg2) := DefinitionID(reg1, InternalSimObjectShape.name);
      var c := SetDataOnSimObject(defineID, objectID, 0, |data| % 0x1_0000_0000, 8 * 8, Rows(data));
      (regCalls + [c], reg2, if Rejected(respond(log + regCalls, c).status) then Some(SetDataFailed(objectID)) else None)
  }

  // ---------------------------------------------------------------------------
  // What a query does, stated from its parts

  /**
    A query leaves the record's name registered under the id its first lookup
    returned; the second lookup, made for the request, allocates nothing.
    From a valid registry whose counter has room, the registry stays valid.
  */
  lemma RecordQueryRegistry(respond: (seq<Call>, Call) -> Reply, log: seq<Call>, reg: Registry, shape: RecordShape, query: Query)
    ensures var (id, _, reg1) := DefinitionID(reg, shape.name);
      var reg' := RecordQuery(respond, log, reg, shape, query).1;
      reg' == reg1 && shape.name in reg'.definitionMap && reg'.definitionMap[shape.name] == id
    ensures Valid(reg) && reg.nextDefinitionID < U32_MAX ==> Valid(RecordQuery(respond, log, reg, shape, query).1)
  {
    DefinitionIDIdempotent(reg, shape.name);
    if Valid(reg) && reg.nextDefinitionID < U32_MAX {
      DefinitionIDSpec(reg, shape.name);
    }
  }

  /**
    Querying a record type that is already registered registers nothing: the
    first call is the request under the cached id, and the registry is
    unchanged.
  */
  lemma RecordQueryCached(respond: (seq<Call>, Call) -> Reply, log: seq<Call>, reg: Registry, shape: RecordShape, query: Query)
    requires shape.name in reg.definitionMap
    ensures var (calls, reg', _) := RecordQuery(respond, log, reg, shape, query);
      && reg' == reg
      && |calls| >= 1 && calls[0] == RequestFor(query, reg.definitionMap[shape.name])
      && (forall c | c in calls :: !c.AddToDataDefinition?)
  {
    var tail := RequestReport(respond, log, reg, shape.name, query).0;
    AppendEmpty(log, []);
    AppendEmpty(tail, []);
  }

  /**
    When registering the record fails, the query stops there: it returns the
    registration's error and makes only add-field calls, so no request is
    made.
  */
  lemma RecordQueryRegistrationFails(respond: (seq<Call>, Call) -> Reply, log: seq<Call>, reg: Registry, shape: RecordShape, query: Query)
    requires Registration(respond, log, reg, shape).1.Some?
    ensures var (calls, _, r) := RecordQuery(respond, log, reg, shape, query);
      && calls == Registration(respond, log, reg, shape).0
      && r == Err(Registration(respond, log, reg, shape).1.value)
      && forall c | c in calls :: c.AddToDataDefinition? && c.defineID == DefinitionID(reg, shape.name).0
  {
    RegisterOnlyAdds(respond, log, DefinitionID(reg, shape.name).0, Payload(shape));
  }

  /**
    A query for a new record type whose fields all pass the checks, on an
    engine that accepts every add-field call, registers the planned fields in
    order under the counter's value and then makes the request under that
    same id.
  */
  lemma RecordQueryFresh(respond: (seq<Call>, Call) -> Reply, log: seq<Call>, reg: Registry, shape: RecordShape, query: Query)
    requires shape.name !in reg.definitionMap
    requires Plan(Payload(shape)).1.None?
    requires FirstRejected(respond, log, AddCalls(reg.nextDefinitionID, Plan(Payload(shape)).0)) == None
    ensures var adds := AddCalls(reg.nextDefinitionID, Plan(Payload(shape)).0);
      var calls := RecordQuery(respond, log, reg, shape, query).0;
      && |calls| > |adds|
      && calls[..|adds|] == adds
      && calls[|adds|] == RequestFor(query, reg.nextDefinitionID)
  {
    var id := reg.nextDefinitionID;
    var adds := AddCalls(id, Plan(Payload(shape)).0);
    RegisterMatchesPlan(respond, log, id, Payload(shape));
    assert Registration(respond, log, reg, shape).0 == adds;
    assert Registration(respond, log, reg, shape).1 == None;
    var reg1 := DefinitionID(reg, shape.name).2;
    DefinitionIDIdempotent(reg, shape.name);
    var tail := RequestReport(respond, log + adds, reg1, shape.name, query).0;
    assert tail[0] == RequestFor(query, id);
    AppendParts(adds, tail);
  }

  /**
    A request that returns a Report was made under the Report's id and then
    followed by polls only: the first call is the request, the last a poll,
    and the message is object data, or object data by type whose request id
    is the id the request was made under.
  */
  lemma RequestReportSucceeds(respond: (seq<Call>, Call) -> Reply, log: seq<Call>, reg: Registry, query: Query)
    ensures var (calls, _, r) := RequestReport(respond, log, reg, REPORT_KEY, query);
      r.Ok? ==>
        var id := DefinitionID(reg, REPORT_KEY).0;
        var kind := ReadU32(r.value, RECV_ID_OFFSET);
        && |calls| >= 2
        && calls[0] == RequestFor(query, id)
        && (forall i | 1 <= i < |calls| :: calls[i] == GetNextDispatch)
        && (kind == RECV_ID_SIMOBJECT_DATA
            || (kind == RECV_ID_SIMOBJECT_DATA_BYTYPE && ReadU32(r.value, REQUEST_ID_OFFSET) == id))
  {
    var (id, _, reg1) := DefinitionID(reg, REPORT_KEY);
    var req := RequestFor(query, id);
    if !Rejected(respond(log, req).status) {
      var (n, out) := PollLoop(respond, log + [req], MAX_ATTEMPTS, None);
      if out.Ok? {
        PollLoopCount(respond, log + [req], MAX_ATTEMPTS, None);
        DemuxSimObjectSpec(out.value, id);
        ConsParts(req, Polls(n));
      }
    }
  }

  /**
    A query that returns a Report is the registration's add-field calls, all
    under the Report's id, then the request under that id, then polls only;
    the message is object data, or object data by type whose request id is
    the id the request was made under.
  */
  lemma RecordQuerySucceeds(respond: (seq<Call>, Call) -> Reply, log: seq<Call>, reg: Registry, shape: RecordShape, query: Query)
    requires shape.name == REPORT_KEY
    ensures var (calls, reg', r) := RecordQuery(respond, log, reg, shape, query);
      r.Ok? ==>
        var id := DefinitionID(reg, shape.name).0;
        var regCalls := Registration(respond, log, reg, shape).0;
        var tail := calls[|regCalls|..];
        var kind := ReadU32(r.value, RECV_ID_OFFSET);
        && |calls| >= |regCalls| + 2
        && calls[..|regCalls|] == regCalls
        && (forall c | c in regCalls :: c.AddToDataDefinition? && c.defineID == id)
        && tail[0] == RequestFor(query, id)
        && (forall i | 1 <= i < |tail| :: tail[i] == GetNextDispatch)
        && (kind == RECV_ID_SIMOBJECT_DATA
            || (kind == RECV_ID_SIMOBJECT_DATA_BYTYPE && ReadU32(r.value, REQUEST_ID_OFFSET) == id))
  {
    var reg1 := DefinitionID(reg, shape.name).2;
    DefinitionIDIdempotent(reg, shape.name);
    RegisterOnlyAdds(respond, log, DefinitionID(reg, shape.name).0, Payload(shape));
    var (regCalls, regErr) := Registration(respond, log, reg, shape);
    if regErr.None? {
      RequestReportSucceeds(respond, log + regCalls, reg1, query);
      var tail := RequestReport(respond, log + regCalls, reg1, REPORT_KEY, query).0;
      AppendParts(regCalls, tail);
    }
  }

  /**
    `GetReport` from a new session on an engine that accepts every add-field
    call: the 34 Report fields are registered under id 0, in declaration
    order and with their name tags, and the request that follows asks for the
    user aircraft under id 0.
  */
  lemma ReportQueryFromNewSession(respond: (seq<Call>, Call) -> Reply, log: seq<Call>)
    requires FirstRejected(respond, log, AddCalls(0, Plan(Payload(ReportShape)).0)) == None
    ensures var calls := ReportQuery(respond, log, Initial, UserAircraft).0;
      && |calls| > 34
      && (forall i | 0 <= i < 34 ::
            calls[i].AddToDataDefinition? && calls[i].defineID == 0
            && calls[i].datumName == NulTerminated(ReportShape.fields[i + 1].nameTag))
      && calls[34] == RequestDataOnSimObjectType(0, 0, 0, SIMOBJECT_TYPE_USER)
  {
    ReportPlan();
    RecordQueryFresh(respond, log, Initial, ReportShape, UserAircraft);
    var calls := ReportQuery(respond, log, Initial, UserAircraft).0;
    var adds := AddCalls(0, Plan(Payload(ReportShape)).0);
    assert forall i | 0 <= i < 34 :: calls[i] == adds[i];
  }

  /**
    Setting data when the set-data struct is not yet registered, on an engine
    that accepts every add-field call: its eight FLOAT64 fields are
    registered under the counter's value, then one set-data call carries the
    item count, 64 bytes per item (eight FLOAT64 values of 8 bytes each) and
    a row per item in the registered field order.
  */
  lemma SetDataQueryFresh(respond: (seq<Call>, Call) -> Reply, log: seq<Call>, reg: Registry, objectID: u32, data: seq<SetSimObjectDataExpose>)
    requires InternalSimObjectShape.name !in reg.definitionMap
    requires FirstRejected(respond, log, AddCalls(reg.nextDefinitionID, Plan(Payload(InternalSimObjectShape)).0)) == None
    requires |data| < 0x1_0000_0000
    ensures var id := reg.nextDefinitionID;
      var (calls, reg', err) := SetDataQuery(respond, log, reg, objectID, data);
      && |calls| == 9
      && (forall i | 0 <= i < 8 ::
            calls[i].AddToDataDefinition? && calls[i].defineID == id && calls[i].datumType == DATATYPE_FLOAT64)
      && calls[8] == SetDataOnSimObject(id, objectID, 0, |data|, 64, Rows(data))
      && calls[8].unitSize == 8 * Utils.WireSize(Utils.WireType.Float64)
      && InternalSimObjectShape.name in reg'.definitionMap && reg'.definitionMap[InternalSimObjectShape.name] == id
      && (err.None? <==> !Rejected(respond(log + calls[..8], calls[8]).status))
  {
    var id := reg.nextDefinitionID;
    InternalSimObjectPlan();
    var adds := AddCalls(id, Plan(Payload(InternalSimObjectShape)).0);
    RegisterMatchesPlan(respond, log, id, Payload(InternalSimObjectShape));
    assert Registration(respond, log, reg, InternalSimObjectShape).0 == adds;
    DefinitionIDIdempotent(reg, InternalSimObjectShape.name);
    var c := SetDataOnSimObject(id, objectID, 0, |data|, 64, Rows(data));
    AppendParts(adds, [c]);
  }

  /**
    Setting data once the set-data struct is registered makes the one
    set-data call under the cached id and leaves the registry unchanged.
  */
  lemma SetDataQueryCached(respond: (seq<Call>, Call) -> Reply, log: seq<Call>, reg: Registry, objectID: u32, data: seq<SetSimObjectDataExpose>)
    requires InternalSimObjectShape.name in reg.definitionMap
    ensures var id := reg.definitionMap[InternalSimObjectShape.name];
      var (calls, reg', err) := SetDataQuery(respond, log, reg, objectID, data);
      && calls == [SetDataOnSimObject(id, objectID, 0, |data| % 0x1_0000_0000, 64, Rows(data))]
      && reg' == reg
      && (err == Some(SetDataFailed(objectID)) <==> Rejected(respond(log, calls[0]).status))
  {
    AppendEmpty(log, []);
    AppendEmpty([SetDataOnSimObject(reg.definitionMap[InternalSimObjectShape.name], objectID, 0, |data| % 0x1_0000_0000, 64, Rows(data))], []);
  }

  /**
    When registering the set-data struct fails, `SetDataOnSimObject` stops
    there: it returns the registration's error and makes only add-field
    calls, so no set-data call is made.
  */
  lemma SetDataQueryRegistrationFails(respond: (seq<Call>, Call) -> Reply, log: seq<Call>, reg: Registry, objectID: u32, data: seq<SetSimObjectDataExpose>)
    requires Registration(respond, log, reg, InternalSimObjectShape).1.Some?
    ensures var (calls, reg', err) := SetDataQuery(respond, log, reg, objectID, data);
      && calls == Registration(respond, log, reg, InternalSimObjectShape).0
      && err == Registration(respond, log, reg, InternalSimObjectShape).1
      && reg' == DefinitionID(reg, InternalSimObjectShape.name).2
      && forall c | c in calls :: c.AddToDataDefinition? && c.defineID == DefinitionID(reg, InternalSimObjectShape.name).0
  {
    RegisterOnlyAdds(respond, log, DefinitionID(reg, InternalSimObjectShape.name).0, Payload(InternalSimObjectShape));
  }

  /**
    `SetDataOnSimObject` leaves the set-data struct registered under the id
    its first lookup returned; the second lookup allocates nothing. From a
    valid registry whose counter has room, the registry stays valid.
  */
  lemma SetDataQueryRegistry(respond: (seq<Call>, Call) -> Reply, log: seq<Call>, reg: Registry, objectID: u32, data: seq<SetSimObjectDataExpose>)
    ensures var (id, _, reg1) := DefinitionID(reg, InternalSimObjectShape.name);
      var reg' := SetDataQuery(respond, log, reg, objectID, data).1;
      reg' == reg1 && InternalSimObjectShape.name in reg'.definitionMap && reg'.definitionMap[InternalSimObjectShape.name] == id
    ensures Valid(reg) && reg.nextDefinitionID < U32_MAX ==> Valid(SetDataQuery(respond, log, reg, objectID, data).1)
  {
    DefinitionIDIdempotent(reg, InternalSimObjectShape.name);
    if Valid(reg) && reg.nextDefinitionID < U32_MAX {
      DefinitionIDSpec(reg, InternalSimObjectShape.name);
    }
  }

  class SimconnectInstance {
    /** The engine this session talks to. */
    const engine: Engine
    var definitionMap: map<string, u32>
    var nextDefinitionID: u32

    /** The registry part of the session. */
    function State(): Registry
      reads this
    {
      Registry(definitionMap, nextDefinitionID)
    }

    /** A new session: no record types known, counter at 0. */
    constructor (engine: Engine)
      ensures this.engine == engine && State() == Initial
    {
      this.engine := engine;
      definitionMap := map[];
      nextDefinitionID := 0;
    }

    /** `getDefinitionID` */
    method GetDefinitionID(name: string) returns (defID: u32, created: bool)
      modifies this
      ensures (defID, created, State()) == DefinitionID(old(State()), name)
    {
      if name in definitionMap {
        return definitionMap[name], false;
      }
      definitionMap := definitionMap[name := nextDefinitionID];
      nextDefinitionID := Increment(nextDefinitionID);
      return definitionMap[name], true;
    }

    /** `addToDataDefinitions` */
    method AddToDataDefinitions(definitionID: u32, name: string, unit: string, dataType: u32) returns (err: Option<Error>)
      modifies engine
      ensures var c := AddCall(definitionID, AddArgs(name, unit, dataType));
        && engine.log == old(engine.log) + [c]
        && err == if Rejected(engine.respond(old(engine.log), c).status) then Some(AddToDataDefinitionFailed(name)) else None
    {
      var unitParam: Option<string> := None;
      if unit != "" {
        unitParam := Some(NulTerminated(unit));
      }
      var reply := engine.Invoke(AddToDataDefinition(definitionID, NulTerminated(name), unitParam, dataType, SIMCONNECT_UNUSED));
      if AsInt32(reply.status) < 0 {
        return Some(AddToDataDefinitionFailed(name));
      }
      return None;
    }

    /** `registerDataDefinition` */
    method RegisterDataDefinition(shape: RecordShape) returns (err: Option<Error>)
      modifies this, engine
      ensures State() == DefinitionID(old(State()), shape.name).2
      ensures var (calls, e) := Registration(engine.respond, old(engine.log), old(State()), shape);
        engine.log == old(engine.log) + calls && err == e
    {
      var definitionID, created := GetDefinitionID(shape.name);
      if !created {
        AppendEmpty<Call>(engine.log, []);
        return None;
      }
      err := RegisterFields(definitionID, Payload(shape));
    }

    /** The loop of `registerDataDefinition`: register the fields in order, stopping at the first error. */
    method RegisterFields(definitionID: u32, fs: seq<FieldDecl>) returns (err: Option<Error>)
      modifies engine
      ensures engine.log == old(engine.log) + Register(engine.respond, old(engine.log), definitionID, fs).0
      ensures err == Register(engine.respond, old(engine.log), definitionID, fs).1
    {
      ghost var log0 := engine.log;
      ghost var done: seq<Call> := [];
      var rest := fs;
      AppendEmpty(log0, done);
      AppendEmpty(Register(engine.respond, log0, definitionID, fs).0, done);
      while rest != []
        invariant engine.log == log0 + done
        invariant Register(engine.respond, log0, definitionID, fs).0 == done + Register(engine.respond, log0 + done, definitionID, rest).0
        invariant Register(engine.respond, log0, definitionID, fs).1 == Register(engine.respond, log0 + done, definitionID, rest).1
        decreases |rest|
      {
        RegisterAdvance(engine.respond, log0, definitionID, fs, done, rest);
        ghost var cs := FieldRegistration(engine.respond, engine.log, definitionID, rest[0]).0;
        err := RegisterField(definitionID, rest[0]);
        if err.Some? {
          return;
        }
        done := done + cs;
        rest := rest[1..];
      }
      AppendEmpty<Call>(done, []);
      return None;
    }

    /** One field of `registerDataDefinition`'s loop: check its tags and type, then add it. */
    method RegisterField(definitionID: u32, f: FieldDecl) returns (err: Option<Error>)
      modifies engine
      ensures var (cs, e) := FieldRegistration(engine.respond, old(engine.log), definitionID, f);
        engine.log == old(engine.log) + cs && err == e
    {
      CheckFieldOutcome(f);
      var fieldType := FieldType(f.kind);
      if f.nameTag == "" {
        AppendEmpty<Call>(old(engine.log), []);
        return Some(NameTagNotFound(f.fieldName));
      }
      var (dataType, derefErr) := Utils.DerefDataType(fieldType);
      if derefErr.Some? {
        AppendEmpty<Call>(old(engine.log), []);
        return Some(DataTypeNotImplemented(fieldType));
      }
      assert CheckField(f) == Ok(AddArgs(f.nameTag, f.unitTag, dataType));
      err := AddToDataDefinitions(definitionID, f.nameTag, f.unitTag, dataType);
    }

    /** `requestDataOnSimObjectType` */
    method RequestDataOnSimObjectType(requestID: u32, defineID: u32, radius: u32, simObjectType: u32) returns (err: Option<Error>)
      modifies engine
      ensures var c := Call.RequestDataOnSimObjectType(requestID, defineID, radius, simObjectType);
        && engine.log == old(engine.log) + [c]
        && err == if Rejected(engine.respond(old(engine.log), c).status) then Some(RequestDataFailed(requestID, defineID)) else None
    {
      var reply := engine.Invoke(Call.RequestDataOnSimObjectType(requestID, defineID, radius, simObjectType));
      if AsInt32(reply.status) < 0 {
        return Some(RequestDataFailed(requestID, defineID));
      }
      return None;
    }

    /** `requestDataOnSimObject` */
    method RequestDataOnSimObject(requestID: u32, defineID: u32, objectID: u32, period: u32) returns (err: Option<Error>)
      modifies engine
      ensures var c := Call.RequestDataOnSimObject(requestID, defineID, objectID, period);
        && engine.log == old(engine.log) + [c]
        && err == if Rejected(engine.respond(old(engine.log), c).status) then Some(RequestDataOnObjectFailed(requestID, defineID, objectID)) else None
    {
      var reply := engine.Invoke(Call.RequestDataOnSimObject(requestID, defineID, objectID, period));
      if AsInt32(reply.status) < 0 {
        return Some(RequestDataOnObjectFailed(requestID, defineID, objectID));
      }
      return None;
    }

    /** `getData` */
    method GetData() returns (r: Result<Option<seq<u8>>, Error>)
      modifies engine
      ensures engine.log == old(engine.log) + [GetNextDispatch]
      ensures r == GetDataOf(engine.respond(old(engine.log), GetNextDispatch))
    {
      var reply := engine.Invoke(GetNextDispatch);
      if reply.status < 0 {
        return Err(GetNextDispatchFailed(reply.status));
      }
      if reply.status == E_FAIL {
        return Ok(None);
      }
      return Ok(reply.dispatch);
    }

    /**
      The callback `processData` hands to its retry loop: poll once, and say
      whether to try again, with what error, and the message it stopped on.
    */
    method PollOnce() returns (retry: bool, cbErr: Option<Error>, ppData: seq<u8>)
      modifies engine
      ensures engine.log == old(engine.log) + [GetNextDispatch]
      ensures var p := Classify(engine.respond(old(engine.log), GetNextDispatch));
        retry == Callback(p).0 && cbErr == Callback(p).1 && (!retry ==> p == Message(ppData))
    {
      cbErr, ppData := None, [];
      var data := GetData();
      match data {
        case Err(_) =>
          retry := true;
        case Ok(None) =>
          retry := true;
        case Ok(Some(mem)) =>
          var recvInfo := DecodeRecv(mem);
          if recvInfo.id == RECV_ID_EXCEPTION {
            retry, cbErr := true, Some(Exception);
          } else {
            retry, ppData := false, mem;
          }
      }
    }

    /** `processData`: the polling loop, returning the message it stops on. */
    method ProcessData() returns (r: Result<seq<u8>, Error>)
      modifies engine
      ensures var (n, out) := PollLoop(engine.respond, old(engine.log), MAX_ATTEMPTS, None);
        engine.log == old(engine.log) + Polls(n) && r == out
    {
      ghost var log0 := engine.log;
      ghost var total := PollLoop(engine.respond, log0, MAX_ATTEMPTS, None);
      var attempt := 0;
      var lastErr: Option<Error> := None;
      AppendEmpty(log0, Polls(0));
      while attempt < MAX_ATTEMPTS
        invariant 0 <= attempt <= MAX_ATTEMPTS
        invariant engine.log == log0 + Polls(attempt)
        invariant total.0 == attempt + PollLoop(engine.respond, log0 + Polls(attempt), MAX_ATTEMPTS - attempt, lastErr).0
        invariant total.1 == PollLoop(engine.respond, log0 + Polls(attempt), MAX_ATTEMPTS - attempt, lastErr).1
      {
        PollLoopStep(engine.respond, log0, attempt, MAX_ATTEMPTS - attempt, lastErr);
        var retry, cbErr, ppData := PollOnce();
        if !retry {
          return Ok(ppData);
        }
        lastErr := cbErr;
        attempt := attempt + 1;
      }
      assert PollLoop(engine.respond, log0 + Polls(attempt), MAX_ATTEMPTS - attempt, lastErr) == (0, Err(RetriesExhausted(lastErr)));
      return Err(RetriesExhausted(lastErr));
    }

    /** `processConnectionOpenData` */
    method ProcessConnectionOpenData() returns (err: Option<Error>)
      modifies engine
      ensures var (n, out) := PollLoop(engine.respond, old(engine.log), MAX_ATTEMPTS, None);
        && engine.log == old(engine.log) + Polls(n)
        && err == match out
          case Err(e) => Some(e)
          case Ok(mem) => OpenOutcome(mem)
    {
      var r := ProcessData();
      if r.Err? {
        return Some(r.error);
      }
      var recvInfo := DecodeRecv(r.value);
      if recvInfo.id == RECV_ID_EXCEPTION {
        return Some(ReceivedException);
      } else if recvInfo.id == RECV_ID_OPEN {
        return None;
      } else {
        return Some(OpenHitDefault(recvInfo.id));
      }
    }

    /** `processSimObjectTypeData` */
    method ProcessSimObjectTypeData() returns (r: Result<SimObjectData, Error>)
      modifies engine
      ensures var (polls, out) := ReceiveSimObject(engine.respond, old(engine.log), MapRead(definitionMap, REPORT_KEY));
        engine.log == old(engine.log) + polls && r == out
    {
      var data := ProcessData();
      if data.Err? {
        return Err(data.error);
      }
      var ppData := data.value;
      var recvInfo := DecodeRecv(ppData);
      if recvInfo.id == RECV_ID_SIMOBJECT_DATA_BYTYPE {
        var recvData := DecodeRecvSimobjectData(ppData);
        if recvData.requestID == MapRead(definitionMap, REPORT_KEY) {
          return Ok(ReportData(ppData));
        }
      } else if recvInfo.id == RECV_ID_SIMOBJECT_DATA {
        return Ok(ReportData(ppData));
      } else if recvInfo.id == RECV_ID_ASSIGNED_OBJECT_ID {
        var recvData := DecodeRecvAssignedObject(ppData);
        return Ok(ObjectID(recvData.objectID));
      } else {
        return Err(SimObjectHitDefault(recvInfo.id));
      }
      return Err(Fail);
    }

    /** `GetReport` (`UserAircraft`) and `GetReportOnObjectID` (`OnObject`), for the record type `shape`. */
    method GetRecord(shape: RecordShape, query: Query) returns (r: Result<seq<u8>, Error>)
      modifies this, engine
      ensures var (calls, reg, out) := RecordQuery(engine.respond, old(engine.log), old(State()), shape, query);
        engine.log == old(engine.log) + calls && State() == reg && r == out
    {
      ghost var log0 := engine.log;
      ghost var regCalls := Registration(engine.respond, log0, State(), shape).0;
      var err := RegisterDataDefinition(shape);
      if err.Some? {
        return Err(err.value);
      }
      ghost var reg1 := State();
      ghost var calls := RequestReport(engine.respond, log0 + regCalls, reg1, shape.name, query).0;
      r := RequestRegisteredRecord(shape.name, query);
      AppendAssociative(log0, regCalls, calls);
    }

    /** The part of `GetReport` / `GetReportOnObjectID` after registration. */
    method RequestRegisteredRecord(name: string, query: Query) returns (r: Result<seq<u8>, Error>)
      modifies this, engine
      ensures var (calls, reg, out) := RequestReport(engine.respond, old(engine.log), old(State()), name, query);
        engine.log == old(engine.log) + calls && State() == reg && r == out
    {
      var definitionID, _ := GetDefinitionID(name);
      var err := Request(query, definitionID);
      if err.Some? {
        return Err(err.value);
      }
      ghost var polls := ReceiveSimObject(engine.respond, engine.log, MapRead(definitionMap, REPORT_KEY)).0;
      var reportData := ProcessSimObjectTypeData();
      AppendAssociative(old(engine.log), [RequestFor(query, definitionID)], polls);
      if reportData.Err? {
        return Err(reportData.error);
      }
      match reportData.value {
        case ReportData(mem) =>
          return Ok(mem);
        case ObjectID(_) =>
          return Err(NotAReport);
      }
    }

    /** The request `GetReport` or `GetReportOnObjectID` makes under the Report id. */
    method Request(query: Query, definitionID: u32) returns (err: Option<Error>)
      modifies engine
      ensures var c := RequestFor(query, definitionID);
        && engine.log == old(engine.log) + [c]
        && err == if Rejected(engine.respond(old(engine.log), c).status) then Some(RequestFailure(query, definitionID)) else None
    {
      match query {
        case UserAircraft =>
          err := RequestDataOnSimObjectType(definitionID, definitionID, 0, SIMOBJECT_TYPE_USER);
        case OnObject(objectID) =>
          err := RequestDataOnSimObject(definitionID, definitionID, objectID, SIMCONNECT_PERIOD_ONCE);
      }
    }

    /** `GetReport` */
    method GetReport() returns (r: Result<seq<u8>, Error>)
      modifies this, engine
      ensures var (calls, reg, out) := ReportQuery(engine.respond, old(engine.log), old(State()), UserAircraft);
        engine.log == old(engine.log) + calls && State() == reg && r == out
    {
      r := GetRecord(ReportShape, UserAircraft);
    }

    /** `GetReportOnObjectID` */
    method GetReportOnObjectID(objectID: u32) returns (r: Result<seq<u8>, Error>)
      modifies this, engine
      ensures var (calls, reg, out) := ReportQuery(engine.respond, old(engine.log), old(State()), OnObject(objectID));
        engine.log == old(engine.log) + calls && State() == reg && r == out
    {
      r := GetRecord(ReportShape, OnObject(objectID));
    }

    /** `SetDataOnSimObject` */
    method SetDataOnSimObject(objectID: u32, data: seq<SetSimObjectDataExpose>) returns (err: Option<Error>)
      requires |data| > 0
      modifies this, engine
      ensures var (calls, reg, e) := SetDataQuery(engine.respond, old(engine.log), old(State()), objectID, data);
        engine.log == old(engine.log) + calls && State() == reg && err == e
    {
      var rows := PackRows(data);
      ghost var log0 := engine.log;
      ghost var regCalls := Registration(engine.respond, log0, State(), InternalSimObjectShape).0;
      err := RegisterDataDefinition(InternalSimObjectShape);
      if err.Some? {
        return;
      }
      var defID, _ := GetDefinitionID(InternalSimObjectShape.name);
      ghost var c := Call.SetDataOnSimObject(defID, objectID, 0, |data| % 0x1_0000_0000, 8 * 8, rows);
      err := SetDataOnSimObjectCall(defID, objectID, 0, |data| % 0x1_0000_0000, 8 * 8, rows);
      AppendAssociative(log0, regCalls, [c]);
    }

    /** The buffer `SetDataOnSimObject` fills: one row of eight doubles per item, in order. */
    method PackRows(data: seq<SetSimObjectDataExpose>) returns (rows: seq<seq<real>>)
      ensures rows == Rows(data)
    {
      var buf := new seq<real>[|data|];
      var i := 0;
      while i < |data|
        invariant 0 <= i <= |data|
        invariant forall j | 0 <= j < i :: buf[j] == Row(data[j])
        modifies buf
      {
        var dataItem := data[i];
        buf[i] := [dataItem.airspeed, dataItem.altitude, dataItem.bank, dataItem.heading,
                   dataItem.latitude, dataItem.longitude, B2i(dataItem.onGround), dataItem.pitch];
        i := i + 1;
      }
      rows := buf[..];
    }

    /** `setDataOnSimObject` */
    method SetDataOnSimObjectCall(defID: u32, objectID: u32, flags: u32, arrayCount: u32, size: u32, rows: seq<seq<real>>) returns (err: Option<Error>)
      modifies engine
      ensures var c := Call.SetDataOnSimObject(defID, objectID, flags, arrayCount, size, rows);
        && engine.log == old(engine.log) + [c]
        && err == if Rejected(engine.respond(old(engine.log), c).status) then Some(SetDataFailed(objectID)) else None
    {
      var reply := engine.Invoke(Call.SetDataOnSimObject(defID, objectID, flags, arrayCount, size, rows));
      if AsInt32(reply.status) < 0 {
        return Some(SetDataFailed(objectID));
      }
      return None;
    }
  }
}
