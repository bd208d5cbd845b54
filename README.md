# SimConnect-Go client core, modelled in Dafny

This project models the core of a Go client for the SimConnect flight-simulator
API. The core covers:

- **the wire-type table** (`derefDataType`): Go type names map to the engine's
  data-type tags, and any other name is an error;
- **the protocol constants and response layouts** (`simconnect-data`): the
  iota enumerations, E_FAIL, and the `Recv*` structures as runs of
  little-endian u32 fields;
- **the definition registry** (`getDefinitionID` and the session's initial
  state): a record type name maps to a data-definition id, and a uint32
  counter allocates the next id;
- **record registration** (`registerDataDefinition`, `addToDataDefinitions`):
  the fields after the embedded header are walked in order. Each field needs
  a `name` tag and a supported type, and becomes one add-to-definition call.
  The walk stops at the first error;
- **the dispatch channel** (`getData`, `processData`,
  `processConnectionOpenData`, `processSimObjectTypeData`): a bounded polling
  loop of 20 attempts. Its callback retries on "no message" and on exception
  messages. A delivered message is demultiplexed by its kind and, for data by
  type, by the Report request id;
- **the entry points** `GetReport`, `GetReportOnObjectID` and
  `SetDataOnSimObject`, with `b2i` and the row packing of the set-data buffer.

The native engine is a class `Native.Engine`. It has a log of every call made
and an oracle `respond(log, call)` that gives each call's status and, for
GetNextDispatch, the buffer handed back. The oracle may depend on every
earlier call, so any deterministic engine is an instance.

The session is the class `Simconnect.SimconnectInstance`, with the fields
`definitionMap` and `nextDefinitionID`. Each of its methods is proved against
a function stating the calls it makes, the registry afterwards and its
result: `Registration`, `RecordQuery`, `ReportQuery`, `SetDataQuery`,
`PollLoop` and `ReceiveSimObject`. Lemmas about those functions then state
what the client guarantees. Examples:

- registration walks the plan up to the engine's first rejection;
- a cached record type registers nothing;
- a Report is only accepted from object data, or from data by type carrying
  the request's own id;
- a new session's first `GetReport` adds the 34 Report fields under id 0 and
  then requests the user aircraft;
- set-data rows line up with the registered field order.

Where the code differs from the documented behaviour of the client, the model
follows the code:

- **Exceptions are retried.** The polling callback answers an exception
  message with "retry" and the error "exception" (simconnect.go:244-246).
  Given a `retryFunc` that returns an error when its attempts run out (see
  "## Left out"), an exception therefore ends the call only when it is the
  last of the 20 polls, and then inside the loop's give-up error. It is not
  reported at once. `PollLoopCount` and `PollLoopNeverDeliversException`
  state this for the modelled loop.
- **`getData`'s failure check is dead.** It tests an unsigned value for
  `< 0` (simconnect.go:216). A failing GetNextDispatch other than E_FAIL is
  therefore read as a message, if a buffer was handed back.
  `GetDataNeverFails` states this.
- **`processConnectionOpenData`'s EXCEPTION branch is unreachable**, given
  the same `retryFunc`: the modelled polling loop never stops on an exception
  message (`OpenOutcomeSpec`). A `retryFunc` that returned no error on
  exhaustion would instead hand the last buffer, possibly an exception or
  none at all, to simconnect.go:266 and 297; that variant is not modelled.
- **An object id is not a Report.** `GetReport` and `GetReportOnObjectID`
  assert that the demultiplexed value is a `*Report`. An assigned-object
  message would make that assertion panic. The model returns the error
  `NotAReport` instead.
- **Data by type for another request is an error.** It ends the call with
  "FAIL" (simconnect.go:302). It is not skipped while polling goes on.

## Model

| member | source | states |
|---|---|---|
| Utils.DerefDataType | utils.go:5-33 | a name resolves exactly when it is one of the eleven listed names; a resolved tag lies between INT32 and STRING260; a rejected name yields tag 0 and names itself in the error |
| Utils.DerefMatchesCatalogue | utils.go:5-33 | a name resolves exactly when it stands for a wire type, and then to that type's tag (bool travels as INT32) |
| Utils.DerefInjective | utils.go:8-27 | two accepted names with the same tag are equal, except int32 and bool |
| Utils.TagInjective | simconnect-data/constants.go:7-27 | distinct wire types have distinct tags, and none of them is INVALID |
| Utils.Tag | simconnect-data/constants.go:7-27 | definition: the data-type tag each wire type is sent as; `TagInjective` states its properties |
| Utils.WireSize | simconnect-data/constants.go:9-18 | every wire type occupies a positive number of bytes; `SetDataQueryFresh` uses it to state that the set-data unit size is eight FLOAT64 values |
| SimconnectData.EnumerationsAreConsecutive | simconnect-data/constants.go:7-78 | the data-type, message-kind, object-type and period enumerations number their members 0, 1, 2, … in declaration order |
| SimconnectData.EFailIsNegative | simconnect-data/constants.go:4 | E_FAIL is negative as an int32 |
| SimconnectData.AsInt32 | simconnect.go:129 | `int32(r1)` keeps the 32 bits and is negative exactly when the top bit is set |
| SimconnectData.U32RoundTrip | simconnect-data/constants.go:92-96 | a u32 field stored as four little-endian bytes reads back as itself |
| SimconnectData.LEBytesRoundTrip | simconnect-data/constants.go:92-96 | any four bytes read as a u32 and stored again are the same bytes |
| SimconnectData.ByteAt | simconnect.go:242 | definition: the byte at an offset of a dispatch buffer, 0 past its end (admitted under "## Left out") |
| SimconnectData.ReadU32 | simconnect.go:281-295 | definition: the u32 read little-endian at an offset, as the pointer casts at simconnect.go:242, 281 and 295 read it; `LayoutOffsets` and `U32RoundTrip` state its properties |
| SimconnectData.DecodeRecv | simconnect-data/constants.go:92-96 | definition: the header read as three little-endian u32 words; `LayoutOffsets` and `LayoutsRoundTrip` state its properties |
| SimconnectData.DecodeRecvException | simconnect-data/constants.go:99-104 | definition: the header and three more u32 words; stated by `LayoutOffsets` and `LayoutsRoundTrip` |
| SimconnectData.DecodeRecvSimobjectData | simconnect-data/constants.go:131-150 | definition: the header and seven more u32 words, for data and data by type; stated by `LayoutOffsets` and `LayoutsRoundTrip` |
| SimconnectData.DecodeRecvAssignedObject | simconnect-data/constants.go:142-154 | definition: the header, the request id and the object id; stated by `LayoutOffsets` and `LayoutsRoundTrip` |
| SimconnectData.EncodeRecv | simconnect-data/constants.go:92-96 | the header takes 12 bytes, with the kind stored little-endian at offset 8 |
| SimconnectData.EncodeRecvException | simconnect-data/constants.go:99-104 | the exception takes 24 bytes: the header, then the exception code, send id and index at 12, 16 and 20 |
| SimconnectData.EncodeRecvSimobjectData | simconnect-data/constants.go:131-150 | object data takes 40 bytes: the header, then the request id at 12 and the object id at 16 |
| SimconnectData.EncodeRecvAssignedObject | simconnect-data/constants.go:142-154 | an assigned object takes 20 bytes: the header, then the request id at 12 and the object id at 16 |
| SimconnectData.ReadEncodedWords | simconnect-data/constants.go:92-154 | a run of u32 fields laid out without padding decodes back to the run, whatever follows it |
| SimconnectData.EncodeReadWords | simconnect-data/constants.go:92-154 | the fields read from a long enough buffer re-encode to that buffer's prefix |
| SimconnectData.LayoutsRoundTrip | simconnect-data/constants.go:92-154 | `Recv`, `RecvException`, `RecvSimobjectData(ByType)` and `RecvAssignedObject(ID)` each decode back to what was encoded |
| SimconnectData.LayoutsEncodeDecoded | simconnect-data/constants.go:92-154 | each layout decoded from a long enough buffer re-encodes to its prefix of 12, 24, 40 or 20 bytes |
| SimconnectData.LayoutOffsets | simconnect-data/constants.go:92-154 | every response reads the same header; the kind is the word at offset 8; exception code, send id and index are at 12, 16 and 20; request id and object id are at 12 and 16 |
| Native.EFailIsRejected | simconnect.go:220 | the "no message" status E_FAIL is a failure status, and the failure statuses are those with the top bit set |
| Native.Rejected | simconnect.go:129 | definition: the failure test `int32(r1) < 0`, used for every native call (also simconnect.go:181, 199, 512); `EFailIsRejected` states that it holds exactly for statuses with the top bit set |
| Native.StatusAt | simconnect.go:128-129 | definition: the status of the i-th of a run of calls, answered from the log and the calls before it; used by `FirstRejectedSpec` |
| Native.FirstRejected | simconnect.go:143-166 | a named first rejection is an index into the run; `FirstRejectedSpec` states that it is the first rejected call |
| Native.Engine.Invoke | simconnect.go:128 | a call is appended to the engine's log and answered from the calls before it |
| Native.FirstRejectedSpec | simconnect.go:143-166 | the call named as first rejected is rejected and all calls before it are accepted; when none is named, every call is accepted |
| Native.FirstRejectedCons | simconnect.go:143-166 | proof helper: the first rejection among one call followed by a run is that call, or else the run's first rejection shifted by one |
| Schema.KindString | simconnect.go:148 | `Kind().String()` is "array" exactly for arrays |
| Schema.DecimalInjective | simconnect.go:150 | different lengths print as different `%d` numerals |
| Schema.Decimal | simconnect.go:150 | the `%d` numeral of a length has at least one digit, and at least two from 10 on; `DecimalInjective` states that it is injective |
| Schema.BracketCancel | simconnect.go:150 | two `[%d]byte` names are equal only when their numerals are |
| Schema.FieldType | simconnect.go:148-151 | definition: the kind's name, or `[n]byte` for an array of length n; `FieldTypeAccepted` states which names the table accepts |
| Schema.FieldTypeAccepted | simconnect.go:148-160 | a field's type name is in the table exactly for bool, int32, int64, float32 and float64, and for arrays of length 8, 32, 64, 128, 256 or 260 of any element type |
| Schema.ListedArrayNameIsAccepted | simconnect.go:148-151 | an array whose `[%d]byte` name the table lists has one of the six string lengths |
| Schema.StringLengthOfNumeral | simconnect.go:150 | a length whose numeral is one of the six listed numerals is that length |
| Schema.AcceptedArrayNameIsListed | simconnect.go:148-151 | an array of one of the six string lengths gets a name the table lists |
| Schema.Payload | simconnect.go:143 | registration walks every field after the first (header) field, in order |
| Schema.CheckFieldOutcome | simconnect.go:144-161 | a field passes exactly when it has a name tag and an accepted kind; a missing name tag is reported before a bad type; a passing field registers its own name and unit tags with a valid tag |
| Schema.Checks | simconnect.go:143-161 | one check outcome per field, in order |
| Schema.CheckField | simconnect.go:144-161 | definition: the name-tag check, then the type lookup; `CheckFieldOutcome` states its outcome |
| Schema.Collect | simconnect.go:143-166 | the planned arguments are the passing fields in order up to the first failed check, whose error is the plan's error |
| Schema.Plan | simconnect.go:143-166 | no more planned calls than fields; each planned call comes from a passing field |
| Schema.PlanCons | simconnect.go:143-166 | proof helper: the plan of a field run is the first field's check followed by the plan of the rest |
| Schema.CollectAllOk | simconnect.go:143-166 | when every check passes, every field is planned and there is no error |
| Schema.AddCall | simconnect.go:111-126 | the call passes the name and unit NUL-terminated, a null unit when the unit tag is empty, and the datum id 0xFFFFFFFF |
| Schema.AddCalls | simconnect.go:162 | one add call per planned field, under the record's id, in order |
| Schema.CString | simconnect.go:112-113 | the text the engine reads from a NUL-terminated byte string holds no NUL and is a prefix of it |
| Schema.NulTerminated | simconnect.go:112-113 | definition: `name + "\x00"`; `CStringOfNulTerminated` states that the engine reads the name back |
| Schema.CStringOfNulTerminated | simconnect.go:112-113 | the engine reads back exactly the tag the client sent when the tag has no NUL, and a shorter text when it has one |
| Schema.Register | simconnect.go:136-169 | definition: the registration walk, field by field, stopping at the first failed check or rejected add; `RegisterOnlyAdds` and `RegisterMatchesPlan` state its properties |
| Schema.FieldRegistration | simconnect.go:144-165 | one field makes one add call exactly when its checks pass, and then fails exactly when the engine rejects that call; a failed check makes no call and is the error |
| Schema.RegisterStep | simconnect.go:143-166 | proof helper: the walk is its first field, followed, when that field raised no error, by the walk of the rest |
| Schema.RegisterAdvance | simconnect.go:143-166 | proof helper: the walk, part-way through, advances by one field or stops at that field's error |
| Schema.RegisterOnlyAdds | simconnect.go:136-169 | registration makes at most one call per field, and only add calls under its own id |
| Schema.AddCallsCons | simconnect.go:162 | proof helper: the calls for one more field are its call followed by the others |
| Schema.PlannedOutcomeConsRejected | simconnect.go:162-165 | a rejected add call ends the registration with that call and "add to data definition failed" for its name |
| Schema.PlannedOutcomeConsAccepted | simconnect.go:162-165 | an accepted add call is followed by the registration of the rest |
| Schema.PlannedOutcome | simconnect.go:143-166 | definition: the planned add calls cut after the engine's first rejection, with its failure, or else the plan's error; the independent account `RegisterMatchesPlan` equates with the walk |
| Schema.RegisterMatchesPlan | simconnect.go:136-169 | the loop makes the planned add calls up to and including the first the engine rejects, whose failure is the error; if none is rejected, the error is the first failed check, if any |
| Schema.PlanOfValidFields | simconnect.go:143-166 | when every field has a name tag and an accepted kind, every field is planned with its own tags and there is no error |
| Schema.ReportFieldsValid | simconnect.go:29-65 | `Report` has the header and 34 fields, each with a name tag and a supported type |
| Schema.ReportPlan | simconnect.go:29-65 | registering `Report` plans 34 add calls, one per field in declaration order with its name tag, and no check fails |
| Schema.InternalSimObjectPlan | simconnect.go:463-473 | registering the set-data struct plans eight FLOAT64 add calls and no check fails; call i carries the name tag of field i + 1 |
| Registry.Increment | simconnect.go:103 | `nextDefinitionID++` adds one, and wraps to 0 at the uint32 maximum |
| Registry.DefinitionID | simconnect.go:94-108 | definition: the cached id, or the counter's value stored for the name; `DefinitionIDSpec` and `DefinitionIDIdempotent` state its properties |
| Registry.InitialValid | simconnect.go:624-627 | a new session has an empty map and a counter at 0, which satisfies the registry invariant |
| Registry.DefinitionIDSpec | simconnect.go:94-108 | a known name returns its id and changes nothing; a new name gets the counter's value, the counter moves on by one, only that name is added, and the invariant (ids distinct, below the counter, as many as names) is kept |
| Registry.DefinitionIDIdempotent | simconnect.go:94-108 | a second lookup of a name returns the same id and allocates nothing |
| Registry.LookupAll | simconnect.go:94-108 | one id per looked-up name |
| Registry.LookupAllKeys | simconnect.go:94-108 | after a run of lookups, the registry knows exactly the old names plus the looked-up names, and no id already handed out changes |
| Registry.LookupAllValid | simconnect.go:94-108 | a run of lookups that does not exhaust the counter keeps the invariant, and moves the counter by at most one per lookup |
| Registry.LookupAllIds | simconnect.go:94-108 | each lookup returned the id its name holds at the end of the run |
| Registry.FreshSessionIdsDistinct | simconnect.go:94-108 | from a new session, two names get the same id exactly when they are the same name, and every id is below the counter |
| Dispatch.GetDataNeverFails | simconnect.go:206-226 | `getData` never returns an error; it returns a message exactly when the status is not E_FAIL and a buffer was handed back |
| Dispatch.GetDataOf | simconnect.go:206-226 | definition: E_FAIL is no message, otherwise the buffer handed back; `GetDataNeverFails` states its properties |
| Dispatch.Classify | simconnect.go:232-249 | definition: a poll read as no message, an exception or a message; `ClassifySpec` states its properties |
| Dispatch.Callback | simconnect.go:232-249 | definition: the callback's retry flag and error for each kind of poll; `ClassifySpec` states its properties |
| Dispatch.ClassifySpec | simconnect.go:232-249 | a poll stops the loop exactly on a non-E_FAIL status with a buffer whose kind is not EXCEPTION; an exception buffer asks for a retry with the error "exception"; a retry carries no other error |
| Dispatch.Polls | simconnect.go:232-249 | n polls are n GetNextDispatch calls |
| Dispatch.PollLoopStep | simconnect.go:232-249 | proof helper: a retrying poll is followed by the remaining attempts; a poll that finds a message stops the loop with it after one call |
| Dispatch.PollAtShift | simconnect.go:232-249 | proof helper: the i-th poll after one more poll is the (i+1)-th poll |
| Dispatch.PollLoop | simconnect.go:228-255 | definition: the bounded polling loop; `PollLoopCount`, `PollLoopStops`, `PollLoopDelivers` and `PollLoopNeverDeliversException` state its properties |
| Dispatch.PollLoopCount | simconnect.go:228-255 | at most 20 polls; the loop gives up only after all of them, with the last callback's error, which is "exception" exactly when the last poll found an exception |
| Dispatch.PollLoopStops | simconnect.go:228-255 | a delivered message is the last poll's message, and every earlier poll found no message |
| Dispatch.PollLoopDelivers | simconnect.go:228-255 | the loop delivers a message exactly when one of its allowed polls finds one |
| Dispatch.PollLoopNeverDeliversException | simconnect.go:228-255 | a delivered message is never an exception |
| Dispatch.OpenOutcome | simconnect.go:257-272 | definition: OPEN succeeds, EXCEPTION and other kinds are errors; `OpenOutcomeSpec` states its properties |
| Dispatch.OpenOutcomeSpec | simconnect.go:257-272 | opening succeeds exactly on an OPEN message; otherwise the error is "received exception" or "hit default"; the exception branch is never taken on a delivered message |
| Dispatch.DemuxSimObject | simconnect.go:274-303 | definition: the message told apart by its kind and request id; `DemuxSimObjectSpec` states its properties |
| Dispatch.DemuxSimObjectSpec | simconnect.go:274-303 | the result is a Report exactly for object data, or for data by type whose request id is the Report id; it is an object id (the word at 16) exactly for an assigned-object message; data by type for another request is "FAIL"; any other kind is "hit default" naming the kind |
| SetData.B2iSpec | simconnect.go:453-458 | `b2i` gives 1 for true and 0 for false, and reading 1 back as true undoes it |
| SetData.B2i | simconnect.go:453-458 | the result is 1 or 0, and reading 1 back as true recovers the boolean |
| SetData.Rows | simconnect.go:475-489 | one row per item, in order |
| SetData.Row | simconnect.go:479-488 | definition: the eight values of an item in field order, OnGround through `b2i`; `RowRoundTrip` and `RowMatchesRegisteredOrder` state its properties |
| SetData.FieldValue | simconnect.go:463-488 | definition: the value the engine receives for a field of the set-data struct, by Go field name; used by `RowMatchesRegisteredOrder` |
| SetData.RowRoundTrip | simconnect.go:479-488 | a row holds all eight values of its item, and unpacking it gives the item back |
| SetData.RowMatchesRegisteredOrder | simconnect.go:463-488 | slot i of a row holds the item's value for the i-th registered field (Airspeed, Altitude, Bank, Heading, Latitude, Longitude, OnGround, Pitch) |
| Simconnect.MapRead | simconnect.go:287 | a map read returns the stored id, or 0 when "Report" is absent |
| Simconnect.RequestFor | simconnect.go:313-321 | the request is by type for the user aircraft with radius 0, or for the given object once, and carries the id as both request id and definition id |
| Simconnect.RequestFailure | simconnect.go:313-324 | definition: the error a rejected request returns, naming its ids |
| Simconnect.Registration | simconnect.go:136-169 | definition: no calls for a known record type, otherwise the walk of `Register` under the new id; stated by `RecordQueryCached`, `RecordQueryFresh` and `RecordQueryRegistrationFails` |
| Simconnect.ReceiveSimObject | simconnect.go:274-303 | definition: the polls of `PollLoop`, then `DemuxSimObject` against the stored Report id |
| Simconnect.AsReport | simconnect.go:323-328 | a result is a Report exactly when the message was Report data, and then its bytes; the loop's error passes through; an object id is `NotAReport` |
| Simconnect.ReceiveReport | simconnect.go:323-328 | definition: `ReceiveSimObject` read through `AsReport` |
| Simconnect.RequestReport | simconnect.go:312-328 | definition: the request, then, if accepted, the Report read; stated by `RequestReportSucceeds` |
| Simconnect.RecordQuery | simconnect.go:305-352 | definition: registration, then, without error, `RequestReport`; stated by the `RecordQuery…` lemmas |
| Simconnect.ReportQuery | simconnect.go:305-352 | definition: `RecordQuery` for the `Report` struct; stated by `ReportQueryFromNewSession` |
| Simconnect.SetDataQuery | simconnect.go:462-517 | definition: registration of the set-data struct, then, without error, one set-data call; stated by the `SetDataQuery…` lemmas |
| Simconnect.RecordQueryRegistry | simconnect.go:305-352 | a query leaves the record registered under the id its first lookup returned; the later lookup allocates nothing; a valid registry with room in the counter stays valid |
| Simconnect.RecordQueryCached | simconnect.go:136-140 | a query for an already registered type makes no add call, leaves the registry unchanged, and first makes the request under the cached id |
| Simconnect.RecordQueryRegistrationFails | simconnect.go:308-311 | a failed registration ends the query with its error, after add calls only, so no request is made |
| Simconnect.RecordQueryFresh | simconnect.go:305-321 | a new, well-formed record type on an accepting engine is registered in field order under the counter's value, and the request then follows under that same id |
| Simconnect.RequestReportSucceeds | simconnect.go:312-329 | a query that returns a Report made its request under the Report id and then only polled; the message is object data, or data by type carrying that id |
| Simconnect.RecordQuerySucceeds | simconnect.go:305-329 | a query that returns a Report made the registration's add calls, all under the Report id, then the request under that id, then only polls; the message is object data, or data by type carrying that id |
| Simconnect.ReportQueryFromNewSession | simconnect.go:305-321 | a new session's `GetReport` on an accepting engine adds the 34 Report fields under id 0 with their name tags, then requests the user aircraft under request and definition id 0 |
| Simconnect.SetDataQueryFresh | simconnect.go:462-498 | a first `SetDataOnSimObject` on an accepting engine adds eight FLOAT64 fields, then makes one set-data call under the same id with the item count, the rows and a unit size of 64 bytes, which is eight times the size of a FLOAT64 (`uint32(8*8)`); it fails exactly when that call is rejected |
| Simconnect.SetDataQueryCached | simconnect.go:491-497 | once the struct is registered, the only call is the set-data call under the cached id, and the registry is unchanged |
| Simconnect.SetDataQueryRegistrationFails | simconnect.go:491-494 | a failed registration of the set-data struct returns its error after add calls only, all under the struct's id, so no set-data call is made |
| Simconnect.SetDataQueryRegistry | simconnect.go:491-496 | the struct stays registered under the id its first lookup returned; the second lookup allocates nothing; a valid registry with room in the counter stays valid |
| Simconnect.SimconnectInstance.constructor | simconnect.go:624-627 | a new session starts with an empty map and the counter at 0 |
| Simconnect.SimconnectInstance.GetDefinitionID | simconnect.go:94-108 | the id, the created flag and the new registry are those of `DefinitionID` on the old registry |
| Simconnect.SimconnectInstance.AddToDataDefinitions | simconnect.go:111-134 | one add call is made, and the result is an error exactly when the engine rejects it |
| Simconnect.SimconnectInstance.RegisterDataDefinition | simconnect.go:136-169 | the name is looked up, and only a newly created id registers fields; the calls and error are those of `Registration` |
| Simconnect.SimconnectInstance.RegisterFields | simconnect.go:143-166 | the loop makes exactly the calls of `Register` and returns its error |
| Simconnect.SimconnectInstance.RegisterField | simconnect.go:144-165 | one field: the name-tag check, then the type check, then one add call |
| Simconnect.SimconnectInstance.RequestDataOnSimObjectType | simconnect.go:171-187 | one request call, an error exactly when it is rejected |
| Simconnect.SimconnectInstance.RequestDataOnSimObject | simconnect.go:189-204 | one request call, an error exactly when it is rejected |
| Simconnect.SimconnectInstance.GetData | simconnect.go:206-226 | one GetNextDispatch call, read as `GetDataOf` the reply |
| Simconnect.SimconnectInstance.PollOnce | simconnect.go:232-249 | one poll, and the callback's answer for it |
| Simconnect.SimconnectInstance.ProcessData | simconnect.go:228-255 | the loop makes the polls of `PollLoop` and returns its message or error |
| Simconnect.SimconnectInstance.ProcessConnectionOpenData | simconnect.go:257-272 | the loop's error, or the outcome of the message it delivered |
| Simconnect.SimconnectInstance.ProcessSimObjectTypeData | simconnect.go:274-303 | the loop's polls, and the demultiplexed message against the id stored for "Report" |
| Simconnect.SimconnectInstance.GetRecord | simconnect.go:305-352 | the calls, the registry and the result of `RecordQuery` |
| Simconnect.SimconnectInstance.RequestRegisteredRecord | simconnect.go:312-328 | the calls, the registry and the result of `RequestReport` |
| Simconnect.SimconnectInstance.Request | simconnect.go:313-321 | the request for the query is made under the id as both request and definition id, and fails exactly when rejected |
| Simconnect.SimconnectInstance.GetReport | simconnect.go:305-329 | the calls, the registry and the result of `ReportQuery` for the user aircraft |
| Simconnect.SimconnectInstance.GetReportOnObjectID | simconnect.go:331-352 | the calls, the registry and the result of `ReportQuery` for the object |
| Simconnect.SimconnectInstance.SetDataOnSimObject | simconnect.go:462-498 | the calls, the registry and the error of `SetDataQuery` |
| Simconnect.SimconnectInstance.PackRows | simconnect.go:475-489 | the buffer holds `Rows(data)`: row i is item i's eight values |
| Simconnect.SimconnectInstance.SetDataOnSimObjectCall | simconnect.go:500-517 | one set-data call, an error exactly when it is rejected |

## Left out

- Loading the DLL, `openConnection`, `Close` and the AI and flight-plan entry
  points are not modelled. They are outside the core. The engine is an oracle
  over the call log.
- `retryFunc` is not part of this model. The polling loop assumes it calls
  the callback at most 20 times and stops at the first "no retry". On
  exhaustion it returns an error that carries the last callback error
  (`RetriesExhausted`). The 20 ms sleep between attempts is not modelled.
  The statements above about exceptions and the unreachable EXCEPTION branch
  hold for this assumed `retryFunc` only.
- The mutex around the registry is not modelled. A session is single-threaded
  here.
- The epsilon argument of the add call (`float32(0)`) is not part of the
  modelled call, because the client always passes 0.
- Error message texts, the `err` value of a failed native call and
  `fmt.Println` of the OPEN message are not modelled. Errors are datatype
  values, and each keeps only some of what Go's message prints:
  - `AddToDataDefinitionFailed(name)` keeps the name and drops the status
    `r1` (simconnect.go:130);
  - `RequestDataFailed(requestID, defineID)` and
    `RequestDataOnObjectFailed(requestID, defineID, objectID)` keep the ids
    and drop `r1` (simconnect.go:182, 200);
  - `SetDataFailed(objectID)` keeps the object id and drops `r1`
    (simconnect.go:513);
  - `DataTypeNotImplemented(fieldType)` and `NameTagNotFound(fieldName)` keep
    the type and field name; the wrapper texts "error derefing datatype" and
    "error adding data definition" (simconnect.go:159, 164) are dropped, so an
    add failure is returned as `AddToDataDefinitionFailed` itself;
  - `OpenHitDefault(id)` adds the message kind, which Go's "hit default" text
    (simconnect.go:270) does not print;
  - `SimObjectHitDefault(id)` keeps only the kind, where Go prints the whole
    header and by-type structure (simconnect.go:299).
- Floats are modelled as reals. Widening a float32 to float64 is exact, so the
  Bank, Heading and Pitch conversions change no value.
- The bytes of a Report are returned undecoded (`ReportData(mem)`). Its 34
  payload fields are not reinterpreted.
- SimconnectData.ByteAt: a read beyond the end of a dispatch buffer gives 0.
  Go reads whatever memory follows, and the client never checks a buffer's
  length.
- Simconnect.SimconnectInstance.SetDataOnSimObject requires a non-empty
  `data`, because `&buf[0]` panics on an empty slice; the panic is not
  modelled.
- Simconnect.SetDataQuery, Simconnect.SetDataQueryFresh and
  Simconnect.SetDataQueryCached also describe a set-data call for an empty
  `data`. Go never makes that call: it registers the struct and then panics
  at `&buf[0]` (simconnect.go:497). For empty `data` only their registration
  part models the source.
- Simconnect.SimconnectInstance.GetReport and GetReportOnObjectID return
  `NotAReport` where the Go type assertion would panic on an object id.
- Registry.LookupAllValid and Registry.DefinitionIDSpec keep the invariant
  only while the counter is below the uint32 maximum. `Increment` models the
  wrap to 0, after which ids repeat.
- Simconnect.SetDataQueryFresh requires fewer than 2^32 items. With more,
  `uint32(len(data))` wraps, as `SetDataQuery` itself models.
- Go's tags and type names are UTF-8 `string`s and `[]byte`s; the model
  uses `seq<char>`. Every tag and type name this client uses is ASCII, so
  one character is one byte.
- `SetSimObjectDataExpose` models its fields as reals. The field widths
  (float64, float32, bool) only matter through the exact widening above.
