/**
  Reading the engine's dispatch channel (simconnect.go, `getData`,
  `processData`, `processConnectionOpenData`, `processSimObjectTypeData`):
  what one poll yields, the bounded polling loop, and how a delivered
  message is told apart by its kind and request id.
*/
module Dispatch {
  import opened Wrappers
  import opened SimconnectData
  import opened Native
  import opened SeqFacts

  /**
    `getData`: the status E_FAIL means no message yet; otherwise the buffer
    the engine left behind, if any. Its check for a negative status compares
    an unsigned value and so never holds.
  */
  function GetDataOf(reply: Reply): Result<Option<seq<u8>>, Error>
  {
    if reply.status < 0 then Err(GetNextDispatchFailed(reply.status))
    else if reply.status == E_FAIL then Ok(None)
    else Ok(reply.dispatch)
  }

  /** `getData` never reports an error, and reports a message exactly when the status is not E_FAIL and a buffer was handed back. */
  lemma GetDataNeverFails(reply: Reply)
    ensures GetDataOf(reply).Ok?
    ensures GetDataOf(reply).value.Some? <==> reply.status != E_FAIL && reply.dispatch.Some?
    ensures GetDataOf(reply).value.Some? ==> GetDataOf(reply).value == reply.dispatch
  {
  }

  /** What one poll means to the polling loop. */
  datatype Poll = NoMessage | ExceptionMessage | Message(mem: seq<u8>)

  /**
    The loop's callback on one poll: no message (or a `getData` error) asks
    for another try with no error; an exception message asks for another try
    with the error "exception"; any other message stops the loop.
  */
  function Classify(reply: Reply): Poll
  {
    match GetDataOf(reply)
    case Err(_) => NoMessage
    case Ok(None) => NoMessage
    case Ok(Some(mem)) =>
      if DecodeRecv(mem).id == RECV_ID_EXCEPTION then ExceptionMessage else Message(mem)
  }

  /** The callback's answer: whether to try again, and its error. */
  function Callback(p: Poll): (bool, Option<Error>)
  {
    match p
    case NoMessage => (true, None)
    case ExceptionMessage => (true, Some(Exception))
    case Message(_) => (false, None)
  }

  /**
    A poll stops the loop exactly when the engine hands back a buffer with a
    status other than E_FAIL whose kind, the word at offset 8, is not
    EXCEPTION; that buffer is then the message.
  */
  lemma ClassifySpec(reply: Reply)
    ensures !Callback(Classify(reply)).0 <==>
      reply.status != E_FAIL && reply.dispatch.Some? && ReadU32(reply.dispatch.value, RECV_ID_OFFSET) != RECV_ID_EXCEPTION
    ensures Classify(reply).Message? ==> Some(Classify(reply).mem) == reply.dispatch
    ensures Callback(Classify(reply)).1 == Some(Exception) <==>
      reply.status != E_FAIL && reply.dispatch.Some? && ReadU32(reply.dispatch.value, RECV_ID_OFFSET) == RECV_ID_EXCEPTION
    ensures Callback(Classify(reply)).0 ==> Callback(Classify(reply)).1 in {None, Some(Exception)}
  {
    if reply.dispatch.Some? {
      LayoutOffsets(reply.dispatch.value);
    }
  }

  /** The number of attempts the polling loop allows. */
  const MAX_ATTEMPTS: nat := 20

  /** `n` polls of the dispatch channel. */
  function Polls(n: nat): (cs: seq<Call>)
    ensures |cs| == n && forall i | 0 <= i < n :: cs[i] == GetNextDispatch
  {
    seq(n, _ => GetNextDispatch)
  }

  /** How the `i`-th poll after `log` is classified, when every call before it was a poll. */
  function PollAt(respond: (seq<Call>, Call) -> Reply, log: seq<Call>, i: nat): Poll
  {
    Classify(respond(log + Polls(i), GetNextDispatch))
  }

  /**
    The polling loop with `remaining` attempts left after `log`, the last
    callback error being `last`: how many polls it makes, and the message it
    stops on or the error it gives up with.
  */
  function PollLoop(respond: (seq<Call>, Call) -> Reply, log: seq<Call>, remaining: nat, last: Option<Error>): (r: (nat, Result<seq<u8>, Error>))
    decreases remaining
  {
    if remaining == 0 then (0, Err(RetriesExhausted(last)))
    else
      var p := Classify(respond(log, GetNextDispatch));
      var (retry, err) := Callback(p);
      if !retry then (1, Ok(p.mem))
      else
        var rest := PollLoop(respond, log + [GetNextDispatch], remaining - 1, err);
        (rest.0 + 1, rest.1)
  }

  /**
    One attempt of the loop, `attempt` polls after `log`: a poll that asks for
    a retry is followed by the rest of the attempts, one that finds a message
    stops the loop with it.
  */
  lemma PollLoopStep(respond: (seq<Call>, Call) -> Reply, log: seq<Call>, attempt: nat, remaining: nat, last: Option<Error>)
    requires remaining > 0
    ensures log + Polls(attempt) + [GetNextDispatch] == log + Polls(attempt + 1)
    ensures var here := PollLoop(respond, log + Polls(attempt), remaining, last);
      var p := PollAt(respond, log, attempt);
      var next := PollLoop(respond, log + Polls(attempt + 1), remaining - 1, Callback(p).1);
      && (Callback(p).0 ==> here.0 == next.0 + 1 && here.1 == next.1)
      && (!Callback(p).0 ==> here.0 == 1 && here.1 == Ok(p.mem))
  {
    assert log + Polls(attempt) + [GetNextDispatch] == log + Polls(attempt + 1);
  }

  /** Polling after `log + Polls(1)` is polling after `log` one step later. */
  lemma PollAtShift(respond: (seq<Call>, Call) -> Reply, log: seq<Call>, i: nat)
    ensures PollAt(respond, log + [GetNextDispatch], i) == PollAt(respond, log, i + 1)
    ensures PollAt(respond, log, 0) == Classify(respond(log, GetNextDispatch))
  {
    assert log + [GetNextDispatch] + Polls(i) == log + Polls(i + 1);
    assert log + Polls(0) == log;
  }

  /**
    The loop makes at most `remaining` polls; it gives up only after making
    all of them, and then carries the last callback's error, which is the
    "exception" error exactly when the last poll was an exception.
  */
  lemma {:induction false} PollLoopCount(respond: (seq<Call>, Call) -> Reply, log: seq<Call>, remaining: nat, last: Option<Error>)
    ensures PollLoop(respond, log, remaining, last).0 <= remaining
    ensures PollLoop(respond, log, remaining, last).1.Ok? ==> PollLoop(respond, log, remaining, last).0 >= 1
    ensures var (n, out) := PollLoop(respond, log, remaining, last);
      out.Err? ==> n == remaining && out.error.RetriesExhausted?
    ensures var out := PollLoop(respond, log, remaining, last).1;
      out.Err? && remaining > 0 ==>
        && out.error.last in {None, Some(Exception)}
        && (out.error.last == Some(Exception) <==> PollAt(respond, log, remaining - 1).ExceptionMessage?)
    decreases remaining
  {
    if remaining > 0 {
      var p := Classify(respond(log, GetNextDispatch));
      var (retry, err) := Callback(p);
      if retry {
        PollLoopCount(respond, log + [GetNextDispatch], remaining - 1, err);
        if remaining == 1 {
          PollAtShift(respond, log, 0);
        } else {
          PollAtShift(respond, log, remaining - 2);
        }
      }
    }
  }

  /**
    When the loop stops on a message, that is the message of its last poll;
    every poll before the last one it makes delivered no message or an
    exception.
  */
  lemma {:induction false} PollLoopStops(respond: (seq<Call>, Call) -> Reply, log: seq<Call>, remaining: nat, last: Option<Error>)
    ensures var (n, out) := PollLoop(respond, log, remaining, last);
      out.Ok? ==> 1 <= n && PollAt(respond, log, n - 1) == Message(out.value)
    ensures var (n, out) := PollLoop(respond, log, remaining, last);
      forall i | 0 <= i < n && (out.Ok? ==> i < n - 1) :: !PollAt(respond, log, i).Message?
    decreases remaining
  {
    if remaining > 0 {
      PollAtShift(respond, log, 0);
      var p := Classify(respond(log, GetNextDispatch));
      var (retry, err) := Callback(p);
      if retry {
        var log1 := log + [GetNextDispatch];
        PollLoopStops(respond, log1, remaining - 1, err);
        var (n, out) := PollLoop(respond, log, remaining, last);
        forall i | 1 <= i < n
          ensures PollAt(respond, log, i) == PollAt(respond, log1, i - 1)
        {
          PollAtShift(respond, log, i - 1);
        }
      }
    }
  }

  /** The loop delivers a message exactly when one of the polls it is allowed finds one. */
  lemma PollLoopDelivers(respond: (seq<Call>, Call) -> Reply, log: seq<Call>, remaining: nat, last: Option<Error>)
    ensures PollLoop(respond, log, remaining, last).1.Ok? <==>
      exists i | 0 <= i < remaining :: PollAt(respond, log, i).Message?
  {
    PollLoopCount(respond, log, remaining, last);
    PollLoopStops(respond, log, remaining, last);
    var (n, out) := PollLoop(respond, log, remaining, last);
    if out.Ok? {
      assert PollAt(respond, log, n - 1).Message?;
    }
  }

  /** The loop never stops on an exception message: what it returns is of some other kind. */
  lemma PollLoopNeverDeliversException(respond: (seq<Call>, Call) -> Reply, log: seq<Call>, remaining: nat, last: Option<Error>)
    ensures var out := PollLoop(respond, log, remaining, last).1;
      out.Ok? ==> DecodeRecv(out.value).id != RECV_ID_EXCEPTION
    decreases remaining
  {
    if remaining > 0 {
      var p := Classify(respond(log, GetNextDispatch));
      if Callback(p).0 {
        PollLoopNeverDeliversException(respond, log + [GetNextDispatch], remaining - 1, Callback(p).1);
      }
    }
  }

  /**
    `processConnectionOpenData` on a delivered message: OPEN succeeds,
    EXCEPTION and every other kind are errors.
  */
  function OpenOutcome(mem: seq<u8>): Option<Error>
  {
    var id := DecodeRecv(mem).id;
    if id == RECV_ID_EXCEPTION then Some(ReceivedException)
    else if id == RECV_ID_OPEN then None
    else Some(OpenHitDefault(id))
  }

  /**
    Connection-open handling succeeds exactly on an OPEN message, and its
    EXCEPTION branch is never taken on a message the polling loop delivers.
  */
  lemma OpenOutcomeSpec(respond: (seq<Call>, Call) -> Reply, log: seq<Call>, mem: seq<u8>)
    ensures OpenOutcome(mem).None? <==> ReadU32(mem, RECV_ID_OFFSET) == RECV_ID_OPEN
    ensures OpenOutcome(mem).Some? ==> OpenOutcome(mem).value in {ReceivedException, OpenHitDefault(ReadU32(mem, RECV_ID_OFFSET))}
    ensures PollLoop(respond, log, MAX_ATTEMPTS, None).1 == Ok(mem) ==> OpenOutcome(mem) != Some(ReceivedException)
  {
    LayoutOffsets(mem);
    PollLoopNeverDeliversException(respond, log, MAX_ATTEMPTS, None);
  }

  /** What `processSimObjectTypeData` hands back: a `Report` read from the message, or an object id. */
  datatype SimObjectData = ReportData(mem: seq<u8>) | ObjectID(objectID: u32)

  /**
    `processSimObjectTypeData` on a delivered message, with `reportID` the id
    the registry holds for "Report" (0 when there is none).
  */
  function DemuxSimObject(mem: seq<u8>, reportID: u32): Result<SimObjectData, Error>
  {
    var id := DecodeRecv(mem).id;
    if id == RECV_ID_SIMOBJECT_DATA_BYTYPE then
      if DecodeRecvSimobjectData(mem).requestID == reportID then Ok(ReportData(mem)) else Err(Fail)
    else if id == RECV_ID_SIMOBJECT_DATA then Ok(ReportData(mem))
    else if id == RECV_ID_ASSIGNED_OBJECT_ID then Ok(ObjectID(DecodeRecvAssignedObject(mem).objectID))
    else Err(SimObjectHitDefault(id))
  }

  /**
    A message becomes a Report exactly when it is object data, or object data
    by type whose request id (offset 12) is the Report id; it becomes an
    object id exactly when it is an assigned-object message, and the id is
    the word at offset 16. By-type data for any other request is "FAIL", and
    every other kind is an error naming the kind.
  */
  lemma DemuxSimObjectSpec(mem: seq<u8>, reportID: u32)
    ensures var kind := ReadU32(mem, RECV_ID_OFFSET);
      DemuxSimObject(mem, reportID) == Ok(ReportData(mem)) <==>
        (kind == RECV_ID_SIMOBJECT_DATA
         || (kind == RECV_ID_SIMOBJECT_DATA_BYTYPE && ReadU32(mem, REQUEST_ID_OFFSET) == reportID))
    ensures DemuxSimObject(mem, reportID).Ok? && DemuxSimObject(mem, reportID).value.ReportData? ==>
      DemuxSimObject(mem, reportID).value.mem == mem
    ensures DemuxSimObject(mem, reportID).Ok? && DemuxSimObject(mem, reportID).value.ObjectID? <==>
      ReadU32(mem, RECV_ID_OFFSET) == RECV_ID_ASSIGNED_OBJECT_ID
    ensures DemuxSimObject(mem, reportID).Ok? && DemuxSimObject(mem, reportID).value.ObjectID? ==>
      DemuxSimObject(mem, reportID).value.objectID == ReadU32(mem, OBJECT_ID_OFFSET)
    ensures DemuxSimObject(mem, reportID) == Err(Fail) <==>
      ReadU32(mem, RECV_ID_OFFSET) == RECV_ID_SIMOBJECT_DATA_BYTYPE && ReadU32(mem, REQUEST_ID_OFFSET) != reportID
    ensures var kind := ReadU32(mem, RECV_ID_OFFSET);
      DemuxSimObject(mem, reportID).Err? && DemuxSimObject(mem, reportID) != Err(Fail) <==>
        kind !in {RECV_ID_SIMOBJECT_DATA, RECV_ID_SIMOBJECT_DATA_BYTYPE, RECV_ID_ASSIGNED_OBJECT_ID}
    ensures DemuxSimObject(mem, reportID).Err? && DemuxSimObject(mem, reportID) != Err(Fail) ==>
      DemuxSimObject(mem, reportID) == Err(SimObjectHitDefault(ReadU32(mem, RECV_ID_OFFSET)))
  {
    LayoutOffsets(mem);
  }
}
