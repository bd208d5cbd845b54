/**
  The native engine behind the client's entry points, as the client sees it:
  each call is recorded in a log and answered by an oracle with a status code
  (and, for GetNextDispatch, the message it hands back). The oracle may depend
  on everything called before, so any deterministic engine is an instance.
*/
module Native {
  import opened Wrappers
  import opened SimconnectData
  import opened SeqFacts

  /** The failures the client reports; their message text is not modelled. */
  datatype Error =
    | DataTypeNotImplemented(fieldType: string)
    | NameTagNotFound(fieldName: string)
    | AddToDataDefinitionFailed(name: string)
    | RequestDataFailed(requestID: u32, defineID: u32)
    | RequestDataOnObjectFailed(requestID: u32, defineID: u32, objectID: u32)
    | SetDataFailed(objectID: u32)
    | Exception
    | GetNextDispatchFailed(status: u32)
    | RetriesExhausted(last: Option<Error>)
    | ReceivedException
    | OpenHitDefault(id: u32)
    | SimObjectHitDefault(id: u32)
    | Fail
    | NotAReport

  /** The SimConnect datum id the client passes when it does not name one. */
  const SIMCONNECT_UNUSED: u32 := 0xFFFF_FFFF

  /**
    One entry-point call with its arguments. Strings are passed as
    NUL-terminated byte strings; a unit of `None` is a null pointer.
  */
  datatype Call =
    | AddToDataDefinition(defineID: u32, datumName: string, unitsName: Option<string>, datumType: u32, datumID: u32)
    | RequestDataOnSimObjectType(requestID: u32, defineID: u32, radius: u32, objectType: u32)
    | RequestDataOnSimObject(requestID: u32, defineID: u32, objectID: u32, period: u32)
    | SetDataOnSimObject(defineID: u32, objectID: u32, flags: u32, arrayCount: u32, unitSize: u32, data: seq<seq<real>>)
    | GetNextDispatch

  /** The status a call returns, and the buffer GetNextDispatch leaves in its out-pointer (None: still null). */
  datatype Reply = Reply(status: u32, dispatch: Option<seq<u8>>)

  /** Every entry point signals failure by a status that is negative as an int32. */
  predicate Rejected(status: u32)
  {
    AsInt32(status) < 0
  }

  /** E_FAIL, the "no message" status of GetNextDispatch, is itself a rejected status. */
  lemma EFailIsRejected()
    ensures Rejected(E_FAIL)
    ensures forall s: u32 :: Rejected(s) <==> s >= 0x8000_0000
  {
  }

  class Engine {
    /** Every call made so far, oldest first. */
    var log: seq<Call>
    /** The engine's behaviour: the reply to a call, given the calls before it. */
    const respond: (seq<Call>, Call) -> Reply

    constructor (respond: (seq<Call>, Call) -> Reply)
      ensures log == [] && this.respond == respond
    {
      log := [];
      this.respond := respond;
    }

    /** Makes one call. */
    method Invoke(c: Call) returns (reply: Reply)
      modifies this
      ensures log == old(log) + [c]
      ensures reply == respond(old(log), c)
    {
      reply := respond(log, c);
      log := log + [c];
    }
  }

  /** The status the `i`-th of `calls` gets when they are made in order after `log`. */
  function StatusAt(respond: (seq<Call>, Call) -> Reply, log: seq<Call>, calls: seq<Call>, i: nat): u32
    requires i < |calls|
  {
    respond(log + calls[..i], calls[i]).status
  }

  /**
    The index of the first of `calls` that the engine rejects when they are
    made in order after `log`, if any.
  */
  function FirstRejected(respond: (seq<Call>, Call) -> Reply, log: seq<Call>, calls: seq<Call>): (r: Option<nat>)
    ensures r.Some? ==> r.value < |calls|
    decreases |calls|
  {
    if calls == [] then None
    else if Rejected(respond(log, calls[0]).status) then Some(0)
    else
      match FirstRejected(respond, log + [calls[0]], calls[1..])
      case None => None
      case Some(j) => Some(j + 1)
  }

  /**
    The call `FirstRejected` names is rejected and every call before it is
    accepted; when it names none, every call is accepted.
  */
  lemma {:induction false} FirstRejectedSpec(respond: (seq<Call>, Call) -> Reply, log: seq<Call>, calls: seq<Call>)
    ensures var r := FirstRejected(respond, log, calls);
      && (r.Some? ==> Rejected(StatusAt(respond, log, calls, r.value)))
      && (r.Some? ==> forall i | 0 <= i < r.value :: !Rejected(StatusAt(respond, log, calls, i)))
      && (r.None? ==> forall i | 0 <= i < |calls| :: !Rejected(StatusAt(respond, log, calls, i)))
    decreases |calls|
  {
    if calls != [] {
      assert log + calls[..0] == log;
      if !Rejected(respond(log, calls[0]).status) {
        FirstRejectedSpec(respond, log + [calls[0]], calls[1..]);
        forall i | 1 <= i < |calls|
          ensures StatusAt(respond, log, calls, i) == StatusAt(respond, log + [calls[0]], calls[1..], i - 1)
        {
          assert calls[..i] == [calls[0]] + calls[1..][..i - 1];
          AppendAssociative(log, [calls[0]], calls[1..][..i - 1]);
        }
      }
    }
  }

  /** The first rejection among one more call ahead of a run. */
  lemma FirstRejectedCons(respond: (seq<Call>, Call) -> Reply, log: seq<Call>, c: Call, calls: seq<Call>)
    ensures FirstRejected(respond, log, [c] + calls) ==
      if Rejected(respond(log, c).status) then Some(0)
      else match FirstRejected(respond, log + [c], calls)
        case None => None
        case Some(j) => Some(j + 1)
  {
    ConsParts(c, calls);
  }
}
