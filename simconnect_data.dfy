/**
  Protocol constants and the fixed layouts of the response structures
  (simconnect-data/constants.go).

  Every `Recv*` structure is a run of unsigned 32-bit fields with no padding;
  the client reads them by reinterpreting the engine's memory. Here that
  memory is a byte sequence, and a structure is decoded word by word as
  little-endian u32s at fixed offsets.
*/
module SimconnectData {

  type u8 = x: int | 0 <= x < 0x100
  type u32 = x: int | 0 <= x < 0x1_0000_0000

  const U32_MAX: u32 := 0xFFFF_FFFF

  /** The Windows HRESULT E_FAIL, which the engine returns when no message is queued. */
  const E_FAIL: u32 := 0x8000_4005

  // Data-type tags (an iota enumeration starting at 0)
  const DATATYPE_INVALID: u32 := 0
  const DATATYPE_INT32: u32 := 1
  const DATATYPE_INT64: u32 := 2
  const DATATYPE_FLOAT32: u32 := 3
  const DATATYPE_FLOAT64: u32 := 4
  const DATATYPE_STRING8: u32 := 5
  const DATATYPE_STRING32: u32 := 6
  const DATATYPE_STRING64: u32 := 7
  const DATATYPE_STRING128: u32 := 8
  const DATATYPE_STRING256: u32 := 9
  const DATATYPE_STRING260: u32 := 10
  const DATATYPE_STRINGV: u32 := 11
  const DATATYPE_INITPOSITION: u32 := 12
  const DATATYPE_MARKERSTATE: u32 := 13
  const DATATYPE_WAYPOINT: u32 := 14
  const DATATYPE_LATLONALT: u32 := 15
  const DATATYPE_XYZ: u32 := 16
  const DATATYPE_MAX: u32 := 17

  /** The data-type tags in declaration order. */
  const DataTypeTags: seq<u32> := [
    DATATYPE_INVALID, DATATYPE_INT32, DATATYPE_INT64, DATATYPE_FLOAT32, DATATYPE_FLOAT64,
    DATATYPE_STRING8, DATATYPE_STRING32, DATATYPE_STRING64, DATATYPE_STRING128,
    DATATYPE_STRING256, DATATYPE_STRING260, DATATYPE_STRINGV, DATATYPE_INITPOSITION,
    DATATYPE_MARKERSTATE, DATATYPE_WAYPOINT, DATATYPE_LATLONALT, DATATYPE_XYZ, DATATYPE_MAX]

  // Message kinds of a dispatch (an iota enumeration starting at 0)
  const RECV_ID_NULL: u32 := 0
  const RECV_ID_EXCEPTION: u32 := 1
  const RECV_ID_OPEN: u32 := 2
  const RECV_ID_QUIT: u32 := 3
  const RECV_ID_EVENT: u32 := 4
  const RECV_ID_EVENT_OBJECT_ADDREMOVE: u32 := 5
  const RECV_ID_EVENT_FILENAME: u32 := 6
  const RECV_ID_EVENT_FRAME: u32 := 7
  const RECV_ID_SIMOBJECT_DATA: u32 := 8
  const RECV_ID_SIMOBJECT_DATA_BYTYPE: u32 := 9
  const RECV_ID_WEATHER_OBSERVATION: u32 := 10
  const RECV_ID_CLOUD_STATE: u32 := 11
  const RECV_ID_ASSIGNED_OBJECT_ID: u32 := 12
  const RECV_ID_RESERVED_KEY: u32 := 13
  const RECV_ID_CUSTOM_ACTION: u32 := 14
  const RECV_ID_SYSTEM_STATE: u32 := 15
  const RECV_ID_CLIENT_DATA: u32 := 16
  const RECV_ID_EVENT_WEATHER_MODE: u32 := 17
  const RECV_ID_AIRPORT_LIST: u32 := 18
  const RECV_ID_VOR_LIST: u32 := 19
  const RECV_ID_NDB_LIST: u32 := 20
  const RECV_ID_WAYPOINT_LIST: u32 := 21
  const RECV_ID_EVENT_MULTIPLAYER_SERVER_STARTED: u32 := 22
  const RECV_ID_EVENT_MULTIPLAYER_CLIENT_STARTED: u32 := 23
  const RECV_ID_EVENT_MULTIPLAYER_SESSION_ENDED: u32 := 24
  const RECV_ID_EVENT_RACE_END: u32 := 25
  const RECV_ID_EVENT_RACE_LAP: u32 := 26
  const RECV_ID_PICK: u32 := 27

  /** The message kinds in declaration order. */
  const RecvIds: seq<u32> := [
    RECV_ID_NULL, RECV_ID_EXCEPTION, RECV_ID_OPEN, RECV_ID_QUIT, RECV_ID_EVENT,
    RECV_ID_EVENT_OBJECT_ADDREMOVE, RECV_ID_EVENT_FILENAME, RECV_ID_EVENT_FRAME,
    RECV_ID_SIMOBJECT_DATA, RECV_ID_SIMOBJECT_DATA_BYTYPE, RECV_ID_WEATHER_OBSERVATION,
    RECV_ID_CLOUD_STATE, RECV_ID_ASSIGNED_OBJECT_ID, RECV_ID_RESERVED_KEY,
    RECV_ID_CUSTOM_ACTION, RECV_ID_SYSTEM_STATE, RECV_ID_CLIENT_DATA,
    RECV_ID_EVENT_WEATHER_MODE, RECV_ID_AIRPORT_LIST, RECV_ID_VOR_LIST, RECV_ID_NDB_LIST,
    RECV_ID_WAYPOINT_LIST, RECV_ID_EVENT_MULTIPLAYER_SERVER_STARTED,
    RECV_ID_EVENT_MULTIPLAYER_CLIENT_STARTED, RECV_ID_EVENT_MULTIPLAYER_SESSION_ENDED,
    RECV_ID_EVENT_RACE_END, RECV_ID_EVENT_RACE_LAP, RECV_ID_PICK]

  // Object types (an iota enumeration starting at 0)
  const SIMOBJECT_TYPE_USER: u32 := 0
  const SIMOBJECT_TYPE_ALL: u32 := 1
  const SIMOBJECT_TYPE_AIRCRAFT: u32 := 2
  const SIMOBJECT_TYPE_HELICOPTER: u32 := 3
  const SIMOBJECT_TYPE_BOAT: u32 := 4
  const SIMOBJECT_TYPE_GROUND: u32 := 5

  // Request periods (an iota enumeration starting at 0)
  const SIMCONNECT_PERIOD_NEVER: u32 := 0
  const SIMCONNECT_PERIOD_ONCE: u32 := 1
  const SIMCONNECT_PERIOD_VISUAL_FRAME: u32 := 2
  const SIMCONNECT_PERIOD_SIM_FRAME: u32 := 3
  const SIMCONNECT_PERIOD_SECOND: u32 := 4

  /** Every enumeration is numbered consecutively from 0 in declaration order. */
  lemma EnumerationsAreConsecutive()
    ensures |DataTypeTags| == 18 && forall i | 0 <= i < |DataTypeTags| :: DataTypeTags[i] == i
    ensures |RecvIds| == 28 && forall i | 0 <= i < |RecvIds| :: RecvIds[i] == i
    ensures [SIMOBJECT_TYPE_USER, SIMOBJECT_TYPE_ALL, SIMOBJECT_TYPE_AIRCRAFT,
             SIMOBJECT_TYPE_HELICOPTER, SIMOBJECT_TYPE_BOAT, SIMOBJECT_TYPE_GROUND] == [0, 1, 2, 3, 4, 5]
    ensures [SIMCONNECT_PERIOD_NEVER, SIMCONNECT_PERIOD_ONCE, SIMCONNECT_PERIOD_VISUAL_FRAME,
             SIMCONNECT_PERIOD_SIM_FRAME, SIMCONNECT_PERIOD_SECOND] == [0, 1, 2, 3, 4]
  {
  }

  /** The same 32 bits read as a two's-complement int32 (Go's `int32(r1)`). */
  function AsInt32(x: u32): (r: int)
    ensures -0x8000_0000 <= r < 0x8000_0000
    ensures r % 0x1_0000_0000 == x
    ensures r < 0 <==> x >= 0x8000_0000
  {
    if x < 0x8000_0000 then x else x - 0x1_0000_0000
  }

  /** E_FAIL has its top bit set, so as an int32 it is a failure code. */
  lemma EFailIsNegative()
    ensures AsInt32(E_FAIL) < 0
    ensures AsInt32(E_FAIL) == -0x7FFF_BFFB
  {
  }

  // ---------------------------------------------------------------------------
  // Little-endian words

  /** The four bytes of `x`, least significant first. */
  function U32ToLE(x: u32): (b: seq<u8>)
    ensures |b| == 4
  {
    [x % 0x100, (x / 0x100) % 0x100, (x / 0x1_0000) % 0x100, x / 0x100_0000]
  }

  /** The u32 whose little-endian bytes are b0, b1, b2, b3. */
  function LEToU32(b0: u8, b1: u8, b2: u8, b3: u8): u32
  {
    b0 + 0x100 * (b1 + 0x100 * (b2 + 0x100 * b3))
  }

  /** Writing a word and reading its four bytes back gives the word. */
  lemma U32RoundTrip(x: u32)
    ensures var b := U32ToLE(x); LEToU32(b[0], b[1], b[2], b[3]) == x
  {
    var q1 := x / 0x100;
    var q2 := q1 / 0x100;
    assert x == x % 0x100 + 0x100 * q1;
    assert q1 == q1 % 0x100 + 0x100 * q2;
    assert x / 0x1_0000 == q2;
    assert x / 0x100_0000 == q2 / 0x100;
    assert q2 == q2 % 0x100 + 0x100 * (q2 / 0x100);
  }

  /** Reading four bytes back and writing them again gives the same four bytes. */
  lemma LEBytesRoundTrip(b0: u8, b1: u8, b2: u8, b3: u8)
    ensures U32ToLE(LEToU32(b0, b1, b2, b3)) == [b0, b1, b2, b3]
  {
    var x := LEToU32(b0, b1, b2, b3);
    var hi := b1 + 0x100 * (b2 + 0x100 * b3);
    assert x / 0x100 == hi && x % 0x100 == b0;
    var hi2 := b2 + 0x100 * b3;
    assert hi == b1 + 0x100 * hi2;
    assert x / 0x1_0000 == hi / 0x100 == hi2;
    assert x / 0x100_0000 == hi2 / 0x100 == b3;
  }

  /**
    The byte at offset `i` of a dispatch buffer. The client never checks a
    buffer's length before reading a structure from it; bytes beyond the end
    read as 0 here.
  */
  function ByteAt(mem: seq<u8>, i: nat): u8
  {
    if i < |mem| then mem[i] else 0
  }

  /** The u32 stored little-endian at byte offset `off`. */
  function ReadU32(mem: seq<u8>, off: nat): u32
  {
    LEToU32(ByteAt(mem, off), ByteAt(mem, off + 1), ByteAt(mem, off + 2), ByteAt(mem, off + 3))
  }

  /** The first `n` words of a buffer. */
  function ReadWords(mem: seq<u8>, n: nat): (ws: seq<u32>)
    ensures |ws| == n
  {
    seq(n, i requires 0 <= i < n => ReadU32(mem, 4 * i))
  }

  /** A run of u32 fields laid out contiguously with no padding. */
  function EncodeWords(ws: seq<u32>): (b: seq<u8>)
    ensures |b| == 4 * |ws|
  {
    if ws == [] then [] else U32ToLE(ws[0]) + EncodeWords(ws[1..])
  }

  /** Word `i` of an encoded run occupies bytes 4i .. 4i+4. */
  lemma {:induction false} EncodeWordsAt(ws: seq<u32>, i: nat)
    requires i < |ws|
    ensures EncodeWords(ws)[4 * i .. 4 * i + 4] == U32ToLE(ws[i])
  {
    if i > 0 {
      EncodeWordsAt(ws[1..], i - 1);
      var tail := EncodeWords(ws[1..]);
      assert EncodeWords(ws) == U32ToLE(ws[0]) + tail;
      assert EncodeWords(ws)[4 * i .. 4 * i + 4] == tail[4 * (i - 1) .. 4 * (i - 1) + 4];
    }
  }

  /** A word stored at `off` reads back as itself. */
  lemma ReadStoredWord(mem: seq<u8>, off: nat, x: u32)
    requires off + 4 <= |mem| && mem[off .. off + 4] == U32ToLE(x)
    ensures ReadU32(mem, off) == x
  {
    var b := U32ToLE(x);
    U32RoundTrip(x);
    assert mem[off] == b[0] && mem[off + 1] == b[1] && mem[off + 2] == b[2] && mem[off + 3] == b[3];
  }

  /** The bytes of the word read at offset 0 are the buffer's first four bytes. */
  lemma StoredFirstWord(mem: seq<u8>)
    requires |mem| >= 4
    ensures U32ToLE(ReadU32(mem, 0)) == mem[..4]
  {
    LEBytesRoundTrip(mem[0], mem[1], mem[2], mem[3]);
  }

  /** Reading at `off + 4` is reading at `off` after dropping four bytes. */
  lemma ReadU32Shift(mem: seq<u8>, off: nat)
    requires |mem| >= 4
    ensures ReadU32(mem[4..], off) == ReadU32(mem, off + 4)
  {
    assert ByteAt(mem[4..], off) == ByteAt(mem, off + 4);
    assert ByteAt(mem[4..], off + 1) == ByteAt(mem, off + 5);
    assert ByteAt(mem[4..], off + 2) == ByteAt(mem, off + 6);
    assert ByteAt(mem[4..], off + 3) == ByteAt(mem, off + 7);
  }

  /** Dropping the first four bytes shifts the words by one. */
  lemma ReadWordsShift(mem: seq<u8>, n: nat)
    requires |mem| >= 4
    ensures ReadWords(mem, n + 1)[1..] == ReadWords(mem[4..], n)
  {
    var a, b := ReadWords(mem, n + 1)[1..], ReadWords(mem[4..], n);
    forall i | 0 <= i < n
      ensures a[i] == b[i]
    {
      assert a[i] == ReadU32(mem, 4 * i + 4);
      assert b[i] == ReadU32(mem[4..], 4 * i);
      ReadU32Shift(mem, 4 * i);
    }
  }

  /** Decoding words from an encoded run (followed by anything) gives the run back. */
  lemma {:induction false} ReadEncodedWords(ws: seq<u32>, rest: seq<u8>)
    ensures ReadWords(EncodeWords(ws) + rest, |ws|) == ws
  {
    var mem := EncodeWords(ws) + rest;
    var read := ReadWords(mem, |ws|);
    forall i | 0 <= i < |ws|
      ensures read[i] == ws[i]
    {
      assert read[i] == ReadU32(mem, 4 * i);
      EncodeWordsAt(ws, i);
      assert mem[4 * i .. 4 * i + 4] == EncodeWords(ws)[4 * i .. 4 * i + 4];
      ReadStoredWord(mem, 4 * i, ws[i]);
    }
  }

  /** A run whose first word and remaining words each match a buffer matches it as a whole. */
  lemma EncodeWordsCons(mem: seq<u8>, ws: seq<u32>)
    requires 4 * |ws| <= |mem| && |ws| > 0
    requires U32ToLE(ws[0]) == mem[..4]
    requires EncodeWords(ws[1..]) == mem[4..][..4 * (|ws| - 1)]
    ensures EncodeWords(ws) == mem[..4 * |ws|]
  {
    assert mem[..4 * |ws|] == mem[..4] + mem[4..][..4 * (|ws| - 1)];
  }

  /** Encoding the words read from a long enough buffer gives back its prefix. */
  lemma {:induction false} EncodeReadWords(mem: seq<u8>, n: nat)
    requires 4 * n <= |mem|
    ensures EncodeWords(ReadWords(mem, n)) == mem[..4 * n]
  {
    if n > 0 {
      var ws := ReadWords(mem, n);
      StoredFirstWord(mem);
      ReadWordsShift(mem, n - 1);
      EncodeReadWords(mem[4..], n - 1);
      EncodeWordsCons(mem, ws);
    }
  }

  // ---------------------------------------------------------------------------
  // Response layouts

  /** The header every dispatch starts with. */
  datatype Recv = Recv(size: u32, version: u32, id: u32)

  /** An exception dispatch: which call failed and on which parameter. */
  datatype RecvException = RecvException(recv: Recv, exception: u32, sendID: u32, index: u32)

  /** An object-data dispatch; the by-type wrapper adds no fields, so it shares this layout. */
  datatype RecvSimobjectData = RecvSimobjectData(
    recv: Recv, requestID: u32, objectID: u32, defineID: u32, flags: u32,
    entryNumber: u32, outOf: u32, defineCount: u32)

  /** An assigned-object dispatch; the ID wrapper adds no fields, so it shares this layout. */
  datatype RecvAssignedObject = RecvAssignedObject(recv: Recv, requestID: u32, objectID: u32)

  type RecvSimobjectDataByType = RecvSimobjectData
  type RecvAssignedObjectID = RecvAssignedObject

  const RECV_SIZE: nat := 12
  const RECV_EXCEPTION_SIZE: nat := 24
  const RECV_SIMOBJECT_DATA_SIZE: nat := 40
  const RECV_ASSIGNED_OBJECT_SIZE: nat := 20

  const RECV_ID_OFFSET: nat := 8
  const EXCEPTION_OFFSET: nat := 12
  const SEND_ID_OFFSET: nat := 16
  const INDEX_OFFSET: nat := 20
  const REQUEST_ID_OFFSET: nat := 12
  const OBJECT_ID_OFFSET: nat := 16

  function RecvWords(h: Recv): (ws: seq<u32>)
    ensures |ws| * 4 == RECV_SIZE
  {
    [h.size, h.version, h.id]
  }

  function RecvExceptionWords(e: RecvException): (ws: seq<u32>)
    ensures |ws| * 4 == RECV_EXCEPTION_SIZE
    ensures ws[..3] == RecvWords(e.recv)
  {
    RecvWords(e.recv) + [e.exception, e.sendID, e.index]
  }

  function RecvSimobjectDataWords(d: RecvSimobjectData): (ws: seq<u32>)
    ensures |ws| * 4 == RECV_SIMOBJECT_DATA_SIZE
    ensures ws[..3] == RecvWords(d.recv)
  {
    RecvWords(d.recv) + [d.requestID, d.objectID, d.defineID, d.flags, d.entryNumber, d.outOf, d.defineCount]
  }

  function RecvAssignedObjectWords(a: RecvAssignedObject): (ws: seq<u32>)
    ensures |ws| * 4 == RECV_ASSIGNED_OBJECT_SIZE
    ensures ws[..3] == RecvWords(a.recv)
  {
    RecvWords(a.recv) + [a.requestID, a.objectID]
  }

  function RecvOfWords(ws: seq<u32>): Recv
    requires |ws| >= 3
  {
    Recv(ws[0], ws[1], ws[2])
  }

  /** `(*Recv)(ppData)`: the header of a dispatch. */
  function DecodeRecv(mem: seq<u8>): Recv
  {
    RecvOfWords(ReadWords(mem, 3))
  }

  /** `(*RecvException)(ppData)` */
  function DecodeRecvException(mem: seq<u8>): RecvException
  {
    var ws := ReadWords(mem, 6);
    RecvException(RecvOfWords(ws), ws[3], ws[4], ws[5])
  }

  /** `(*RecvSimobjectData)(ppData)` and `(*RecvSimobjectDataByType)(ppData)` */
  function DecodeRecvSimobjectData(mem: seq<u8>): RecvSimobjectData
  {
    var ws := ReadWords(mem, 10);
    RecvSimobjectData(RecvOfWords(ws), ws[3], ws[4], ws[5], ws[6], ws[7], ws[8], ws[9])
  }

  /** `(*RecvAssignedObject)(ppData)` and `(*RecvAssignedObjectID)(ppData)` */
  function DecodeRecvAssignedObject(mem: seq<u8>): RecvAssignedObject
  {
    var ws := ReadWords(mem, 5);
    RecvAssignedObject(RecvOfWords(ws), ws[3], ws[4])
  }

  /** The bytes of a header as the engine lays them out. */
  function EncodeRecv(h: Recv): (b: seq<u8>)
    ensures |b| == RECV_SIZE
    ensures b[RECV_ID_OFFSET .. RECV_ID_OFFSET + 4] == U32ToLE(h.id)
  {
    EncodeWordsAt(RecvWords(h), 2);
    EncodeWords(RecvWords(h))
  }

  function EncodeRecvException(e: RecvException): (b: seq<u8>)
    ensures |b| == RECV_EXCEPTION_SIZE
    ensures b[..RECV_SIZE] == EncodeRecv(e.recv)
    ensures b[EXCEPTION_OFFSET .. EXCEPTION_OFFSET + 4] == U32ToLE(e.exception)
    ensures b[SEND_ID_OFFSET .. SEND_ID_OFFSET + 4] == U32ToLE(e.sendID)
    ensures b[INDEX_OFFSET .. INDEX_OFFSET + 4] == U32ToLE(e.index)
  {
    var ws := RecvExceptionWords(e);
    EncodeWordsAt(ws, 3);
    EncodeWordsAt(ws, 4);
    EncodeWordsAt(ws, 5);
    EncodePrefix(ws, 3);
    EncodeWords(ws)
  }

  function EncodeRecvSimobjectData(d: RecvSimobjectData): (b: seq<u8>)
    ensures |b| == RECV_SIMOBJECT_DATA_SIZE
    ensures b[..RECV_SIZE] == EncodeRecv(d.recv)
    ensures b[REQUEST_ID_OFFSET .. REQUEST_ID_OFFSET + 4] == U32ToLE(d.requestID)
    ensures b[OBJECT_ID_OFFSET .. OBJECT_ID_OFFSET + 4] == U32ToLE(d.objectID)
  {
    var ws := RecvSimobjectDataWords(d);
    EncodeWordsAt(ws, 3);
    EncodeWordsAt(ws, 4);
    EncodePrefix(ws, 3);
    EncodeWords(ws)
  }

  function EncodeRecvAssignedObject(a: RecvAssignedObject): (b: seq<u8>)
    ensures |b| == RECV_ASSIGNED_OBJECT_SIZE
    ensures b[..RECV_SIZE] == EncodeRecv(a.recv)
    ensures b[REQUEST_ID_OFFSET .. REQUEST_ID_OFFSET + 4] == U32ToLE(a.requestID)
    ensures b[OBJECT_ID_OFFSET .. OBJECT_ID_OFFSET + 4] == U32ToLE(a.objectID)
  {
    var ws := RecvAssignedObjectWords(a);
    EncodeWordsAt(ws, 3);
    EncodeWordsAt(ws, 4);
    EncodePrefix(ws, 3);
    EncodeWords(ws)
  }

  /** Encoding a prefix of a run gives a prefix of the encoding. */
  lemma {:induction false} EncodePrefix(ws: seq<u32>, k: nat)
    requires k <= |ws|
    ensures EncodeWords(ws)[..4 * k] == EncodeWords(ws[..k])
  {
    if k > 0 {
      EncodePrefix(ws[1..], k - 1);
      assert ws[1..][..k - 1] == ws[..k][1..];
    }
  }

  /** Each layout decodes back to what was encoded, whatever follows it in memory. */
  lemma LayoutsRoundTrip(h: Recv, e: RecvException, d: RecvSimobjectData, a: RecvAssignedObject, rest: seq<u8>)
    ensures DecodeRecv(EncodeRecv(h) + rest) == h
    ensures DecodeRecvException(EncodeRecvException(e) + rest) == e
    ensures DecodeRecvSimobjectData(EncodeRecvSimobjectData(d) + rest) == d
    ensures DecodeRecvAssignedObject(EncodeRecvAssignedObject(a) + rest) == a
  {
    ReadEncodedWords(RecvWords(h), rest);
    ReadEncodedWords(RecvExceptionWords(e), rest);
    ReadEncodedWords(RecvSimobjectDataWords(d), rest);
    ReadEncodedWords(RecvAssignedObjectWords(a), rest);
  }

  /** Each layout, decoded from a long enough buffer, re-encodes to that buffer's prefix. */
  lemma LayoutsEncodeDecoded(mem: seq<u8>)
    ensures |mem| >= RECV_SIZE ==> EncodeRecv(DecodeRecv(mem)) == mem[..RECV_SIZE]
    ensures |mem| >= RECV_EXCEPTION_SIZE ==> EncodeRecvException(DecodeRecvException(mem)) == mem[..RECV_EXCEPTION_SIZE]
    ensures |mem| >= RECV_SIMOBJECT_DATA_SIZE ==> EncodeRecvSimobjectData(DecodeRecvSimobjectData(mem)) == mem[..RECV_SIMOBJECT_DATA_SIZE]
    ensures |mem| >= RECV_ASSIGNED_OBJECT_SIZE ==> EncodeRecvAssignedObject(DecodeRecvAssignedObject(mem)) == mem[..RECV_ASSIGNED_OBJECT_SIZE]
  {
    if |mem| >= RECV_SIZE {
      EncodeReadWords(mem, 3);
      assert RecvWords(DecodeRecv(mem)) == ReadWords(mem, 3);
    }
    if |mem| >= RECV_EXCEPTION_SIZE {
      EncodeReadWords(mem, 6);
      assert RecvExceptionWords(DecodeRecvException(mem)) == ReadWords(mem, 6);
    }
    if |mem| >= RECV_SIMOBJECT_DATA_SIZE {
      EncodeReadWords(mem, 10);
      assert RecvSimobjectDataWords(DecodeRecvSimobjectData(mem)) == ReadWords(mem, 10);
    }
    if |mem| >= RECV_ASSIGNED_OBJECT_SIZE {
      EncodeReadWords(mem, 5);
      assert RecvAssignedObjectWords(DecodeRecvAssignedObject(mem)) == ReadWords(mem, 5);
    }
  }

  /**
    Every response structure embeds the header first, so reading any of them
    from a buffer sees the same header; the kind is the word at offset 8, and
    the request and object ids sit at offsets 12 and 16.
  */
  lemma LayoutOffsets(mem: seq<u8>)
    ensures DecodeRecv(mem).id == ReadU32(mem, RECV_ID_OFFSET)
    ensures DecodeRecvException(mem).recv == DecodeRecv(mem)
    ensures DecodeRecvSimobjectData(mem).recv == DecodeRecv(mem)
    ensures DecodeRecvAssignedObject(mem).recv == DecodeRecv(mem)
    ensures DecodeRecvException(mem).exception == ReadU32(mem, EXCEPTION_OFFSET)
    ensures DecodeRecvException(mem).sendID == ReadU32(mem, SEND_ID_OFFSET)
    ensures DecodeRecvException(mem).index == ReadU32(mem, INDEX_OFFSET)
    ensures DecodeRecvSimobjectData(mem).requestID == ReadU32(mem, REQUEST_ID_OFFSET)
    ensures DecodeRecvSimobjectData(mem).objectID == ReadU32(mem, OBJECT_ID_OFFSET)
    ensures DecodeRecvAssignedObject(mem).requestID == ReadU32(mem, REQUEST_ID_OFFSET)
    ensures DecodeRecvAssignedObject(mem).objectID == ReadU32(mem, OBJECT_ID_OFFSET)
  {
  }
}
