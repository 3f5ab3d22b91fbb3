/** Session protocol data units (EN 50221, section 7.2.4). */
module Spdu {
  import opened Basics

  const SPDU_HEADER_SIZE: nat := 4

  const SS_OK: byte := 0x00
  const SS_NOT_ALLOCATED: byte := 0xF0
  const SS_LOWER_VERSION: byte := 0xF2
  const SS_BUSY: byte := 0xF3

  const SESSION_NUMBER: byte := 0x90
  const OPEN_SESSION_REQUEST: byte := 0x91
  const OPEN_SESSION_RESPONSE: byte := 0x92
  const CREATE_SESSION_RESPONSE: byte := 0x94
  const CLOSE_SESSION_REQUEST: byte := 0x95
  const CLOSE_SESSION_RESPONSE: byte := 0x96

  /** SPDUs a module sends to the host. */
  datatype Spdu =
    | SessionNumber(sessionId: u16, apdu: seq<byte>)
    | OpenSessionRequest(resourceId: u32)
    | CreateSessionResponse(status: byte, resourceId: u32, sessionId: u16)
    | CloseSessionRequest(sessionId: u16)
    | CloseSessionResponse(status: byte, sessionId: u16)

  /** Tag, length and size agree: the `check` of every branch of `Parse`. */
  predicate Sized(data: seq<byte>, size: nat, exact: bool)
    requires 2 <= size < 0x100
  {
    (if exact then |data| == size else |data| >= size) && data[1] == size - 2
  }

  function Parse(data: seq<byte>): Result<Spdu> {
    if data == [] then Err(InvalidData)
    else if data[0] == SESSION_NUMBER then
      if Sized(data, SPDU_HEADER_SIZE, false)
      then Ok(SessionNumber(ReadU16(data[2..4]), data[SPDU_HEADER_SIZE..]))
      else Err(InvalidData)
    else if data[0] == OPEN_SESSION_REQUEST then
      if Sized(data, 6, true) then Ok(OpenSessionRequest(ReadU32(data[2..6]))) else Err(InvalidData)
    else if data[0] == CREATE_SESSION_RESPONSE then
      if Sized(data, 9, true)
      then Ok(CreateSessionResponse(data[2], ReadU32(data[3..7]), ReadU16(data[7..9])))
      else Err(InvalidData)
    else if data[0] == CLOSE_SESSION_REQUEST then
      if Sized(data, 4, true) then Ok(CloseSessionRequest(ReadU16(data[2..4]))) else Err(InvalidData)
    else if data[0] == CLOSE_SESSION_RESPONSE then
      if Sized(data, 5, true)
      then Ok(CloseSessionResponse(data[2], ReadU16(data[3..5])))
      else Err(InvalidData)
    else Err(InvalidData)
  }

  function BuildSessionNumber(sessionId: u16): seq<byte> {
    [SESSION_NUMBER, 2] + BigEndian(sessionId)
  }

  function BuildOpenSessionResponse(status: byte, resourceId: u32, sessionId: u16): seq<byte> {
    [OPEN_SESSION_RESPONSE, 7, status] + BigEndian32(resourceId) + BigEndian(sessionId)
  }

  function BuildCloseSessionRequest(sessionId: u16): seq<byte> {
    [CLOSE_SESSION_REQUEST, 2] + BigEndian(sessionId)
  }

  function BuildCloseSessionResponse(status: byte, sessionId: u16): seq<byte> {
    [CLOSE_SESSION_RESPONSE, 3, status] + BigEndian(sessionId)
  }

  /** The coding of EN 50221, section 7.2.4, for the module's direction. */
  function Encode(s: Spdu): seq<byte> {
    match s
    case SessionNumber(id, apdu) => [0x90, 2] + BigEndian(id) + apdu
    case OpenSessionRequest(r) => [0x91, 4] + BigEndian32(r)
    case CreateSessionResponse(status, r, id) => [0x94, 7, status] + BigEndian32(r) + BigEndian(id)
    case CloseSessionRequest(id) => [0x95, 2] + BigEndian(id)
    case CloseSessionResponse(status, id) => [0x96, 3, status] + BigEndian(id)
  }

  /** What the host builds is in the same coding, as the module's peer reads it. */
  lemma BuiltIsCoded(status: byte, resourceId: u32, sessionId: u16, apdu: seq<byte>)
    ensures BuildSessionNumber(sessionId) + apdu == Encode(SessionNumber(sessionId, apdu))
    ensures BuildCloseSessionRequest(sessionId) == Encode(CloseSessionRequest(sessionId))
    ensures BuildCloseSessionResponse(status, sessionId) == Encode(CloseSessionResponse(status, sessionId))
    ensures BuildOpenSessionResponse(status, resourceId, sessionId)
         == [0x92, 7, status] + BigEndian32(resourceId) + BigEndian(sessionId)
  {
  }

  /** The parser is the inverse of the coding on both sides: it accepts exactly
      the coded SPDUs and nothing else. */
  lemma ParseExact(data: seq<byte>, s: Spdu)
    ensures Parse(data) == Ok(s) <==> data == Encode(s)
  {
    if Parse(data) == Ok(s) {
      ParsedIsCoded(data, s);
    }
    if data == Encode(s) {
      CodedIsParsed(s);
    }
  }

  lemma ParsedIsCoded(data: seq<byte>, s: Spdu)
    requires Parse(data) == Ok(s)
    ensures data == Encode(s)
  {
    match s
    case SessionNumber(id, apdu) =>
      ReadU16Inverse(id, data[2..4]);
      assert data == [data[0], data[1]] + data[2..4] + data[4..];
    case OpenSessionRequest(r) =>
      ReadU32Inverse(r, data[2..6]);
      assert data == [data[0], data[1]] + data[2..6];
    case CreateSessionResponse(status, r, id) =>
      ReadU32Inverse(r, data[3..7]);
      ReadU16Inverse(id, data[7..9]);
      assert data == [data[0], data[1], data[2]] + data[3..7] + data[7..9];
    case CloseSessionRequest(id) =>
      ReadU16Inverse(id, data[2..4]);
      assert data == [data[0], data[1]] + data[2..4];
    case CloseSessionResponse(status, id) =>
      ReadU16Inverse(id, data[3..5]);
      assert data == [data[0], data[1], data[2]] + data[3..5];
  }

  lemma CodedIsParsed(s: Spdu)
    ensures Parse(Encode(s)) == Ok(s)
  {
    var data := Encode(s);
    match s
    case SessionNumber(id, apdu) =>
      ReadU16Inverse(id, BigEndian(id));
      assert data[2..4] == BigEndian(id) && data[4..] == apdu;
    case OpenSessionRequest(r) =>
      ReadU32Inverse(r, BigEndian32(r));
      assert data[2..6] == BigEndian32(r);
    case CreateSessionResponse(status, r, id) =>
      ReadU32Inverse(r, BigEndian32(r));
      ReadU16Inverse(id, BigEndian(id));
      assert data[3..7] == BigEndian32(r) && data[7..9] == BigEndian(id);
    case CloseSessionRequest(id) =>
      ReadU16Inverse(id, BigEndian(id));
      assert data[2..4] == BigEndian(id);
    case CloseSessionResponse(status, id) =>
      ReadU16Inverse(id, BigEndian(id));
      assert data[3..5] == BigEndian(id);
  }
}
