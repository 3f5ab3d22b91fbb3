/** The kernel CA device as the stack sees it. Every outcome of a system call is
    arbitrary, so what is proved above it holds for every behaviour of the link. */
module Device {
  import opened Basics
  import opened Tpdu

  datatype WriteOutcome =
    | Accepted
    | Transient      // WouldBlock or Interrupted
    | Broken         // any other I/O error
    | Truncated      // fewer bytes accepted than offered

  /** Result of the link write, as `CaDevice::send_msg` reports it. */
  datatype SendResult = Sent | Retry | Failed(error: Error)

  /** One frame offered to the link, and what became of it. */
  datatype Attempt = Attempt(frame: seq<byte>, result: SendResult)

  datatype ReadOutcome = NoData | Frame(bytes: seq<byte>) | ReadFailed

  /** The flags of a slot that matter: module present, module ready, link interface. */
  datatype SlotInfo = SlotInfo(modulePresent: bool, moduleReady: bool, linkInterface: bool)

  /** One answer of CA_GET_SLOT_INFO. */
  datatype Reading = Reading(slotId: byte, info: Result<SlotInfo>)

  class CaDevice {
    /** Every frame offered to the link, in order. */
    ghost var writes: seq<Attempt>
    /** Every frame the link delivered, in order. */
    ghost var received: seq<seq<byte>>
    /** How many reads found nothing. */
    ghost var dries: nat
    /** Every reading of slot flags, and every global reset with its outcome. */
    ghost var readings: seq<Reading>
    ghost var resets: seq<bool>

    constructor ()
      ensures writes == [] && received == [] && readings == [] && resets == []
    {
      writes, received, dries, readings, resets := [], [], 0, [], [];
    }

    /** Writes one raw link frame. */
    method SendMsg(frame: seq<byte>) returns (r: SendResult)
      modifies this`writes
      ensures r.Failed? ==> IsLinkError(r.error)
      ensures writes == old(writes) + [Attempt(frame, r)]
    {
      var outcome: WriteOutcome := *;
      match outcome {
        case Accepted => r := Sent;
        case Transient => r := Retry;
        case Broken => r := Failed(Io);
        case Truncated => r := Failed(ShortWrite);
      }
      writes := writes + [Attempt(frame, r)];
    }

    /** Reads one raw link frame into a buffer of MAX_TPDU_SIZE bytes. */
    method RecvMsg() returns (r: Result<Option<seq<byte>>>)
      modifies this`received, this`dries
      ensures r.Err? ==> r.error == Io
      ensures dries == old(dries) + if r == Ok(None) then 1 else 0
      ensures r.Ok? && r.value.Some? ==> 0 < |r.value.value| <= MAX_TPDU_SIZE
      ensures received == old(received) + if r.Ok? && r.value.Some? then [r.value.value] else []
    {
      var outcome: ReadOutcome := *;
      match outcome {
        case NoData =>
          dries := dries + 1;
          r := Ok(None);
        case ReadFailed => r := Err(Io);
        case Frame(bytes) =>
          if bytes == [] {
            return Err(Io);
          }
          var frame := if |bytes| <= MAX_TPDU_SIZE then bytes else bytes[..MAX_TPDU_SIZE];
          received := received + [frame];
          r := Ok(Some(frame));
      }
    }

    /** The global CA_RESET. */
    method Reset() returns (r: Result<()>)
      modifies this`resets
      ensures r.Err? ==> r.error == Io
      ensures resets == old(resets) + [r.Ok?]
    {
      var failed: bool := *;
      r := if failed then Err(Io) else Ok(());
      resets := resets + [r.Ok?];
    }

    /** CA_GET_SLOT_INFO of one slot. */
    method ReadSlotInfo(slotId: byte) returns (r: Result<SlotInfo>)
      modifies this`readings
      ensures r.Err? ==> r.error == Io
      ensures readings == old(readings) + [Reading(slotId, r)]
    {
      var failed: bool := *;
      var present: bool, ready: bool, link: bool := *, *, *;
      r := if failed then Err(Io) else Ok(SlotInfo(present, ready, link));
      readings := readings + [Reading(slotId, r)];
    }
  }
}
