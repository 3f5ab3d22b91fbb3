/** Activity reported to the application. Human-readable context is not modelled. */
module Events {
  import opened Basics

  datatype SlotStatus = Absent | Present | CreatingTc | Active | Failed

  datatype CamStatus = NoInfo | AppInfoOnly | CaInfoOnly | Ready

  datatype SlotFailure =
    | UnsupportedInterface
    | CreateTcTimeout
    | ResponseTimeout
    | WriteTimeout
    | SlotInfoFailed
    | LinkFailed
    | ResetFailed

  datatype ApplicationInfo =
    ApplicationInfo(applicationType: byte, manufacturer: u16, code: u16, menuString: seq<byte>)

  datatype MmiMenu =
    MmiMenu(title: seq<byte>, subTitle: seq<byte>, bottom: seq<byte>, items: seq<seq<byte>>)

  datatype CaEvent =
    | SlotStatusChanged(slotId: byte, oldStatus: SlotStatus, newStatus: SlotStatus)
    | CamStatusChanged(slotId: byte, oldCam: CamStatus, newCam: CamStatus)
    | SlotFailed(slotId: byte, reason: SlotFailure)
    | TransportReady(slotId: byte)
    | MalformedData(slotId: byte)
    | SessionOpened(slotId: byte, sessionId: u16, resourceId: u32)
    | SessionRefused(slotId: byte, resourceId: u32, status: byte)
    | SessionClosed(slotId: byte, sessionId: u16, resourceId: u32)
    | AppInfoReceived(slotId: byte, info: ApplicationInfo)
    | CaInfoReceived(slotId: byte, sessionId: u16, caids: seq<u16>)
    | MmiClose(slotId: byte, sessionId: u16, delay: Option<byte>)
    | MmiText(slotId: byte, sessionId: u16, text: seq<byte>)
    | MmiMenuShown(slotId: byte, sessionId: u16, menu: MmiMenu)
    | MmiListShown(slotId: byte, sessionId: u16, menu: MmiMenu)
    | MmiEnq(slotId: byte, sessionId: u16, blind: bool, answerLen: byte, text: seq<byte>)
    | HostRequest(slotId: byte, tag: int, body: seq<byte>)

  /** A resource's data error is reported as malformed data. */
  function Refusal(slotId: byte, r: Result<()>): seq<CaEvent> {
    if r.Err? then [MalformedData(slotId)] else []
  }
}
