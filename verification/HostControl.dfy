/** Host Control resource (EN 50221, section 8.4.4): requests handed to the
    application. The fields of a request stay in its body. */
module HostControl {
  import opened Basics
  import opened Events
  import Apdu

  /** The shortest body of each request. */
  function LeastBody(tag: Apdu.ApduTag): Option<nat> {
    if tag == Apdu.TUNE then Some(8)
    else if tag == Apdu.REPLACE then Some(5)
    else if tag == Apdu.CLEAR_REPLACE then Some(1)
    else None
  }

  function OnApdu(slotId: byte, tag: Apdu.ApduTag, body: seq<byte>): (r: Result<CaEvent>)
    ensures r.Ok? <==>
              || (tag == 0x9F_8400 && |body| >= 8)
              || (tag == 0x9F_8401 && |body| >= 5)
              || (tag == 0x9F_8402 && |body| >= 1)
    ensures if r.Ok? then r.value == HostRequest(slotId, tag, body) else r.error == InvalidData
  {
    if LeastBody(tag) == None || |body| < LeastBody(tag).value then Err(InvalidData)
    else Ok(HostRequest(slotId, tag, body))
  }
}
