/**
 The packets of the Xbox One controller as the C structs of XboxOneInputPackets.h lay them out:
 packed, little-endian, a four-byte header first.
 */
module XboxPackets {
  import opened Bits

  const IN_GUIDE: byte := 0x07
  const IN_BUTTON: byte := 0x20

  const REPORT_HEADER_SIZE := 4
  const BUTTON_REPORT_SIZE: byte := 14
  const GUIDE_REPORT_SIZE: byte := 2

  // The button masks.
  const SYNC := 0x0001
  const GUIDE := 0x0002
  const MENU := 0x0004
  const VIEW := 0x0008
  const A := 0x0010
  const B := 0x0020
  const X := 0x0040
  const Y := 0x0080
  const DPAD_UP := 0x0100
  const DPAD_DOWN := 0x0200
  const DPAD_LEFT := 0x0400
  const DPAD_RIGHT := 0x0800
  const LEFT_SHOULDER := 0x1000
  const RIGHT_SHOULDER := 0x2000
  const LEFT_THUMB := 0x4000
  const RIGHT_THUMB := 0x8000

  datatype Header = Header(packetType: byte, version: byte, counter: byte, size: byte)

  datatype ButtonReport = ButtonReport(
    header: Header, buttons: uint16, trigL: uint16, trigR: uint16,
    leftX: int16, leftY: int16, rightX: int16, rightY: int16)

  datatype GuideReport = GuideReport(header: Header, guide: byte, reserved1: byte)

  const INIT_PACKET: seq<byte> := [0x05, 0x20, 0x00, 0x01, 0x00]
  const SWAP_TO_WIRED_PACKET: seq<byte> := [0x05, 0x20, 0x00, 0x0f, 0x06]

  /** The thirteen bytes of the guide response struct, and the nine of them that are sent. */
  const GUIDE_RESPONSE: seq<byte> := [0x01, 0x20, 0x00, 0x09, 0x00, 0x07, 0x20, 0x02, 0, 0, 0, 0, 0]
  const GUIDE_RESPONSE_SIZE := |GUIDE_RESPONSE| - REPORT_HEADER_SIZE
  const GUIDE_RESPONSE_SENT: seq<byte> := GUIDE_RESPONSE[..GUIDE_RESPONSE_SIZE]

  /** Whether the button with the given mask (a power of two) is pressed. */
  predicate Pressed(buttons: uint16, mask: nat)
    requires mask > 0
  {
    buttons / mask % 2 == 1
  }

  function ReadHeader(p: seq<byte>): (h: Header)
    requires |p| >= 4
  {
    Header(p[0], p[1], p[2], p[3])
  }

  function ReadButtonReport(p: seq<byte>): (r: ButtonReport)
    requires |p| >= 18
  {
    ButtonReport(
      ReadHeader(p), U16(p[4], p[5]), U16(p[6], p[7]), U16(p[8], p[9]),
      S16(p[10], p[11]), S16(p[12], p[13]), S16(p[14], p[15]), S16(p[16], p[17]))
  }

  function ReadGuideReport(p: seq<byte>): (r: GuideReport)
    requires |p| >= 6
  {
    GuideReport(ReadHeader(p), p[4], p[5])
  }

  /** The bytes of a 16-bit word, low byte first. */
  function Word(v: int): (w: seq<byte>)
    requires -0x8000 <= v < 0x10000
    ensures |w| == 2
    ensures v >= 0 ==> U16(w[0], w[1]) == v
    ensures v < 0x8000 ==> S16(w[0], w[1]) == v
  {
    var u := if v < 0 then v + 0x10000 else v;
    [u % 256, u / 256]
  }

  function WriteButtonReport(r: ButtonReport): (p: seq<byte>) {
    [r.header.packetType, r.header.version, r.header.counter, r.header.size]
    + Word(r.buttons) + Word(r.trigL) + Word(r.trigR)
    + Word(r.leftX) + Word(r.leftY) + Word(r.rightX) + Word(r.rightY)
  }

  /** A packet whose words are those of `r` reads back as `r`. */
  lemma ReadsAs(p: seq<byte>, r: ButtonReport)
    requires |p| >= 18 && ReadHeader(p) == r.header
    requires U16(p[4], p[5]) == r.buttons && U16(p[6], p[7]) == r.trigL && U16(p[8], p[9]) == r.trigR
    requires S16(p[10], p[11]) == r.leftX && S16(p[12], p[13]) == r.leftY
    requires S16(p[14], p[15]) == r.rightX && S16(p[16], p[17]) == r.rightY
    ensures ReadButtonReport(p) == r
  {
  }

  /** The struct layout is a bijection between report values and strings of 18 bytes. */
  lemma ButtonReportRoundTrip(r: ButtonReport)
    ensures |WriteButtonReport(r)| == REPORT_HEADER_SIZE + BUTTON_REPORT_SIZE
    ensures ReadButtonReport(WriteButtonReport(r)) == r
  {
    var p := WriteButtonReport(r);
    assert p[4..6] == Word(r.buttons) && p[6..8] == Word(r.trigL) && p[8..10] == Word(r.trigR);
    assert p[10..12] == Word(r.leftX) && p[12..14] == Word(r.leftY);
    assert p[14..16] == Word(r.rightX) && p[16..18] == Word(r.rightY);
    ReadsAs(p, r);
  }

  lemma WordOfBytes(lo: byte, hi: byte)
    ensures Word(U16(lo, hi)) == [lo, hi] && Word(S16(lo, hi)) == [lo, hi]
  {
    assert (lo + 256 * hi) / 256 == hi;
  }

  lemma ButtonPacketRoundTrip(p: seq<byte>)
    requires |p| == REPORT_HEADER_SIZE + BUTTON_REPORT_SIZE
    ensures WriteButtonReport(ReadButtonReport(p)) == p
  {
    WordOfBytes(p[4], p[5]);
    WordOfBytes(p[6], p[7]);
    WordOfBytes(p[8], p[9]);
    WordOfBytes(p[10], p[11]);
    WordOfBytes(p[12], p[13]);
    WordOfBytes(p[14], p[15]);
    WordOfBytes(p[16], p[17]);
  }
}
