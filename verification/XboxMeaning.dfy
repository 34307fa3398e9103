/**
 The descriptor and the packet structs agree: what a host reads through the descriptor is what the struct says.
 */
module XboxMeaning {
  import opened Bits
  import opened Wrappers
  import opened HidItems
  import opened HidInterpreter
  import opened HidReports
  import P = XboxPackets
  import D = XboxDescriptor

  function Flag(b: bool): (v: int) {
    if b then 1 else 0
  }

  /** One button as the host reports it. */
  function BitControl(n: nat, bit: bool): (c: Control) {
    Control(Some(D.Button(n)), Flag(bit))
  }

  function AxisControl(n: nat, v: int): (c: Control) {
    Control(Some(D.Desktop(n)), v)
  }

  // Buttons by group, with the usages that the descriptor gives them.

  function SelectControls(menu: bool, view: bool): (cs: seq<Control>) {
    [BitControl(9, menu), BitControl(10, view)]
  }

  function LetterControls(a: bool, b: bool, x: bool, y: bool): (cs: seq<Control>) {
    [BitControl(1, a), BitControl(2, b), BitControl(3, x), BitControl(4, y)]
  }

  function PadControls(up: bool, down: bool, left: bool, right: bool): (cs: seq<Control>) {
    [BitControl(12, up), BitControl(13, down), BitControl(14, left), BitControl(15, right)]
  }

  function ShoulderControls(left: bool, right: bool): (cs: seq<Control>) {
    [BitControl(5, left), BitControl(6, right)]
  }

  function ThumbControls(left: bool, right: bool): (cs: seq<Control>) {
    [BitControl(7, left), BitControl(8, right)]
  }

  function SelectOf(b: uint16): (cs: seq<Control>) {
    SelectControls(P.Pressed(b, P.MENU), P.Pressed(b, P.VIEW))
  }

  function LetterOf(b: uint16): (cs: seq<Control>) {
    LetterControls(P.Pressed(b, P.A), P.Pressed(b, P.B), P.Pressed(b, P.X), P.Pressed(b, P.Y))
  }

  function PadOf(b: uint16): (cs: seq<Control>) {
    PadControls(P.Pressed(b, P.DPAD_UP), P.Pressed(b, P.DPAD_DOWN), P.Pressed(b, P.DPAD_LEFT), P.Pressed(b, P.DPAD_RIGHT))
  }

  function ShoulderOf(b: uint16): (cs: seq<Control>) {
    ShoulderControls(P.Pressed(b, P.LEFT_SHOULDER), P.Pressed(b, P.RIGHT_SHOULDER))
  }

  function ThumbOf(b: uint16): (cs: seq<Control>) {
    ThumbControls(P.Pressed(b, P.LEFT_THUMB), P.Pressed(b, P.RIGHT_THUMB))
  }

  /** The face buttons as the struct's masks define them. */
  function FaceControls(b: uint16): (cs: seq<Control>) {
    SelectOf(b) + LetterOf(b) + PadOf(b) + ShoulderOf(b) + ThumbOf(b)
  }

  function AxisControls(r: P.ButtonReport): (cs: seq<Control>) {
    [AxisControl(0x32, r.trigL), AxisControl(0x35, r.trigR), AxisControl(0x30, r.leftX), AxisControl(0x31, r.leftY),
     AxisControl(0x33, r.rightX), AxisControl(0x34, r.rightY)]
  }

  function ButtonReportControls(r: P.ButtonReport): (cs: seq<Control>) {
    [BitControl(11, P.Pressed(r.buttons, P.SYNC))] + FaceControls(r.buttons) + AxisControls(r)
  }

  // ---------------------------------------------------------------- reading single fields of report 0x20

  lemma ReadBit(f: Field, bits: seq<bool>)
    requires f.size == 1 && f.offset < |bits| && f.logicalMin >= 0
    ensures Read(f, bits) == Flag(bits[f.offset])
  {
    var own := bits[f.offset..f.offset + 1];
    assert own == [bits[f.offset]] && Nat(own[1..]) == 0;
  }

  /** The 16-bit word at bytes `i` and `i + 1`. */
  lemma ReadWord(f: Field, p: seq<byte>, i: nat)
    requires |p| >= 18 && 1 <= i < 17 && f.size == 16 && f.offset == 8 * (i - 1)
    ensures Inside(f, ByteBits(p[1..]))
    ensures Read(f, ByteBits(p[1..])) == if f.logicalMin < 0 then S16(p[i], p[i + 1]) else U16(p[i], p[i + 1])
  {
    WordAt(p[1..], i - 1);
    SixteenBits();
  }

  lemma {:induction false} ControlsOfData(fs: seq<Field>, bits: seq<bool>)
    requires Fits(fs, bits) && forall f <- fs :: !f.constant
    ensures |Controls(fs, bits)| == |fs|
    ensures forall i | 0 <= i < |fs| ::
              Inside(fs[i], bits) && Controls(fs, bits)[i] == Control(fs[i].usage, Read(fs[i], bits))
  {
    if fs == [] {
    } else {
      ControlsOfData(fs[1..], bits);
    }
  }

  // ---------------------------------------------------------------- the three parts of report 0x20

  /** Bit `n` of the button word at its place in the report. */
  lemma {:induction false} ButtonBit(p: seq<byte>, n: nat, mask: nat)
    requires |p| >= 18 && n < 16 && mask == Pow2(n)
    ensures ByteBits(p[1..])[24 + n] == P.Pressed(U16(p[4], p[5]), mask)
  {
    BitAt(p[1..], 3, n);
  }

  /** Fields of one bit each, in a row from bit `first`. */
  lemma {:induction false} BitRow(fs: seq<Field>, bits: seq<bool>, first: nat)
    requires first + |fs| <= |bits|
    requires forall i | 0 <= i < |fs| ::
               fs[i].offset == first + i && fs[i].size == 1 && fs[i].logicalMin >= 0 && !fs[i].constant
    ensures Fits(fs, bits) && |Controls(fs, bits)| == |fs|
    ensures forall i | 0 <= i < |fs| :: Controls(fs, bits)[i] == Control(fs[i].usage, Flag(bits[first + i]))
  {
    forall i | 0 <= i < |fs|
      ensures Inside(fs[i], bits) && Read(fs[i], bits) == Flag(bits[first + i])
    {
      ReadBit(fs[i], bits);
    }
    ControlsOfData(fs, bits);
  }

  /** Fields read as the given controls. */
  predicate ReadAs(fs: seq<Field>, bits: seq<bool>, cs: seq<Control>) {
    Fits(fs, bits) && Controls(fs, bits) == cs
  }

  lemma ReadAsConcat(a: seq<Field>, b: seq<Field>, bits: seq<bool>, cs: seq<Control>, ds: seq<Control>)
    requires ReadAs(a, bits, cs) && ReadAs(b, bits, ds)
    ensures ReadAs(a + b, bits, cs + ds)
  {
    ControlsConcat(a, b, bits);
  }

  lemma MenuViewRow(bits: seq<bool>)
    requires |bits| >= 40
    ensures ReadAs(D.MENU_VIEW_FIELDS, bits, SelectControls(bits[26], bits[27]))
  {
    BitRow(D.MENU_VIEW_FIELDS, bits, 26);
  }

  lemma AbxyRow(bits: seq<bool>)
    requires |bits| >= 40
    ensures ReadAs(D.ABXY_FIELDS, bits, LetterControls(bits[28], bits[29], bits[30], bits[31]))
  {
    BitRow(D.ABXY_FIELDS, bits, 28);
  }

  lemma DpadRow(bits: seq<bool>)
    requires |bits| >= 40
    ensures ReadAs(D.DPAD_FIELDS, bits, PadControls(bits[32], bits[33], bits[34], bits[35]))
  {
    BitRow(D.DPAD_FIELDS, bits, 32);
  }

  lemma BumperRow(bits: seq<bool>)
    requires |bits| >= 40
    ensures ReadAs(D.BUMPER_FIELDS, bits, ShoulderControls(bits[36], bits[37]))
  {
    BitRow(D.BUMPER_FIELDS, bits, 36);
  }

  lemma StickButtonRow(bits: seq<bool>)
    requires |bits| >= 40
    ensures ReadAs(D.STICK_BUTTON_FIELDS, bits, ThumbControls(bits[38], bits[39]))
  {
    BitRow(D.STICK_BUTTON_FIELDS, bits, 38);
  }

  /** The face buttons as a list of bits. */
  function FaceBits(w: seq<bool>): (cs: seq<Control>)
    requires |w| == 14
  {
    SelectControls(w[0], w[1])
    + LetterControls(w[2], w[3], w[4], w[5])
    + PadControls(w[6], w[7], w[8], w[9])
    + ShoulderControls(w[10], w[11])
    + ThumbControls(w[12], w[13])
  }

  lemma FaceConcat(
      bits: seq<bool>, a: seq<Control>, b: seq<Control>, c: seq<Control>, d: seq<Control>, e: seq<Control>)
    requires ReadAs(D.MENU_VIEW_FIELDS, bits, a) && ReadAs(D.ABXY_FIELDS, bits, b) && ReadAs(D.DPAD_FIELDS, bits, c)
    requires ReadAs(D.BUMPER_FIELDS, bits, d) && ReadAs(D.STICK_BUTTON_FIELDS, bits, e)
    ensures ReadAs(D.FACE_BUTTON_FIELDS, bits, a + b + c + d + e)
  {
    var f, g, h, i, j := D.MENU_VIEW_FIELDS, D.ABXY_FIELDS, D.DPAD_FIELDS, D.BUMPER_FIELDS, D.STICK_BUTTON_FIELDS;
    ReadAsConcat(f, g, bits, a, b);
    ReadAsConcat(f + g, h, bits, a + b, c);
    ReadAsConcat(f + g + h, i, bits, a + b + c, d);
    ReadAsConcat(f + g + h + i, j, bits, a + b + c + d, e);
  }

  lemma FaceRow(bits: seq<bool>)
    requires |bits| >= 40
    ensures ReadAs(D.FACE_BUTTON_FIELDS, bits, FaceBits(bits[26..40]))
  {
    MenuViewRow(bits);
    AbxyRow(bits);
    DpadRow(bits);
    BumperRow(bits);
    StickButtonRow(bits);
    var w := bits[26..40];
    FaceConcat(bits, SelectControls(w[0], w[1]), LetterControls(w[2], w[3], w[4], w[5]),
               PadControls(w[6], w[7], w[8], w[9]), ShoulderControls(w[10], w[11]), ThumbControls(w[12], w[13]));
  }

  lemma SelectReads(p: seq<byte>)
    requires |p| >= 18
    ensures ReadAs(D.MENU_VIEW_FIELDS, ByteBits(p[1..]), SelectOf(U16(p[4], p[5])))
  {
    MenuViewRow(ByteBits(p[1..]));
    ButtonBit(p, 2, P.MENU);
    ButtonBit(p, 3, P.VIEW);
  }

  lemma LetterReads(p: seq<byte>)
    requires |p| >= 18
    ensures ReadAs(D.ABXY_FIELDS, ByteBits(p[1..]), LetterOf(U16(p[4], p[5])))
  {
    AbxyRow(ByteBits(p[1..]));
    ButtonBit(p, 4, P.A);
    ButtonBit(p, 5, P.B);
    ButtonBit(p, 6, P.X);
    ButtonBit(p, 7, P.Y);
  }

  lemma PadReads(p: seq<byte>)
    requires |p| >= 18
    ensures ReadAs(D.DPAD_FIELDS, ByteBits(p[1..]), PadOf(U16(p[4], p[5])))
  {
    DpadRow(ByteBits(p[1..]));
    ButtonBit(p, 8, P.DPAD_UP);
    ButtonBit(p, 9, P.DPAD_DOWN);
    ButtonBit(p, 10, P.DPAD_LEFT);
    ButtonBit(p, 11, P.DPAD_RIGHT);
  }

  lemma ShoulderReads(p: seq<byte>)
    requires |p| >= 18
    ensures ReadAs(D.BUMPER_FIELDS, ByteBits(p[1..]), ShoulderOf(U16(p[4], p[5])))
  {
    BumperRow(ByteBits(p[1..]));
    ButtonBit(p, 12, P.LEFT_SHOULDER);
    ButtonBit(p, 13, P.RIGHT_SHOULDER);
  }

  lemma ThumbReads(p: seq<byte>)
    requires |p| >= 18
    ensures ReadAs(D.STICK_BUTTON_FIELDS, ByteBits(p[1..]), ThumbOf(U16(p[4], p[5])))
  {
    StickButtonRow(ByteBits(p[1..]));
    ButtonBit(p, 14, P.LEFT_THUMB);
    ButtonBit(p, 15, P.RIGHT_THUMB);
  }

  lemma FaceReads(p: seq<byte>)
    requires |p| >= 18
    ensures ReadAs(D.FACE_BUTTON_FIELDS, ByteBits(p[1..]), FaceControls(U16(p[4], p[5])))
  {
    var bits, w := ByteBits(p[1..]), U16(p[4], p[5]);
    SelectReads(p);
    LetterReads(p);
    PadReads(p);
    ShoulderReads(p);
    ThumbReads(p);
    FaceConcat(bits, SelectOf(w), LetterOf(w), PadOf(w), ShoulderOf(w), ThumbOf(w));
  }

  lemma AxisReads(p: seq<byte>)
    requires |p| >= 18
    ensures var bits := ByteBits(p[1..]);
            Fits(D.AXIS_FIELDS, bits) && Controls(D.AXIS_FIELDS, bits) == AxisControls(P.ReadButtonReport(p))
  {
    var fs, bits := D.AXIS_FIELDS, ByteBits(p[1..]);
    ReadWord(fs[0], p, 6);
    ReadWord(fs[1], p, 8);
    ReadWord(fs[2], p, 10);
    ReadWord(fs[3], p, 12);
    ReadWord(fs[4], p, 14);
    ReadWord(fs[5], p, 16);
    ControlsOfData(fs, bits);
  }

  lemma PreambleReads(bits: seq<bool>)
    requires |bits| >= 40
    ensures ReadAs(D.PREAMBLE_FIELDS, bits, [BitControl(11, bits[24])])
  {
    ConstantsRead(D.HEADER_FIELDS, bits);
    BitRow(D.SYNC_FIELDS, bits, 24);
    ConstantsRead(D.DUMMY_FIELDS, bits);
    var sync := Controls(D.SYNC_FIELDS, bits);
    assert sync == [BitControl(11, bits[24])];
    ReadAsConcat(D.HEADER_FIELDS, D.SYNC_FIELDS, bits, [], sync);
    ReadAsConcat(D.HEADER_FIELDS + D.SYNC_FIELDS, D.DUMMY_FIELDS, bits, [] + sync, []);
  }

  lemma {:induction false} ConstantsRead(fs: seq<Field>, bits: seq<bool>)
    requires Fits(fs, bits) && forall f <- fs :: f.constant
    ensures ReadAs(fs, bits, [])
  {
    if fs == [] {
    } else {
      ConstantsRead(fs[1..], bits);
    }
  }

  // ---------------------------------------------------------------- whole packets

  lemma ButtonFieldsRead(p: seq<byte>)
    requires |p| >= 18
    ensures ReadAs(D.BUTTON_FIELDS, ByteBits(p[1..]), ButtonReportControls(P.ReadButtonReport(p)))
  {
    var bits, r := ByteBits(p[1..]), P.ReadButtonReport(p);
    PreambleReads(bits);
    FaceReads(p);
    AxisReads(p);
    ButtonBit(p, 0, P.SYNC);
    ReadAsConcat(D.PREAMBLE_FIELDS, D.FACE_BUTTON_FIELDS, bits,
                 [BitControl(11, P.Pressed(r.buttons, P.SYNC))], FaceControls(r.buttons));
    ReadAsConcat(D.PREAMBLE_FIELDS + D.FACE_BUTTON_FIELDS, D.AXIS_FIELDS, bits,
                 [BitControl(11, P.Pressed(r.buttons, P.SYNC))] + FaceControls(r.buttons), AxisControls(r));
  }

  lemma GuideFieldsRead(p: seq<byte>)
    requires |p| >= 6
    ensures ReadAs(D.GUIDE_FIELDS, ByteBits(p[1..]), [Control(Some(D.Button(16)), p[4] % 2)])
  {
    var bits := ByteBits(p[1..]);
    BitAt(p[1..], 3, 0);
    assert U16(p[4], p[5]) % 2 == p[4] % 2;
    var a, b, c := D.GUIDE_FIELDS[..3], D.GUIDE_FIELDS[3..4], D.GUIDE_FIELDS[4..];
    ConstantsRead(a, bits);
    BitRow(b, bits, 24);
    ConstantsRead(c, bits);
    assert Controls(b, bits) == [Control(Some(D.Button(16)), p[4] % 2)];
    ReadAsConcat(a, b, bits, [], Controls(b, bits));
    ReadAsConcat(a + b, c, bits, [] + Controls(b, bits), []);
    assert a + b + c == D.GUIDE_FIELDS;
  }

  lemma {:induction false} HostReadsBy(
      descriptor: seq<byte>, items: seq<ShortItem>, t: State, p: seq<byte>, cs: seq<Control>)
    requires Parse(descriptor) == Ok(items) && Run(items, INITIAL) == Ok(t)
    requires p != [] && cs != [] && ReadAs(FieldsOf(t.fields, Key(Input, p[0])), ByteBits(p[1..]), cs)
    ensures HostReads(descriptor, p) == Ok(cs)
  {
  }

  lemma {:induction false} HostRefusesBy(descriptor: seq<byte>, items: seq<ShortItem>, t: State, p: seq<byte>, f: Field)
    requires Parse(descriptor) == Ok(items) && Run(items, INITIAL) == Ok(t) && p != []
    requires f in FieldsOf(t.fields, Key(Input, p[0])) && !Inside(f, ByteBits(p[1..]))
    ensures HostReads(descriptor, p) == Err(ShortReport)
  {
  }

  /**
   Meaning preservation: through the descriptor, a host reads from every button packet exactly the buttons,
   triggers and axes that the packet struct and its masks give it; a packet cut short is refused.
   */
  lemma ButtonMeaning(p: seq<byte>)
    requires p != [] && p[0] == P.IN_BUTTON
    ensures HostReads(D.REPORT_DESCRIPTOR, p) ==
            if |p| >= 18 then Ok(ButtonReportControls(P.ReadButtonReport(p))) else Err(ShortReport)
  {
    D.DescriptorParses();
    var t := D.DescriptorFields();
    if |p| >= 18 {
      ButtonFieldsRead(p);
      HostReadsBy(D.REPORT_DESCRIPTOR, D.ITEMS, t, p, ButtonReportControls(P.ReadButtonReport(p)));
    } else {
      var f := D.STICK_FIELDS[3];
      assert f in D.STICK_FIELDS && f in D.AXIS_FIELDS && f in D.BUTTON_FIELDS;
      HostRefusesBy(D.REPORT_DESCRIPTOR, D.ITEMS, t, p, f);
    }
  }

  /** From every guide packet a host reads button 16 as the low bit of the guide byte. */
  lemma GuideMeaning(p: seq<byte>)
    requires p != [] && p[0] == P.IN_GUIDE
    ensures HostReads(D.REPORT_DESCRIPTOR, p) ==
            if |p| >= 6 then Ok([Control(Some(D.Button(16)), p[4] % 2)]) else Err(ShortReport)
  {
    D.DescriptorParses();
    var t := D.DescriptorFields();
    if |p| >= 6 {
      GuideFieldsRead(p);
      HostReadsBy(D.REPORT_DESCRIPTOR, D.ITEMS, t, p, [Control(Some(D.Button(16)), p[4] % 2)]);
    } else {
      var f := D.GUIDE_FIELDS[4];
      assert f in D.GUIDE_FIELDS;
      HostRefusesBy(D.REPORT_DESCRIPTOR, D.ITEMS, t, p, f);
    }
  }

  /** Packets with any other first byte are no report of this descriptor. */
  lemma OtherPackets(p: seq<byte>)
    requires p != [] && p[0] != P.IN_BUTTON && p[0] != P.IN_GUIDE
    ensures HostReads(D.REPORT_DESCRIPTOR, p) == Err(UnknownReport)
  {
    D.DescriptorParses();
    var t := D.DescriptorFields();
    assert FieldsOf(t.fields, Key(Input, p[0])) == [];
  }

  /** So the host's reading is the struct's `guide` value exactly when that is 0 or 1. */
  lemma GuideMeaningExact(p: seq<byte>)
    requires |p| >= 6 && p[0] == P.IN_GUIDE
    ensures var guide := P.ReadGuideReport(p).guide;
            HostReads(D.REPORT_DESCRIPTOR, p) == Ok([Control(Some(D.Button(16)), guide)]) <==> guide <= 1
  {
    GuideMeaning(p);
    assert [Control(Some(D.Button(16)), p[4] % 2)][0].value == p[4] % 2;
  }

  /** The descriptor's reports are as long as the packet structs. */
  lemma PacketLengths()
    ensures PacketLength(DeclaredBits(D.ITEMS, INITIAL_ENV, D.BUTTONS)) == P.REPORT_HEADER_SIZE + P.BUTTON_REPORT_SIZE
    ensures PacketLength(DeclaredBits(D.ITEMS, INITIAL_ENV, D.GUIDE)) == P.REPORT_HEADER_SIZE + P.GUIDE_REPORT_SIZE
  {
    D.DescriptorBits();
  }

  // ---------------------------------------------------------------- information preservation

  /** Every report struct, written out by its layout, is read back by the host. */
  lemma StructSurvives(r: P.ButtonReport)
    requires r.header.packetType == P.IN_BUTTON
    ensures HostReads(D.REPORT_DESCRIPTOR, P.WriteButtonReport(r)) == Ok(ButtonReportControls(r))
  {
    P.ButtonReportRoundTrip(r);
    ButtonMeaning(P.WriteButtonReport(r));
  }

  /** What of a button packet the host can see: all but header bytes 1 to 3 and bit 1 of the button word. */
  predicate SameVisible(p: seq<byte>, q: seq<byte>)
    requires |p| == |q| == 18
  {
    p[4] % 2 == q[4] % 2 && p[4] / 4 == q[4] / 4 && p[5..] == q[5..]
  }

  lemma TwoFlags(a: nat, b: nat, rest: nat, n: nat)
    requires a < 2 && b < 2 && n == a + 2 * (b + 2 * rest)
    ensures n % 2 == a && n / 4 == rest
  {
    assert n / 2 == b + 2 * rest;
  }

  /** The two button bytes, as numbers and as bits. */
  lemma ButtonBytes(p: seq<byte>)
    requires |p| >= 18
    ensures var bits := ByteBits(p[1..]);
            && Flag(bits[24]) == p[4] % 2
            && Nat(bits[26..32]) == p[4] / 4 && bits[26..32] == ToBits(p[4] / 4, 6)
            && Nat(bits[32..40]) == p[5] && bits[32..40] == ToBits(p[5], 8)
  {
    var bits := ByteBits(p[1..]);
    OneByte(p[1..], 3);
    OneByte(p[1..], 4);
    var low := bits[24..32];
    assert low[1..][1..] == bits[26..32];
    TwoFlags(Flag(bits[24]), Flag(bits[25]), Nat(bits[26..32]), Nat(low));
    ToBitsOfNat(bits[26..32]);
    ToBitsOfNat(bits[32..40]);
  }

  lemma {:induction false} OneByte(bytes: seq<byte>, i: nat)
    requires i < |bytes|
    ensures Nat(ByteBits(bytes)[8 * i..8 * i + 8]) == bytes[i]
  {
    ByteBitsSlice(bytes, i, i + 1);
    NatOfByteBits(bytes[i..i + 1]);
    assert LittleEndian(bytes[i..i + 1][1..]) == 0;
  }

  lemma FaceBitsInjective(v: seq<bool>, w: seq<bool>)
    requires |v| == |w| == 14 && FaceBits(v) == FaceBits(w)
    ensures v == w
  {
    FaceBitsAt(v);
    FaceBitsAt(w);
  }

  lemma FaceBitsAt(w: seq<bool>)
    requires |w| == 14
    ensures var cs := FaceBits(w);
            && |cs| == 14
            && (w[0] <==> cs[0].value == 1) && (w[1] <==> cs[1].value == 1) && (w[2] <==> cs[2].value == 1)
            && (w[3] <==> cs[3].value == 1) && (w[4] <==> cs[4].value == 1) && (w[5] <==> cs[5].value == 1)
            && (w[6] <==> cs[6].value == 1) && (w[7] <==> cs[7].value == 1)
            && (w[8] <==> cs[8].value == 1) && (w[9] <==> cs[9].value == 1) && (w[10] <==> cs[10].value == 1)
            && (w[11] <==> cs[11].value == 1) && (w[12] <==> cs[12].value == 1) && (w[13] <==> cs[13].value == 1)
  {
  }

  lemma FaceControlsAreBits(p: seq<byte>)
    requires |p| == 18
    ensures FaceControls(U16(p[4], p[5])) == FaceBits(ToBits(p[4] / 4, 6) + ToBits(p[5], 8))
  {
    var bits := ByteBits(p[1..]);
    assert FaceControls(U16(p[4], p[5])) == FaceBits(bits[26..40]) by {
      FaceRow(bits);
      FaceReads(p);
    }
    ButtonBytes(p);
    assert bits[26..40] == bits[26..32] + bits[32..40];
  }

  lemma {:induction false} SplitBits(a: nat, b: nat, c: nat, d: nat)
    requires a < 64 && b < 64 && c < 256 && d < 256
    requires ToBits(a, 6) + ToBits(c, 8) == ToBits(b, 6) + ToBits(d, 8)
    ensures a == b && c == d
  {
    var v, w := ToBits(a, 6) + ToBits(c, 8), ToBits(b, 6) + ToBits(d, 8);
    assert v[..6] == ToBits(a, 6) && w[..6] == ToBits(b, 6) && v[6..] == ToBits(c, 8) && w[6..] == ToBits(d, 8);
    NatOfToBits(a, 6);
    NatOfToBits(b, 6);
    NatOfToBits(c, 8);
    NatOfToBits(d, 8);
  }

  lemma FaceControlsInjective(p: seq<byte>, q: seq<byte>)
    requires |p| == |q| == 18
    ensures FaceControls(U16(p[4], p[5])) == FaceControls(U16(q[4], q[5])) <==> p[4] / 4 == q[4] / 4 && p[5] == q[5]
  {
    FaceControlsAreBits(p);
    FaceControlsAreBits(q);
    if FaceControls(U16(p[4], p[5])) == FaceControls(U16(q[4], q[5])) {
      FaceBitsInjective(ToBits(p[4] / 4, 6) + ToBits(p[5], 8), ToBits(q[4] / 4, 6) + ToBits(q[5], 8));
      SplitBits(p[4] / 4, q[4] / 4, p[5], q[5]);
    }
  }

  lemma SyncPressed(lo: byte, hi: byte)
    ensures P.Pressed(U16(lo, hi), P.SYNC) <==> lo % 2 == 1
  {
    assert lo + 256 * hi == lo + 2 * (128 * hi);
  }

  lemma SyncInjective(p: seq<byte>, q: seq<byte>)
    requires |p| == |q| == 18
    ensures BitControl(11, P.Pressed(U16(p[4], p[5]), P.SYNC)) == BitControl(11, P.Pressed(U16(q[4], q[5]), P.SYNC))
            <==> p[4] % 2 == q[4] % 2
  {
    SyncPressed(p[4], p[5]);
    SyncPressed(q[4], q[5]);
  }

  lemma WordsInjective(a: byte, b: byte, c: byte, d: byte)
    ensures U16(a, b) == U16(c, d) <==> a == c && b == d
    ensures S16(a, b) == S16(c, d) <==> a == c && b == d
  {
  }

  /** The six words after the button word agree. */
  predicate SameWords(p: seq<byte>, q: seq<byte>)
    requires |p| == |q| == 18
  {
    && U16(p[6], p[7]) == U16(q[6], q[7]) && U16(p[8], p[9]) == U16(q[8], q[9])
    && S16(p[10], p[11]) == S16(q[10], q[11]) && S16(p[12], p[13]) == S16(q[12], q[13])
    && S16(p[14], p[15]) == S16(q[14], q[15]) && S16(p[16], p[17]) == S16(q[16], q[17])
  }

  lemma SameWordsSameBytes(p: seq<byte>, q: seq<byte>)
    requires |p| == |q| == 18
    ensures SameWords(p, q) <==> p[6..] == q[6..]
  {
    WordsInjective(p[6], p[7], q[6], q[7]);
    WordsInjective(p[8], p[9], q[8], q[9]);
    WordsInjective(p[10], p[11], q[10], q[11]);
    WordsInjective(p[12], p[13], q[12], q[13]);
    WordsInjective(p[14], p[15], q[14], q[15]);
    WordsInjective(p[16], p[17], q[16], q[17]);
    if p[6..] == q[6..] {
      assert forall i | 6 <= i < 18 :: p[i] == p[6..][i - 6] && q[i] == q[6..][i - 6];
    }
  }

  lemma AxisControlsInjective(p: seq<byte>, q: seq<byte>)
    requires |p| == |q| == 18
    ensures AxisControls(P.ReadButtonReport(p)) == AxisControls(P.ReadButtonReport(q)) <==> p[6..] == q[6..]
  {
    SameWordsSameBytes(p, q);
    AxisControlsAt(P.ReadButtonReport(p), P.ReadButtonReport(q));
  }

  lemma AxisControlsAt(r: P.ButtonReport, s: P.ButtonReport)
    ensures AxisControls(r) == AxisControls(s) <==>
            && r.trigL == s.trigL && r.trigR == s.trigR && r.leftX == s.leftX && r.leftY == s.leftY
            && r.rightX == s.rightX && r.rightY == s.rightY
  {
    var a, b := AxisControls(r), AxisControls(s);
    assert a[0].value == r.trigL && a[1].value == r.trigR && a[2].value == r.leftX;
    assert a[3].value == r.leftY && a[4].value == r.rightX && a[5].value == r.rightY;
    assert b[0].value == s.trigL && b[1].value == s.trigR && b[2].value == s.leftX;
    assert b[3].value == s.leftY && b[4].value == s.rightX && b[5].value == s.rightY;
  }

  lemma ControlsSplit(r: P.ButtonReport, s: P.ButtonReport)
    ensures ButtonReportControls(r) == ButtonReportControls(s) <==>
            && BitControl(11, P.Pressed(r.buttons, P.SYNC)) == BitControl(11, P.Pressed(s.buttons, P.SYNC))
            && FaceControls(r.buttons) == FaceControls(s.buttons)
            && AxisControls(r) == AxisControls(s)
  {
    var a, b := ButtonReportControls(r), ButtonReportControls(s);
    assert a[0] == BitControl(11, P.Pressed(r.buttons, P.SYNC)) && b[0] == BitControl(11, P.Pressed(s.buttons, P.SYNC));
    assert a[1..15] == FaceControls(r.buttons) && b[1..15] == FaceControls(s.buttons);
    assert a[15..] == AxisControls(r) && b[15..] == AxisControls(s);
  }

  /** Two button packets are told apart by the host exactly when they differ in a visible place. */
  lemma HostDistinguishes(p: seq<byte>, q: seq<byte>)
    requires |p| == |q| == 18 && p[0] == q[0] == P.IN_BUTTON
    ensures HostReads(D.REPORT_DESCRIPTOR, p) == HostReads(D.REPORT_DESCRIPTOR, q) <==> SameVisible(p, q)
  {
    ButtonMeaning(p);
    ButtonMeaning(q);
    ControlsSplit(P.ReadButtonReport(p), P.ReadButtonReport(q));
    SameControls(p, q);
  }

  lemma SameTails(p: seq<byte>, q: seq<byte>)
    requires |p| == |q| == 18
    ensures p[5..] == q[5..] <==> p[5] == q[5] && p[6..] == q[6..]
  {
    assert p[5..] == [p[5]] + p[6..] && q[5..] == [q[5]] + q[6..];
    if p[5..] == q[5..] {
      assert p[5..][0] == q[5..][0] && p[5..][1..] == q[5..][1..];
    }
  }

  lemma SameControls(p: seq<byte>, q: seq<byte>)
    requires |p| == |q| == 18
    ensures SameVisible(p, q) <==>
            var r, s := P.ReadButtonReport(p), P.ReadButtonReport(q);
            && BitControl(11, P.Pressed(r.buttons, P.SYNC)) == BitControl(11, P.Pressed(s.buttons, P.SYNC))
            && FaceControls(r.buttons) == FaceControls(s.buttons)
            && AxisControls(r) == AxisControls(s)
  {
    FaceControlsInjective(p, q);
    AxisControlsInjective(p, q);
    SyncInjective(p, q);
    SameTails(p, q);
  }
}
