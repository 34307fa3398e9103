/**
 The report descriptor that the driver hands to the host, block by block as in XboxOneDescriptors.h,
 and the fields the interpreter derives from it.
 */
module XboxDescriptor {
  import opened Bits
  import opened Wrappers
  import opened HidItems
  import opened HidInterpreter

  // ---------------------------------------------------------------- the byte table

  const GAMEPAD_BYTES: seq<byte> := [0x05, 0x01, 0x09, 0x05, 0xa1, 0x01, 0xa1, 0x00, 0x85, 0x20]
  const HEADER_BYTES: seq<byte> := [0x75, 0x08, 0x95, 0x03, 0x81, 0x03]
  const ONE_BIT_BYTES: seq<byte> := [0x75, 0x01, 0x95, 0x01, 0x81, 0x02]
  const SYNC_HEAD_BYTES: seq<byte> := [0x05, 0x09, 0x09, 0x0b, 0x15, 0x01]
  const SYNC_BYTES: seq<byte> := SYNC_HEAD_BYTES + ONE_BIT_BYTES
  const DUMMY_BYTES: seq<byte> := [0x81, 0x03]
  const MENU_VIEW_BYTES: seq<byte> := [0x19, 0x09, 0x29, 0x0a, 0x95, 0x02, 0x81, 0x02]
  const ABXY_BYTES: seq<byte> := [0x19, 0x01, 0x29, 0x04, 0x95, 0x04, 0x81, 0x02]
  const DPAD_BYTES: seq<byte> := [0x19, 0x0c, 0x29, 0x0f, 0x81, 0x02]
  const BUMPER_BYTES: seq<byte> := [0x19, 0x05, 0x29, 0x06, 0x95, 0x02, 0x81, 0x02]
  const STICK_BUTTON_BYTES: seq<byte> := [0x19, 0x07, 0x29, 0x08, 0x81, 0x02]
  const TRIGGER_HEAD_BYTES: seq<byte> := [0x05, 0x01, 0x09, 0x32, 0x09, 0x35]
  const TRIGGER_TAIL_BYTES: seq<byte> := [0x15, 0x00, 0x26, 0xff, 0x03, 0x75, 0x10, 0x81, 0x02]
  const TRIGGER_BYTES: seq<byte> := TRIGGER_HEAD_BYTES + TRIGGER_TAIL_BYTES
  const STICK_HEAD_BYTES: seq<byte> := [0x09, 0x30, 0x09, 0x31, 0x09, 0x33, 0x09, 0x34]
  const STICK_RANGE_BYTES: seq<byte> := [0x16, 0x00, 0x80, 0x26, 0xff, 0x7f, 0x95, 0x04]
  const STICK_TAIL_BYTES: seq<byte> := [0x81, 0x02, 0xc0]
  const STICK_BYTES: seq<byte> := STICK_HEAD_BYTES + (STICK_RANGE_BYTES + STICK_TAIL_BYTES)
  const SECOND_GAMEPAD_BYTES: seq<byte> := [0x05, 0x01, 0x09, 0x05, 0xa1, 0x00, 0x85, 0x07]
  const XBOX_HEAD_BYTES: seq<byte> := [0x05, 0x09, 0x09, 0x10, 0x15, 0x00, 0x25, 0x01]
  const XBOX_BUTTON_BYTES: seq<byte> := XBOX_HEAD_BYTES + ONE_BIT_BYTES
  const PADDING_BYTES: seq<byte> := [0x75, 0x0a, 0x81, 0x03, 0xc0, 0xc0]

  const PREAMBLE_BYTES: seq<byte> := GAMEPAD_BYTES + (HEADER_BYTES + (SYNC_BYTES + DUMMY_BYTES))
  const FACE_BUTTON_BYTES: seq<byte> :=
    MENU_VIEW_BYTES + (ABXY_BYTES + (DPAD_BYTES + (BUMPER_BYTES + STICK_BUTTON_BYTES)))
  const AXIS_BYTES: seq<byte> := TRIGGER_BYTES + STICK_BYTES
  const GUIDE_BYTES: seq<byte> := SECOND_GAMEPAD_BYTES + (HEADER_BYTES + (XBOX_BUTTON_BYTES + PADDING_BYTES))

  const REPORT_DESCRIPTOR: seq<byte> := (PREAMBLE_BYTES + (FACE_BUTTON_BYTES + AXIS_BYTES)) + GUIDE_BYTES

  // ---------------------------------------------------------------- the items

  function UsagePage(v: byte): (i: ShortItem) { Item(0, GLOBAL, [v]) }
  function LogicalMin(v: byte): (i: ShortItem) { Item(1, GLOBAL, [v]) }
  function LogicalMin2(lo: byte, hi: byte): (i: ShortItem) { Item(1, GLOBAL, [lo, hi]) }
  function LogicalMax(v: byte): (i: ShortItem) { Item(2, GLOBAL, [v]) }
  function LogicalMax2(lo: byte, hi: byte): (i: ShortItem) { Item(2, GLOBAL, [lo, hi]) }
  function ReportSize(v: byte): (i: ShortItem) { Item(7, GLOBAL, [v]) }
  function ReportId(v: byte): (i: ShortItem) { Item(8, GLOBAL, [v]) }
  function ReportCount(v: byte): (i: ShortItem) { Item(9, GLOBAL, [v]) }
  function UsageItem(v: byte): (i: ShortItem) { Item(0, LOCAL, [v]) }
  function UsageMin(v: byte): (i: ShortItem) { Item(1, LOCAL, [v]) }
  function UsageMax(v: byte): (i: ShortItem) { Item(2, LOCAL, [v]) }
  function InputItem(flags: byte): (i: ShortItem) { Item(8, MAIN, [flags]) }
  function Collection(v: byte): (i: ShortItem) { Item(COLLECTION, MAIN, [v]) }
  const CLOSE: ShortItem := Item(END_COLLECTION, MAIN, [])

  const DATA: byte := 0x02      // Data, Variable, Absolute
  const CONSTANT: byte := 0x03  // Constant, Variable, Absolute

  const GAMEPAD: seq<ShortItem> := [UsagePage(1), UsageItem(5), Collection(1), Collection(0), ReportId(0x20)]
  const HEADER: seq<ShortItem> := [ReportSize(8), ReportCount(3), InputItem(CONSTANT)]
  const ONE_BIT: seq<ShortItem> := [ReportSize(1), ReportCount(1), InputItem(DATA)]
  const SYNC_HEAD: seq<ShortItem> := [UsagePage(9), UsageItem(11), LogicalMin(1)]
  const SYNC: seq<ShortItem> := SYNC_HEAD + ONE_BIT
  const DUMMY: seq<ShortItem> := [InputItem(CONSTANT)]
  const MENU_VIEW: seq<ShortItem> := [UsageMin(9), UsageMax(10), ReportCount(2), InputItem(DATA)]
  const ABXY: seq<ShortItem> := [UsageMin(1), UsageMax(4), ReportCount(4), InputItem(DATA)]
  const DPAD: seq<ShortItem> := [UsageMin(12), UsageMax(15), InputItem(DATA)]
  const BUMPER: seq<ShortItem> := [UsageMin(5), UsageMax(6), ReportCount(2), InputItem(DATA)]
  const STICK_BUTTON: seq<ShortItem> := [UsageMin(7), UsageMax(8), InputItem(DATA)]
  const TRIGGER_HEAD: seq<ShortItem> := [UsagePage(1), UsageItem(0x32), UsageItem(0x35)]
  const TRIGGER_TAIL: seq<ShortItem> := [LogicalMin(0), LogicalMax2(0xff, 0x03), ReportSize(16), InputItem(DATA)]
  const TRIGGER: seq<ShortItem> := TRIGGER_HEAD + TRIGGER_TAIL
  const STICK_HEAD: seq<ShortItem> := [UsageItem(0x30), UsageItem(0x31), UsageItem(0x33), UsageItem(0x34)]
  const STICK_RANGE: seq<ShortItem> := [LogicalMin2(0x00, 0x80), LogicalMax2(0xff, 0x7f), ReportCount(4)]
  const STICK_TAIL: seq<ShortItem> := [InputItem(DATA), CLOSE]
  const STICK: seq<ShortItem> := STICK_HEAD + (STICK_RANGE + STICK_TAIL)
  const SECOND_GAMEPAD: seq<ShortItem> := [UsagePage(1), UsageItem(5), Collection(0), ReportId(7)]
  const XBOX_HEAD: seq<ShortItem> := [UsagePage(9), UsageItem(16), LogicalMin(0), LogicalMax(1)]
  const XBOX_BUTTON: seq<ShortItem> := XBOX_HEAD + ONE_BIT
  const PADDING: seq<ShortItem> := [ReportSize(10), InputItem(CONSTANT), CLOSE, CLOSE]

  const PREAMBLE: seq<ShortItem> := GAMEPAD + (HEADER + (SYNC + DUMMY))
  const FACE_BUTTONS: seq<ShortItem> := MENU_VIEW + (ABXY + (DPAD + (BUMPER + STICK_BUTTON)))
  const AXES: seq<ShortItem> := TRIGGER + STICK
  const BUTTON_ITEMS: seq<ShortItem> := PREAMBLE + (FACE_BUTTONS + AXES)
  const GUIDE_ITEMS: seq<ShortItem> := SECOND_GAMEPAD + (HEADER + (XBOX_BUTTON + PADDING))
  const ITEMS: seq<ShortItem> := BUTTON_ITEMS + GUIDE_ITEMS

  // ---------------------------------------------------------------- the fields

  const BUTTONS := Key(Input, 0x20)
  const GUIDE := Key(Input, 0x07)

  function Data(k: Key, offset: nat, size: nat, usage: Usage, lo: int, hi: int): (f: Field) {
    Field(k, offset, size, false, true, Some(usage), lo, hi)
  }

  function Pad(k: Key, offset: nat, size: nat, lo: int, hi: int): (f: Field) {
    Field(k, offset, size, true, true, None, lo, hi)
  }

  function Button(n: nat): (u: Usage) { Usage(9, n) }
  function Desktop(n: nat): (u: Usage) { Usage(1, n) }

  const HEADER_FIELDS := [Pad(BUTTONS, 0, 8, 0, 0), Pad(BUTTONS, 8, 8, 0, 0), Pad(BUTTONS, 16, 8, 0, 0)]
  const SYNC_FIELDS := [Data(BUTTONS, 24, 1, Button(11), 1, 0)]
  const DUMMY_FIELDS := [Pad(BUTTONS, 25, 1, 1, 0)]
  const MENU_VIEW_FIELDS := [Data(BUTTONS, 26, 1, Button(9), 1, 0), Data(BUTTONS, 27, 1, Button(10), 1, 0)]
  const ABXY_FIELDS := [
    Data(BUTTONS, 28, 1, Button(1), 1, 0), Data(BUTTONS, 29, 1, Button(2), 1, 0),
    Data(BUTTONS, 30, 1, Button(3), 1, 0), Data(BUTTONS, 31, 1, Button(4), 1, 0)]
  const DPAD_FIELDS := [
    Data(BUTTONS, 32, 1, Button(12), 1, 0), Data(BUTTONS, 33, 1, Button(13), 1, 0),
    Data(BUTTONS, 34, 1, Button(14), 1, 0), Data(BUTTONS, 35, 1, Button(15), 1, 0)]
  const BUMPER_FIELDS := [Data(BUTTONS, 36, 1, Button(5), 1, 0), Data(BUTTONS, 37, 1, Button(6), 1, 0)]
  const STICK_BUTTON_FIELDS := [Data(BUTTONS, 38, 1, Button(7), 1, 0), Data(BUTTONS, 39, 1, Button(8), 1, 0)]
  const TRIGGER_FIELDS := [
    Data(BUTTONS, 40, 16, Desktop(0x32), 0, 1023), Data(BUTTONS, 56, 16, Desktop(0x35), 0, 1023)]
  const STICK_FIELDS := [
    Data(BUTTONS, 72, 16, Desktop(0x30), -32768, 32767), Data(BUTTONS, 88, 16, Desktop(0x31), -32768, 32767),
    Data(BUTTONS, 104, 16, Desktop(0x33), -32768, 32767), Data(BUTTONS, 120, 16, Desktop(0x34), -32768, 32767)]

  const PREAMBLE_FIELDS: seq<Field> := HEADER_FIELDS + SYNC_FIELDS + DUMMY_FIELDS
  const FACE_BUTTON_FIELDS: seq<Field> :=
    MENU_VIEW_FIELDS + ABXY_FIELDS + DPAD_FIELDS + BUMPER_FIELDS + STICK_BUTTON_FIELDS
  const AXIS_FIELDS: seq<Field> := TRIGGER_FIELDS + STICK_FIELDS
  const BUTTON_FIELDS: seq<Field> := PREAMBLE_FIELDS + FACE_BUTTON_FIELDS + AXIS_FIELDS

  const GUIDE_FIELDS: seq<Field> := [
    Pad(GUIDE, 0, 8, -32768, 32767), Pad(GUIDE, 8, 8, -32768, 32767), Pad(GUIDE, 16, 8, -32768, 32767),
    Data(GUIDE, 24, 1, Button(16), 0, 1), Pad(GUIDE, 25, 10, 0, 1)]

  // ---------------------------------------------------------------- running the blocks

  /** Progress of the interpreter: the global table, nesting, both report lengths and the fields so far. */
  predicate Reached(s: State, g: Globals, depth: nat, buttons: nat, guide: nat, fields: seq<Field>) {
    && s.env == Env(g, [])
    && s.locals == NO_LOCALS
    && s.depth == depth
    && Length(s, BUTTONS) == buttons
    && Length(s, GUIDE) == guide
    && s.fields == fields
  }

  const AFTER_GAMEPAD := Globals(1, 0, 0, 0, 0, 0x20)
  const AFTER_SYNC := Globals(9, 1, 0, 1, 1, 0x20)
  const AFTER_TRIGGER := Globals(1, 0, 1023, 16, 2, 0x20)
  const AFTER_STICK := Globals(1, -32768, 32767, 16, 4, 0x20)

  lemma RunGamepad(s: State, fields: seq<Field>) returns (t: State)
    requires Reached(s, INITIAL_ENV.globals, 0, 0, 0, fields)
    ensures Run(GAMEPAD, s) == Ok(t)
    ensures Reached(t, AFTER_GAMEPAD, 2, 0, 0, fields)
  {
    assert |GAMEPAD| == 5;
    RunWhole(GAMEPAD, s);
    t := RunPrefix(GAMEPAD, 5, s).value;
  }

  /** Global and local items change only these. */
  function Set(s: State, g: Globals, usages: seq<Usage>): (t: State) {
    s.(env := Env(g, []), locals := Locals(usages, None))
  }

  /** A block of settings that ends with an Input item. */
  lemma RunBlock(items: seq<ShortItem>, s: State, g: Globals, usages: seq<Usage>, fs: seq<Field>)
      returns (t: State)
    requires items != [] && RunPrefix(items, |items| - 1, s) == Ok(Set(s, g, usages))
    requires var last := items[|items| - 1];
             && DataKind(last) == Some(Input) && |fs| == g.reportCount
             && forall j | 0 <= j < |fs| :: fs[j] == InputField(Set(s, g, usages), LittleEndian(last.data), j)
    ensures Run(items, s) == Ok(t)
    ensures var k := Key(Input, g.reportId);
            t == Set(s, g, []).(fields := s.fields + fs, lengths := s.lengths[k := Length(s, k) + g.reportSize * |fs|])
  {
    InputAdds(Set(s, g, usages), items[|items| - 1], fs);
    RunWhole(items, s);
    t := RunPrefix(items, |items|, s).value;
  }

  lemma {:induction false} HeaderSettings(s: State)
    requires s.env == Env(AFTER_GAMEPAD, []) && s.locals == NO_LOCALS
    ensures RunPrefix(HEADER, 2, s) == Ok(Set(s, AFTER_GAMEPAD.(reportSize := 8, reportCount := 3), []))
  {
  }

  lemma RunHeader(s: State, fields: seq<Field>) returns (t: State)
    requires Reached(s, AFTER_GAMEPAD, 2, 0, 0, fields)
    ensures Run(HEADER, s) == Ok(t)
    ensures Reached(t, AFTER_GAMEPAD.(reportSize := 8, reportCount := 3), 2, 24, 0, fields + HEADER_FIELDS)
  {
    HeaderSettings(s);
    t := RunBlock(HEADER, s, AFTER_GAMEPAD.(reportSize := 8, reportCount := 3), [], HEADER_FIELDS);
  }

  /** The last three items of a one-bit button. */
  lemma {:induction false} OneBitSettings(s: State, g: Globals, usages: seq<Usage>)
    requires s.env == Env(g, []) && s.locals == Locals(usages, None)
    ensures RunPrefix(ONE_BIT, 2, s) == Ok(Set(s, g.(reportSize := 1, reportCount := 1), usages))
  {
  }

  lemma {:induction false} RunSyncHead(s: State)
    requires s.env == Env(AFTER_GAMEPAD.(reportSize := 8, reportCount := 3), []) && s.locals == NO_LOCALS
    ensures Run(SYNC_HEAD, s) == Ok(Set(s, AFTER_SYNC.(reportSize := 8, reportCount := 3), [Button(11)]))
  {
    assert |SYNC_HEAD| == 3;
    RunWhole(SYNC_HEAD, s);
    assert RunPrefix(SYNC_HEAD, 3, s).value.locals.usages == [Button(11)];
  }

  lemma RunSync(s: State, fields: seq<Field>) returns (t: State)
    requires Reached(s, AFTER_GAMEPAD.(reportSize := 8, reportCount := 3), 2, 24, 0, fields)
    ensures Run(SYNC, s) == Ok(t)
    ensures Reached(t, AFTER_SYNC, 2, 25, 0, fields + SYNC_FIELDS)
  {
    var g := AFTER_SYNC.(reportSize := 8, reportCount := 3);
    var mid := Set(s, g, [Button(11)]);
    RunSyncHead(s);
    OneBitSettings(mid, g, [Button(11)]);
    t := RunBlock(ONE_BIT, mid, AFTER_SYNC, [Button(11)], SYNC_FIELDS);
    Chain(SYNC_HEAD, ONE_BIT, s, mid, t);
  }

  lemma RunDummy(s: State, fields: seq<Field>) returns (t: State)
    requires Reached(s, AFTER_SYNC, 2, 25, 0, fields)
    ensures Run(DUMMY, s) == Ok(t)
    ensures Reached(t, AFTER_SYNC, 2, 26, 0, fields + DUMMY_FIELDS)
  {
    t := RunBlock(DUMMY, s, AFTER_SYNC, [], DUMMY_FIELDS);
  }

  lemma {:induction false} MenuViewSettings(s: State)
    requires s.env == Env(AFTER_SYNC, []) && s.locals == NO_LOCALS
    ensures RunPrefix(MENU_VIEW, 3, s) == Ok(Set(s, AFTER_SYNC.(reportCount := 2), [Button(9), Button(10)]))
  {
    assert RunPrefix(MENU_VIEW, 3, s).value.locals.usages == [Button(9), Button(10)];
  }

  lemma RunMenuView(s: State, fields: seq<Field>) returns (t: State)
    requires Reached(s, AFTER_SYNC, 2, 26, 0, fields)
    ensures Run(MENU_VIEW, s) == Ok(t)
    ensures Reached(t, AFTER_SYNC.(reportCount := 2), 2, 28, 0, fields + MENU_VIEW_FIELDS)
  {
    MenuViewSettings(s);
    t := RunBlock(MENU_VIEW, s, AFTER_SYNC.(reportCount := 2), [Button(9), Button(10)], MENU_VIEW_FIELDS);
  }

  const ABXY_USAGES := [Button(1), Button(2), Button(3), Button(4)]
  const DPAD_USAGES := [Button(12), Button(13), Button(14), Button(15)]

  lemma {:induction false} AbxySettings(s: State)
    requires s.env == Env(AFTER_SYNC.(reportCount := 2), []) && s.locals == NO_LOCALS
    ensures RunPrefix(ABXY, 3, s) == Ok(Set(s, AFTER_SYNC.(reportCount := 4), ABXY_USAGES))
  {
    assert RunPrefix(ABXY, 3, s).value.locals.usages == ABXY_USAGES;
  }

  lemma AbxyInputs(s: State)
    requires Length(s, BUTTONS) == 28
    ensures forall j | 0 <= j < 4 ::
              ABXY_FIELDS[j] == InputField(Set(s, AFTER_SYNC.(reportCount := 4), ABXY_USAGES), DATA, j)
  {
    var mid := Set(s, AFTER_SYNC.(reportCount := 4), ABXY_USAGES);
    assert ABXY_FIELDS[0] == InputField(mid, DATA, 0) && ABXY_FIELDS[1] == InputField(mid, DATA, 1);
    assert ABXY_FIELDS[2] == InputField(mid, DATA, 2) && ABXY_FIELDS[3] == InputField(mid, DATA, 3);
  }

  lemma RunAbxy(s: State, fields: seq<Field>) returns (t: State)
    requires Reached(s, AFTER_SYNC.(reportCount := 2), 2, 28, 0, fields)
    ensures Run(ABXY, s) == Ok(t)
    ensures Reached(t, AFTER_SYNC.(reportCount := 4), 2, 32, 0, fields + ABXY_FIELDS)
  {
    AbxySettings(s);
    AbxyInputs(s);
    t := RunBlock(ABXY, s, AFTER_SYNC.(reportCount := 4), ABXY_USAGES, ABXY_FIELDS);
  }

  lemma {:induction false} DpadSettings(s: State)
    requires s.env == Env(AFTER_SYNC.(reportCount := 4), []) && s.locals == NO_LOCALS
    ensures RunPrefix(DPAD, 2, s) == Ok(Set(s, AFTER_SYNC.(reportCount := 4), DPAD_USAGES))
  {
    assert RunPrefix(DPAD, 2, s).value.locals.usages == DPAD_USAGES;
  }

  lemma DpadInputs(s: State)
    requires Length(s, BUTTONS) == 32
    ensures forall j | 0 <= j < 4 ::
              DPAD_FIELDS[j] == InputField(Set(s, AFTER_SYNC.(reportCount := 4), DPAD_USAGES), DATA, j)
  {
    var mid := Set(s, AFTER_SYNC.(reportCount := 4), DPAD_USAGES);
    assert DPAD_FIELDS[0] == InputField(mid, DATA, 0) && DPAD_FIELDS[1] == InputField(mid, DATA, 1);
    assert DPAD_FIELDS[2] == InputField(mid, DATA, 2) && DPAD_FIELDS[3] == InputField(mid, DATA, 3);
  }

  lemma RunDpad(s: State, fields: seq<Field>) returns (t: State)
    requires Reached(s, AFTER_SYNC.(reportCount := 4), 2, 32, 0, fields)
    ensures Run(DPAD, s) == Ok(t)
    ensures Reached(t, AFTER_SYNC.(reportCount := 4), 2, 36, 0, fields + DPAD_FIELDS)
  {
    DpadSettings(s);
    DpadInputs(s);
    t := RunBlock(DPAD, s, AFTER_SYNC.(reportCount := 4), DPAD_USAGES, DPAD_FIELDS);
  }

  lemma {:induction false} BumperSettings(s: State)
    requires s.env == Env(AFTER_SYNC.(reportCount := 4), []) && s.locals == NO_LOCALS
    ensures RunPrefix(BUMPER, 3, s) == Ok(Set(s, AFTER_SYNC.(reportCount := 2), [Button(5), Button(6)]))
  {
    assert RunPrefix(BUMPER, 3, s).value.locals.usages == [Button(5), Button(6)];
  }

  lemma RunBumper(s: State, fields: seq<Field>) returns (t: State)
    requires Reached(s, AFTER_SYNC.(reportCount := 4), 2, 36, 0, fields)
    ensures Run(BUMPER, s) == Ok(t)
    ensures Reached(t, AFTER_SYNC.(reportCount := 2), 2, 38, 0, fields + BUMPER_FIELDS)
  {
    BumperSettings(s);
    t := RunBlock(BUMPER, s, AFTER_SYNC.(reportCount := 2), [Button(5), Button(6)], BUMPER_FIELDS);
  }

  lemma {:induction false} StickButtonSettings(s: State)
    requires s.env == Env(AFTER_SYNC.(reportCount := 2), []) && s.locals == NO_LOCALS
    ensures RunPrefix(STICK_BUTTON, 2, s) == Ok(Set(s, AFTER_SYNC.(reportCount := 2), [Button(7), Button(8)]))
  {
    assert RunPrefix(STICK_BUTTON, 2, s).value.locals.usages == [Button(7), Button(8)];
  }

  lemma RunStickButton(s: State, fields: seq<Field>) returns (t: State)
    requires Reached(s, AFTER_SYNC.(reportCount := 2), 2, 38, 0, fields)
    ensures Run(STICK_BUTTON, s) == Ok(t)
    ensures Reached(t, AFTER_SYNC.(reportCount := 2), 2, 40, 0, fields + STICK_BUTTON_FIELDS)
  {
    StickButtonSettings(s);
    t := RunBlock(STICK_BUTTON, s, AFTER_SYNC.(reportCount := 2), [Button(7), Button(8)], STICK_BUTTON_FIELDS);
  }

  lemma TriggerRange()
    ensures SignedData(LogicalMin(0)) == 0 && SignedData(LogicalMax2(0xff, 0x03)) == 1023
  {
    SixteenBits();
    WordValue(0xff, 0x03);
    assert LittleEndian([0]) == 0;
  }

  lemma {:induction false} RunTriggerHead(s: State)
    requires s.env == Env(AFTER_SYNC.(reportCount := 2), []) && s.locals == NO_LOCALS
    ensures Run(TRIGGER_HEAD, s) == Ok(Set(s, AFTER_SYNC.(usagePage := 1, reportCount := 2), TRIGGER_USAGES))
  {
    assert |TRIGGER_HEAD| == 3;
    RunWhole(TRIGGER_HEAD, s);
    assert RunPrefix(TRIGGER_HEAD, 3, s).value.locals.usages == TRIGGER_USAGES;
  }

  lemma {:induction false} TriggerSettings(s: State)
    requires s.env == Env(AFTER_SYNC.(usagePage := 1, reportCount := 2), []) && s.locals == Locals(TRIGGER_USAGES, None)
    ensures RunPrefix(TRIGGER_TAIL, 3, s) == Ok(Set(s, AFTER_TRIGGER, TRIGGER_USAGES))
  {
    TriggerRange();
    assert RunPrefix(TRIGGER_TAIL, 3, s) == Ok(s.(env := Env(AFTER_TRIGGER, [])));
  }

  lemma TriggerInputs(s: State)
    requires Length(s, BUTTONS) == 40
    ensures forall j | 0 <= j < 2 :: TRIGGER_FIELDS[j] == InputField(Set(s, AFTER_TRIGGER, TRIGGER_USAGES), DATA, j)
  {
    var mid := Set(s, AFTER_TRIGGER, TRIGGER_USAGES);
    assert TRIGGER_FIELDS[0] == InputField(mid, DATA, 0) && TRIGGER_FIELDS[1] == InputField(mid, DATA, 1);
  }

  lemma RunTrigger(s: State, fields: seq<Field>) returns (t: State)
    requires Reached(s, AFTER_SYNC.(reportCount := 2), 2, 40, 0, fields)
    ensures Run(TRIGGER, s) == Ok(t)
    ensures Reached(t, AFTER_TRIGGER, 2, 72, 0, fields + TRIGGER_FIELDS)
  {
    var mid := Set(s, AFTER_SYNC.(usagePage := 1, reportCount := 2), TRIGGER_USAGES);
    RunTriggerHead(s);
    TriggerSettings(mid);
    TriggerInputs(mid);
    t := RunBlock(TRIGGER_TAIL, mid, AFTER_TRIGGER, TRIGGER_USAGES, TRIGGER_FIELDS);
    Chain(TRIGGER_HEAD, TRIGGER_TAIL, s, mid, t);
  }

  const TRIGGER_USAGES := [Desktop(0x32), Desktop(0x35)]
  const STICK_USAGES := [Desktop(0x30), Desktop(0x31), Desktop(0x33), Desktop(0x34)]

  lemma StickRange()
    ensures SignedData(LogicalMin2(0x00, 0x80)) == -32768 && SignedData(LogicalMax2(0xff, 0x7f)) == 32767
  {
    SixteenBits();
    WordValue(0x00, 0x80);
    WordValue(0xff, 0x7f);
  }

  lemma {:induction false} RunStickHead(s: State)
    requires s.env == Env(AFTER_TRIGGER, []) && s.locals == NO_LOCALS
    ensures Run(STICK_HEAD, s) == Ok(s.(locals := Locals(STICK_USAGES, None)))
  {
    assert |STICK_HEAD| == 4;
    RunWhole(STICK_HEAD, s);
    assert RunPrefix(STICK_HEAD, 2, s).value.locals.usages == [Desktop(0x30), Desktop(0x31)];
    assert RunPrefix(STICK_HEAD, 4, s).value.locals.usages == STICK_USAGES;
  }

  lemma {:induction false} RunStickRange(s: State)
    requires s.env == Env(AFTER_TRIGGER, [])
    ensures Run(STICK_RANGE, s) == Ok(s.(env := Env(AFTER_STICK, [])))
  {
    assert |STICK_RANGE| == 3;
    RunWhole(STICK_RANGE, s);
    StickRange();
    assert RunPrefix(STICK_RANGE, 3, s) == Ok(s.(env := Env(AFTER_STICK, [])));
  }

  lemma StickInputs(s: State)
    requires Length(s, BUTTONS) == 72
    ensures forall j | 0 <= j < 4 :: STICK_FIELDS[j] == InputField(Set(s, AFTER_STICK, STICK_USAGES), DATA, j)
  {
    var mid := Set(s, AFTER_STICK, STICK_USAGES);
    assert STICK_FIELDS[0] == InputField(mid, DATA, 0) && STICK_FIELDS[1] == InputField(mid, DATA, 1);
    assert STICK_FIELDS[2] == InputField(mid, DATA, 2) && STICK_FIELDS[3] == InputField(mid, DATA, 3);
  }

  lemma RunStickTail(s: State, fields: seq<Field>) returns (t: State)
    requires Reached(s.(locals := NO_LOCALS), AFTER_STICK, 2, 72, 0, fields) && s.locals == Locals(STICK_USAGES, None)
    ensures Run(STICK_TAIL, s) == Ok(t)
    ensures Reached(t, AFTER_STICK, 1, 136, 0, fields + STICK_FIELDS)
  {
    assert |STICK_TAIL| == 2;
    RunWhole(STICK_TAIL, s);
    StickInputs(s);
    assert s == Set(s, AFTER_STICK, STICK_USAGES);
    InputAdds(s, InputItem(DATA), STICK_FIELDS);
    t := RunPrefix(STICK_TAIL, 2, s).value;
  }

  lemma RunStick(s: State, fields: seq<Field>) returns (t: State)
    requires Reached(s, AFTER_TRIGGER, 2, 72, 0, fields)
    ensures Run(STICK, s) == Ok(t)
    ensures Reached(t, AFTER_STICK, 1, 136, 0, fields + STICK_FIELDS)
  {
    var u := s.(locals := Locals(STICK_USAGES, None));
    var v := u.(env := Env(AFTER_STICK, []));
    RunStickHead(s);
    RunStickRange(u);
    t := RunStickTail(v, fields);
    Chain(STICK_RANGE, STICK_TAIL, u, v, t);
    Chain(STICK_HEAD, STICK_RANGE + STICK_TAIL, s, u, t);
  }

  lemma RunSecondGamepad(s: State, fields: seq<Field>) returns (t: State)
    requires Reached(s, AFTER_STICK, 1, 136, 0, fields)
    ensures Run(SECOND_GAMEPAD, s) == Ok(t)
    ensures Reached(t, AFTER_STICK.(reportId := 7), 2, 136, 0, fields)
  {
    assert |SECOND_GAMEPAD| == 4;
    RunWhole(SECOND_GAMEPAD, s);
    t := RunPrefix(SECOND_GAMEPAD, 4, s).value;
  }

  lemma {:induction false} GuideHeaderSettings(s: State)
    requires s.env == Env(AFTER_STICK.(reportId := 7), []) && s.locals == NO_LOCALS
    ensures RunPrefix(HEADER, 2, s) == Ok(Set(s, AFTER_STICK.(reportId := 7, reportSize := 8, reportCount := 3), []))
  {
  }

  lemma RunGuideHeader(s: State, fields: seq<Field>) returns (t: State)
    requires Reached(s, AFTER_STICK.(reportId := 7), 2, 136, 0, fields)
    ensures Run(HEADER, s) == Ok(t)
    ensures Reached(t, AFTER_STICK.(reportId := 7, reportSize := 8, reportCount := 3), 2, 136, 24,
                    fields + GUIDE_FIELDS[..3])
  {
    GuideHeaderSettings(s);
    t := RunBlock(HEADER, s, AFTER_STICK.(reportId := 7, reportSize := 8, reportCount := 3), [], GUIDE_FIELDS[..3]);
  }

  lemma {:induction false} RunXboxHead(s: State)
    requires s.env == Env(AFTER_STICK.(reportId := 7, reportSize := 8, reportCount := 3), []) && s.locals == NO_LOCALS
    ensures Run(XBOX_HEAD, s) == Ok(Set(s, Globals(9, 0, 1, 8, 3, 7), [Button(16)]))
  {
    assert |XBOX_HEAD| == 4;
    RunWhole(XBOX_HEAD, s);
    assert RunPrefix(XBOX_HEAD, 4, s).value.locals.usages == [Button(16)];
  }

  lemma RunXboxButton(s: State, fields: seq<Field>) returns (t: State)
    requires Reached(s, AFTER_STICK.(reportId := 7, reportSize := 8, reportCount := 3), 2, 136, 24, fields)
    ensures Run(XBOX_BUTTON, s) == Ok(t)
    ensures Reached(t, Globals(9, 0, 1, 1, 1, 7), 2, 136, 25, fields + [GUIDE_FIELDS[3]])
  {
    var g := Globals(9, 0, 1, 8, 3, 7);
    var mid := Set(s, g, [Button(16)]);
    RunXboxHead(s);
    OneBitSettings(mid, g, [Button(16)]);
    t := RunBlock(ONE_BIT, mid, Globals(9, 0, 1, 1, 1, 7), [Button(16)], [GUIDE_FIELDS[3]]);
    Chain(XBOX_HEAD, ONE_BIT, s, mid, t);
  }

  lemma RunPadding(s: State, fields: seq<Field>) returns (t: State)
    requires Reached(s, Globals(9, 0, 1, 1, 1, 7), 2, 136, 25, fields)
    ensures Run(PADDING, s) == Ok(t)
    ensures Reached(t, Globals(9, 0, 1, 10, 1, 7), 0, 136, 35, fields + [GUIDE_FIELDS[4]])
  {
    assert |PADDING| == 4;
    RunWhole(PADDING, s);
    InputAdds(RunPrefix(PADDING, 1, s).value, InputItem(CONSTANT), [GUIDE_FIELDS[4]]);
    t := RunPrefix(PADDING, 4, s).value;
  }

  lemma {:induction false} Chain(a: seq<ShortItem>, b: seq<ShortItem>, s: State, t: State, u: State)
    requires Run(a, s) == Ok(t) && Run(b, t) == Ok(u)
    ensures Run(a + b, s) == Ok(u)
  {
    RunConcat(a, b, s);
  }

  lemma RunFirstBits(s: State, fields: seq<Field>) returns (t: State)
    requires Reached(s, AFTER_GAMEPAD.(reportSize := 8, reportCount := 3), 2, 24, 0, fields)
    ensures Run(SYNC + DUMMY, s) == Ok(t)
    ensures Reached(t, AFTER_SYNC, 2, 26, 0, fields + SYNC_FIELDS + DUMMY_FIELDS)
  {
    var s1 := RunSync(s, fields);
    t := RunDummy(s1, s1.fields);
    Chain(SYNC, DUMMY, s, s1, t);
  }

  lemma RunPreamble() returns (t: State)
    ensures Run(PREAMBLE, INITIAL) == Ok(t) && Reached(t, AFTER_SYNC, 2, 26, 0, PREAMBLE_FIELDS)
  {
    var s1 := RunGamepad(INITIAL, []);
    var s2 := RunHeader(s1, []);
    assert s2.fields == HEADER_FIELDS;
    t := RunFirstBits(s2, HEADER_FIELDS);
    Chain(HEADER, SYNC + DUMMY, s1, s2, t);
    Chain(GAMEPAD, HEADER + (SYNC + DUMMY), INITIAL, s1, t);
  }

  lemma RunShoulders(s: State, fields: seq<Field>) returns (t: State)
    requires Reached(s, AFTER_SYNC.(reportCount := 4), 2, 36, 0, fields)
    ensures Run(BUMPER + STICK_BUTTON, s) == Ok(t)
    ensures Reached(t, AFTER_SYNC.(reportCount := 2), 2, 40, 0, fields + BUMPER_FIELDS + STICK_BUTTON_FIELDS)
  {
    var s1 := RunBumper(s, fields);
    t := RunStickButton(s1, s1.fields);
    Chain(BUMPER, STICK_BUTTON, s, s1, t);
  }

  lemma RunPadAndShoulders(s: State, fields: seq<Field>) returns (t: State)
    requires Reached(s, AFTER_SYNC.(reportCount := 4), 2, 32, 0, fields)
    ensures Run(DPAD + (BUMPER + STICK_BUTTON), s) == Ok(t)
    ensures Reached(t, AFTER_SYNC.(reportCount := 2), 2, 40, 0, fields + DPAD_FIELDS + BUMPER_FIELDS + STICK_BUTTON_FIELDS)
  {
    var s1 := RunDpad(s, fields);
    t := RunShoulders(s1, s1.fields);
    Chain(DPAD, BUMPER + STICK_BUTTON, s, s1, t);
  }

  lemma RunLettersOn(s: State, fields: seq<Field>) returns (t: State)
    requires Reached(s, AFTER_SYNC.(reportCount := 2), 2, 28, 0, fields)
    ensures Run(ABXY + (DPAD + (BUMPER + STICK_BUTTON)), s) == Ok(t)
    ensures Reached(t, AFTER_SYNC.(reportCount := 2), 2, 40, 0,
                    fields + ABXY_FIELDS + DPAD_FIELDS + BUMPER_FIELDS + STICK_BUTTON_FIELDS)
  {
    var s1 := RunAbxy(s, fields);
    t := RunPadAndShoulders(s1, s1.fields);
    Chain(ABXY, DPAD + (BUMPER + STICK_BUTTON), s, s1, t);
  }

  lemma RunFaceButtons(s: State, fields: seq<Field>) returns (t: State)
    requires Reached(s, AFTER_SYNC, 2, 26, 0, fields)
    ensures Run(FACE_BUTTONS, s) == Ok(t)
    ensures Reached(t, AFTER_SYNC.(reportCount := 2), 2, 40, 0, fields + FACE_BUTTON_FIELDS)
  {
    var s1 := RunMenuView(s, fields);
    t := RunLettersOn(s1, s1.fields);
    Chain(MENU_VIEW, ABXY + (DPAD + (BUMPER + STICK_BUTTON)), s, s1, t);
    FaceFieldsAre(fields);
  }

  lemma FaceFieldsAre(fields: seq<Field>)
    ensures fields + MENU_VIEW_FIELDS + ABXY_FIELDS + DPAD_FIELDS + BUMPER_FIELDS + STICK_BUTTON_FIELDS
         == fields + FACE_BUTTON_FIELDS
  {
    Assoc5(fields, MENU_VIEW_FIELDS, ABXY_FIELDS, DPAD_FIELDS, BUMPER_FIELDS, STICK_BUTTON_FIELDS);
  }

  lemma Assoc5<T>(x: seq<T>, a: seq<T>, b: seq<T>, c: seq<T>, d: seq<T>, e: seq<T>)
    ensures x + a + b + c + d + e == x + (a + b + c + d + e)
  {
  }

  lemma RunAxes(s: State, fields: seq<Field>) returns (t: State)
    requires Reached(s, AFTER_SYNC.(reportCount := 2), 2, 40, 0, fields)
    ensures Run(AXES, s) == Ok(t)
    ensures Reached(t, AFTER_STICK, 1, 136, 0, fields + AXIS_FIELDS)
  {
    var s1 := RunTrigger(s, fields);
    t := RunStick(s1, s1.fields);
    Chain(TRIGGER, STICK, s, s1, t);
  }

  lemma RunButtonItems() returns (t: State)
    ensures Run(BUTTON_ITEMS, INITIAL) == Ok(t) && Reached(t, AFTER_STICK, 1, 136, 0, BUTTON_FIELDS)
  {
    var s1 := RunPreamble();
    var s2 := RunFaceButtons(s1, PREAMBLE_FIELDS);
    t := RunAxes(s2, PREAMBLE_FIELDS + FACE_BUTTON_FIELDS);
    Chain(FACE_BUTTONS, AXES, s1, s2, t);
    Chain(PREAMBLE, FACE_BUTTONS + AXES, INITIAL, s1, t);
  }

  lemma RunGuideBits(s: State, fields: seq<Field>) returns (t: State)
    requires Reached(s, AFTER_STICK.(reportId := 7, reportSize := 8, reportCount := 3), 2, 136, 24, fields)
    ensures Run(XBOX_BUTTON + PADDING, s) == Ok(t)
    ensures Reached(t, Globals(9, 0, 1, 10, 1, 7), 0, 136, 35, fields + [GUIDE_FIELDS[3]] + [GUIDE_FIELDS[4]])
  {
    var s1 := RunXboxButton(s, fields);
    t := RunPadding(s1, s1.fields);
    Chain(XBOX_BUTTON, PADDING, s, s1, t);
  }

  lemma RunGuideItems(s: State, fields: seq<Field>) returns (t: State)
    requires Reached(s, AFTER_STICK, 1, 136, 0, fields)
    ensures Run(GUIDE_ITEMS, s) == Ok(t)
    ensures Reached(t, Globals(9, 0, 1, 10, 1, 7), 0, 136, 35, fields + GUIDE_FIELDS)
  {
    var s1 := RunSecondGamepad(s, fields);
    var s2 := RunGuideHeader(s1, fields);
    t := RunGuideBits(s2, s2.fields);
    Chain(HEADER, XBOX_BUTTON + PADDING, s1, s2, t);
    Chain(SECOND_GAMEPAD, HEADER + (XBOX_BUTTON + PADDING), s, s1, t);
    GuideFieldsAre(fields, GUIDE_FIELDS);
  }

  lemma GuideFieldsAre(fields: seq<Field>, guide: seq<Field>)
    requires |guide| == 5
    ensures fields + guide[..3] + [guide[3]] + [guide[4]] == fields + guide
  {
  }

  // ---------------------------------------------------------------- the bytes of the blocks

  lemma GamepadBytes()
    ensures PrintAll(GAMEPAD) == GAMEPAD_BYTES
  {
    PrintWhole(GAMEPAD);
    assert PrintPrefix(GAMEPAD, 5) == GAMEPAD_BYTES;
  }

  lemma HeaderBytes()
    ensures PrintAll(HEADER) == HEADER_BYTES
  {
    PrintWhole(HEADER);
    assert PrintPrefix(HEADER, 3) == HEADER_BYTES;
  }

  lemma OneBitBytes()
    ensures PrintAll(ONE_BIT) == ONE_BIT_BYTES
  {
    PrintWhole(ONE_BIT);
    assert PrintPrefix(ONE_BIT, 3) == ONE_BIT_BYTES;
  }

  lemma SyncHeadBytes()
    ensures PrintAll(SYNC_HEAD) == SYNC_HEAD_BYTES
  {
    PrintWhole(SYNC_HEAD);
    assert PrintPrefix(SYNC_HEAD, 3) == SYNC_HEAD_BYTES;
  }

  lemma SyncBytes()
    ensures PrintAll(SYNC) == SYNC_BYTES
  {
    SyncHeadBytes();
    OneBitBytes();
    PrintAllConcat(SYNC_HEAD, ONE_BIT);
  }

  lemma DummyBytes()
    ensures PrintAll(DUMMY) == DUMMY_BYTES
  {
    PrintWhole(DUMMY);
    assert PrintPrefix(DUMMY, 1) == DUMMY_BYTES;
  }

  lemma MenuViewBytes()
    ensures PrintAll(MENU_VIEW) == MENU_VIEW_BYTES
  {
    PrintWhole(MENU_VIEW);
    assert PrintPrefix(MENU_VIEW, 4) == MENU_VIEW_BYTES;
  }

  lemma AbxyBytes()
    ensures PrintAll(ABXY) == ABXY_BYTES
  {
    PrintWhole(ABXY);
    assert PrintPrefix(ABXY, 4) == ABXY_BYTES;
  }

  lemma DpadBytes()
    ensures PrintAll(DPAD) == DPAD_BYTES
  {
    PrintWhole(DPAD);
    assert PrintPrefix(DPAD, 3) == DPAD_BYTES;
  }

  lemma BumperBytes()
    ensures PrintAll(BUMPER) == BUMPER_BYTES
  {
    PrintWhole(BUMPER);
    assert PrintPrefix(BUMPER, 4) == BUMPER_BYTES;
  }

  lemma StickButtonBytes()
    ensures PrintAll(STICK_BUTTON) == STICK_BUTTON_BYTES
  {
    PrintWhole(STICK_BUTTON);
    assert PrintPrefix(STICK_BUTTON, 3) == STICK_BUTTON_BYTES;
  }

  lemma SecondGamepadBytes()
    ensures PrintAll(SECOND_GAMEPAD) == SECOND_GAMEPAD_BYTES
  {
    PrintWhole(SECOND_GAMEPAD);
    assert PrintPrefix(SECOND_GAMEPAD, 4) == SECOND_GAMEPAD_BYTES;
  }

  lemma PaddingBytes()
    ensures PrintAll(PADDING) == PADDING_BYTES
  {
    PrintWhole(PADDING);
    assert PrintPrefix(PADDING, 2) == [0x75, 0x0a, 0x81, 0x03];
    assert PrintPrefix(PADDING, 4) == PADDING_BYTES;
  }

  lemma PreambleBytes()
    ensures PrintAll(PREAMBLE) == PREAMBLE_BYTES
  {
    GamepadBytes();
    HeaderBytes();
    SyncBytes();
    DummyBytes();
    PrintAllConcat(SYNC, DUMMY);
    PrintAllConcat(HEADER, SYNC + DUMMY);
    PrintAllConcat(GAMEPAD, HEADER + (SYNC + DUMMY));
  }

  lemma FaceButtonBytes()
    ensures PrintAll(FACE_BUTTONS) == FACE_BUTTON_BYTES
  {
    MenuViewBytes();
    AbxyBytes();
    DpadBytes();
    BumperBytes();
    StickButtonBytes();
    PrintAllConcat(BUMPER, STICK_BUTTON);
    PrintAllConcat(DPAD, BUMPER + STICK_BUTTON);
    PrintAllConcat(ABXY, DPAD + (BUMPER + STICK_BUTTON));
    PrintAllConcat(MENU_VIEW, ABXY + (DPAD + (BUMPER + STICK_BUTTON)));
  }

  lemma TriggerHeadBytes()
    ensures PrintAll(TRIGGER_HEAD) == TRIGGER_HEAD_BYTES
  {
    PrintWhole(TRIGGER_HEAD);
    assert PrintPrefix(TRIGGER_HEAD, 3) == TRIGGER_HEAD_BYTES;
  }

  lemma TriggerTailBytes()
    ensures PrintAll(TRIGGER_TAIL) == TRIGGER_TAIL_BYTES
  {
    PrintWhole(TRIGGER_TAIL);
    assert PrintPrefix(TRIGGER_TAIL, 4) == TRIGGER_TAIL_BYTES;
  }

  lemma TriggerBytes()
    ensures PrintAll(TRIGGER) == TRIGGER_BYTES
  {
    TriggerHeadBytes();
    TriggerTailBytes();
    PrintAllConcat(TRIGGER_HEAD, TRIGGER_TAIL);
  }

  lemma StickHeadBytes()
    ensures PrintAll(STICK_HEAD) == STICK_HEAD_BYTES
  {
    PrintWhole(STICK_HEAD);
    assert PrintPrefix(STICK_HEAD, 4) == STICK_HEAD_BYTES;
  }

  lemma StickRangeBytes()
    ensures PrintAll(STICK_RANGE) == STICK_RANGE_BYTES
  {
    PrintWhole(STICK_RANGE);
    assert PrintPrefix(STICK_RANGE, 3) == STICK_RANGE_BYTES;
  }

  lemma StickTailBytes()
    ensures PrintAll(STICK_TAIL) == STICK_TAIL_BYTES
  {
    PrintWhole(STICK_TAIL);
    assert PrintPrefix(STICK_TAIL, 2) == STICK_TAIL_BYTES;
  }

  lemma StickBytes()
    ensures PrintAll(STICK) == STICK_BYTES
  {
    StickHeadBytes();
    StickRangeBytes();
    StickTailBytes();
    PrintAllConcat(STICK_RANGE, STICK_TAIL);
    PrintAllConcat(STICK_HEAD, STICK_RANGE + STICK_TAIL);
  }

  lemma XboxHeadBytes()
    ensures PrintAll(XBOX_HEAD) == XBOX_HEAD_BYTES
  {
    PrintWhole(XBOX_HEAD);
    assert PrintPrefix(XBOX_HEAD, 4) == XBOX_HEAD_BYTES;
  }

  lemma XboxButtonBytes()
    ensures PrintAll(XBOX_BUTTON) == XBOX_BUTTON_BYTES
  {
    XboxHeadBytes();
    OneBitBytes();
    PrintAllConcat(XBOX_HEAD, ONE_BIT);
  }

  lemma AxisBytes()
    ensures PrintAll(AXES) == AXIS_BYTES
  {
    TriggerBytes();
    StickBytes();
    PrintAllConcat(TRIGGER, STICK);
  }

  lemma GuideBytes()
    ensures PrintAll(GUIDE_ITEMS) == GUIDE_BYTES
  {
    SecondGamepadBytes();
    HeaderBytes();
    XboxButtonBytes();
    PaddingBytes();
    PrintAllConcat(XBOX_BUTTON, PADDING);
    PrintAllConcat(HEADER, XBOX_BUTTON + PADDING);
    PrintAllConcat(SECOND_GAMEPAD, HEADER + (XBOX_BUTTON + PADDING));
  }

  /** The byte table is exactly the byte form of the item list, and parses back to it. */
  lemma DescriptorParses()
    ensures Parse(REPORT_DESCRIPTOR) == Ok(ITEMS)
  {
    PreambleBytes();
    FaceButtonBytes();
    AxisBytes();
    GuideBytes();
    PrintAllConcat(FACE_BUTTONS, AXES);
    PrintAllConcat(PREAMBLE, FACE_BUTTONS + AXES);
    PrintAllConcat(BUTTON_ITEMS, GUIDE_ITEMS);
    ParseExact(REPORT_DESCRIPTOR, ITEMS);
  }

  lemma {:induction false} FieldsOfOne(fs: seq<Field>, k: Key, other: Key)
    requires k != other && forall f <- fs :: f.key == k
    ensures FieldsOf(fs, k) == fs && FieldsOf(fs, other) == []
  {
    if fs == [] {
    } else {
      FieldsOfOne(fs[1..], k, other);
    }
  }

  /** All of `fs` belongs to report `k` and none of it to report `l`. */
  predicate Owned(fs: seq<Field>, k: Key, l: Key) {
    FieldsOf(fs, k) == fs && FieldsOf(fs, l) == []
  }

  lemma OwnedConcat(a: seq<Field>, b: seq<Field>, k: Key, l: Key)
    requires Owned(a, k, l) && Owned(b, k, l)
    ensures Owned(a + b, k, l)
  {
    FieldsOfConcat(a, b, k);
    FieldsOfConcat(a, b, l);
  }

  lemma PreambleOwned(l: Key)
    requires l != BUTTONS
    ensures Owned(PREAMBLE_FIELDS, BUTTONS, l)
  {
    FieldsOfOne(PREAMBLE_FIELDS, BUTTONS, l);
  }

  lemma FaceButtonsOwned(l: Key)
    requires l != BUTTONS
    ensures Owned(FACE_BUTTON_FIELDS, BUTTONS, l)
  {
    FieldsOfOne(FACE_BUTTON_FIELDS, BUTTONS, l);
  }

  lemma AxesOwned(l: Key)
    requires l != BUTTONS
    ensures Owned(AXIS_FIELDS, BUTTONS, l)
  {
    FieldsOfOne(AXIS_FIELDS, BUTTONS, l);
  }

  lemma ButtonsOwned(l: Key)
    requires l != BUTTONS
    ensures Owned(BUTTON_FIELDS, BUTTONS, l)
  {
    PreambleOwned(l);
    FaceButtonsOwned(l);
    AxesOwned(l);
    OwnedConcat(PREAMBLE_FIELDS, FACE_BUTTON_FIELDS, BUTTONS, l);
    OwnedConcat(PREAMBLE_FIELDS + FACE_BUTTON_FIELDS, AXIS_FIELDS, BUTTONS, l);
  }

  lemma GuideOwned(l: Key)
    requires l != GUIDE
    ensures Owned(GUIDE_FIELDS, GUIDE, l)
  {
    FieldsOfOne(GUIDE_FIELDS, GUIDE, l);
  }

  lemma {:induction false} TwoReports(a: seq<Field>, b: seq<Field>, k: Key, l: Key)
    requires Owned(a, k, l) && Owned(b, l, k)
    ensures FieldsOf(a + b, k) == a && FieldsOf(a + b, l) == b
  {
    FieldsOfConcat(a, b, k);
    FieldsOfConcat(a, b, l);
  }

  lemma {:induction false} NoOtherFields(k: Key)
    requires k != BUTTONS && k != GUIDE
    ensures FieldsOf(BUTTON_FIELDS + GUIDE_FIELDS, k) == []
  {
    ButtonsOwned(k);
    GuideOwned(k);
    FieldsOfConcat(BUTTON_FIELDS, GUIDE_FIELDS, k);
  }

  lemma RunItems() returns (t: State)
    ensures Run(ITEMS, INITIAL) == Ok(t)
    ensures Reached(t, Globals(9, 0, 1, 10, 1, 7), 0, 136, 35, BUTTON_FIELDS + GUIDE_FIELDS)
  {
    var s := RunButtonItems();
    t := RunGuideItems(s, BUTTON_FIELDS);
    Chain(BUTTON_ITEMS, GUIDE_ITEMS, INITIAL, s, t);
  }

  lemma SplitFields()
    ensures FieldsOf(BUTTON_FIELDS + GUIDE_FIELDS, BUTTONS) == BUTTON_FIELDS
    ensures FieldsOf(BUTTON_FIELDS + GUIDE_FIELDS, GUIDE) == GUIDE_FIELDS
  {
    ButtonsOwned(GUIDE);
    GuideOwned(BUTTONS);
    TwoReports(BUTTON_FIELDS, GUIDE_FIELDS, BUTTONS, GUIDE);
  }

  /**
   The meaning of the descriptor: it is accepted with all collections closed, report 0x20 has the 25 fields
   of `BUTTON_FIELDS` in 136 bits, and report 0x07 the five fields of `GUIDE_FIELDS` in 35 bits. There is no other.
   */
  lemma DescriptorFields() returns (t: State)
    ensures Run(ITEMS, INITIAL) == Ok(t) && t.depth == 0
    ensures FieldsOf(t.fields, BUTTONS) == BUTTON_FIELDS && FieldsOf(t.fields, GUIDE) == GUIDE_FIELDS
    ensures Length(t, BUTTONS) == 136 && Length(t, GUIDE) == 35
    ensures forall k | k != BUTTONS && k != GUIDE :: FieldsOf(t.fields, k) == []
  {
    t := RunItems();
    SplitFields();
    forall k | k != BUTTONS && k != GUIDE
      ensures FieldsOf(t.fields, k) == []
    {
      NoOtherFields(k);
    }
  }

  /** The block of report 0x07 leaves the fields and the length of report 0x20 as it found them. */
  lemma GuideBlockLeavesButtons()
    ensures Run(BUTTON_ITEMS, INITIAL).Ok? && Run(ITEMS, INITIAL).Ok?
    ensures var s, t := Run(BUTTON_ITEMS, INITIAL).value, Run(ITEMS, INITIAL).value;
            FieldsOf(t.fields, BUTTONS) == FieldsOf(s.fields, BUTTONS) && Length(t, BUTTONS) == Length(s, BUTTONS)
  {
    var s := RunButtonItems();
    var t := RunItems();
    GuideBlockMentionsNoButtons(s);
    OtherReportsUntouched(BUTTON_ITEMS, GUIDE_ITEMS, BUTTONS);
  }

  lemma GuideBlockMentionsNoButtons(s: State)
    requires Reached(s, AFTER_STICK, 1, 136, 0, BUTTON_FIELDS)
    ensures !Mentions(GUIDE_ITEMS, s.env, BUTTONS)
  {
    var t := RunSecondGamepad(s, BUTTON_FIELDS);
    HeadDeclaresNothing(s.env);
    GuideReportStays(t.env);
    MentionsConcat(SECOND_GAMEPAD, HEADER + (XBOX_BUTTON + PADDING), s, t, BUTTONS);
  }

  lemma {:induction false} HeadDeclaresNothing(env: Env)
    ensures !Mentions(SECOND_GAMEPAD, env, BUTTONS)
  {
    NothingDeclared(SECOND_GAMEPAD, env, BUTTONS);
  }

  lemma {:induction false} GuideReportStays(env: Env)
    requires env.globals.reportId == 7
    ensures !Mentions(HEADER + (XBOX_BUTTON + PADDING), env, BUTTONS)
  {
    OtherReportCurrent(HEADER + (XBOX_BUTTON + PADDING), env, BUTTONS);
  }

  lemma DescriptorBits()
    ensures DeclaredBits(ITEMS, INITIAL_ENV, BUTTONS) == 136 && DeclaredBits(ITEMS, INITIAL_ENV, GUIDE) == 35
  {
    var t := DescriptorFields();
    RunLayout(ITEMS, INITIAL, BUTTONS);
    RunLayout(ITEMS, INITIAL, GUIDE);
  }

  // ---------------------------------------------------------------- nesting

  function Collections(items: seq<ShortItem>): (n: nat) {
    MainItems(items, |items|, COLLECTION)
  }

  lemma CollectionsConcat(a: seq<ShortItem>, b: seq<ShortItem>)
    ensures Collections(a + b) == Collections(a) + Collections(b)
  {
    MainItemsConcat(a, b, |a + b|, COLLECTION);
  }

  lemma ButtonCollections()
    ensures Collections(BUTTON_ITEMS) == 2
  {
    assert Collections(PREAMBLE) == 2 by {
      assert Collections(GAMEPAD) == 2 && Collections(HEADER) == 0 && Collections(DUMMY) == 0;
      assert Collections(SYNC_HEAD) == 0 && Collections(ONE_BIT) == 0;
      CollectionsConcat(SYNC_HEAD, ONE_BIT);
      CollectionsConcat(SYNC, DUMMY);
      CollectionsConcat(HEADER, SYNC + DUMMY);
      CollectionsConcat(GAMEPAD, HEADER + (SYNC + DUMMY));
    }
    FaceButtonCollections();
    AxisCollections();
    CollectionsConcat(FACE_BUTTONS, AXES);
    CollectionsConcat(PREAMBLE, FACE_BUTTONS + AXES);
  }

  lemma FaceButtonCollections()
    ensures Collections(FACE_BUTTONS) == 0
  {
    assert Collections(MENU_VIEW) == 0 && Collections(ABXY) == 0 && Collections(DPAD) == 0;
    assert Collections(BUMPER) == 0 && Collections(STICK_BUTTON) == 0;
    CollectionsConcat(BUMPER, STICK_BUTTON);
    CollectionsConcat(DPAD, BUMPER + STICK_BUTTON);
    CollectionsConcat(ABXY, DPAD + (BUMPER + STICK_BUTTON));
    CollectionsConcat(MENU_VIEW, ABXY + (DPAD + (BUMPER + STICK_BUTTON)));
  }

  lemma AxisCollections()
    ensures Collections(AXES) == 0
  {
    assert Collections(TRIGGER_HEAD) == 0 && Collections(TRIGGER_TAIL) == 0 && Collections(STICK_HEAD) == 0;
    assert Collections(STICK_RANGE) == 0 && Collections(STICK_TAIL) == 0;
    CollectionsConcat(STICK_RANGE, STICK_TAIL);
    CollectionsConcat(STICK_HEAD, STICK_RANGE + STICK_TAIL);
    CollectionsConcat(TRIGGER_HEAD, TRIGGER_TAIL);
    CollectionsConcat(TRIGGER, STICK);
  }

  lemma GuideCollections()
    ensures Collections(GUIDE_ITEMS) == 1
  {
    assert MainItems(SECOND_GAMEPAD, 4, COLLECTION) == 1 && MainItems(HEADER, 3, COLLECTION) == 0;
    assert MainItems(XBOX_HEAD, 4, COLLECTION) == 0 && MainItems(ONE_BIT, 3, COLLECTION) == 0;
    assert Collections(PADDING) == 0;
    CollectionsConcat(XBOX_HEAD, ONE_BIT);
    CollectionsConcat(XBOX_BUTTON, PADDING);
    CollectionsConcat(HEADER, XBOX_BUTTON + PADDING);
    CollectionsConcat(SECOND_GAMEPAD, HEADER + (XBOX_BUTTON + PADDING));
  }

  /** A block that opens `n` collections, run from nesting `depth`, never nests deeper than `depth + n`. */
  lemma {:induction false} BlockNesting(items: seq<ShortItem>, n: nat, s: State)
    requires n <= |items| && Run(items, s).Ok?
    ensures Run(items[..n], s).Ok? && Run(items[..n], s).value.depth <= s.depth + Collections(items)
  {
    NestingTheorem(items, n, s);
    MainItemsGrow(items, n, COLLECTION);
    RunPrefixIsRun(items, n, s);
  }

  lemma ButtonNesting(n: nat)
    requires n <= |BUTTON_ITEMS|
    ensures Run(BUTTON_ITEMS[..n], INITIAL).Ok? && Run(BUTTON_ITEMS[..n], INITIAL).value.depth <= 2
  {
    var s := RunButtonItems();
    ButtonCollections();
    BlockNesting(BUTTON_ITEMS, n, INITIAL);
  }

  lemma {:induction false} GuideNesting(s: State, n: nat)
    requires n <= |GUIDE_ITEMS| && Reached(s, AFTER_STICK, 1, 136, 0, BUTTON_FIELDS)
    ensures Run(GUIDE_ITEMS[..n], s).Ok? && Run(GUIDE_ITEMS[..n], s).value.depth <= 2
  {
    var t := RunGuideItems(s, BUTTON_FIELDS);
    GuideCollections();
    BlockNesting(GUIDE_ITEMS, n, s);
  }

  lemma TakeConcat<T>(a: seq<T>, b: seq<T>, n: nat)
    requires n <= |a| + |b|
    ensures (a + b)[..n] == if n <= |a| then a[..n] else a + b[..n - |a|]
  {
  }

  /** After any number of items of the descriptor, at most two collections are open. */
  lemma DescriptorNesting(n: nat)
    requires n <= |ITEMS|
    ensures Run(ITEMS[..n], INITIAL).Ok? && Run(ITEMS[..n], INITIAL).value.depth <= 2
  {
    TakeConcat(BUTTON_ITEMS, GUIDE_ITEMS, n);
    if n <= |BUTTON_ITEMS| {
      ButtonNesting(n);
    } else {
      var s := RunButtonItems();
      var m := n - |BUTTON_ITEMS|;
      GuideNesting(s, m);
      RunConcat(BUTTON_ITEMS, GUIDE_ITEMS[..m], INITIAL);
    }
  }
}
