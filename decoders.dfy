/** The input reports the controller decodes, as pure functions of their
    bytes: the HID usage routing of `hid_input_data`, the four raw Xbox
    layouts of `rx_data` and the two Bluetooth report formats of
    `process_bluetooth_HID_data`. Each decoder's axis work is the list of
    compare-and-store updates it performs (see AxisUpdates); the lemmas here
    read the result back at explicit byte offsets. */
module Decoders {
  import opened ByteFields
  import opened JoystickTypes
  import opened AxisUpdates
  import opened Classify

  // ---------------------------------------------------------------------------
  // HID usages (hid_input_data)
  // ---------------------------------------------------------------------------

  /** `usage >> 16`. */
  function UsagePage(usage: nat): nat { usage / 0x1_0000 }

  /** `usage & 0xFFFF`. */
  function UsageId(usage: nat): nat { usage % 0x1_0000 }

  /** Where one (usage, value) pair goes. */
  datatype HidTarget =
    | ButtonTarget(bit: bv5)      // buttons bit `bit`
    | StandardAxis(index: nat)    // axis[0..9], desktop usages 0x30..0x39
    | ExtendedAxis(index: nat)    // axis[10..63], the claimed extra window
    | Ignored

  /** The routing of `hid_input_data`: the button page first, then the
      desktop axes, then the extended window of the claimed family. The
      window index is computed as a `uint16_t` and must fit `axis[]`. */
  function HidUsageTarget(usage: nat, extPage: nat, extStart: nat, extCount: nat): (t: HidTarget)
    ensures t.StandardAxis? ==> t.index < STANDARD_AXIS_COUNT
    ensures t.ExtendedAxis? ==> t.index < TOTAL_AXIS_COUNT
  {
    var page := UsagePage(usage);
    var id := UsageId(usage);
    if page == 9 && 1 <= id <= 32 then ButtonTarget((id - 1) as bv5)
    else if page == 1 && 0x30 <= id <= 0x39 then StandardAxis(id - 0x30)
    else if page == extPage then
      if extStart <= id < extStart + extCount then
        var index := (id - extStart + STANDARD_AXIS_COUNT) % 0x1_0000;
        if index < TOTAL_AXIS_COUNT then ExtendedAxis(index) else Ignored
      else Ignored
    else Ignored
  }

  /** Button usages 1..32 on page 9 always win, whatever window is claimed. */
  lemma ButtonUsagesRouted(page9Id: nat, extPage: nat, extStart: nat, extCount: nat)
    requires 1 <= page9Id <= 32
    ensures HidUsageTarget(9 * 0x1_0000 + page9Id, extPage, extStart, extCount) == ButtonTarget((page9Id - 1) as bv5)
  {
  }

  /** The desktop usages 0x30..0x39 are the standard axes 0..9. */
  lemma StandardUsagesRouted(id: nat, extPage: nat, extStart: nat, extCount: nat)
    requires 0x30 <= id <= 0x39
    ensures HidUsageTarget(0x1_0000 + id, extPage, extStart, extCount) == StandardAxis(id - 0x30)
  {
  }

  /** Inside a window whose end stays within `axis[]` and which starts past
      the fixed usages of its page, usage `start + j` lands in axis `10 + j`:
      the capacity guard never rejects it. */
  lemma ExtendedWindowRouted(page: nat, start: nat, count: nat, j: nat)
    requires page < 0x1_0000 && (page == 9 ==> start > 32) && (page == 1 ==> start > 0x39)
    requires j < count && start + count <= 0x1_0000 && STANDARD_AXIS_COUNT + count <= TOTAL_AXIS_COUNT
    ensures HidUsageTarget(page * 0x1_0000 + start + j, page, start, count) == ExtendedAxis(STANDARD_AXIS_COUNT + j)
  {
    assert UsagePage(page * 0x1_0000 + start + j) == page;
    assert UsageId(page * 0x1_0000 + start + j) == start + j;
  }

  /** For the window `claim_collection` chose, every usage of the window
      reaches its extended axis. */
  lemma ClaimedWindowRouted(t: JoyType, j: nat)
    requires j < AxisWindowFor(t).count
    ensures var w := AxisWindowFor(t);
      HidUsageTarget(w.page * 0x1_0000 + w.start + j, w.page, w.start, w.count) == ExtendedAxis(STANDARD_AXIS_COUNT + j)
  {
    var w := AxisWindowFor(t);
    AxisWindowsFit(t);
    ExtendedWindowRouted(w.page, w.start, w.count, j);
  }

  // ---------------------------------------------------------------------------
  // XBOXONE input report 0x20 (xbox1data20_t)
  // ---------------------------------------------------------------------------

  /** `sizeof(xbox1data20_t)`: type, const, id, buttons and six 16-bit axes. */
  const XBOXONE_REPORT_SIZE: nat := 18

  /** `xbox_axis_order_mapping[]`: raw axis j (lt, rt, lx, ly, rx, ry) is stored in this axis. */
  const XBOX_AXIS_ORDER: seq<nat> := [3, 4, 0, 1, 2, 5]

  function XboxOneButtons(raw: seq<byte>): bv32
    requires |raw| >= XBOXONE_REPORT_SIZE
  {
    U16(raw[4], raw[5]) as bv32
  }

  /** Raw axis j: the two triggers are read as unsigned, the sticks as signed. */
  function XboxOneAxis(raw: seq<byte>, j: nat): int
    requires |raw| >= XBOXONE_REPORT_SIZE && j < 6
  {
    if j < 2 then U16(raw[6 + 2 * j], raw[7 + 2 * j]) else S16(raw[6 + 2 * j], raw[7 + 2 * j])
  }

  function XboxOneUpdates(raw: seq<byte>): (us: seq<AxisUpdate>)
    requires |raw| >= XBOXONE_REPORT_SIZE
    ensures |us| == 6 && InRange(us, STANDARD_AXIS_COUNT) && DistinctIndices(us) && SelfMarked(us)
  {
    seq(6, j requires 0 <= j < 6 => AxisUpdate(XBOX_AXIS_ORDER[j], XboxOneAxis(raw, j), Bit(XBOX_AXIS_ORDER[j])))
  }

  /** An XBOXONE report stores lt, rt in axes 3, 4 and lx, ly, rx, ry in axes
      0, 1, 2, 5; leaves every other axis alone; marks exactly the axes whose
      value changed; and a second identical report changes and marks nothing. */
  lemma XboxOneDecode(values: seq<int>, raw: seq<byte>)
    requires |values| == TOTAL_AXIS_COUNT && |raw| >= XBOXONE_REPORT_SIZE
    ensures var r := ApplyAll(AxisState(values, {}), XboxOneUpdates(raw));
      && r.values[3] == U16(raw[6], raw[7]) && r.values[4] == U16(raw[8], raw[9])
      && r.values[0] == S16(raw[10], raw[11]) && r.values[1] == S16(raw[12], raw[13])
      && r.values[2] == S16(raw[14], raw[15]) && r.values[5] == S16(raw[16], raw[17])
      && r.values[6..] == values[6..]
      && (forall k :: k in r.changed <==> 0 <= k < TOTAL_AXIS_COUNT && r.values[k] != values[k])
      && ApplyAll(AxisState(r.values, {}), XboxOneUpdates(raw)) == AxisState(r.values, {})
  {
    var us := XboxOneUpdates(raw);
    var s := AxisState(values, {});
    ApplyAllEffect(s, us);
    ChangedIffDiffers(s, us);
    ReplayQuiet(s, us, {});
    var r := ApplyAll(s, us);
    assert us[0].index == 3 && us[1].index == 4 && us[2].index == 0;
    assert us[3].index == 1 && us[4].index == 2 && us[5].index == 5;
    forall k | 6 <= k < TOTAL_AXIS_COUNT
      ensures r.values[k] == values[k]
    {
      assert NotUpdated(us, k);
    }
  }

  // ---------------------------------------------------------------------------
  // XBOX360 wireless report (xbox360data_t) and wired report (xbox360wireddata_t)
  // ---------------------------------------------------------------------------

  /** The wireless report's fields used: buttons at 6..7, lt 8, rt 9, sticks
      at 10..17; byte 5 (high byte of the field after the status) must be 0x13. */
  const XBOX360_REPORT_SIZE: nat := 18

  function Xbox360Buttons(raw: seq<byte>): bv32
    requires |raw| >= XBOX360_REPORT_SIZE
  {
    U16(raw[6], raw[7]) as bv32
  }

  /** Sticks 0..3 as signed 16-bit values, then lt and rt as axes 4 and 5. */
  function Xbox360Updates(raw: seq<byte>): (us: seq<AxisUpdate>)
    requires |raw| >= XBOX360_REPORT_SIZE
    ensures |us| == 6 && InRange(us, STANDARD_AXIS_COUNT) && DistinctIndices(us) && SelfMarked(us)
  {
    seq(6, j requires 0 <= j < 6 =>
      if j < 4 then AxisUpdate(j, S16(raw[10 + 2 * j], raw[11 + 2 * j]), Bit(j))
      else AxisUpdate(j, raw[j + 4], Bit(j)))
  }

  lemma Xbox360Decode(values: seq<int>, raw: seq<byte>)
    requires |values| == TOTAL_AXIS_COUNT && |raw| >= XBOX360_REPORT_SIZE
    ensures var r := ApplyAll(AxisState(values, {}), Xbox360Updates(raw));
      && (forall j :: 0 <= j < 4 ==> r.values[j] == S16(raw[10 + 2 * j], raw[11 + 2 * j]))
      && r.values[4] == raw[8] && r.values[5] == raw[9]
      && r.values[6..] == values[6..]
      && (forall k :: k in r.changed <==> 0 <= k < TOTAL_AXIS_COUNT && r.values[k] != values[k])
      && ApplyAll(AxisState(r.values, {}), Xbox360Updates(raw)) == AxisState(r.values, {})
  {
    var us := Xbox360Updates(raw);
    var s := AxisState(values, {});
    ApplyAllEffect(s, us);
    ChangedIffDiffers(s, us);
    ReplayQuiet(s, us, {});
    var r := ApplyAll(s, us);
    assert us[4].index == 4 && us[5].index == 5;
    forall j | 0 <= j < 4
      ensures r.values[j] == S16(raw[10 + 2 * j], raw[11 + 2 * j])
    {
      assert us[j].index == j;
    }
    forall k | 6 <= k < TOTAL_AXIS_COUNT
      ensures r.values[k] == values[k]
    {
      assert NotUpdated(us, k);
    }
  }

  /** `b & 0x01`, `b & 0x02` and `b & 0x13` are non-zero. */
  predicate LowBit0(b: byte) { b % 2 == 1 }
  predicate LowBit1(b: byte) { (b / 2) % 2 == 1 }
  predicate AnyOfBits0x13(b: byte) { b % 4 != 0 || (b / 16) % 2 == 1 }

  /** What a packet from the XBOX360 wireless receiver is, by the tests
      `rx_data` applies in this order. */
  datatype Xbox360Packet =
    | ConnectionChange    // 08 id .. F0: a controller came (id non-zero) or went
    | ControllerStatus
    | NoMoreEvents
    | InfoPacket
    | ChatpadHandshake    // byte 1 is F8
    | InputReport         // byte 1 has the controller-data or chatpad-data bit
    | UnknownPacket

  function Xbox360PacketKind(raw: seq<byte>): Xbox360Packet
    requires |raw| >= 6
  {
    if raw[0] == 0x08 && raw[3] == 0xF0 then ConnectionChange
    else if raw[1] == 0x00 && AnyOfBits0x13(raw[3]) && raw[4] >= 0x22 then ControllerStatus
    else if raw[1] == 0x00 && raw[3] == 0xF0 then NoMoreEvents
    else if raw[1] == 0x0F && raw[3] == 0xF0 then InfoPacket
    else if raw[1] == 0xF8 then ChatpadHandshake
    else if LowBit0(raw[1]) || LowBit1(raw[1]) then InputReport
    else UnknownPacket
  }

  /** Controller data in an input report: the controller-data bit and 0x13 in byte 5. */
  predicate Xbox360HasControllerData(raw: seq<byte>)
    requires |raw| >= 6
  {
    LowBit0(raw[1]) && raw[5] == 0x13
  }

  /** The chatpad asks to be initialised: chatpad-data bit, then F0 03 at bytes 24 and 25. */
  predicate Xbox360ChatpadInitNeeded(raw: seq<byte>)
    requires |raw| >= 26
  {
    LowBit1(raw[1]) && raw[24] == 0xF0 && raw[25] == 0x03
  }

  /** A chatpad LED status report asking for reconciliation: chatpad-data
      bit, F0 04 at bytes 24 and 25, and bit 7 of the LED byte 26. */
  predicate Xbox360ChatpadLedStatus(raw: seq<byte>)
    requires |raw| >= 27
  {
    LowBit1(raw[1]) && raw[24] == 0xF0 && raw[25] == 0x04 && raw[26] >= 0x80
  }

  /** 0xF0 has bit 4 set, so a "no more events" packet whose byte 4 is at
      least 0x22 is taken for a controller status packet instead. */
  lemma Xbox360StatusShadowsNoMoreEvents(raw: seq<byte>)
    requires |raw| >= 6 && raw[0] != 0x08 && raw[1] == 0x00 && raw[3] == 0xF0
    ensures Xbox360PacketKind(raw) == (if raw[4] >= 0x22 then ControllerStatus else NoMoreEvents)
  {
  }

  /** The wired report (header 00 14): buttons at 2..3, lt 4, rt 5, sticks at 6..13. */
  const XBOX360_WIRED_REPORT_SIZE: nat := 14

  function Xbox360WiredButtons(raw: seq<byte>): bv32
    requires |raw| >= XBOX360_WIRED_REPORT_SIZE
  {
    U16(raw[2], raw[3]) as bv32
  }

  function Xbox360WiredUpdates(raw: seq<byte>): (us: seq<AxisUpdate>)
    requires |raw| >= XBOX360_WIRED_REPORT_SIZE
    ensures |us| == 6 && InRange(us, STANDARD_AXIS_COUNT) && DistinctIndices(us) && SelfMarked(us)
  {
    seq(6, j requires 0 <= j < 6 =>
      if j < 4 then AxisUpdate(j, S16(raw[6 + 2 * j], raw[7 + 2 * j]), Bit(j))
      else AxisUpdate(j, raw[j], Bit(j)))
  }

  lemma Xbox360WiredDecode(values: seq<int>, raw: seq<byte>)
    requires |values| == TOTAL_AXIS_COUNT && |raw| >= XBOX360_WIRED_REPORT_SIZE
    ensures var r := ApplyAll(AxisState(values, {}), Xbox360WiredUpdates(raw));
      && (forall j :: 0 <= j < 4 ==> r.values[j] == S16(raw[6 + 2 * j], raw[7 + 2 * j]))
      && r.values[4] == raw[4] && r.values[5] == raw[5]
      && r.values[6..] == values[6..]
      && (forall k :: k in r.changed <==> 0 <= k < TOTAL_AXIS_COUNT && r.values[k] != values[k])
      && ApplyAll(AxisState(r.values, {}), Xbox360WiredUpdates(raw)) == AxisState(r.values, {})
  {
    var us := Xbox360WiredUpdates(raw);
    var s := AxisState(values, {});
    ApplyAllEffect(s, us);
    ChangedIffDiffers(s, us);
    ReplayQuiet(s, us, {});
    var r := ApplyAll(s, us);
    assert us[4].index == 4 && us[5].index == 5;
    forall j | 0 <= j < 4
      ensures r.values[j] == S16(raw[6 + 2 * j], raw[7 + 2 * j])
    {
      assert us[j].index == j;
    }
    forall k | 6 <= k < TOTAL_AXIS_COUNT
      ensures r.values[k] == values[k]
    {
      assert NotUpdated(us, k);
    }
  }

  // ---------------------------------------------------------------------------
  // Original Xbox ("Duke") report (xboxdukedata_t)
  // ---------------------------------------------------------------------------

  /** Header 00 14, digital buttons at 2, eight analog buttons at 4..11, sticks at 12..19. */
  const XBOXDUKE_REPORT_SIZE: nat := 20

  /** Axes 0..7 are the analog buttons a, b, x, y, black, white, lt, rt; axes 8..11 the sticks. */
  function XboxDukeUpdates(raw: seq<byte>): (us: seq<AxisUpdate>)
    requires |raw| >= XBOXDUKE_REPORT_SIZE
    ensures |us| == 12 && InRange(us, 12) && DistinctIndices(us) && SelfMarked(us)
  {
    seq(12, j requires 0 <= j < 12 =>
      if j < 8 then AxisUpdate(j, raw[j + 4], Bit(j))
      else AxisUpdate(j, S16(raw[12 + 2 * (j - 8)], raw[13 + 2 * (j - 8)]), Bit(j)))
  }

  lemma XboxDukeDecode(values: seq<int>, raw: seq<byte>)
    requires |values| == TOTAL_AXIS_COUNT && |raw| >= XBOXDUKE_REPORT_SIZE
    ensures var r := ApplyAll(AxisState(values, {}), XboxDukeUpdates(raw));
      && (forall j :: 0 <= j < 8 ==> r.values[j] == raw[j + 4])
      && (forall j :: 0 <= j < 4 ==> r.values[8 + j] == S16(raw[12 + 2 * j], raw[13 + 2 * j]))
      && r.values[12..] == values[12..]
      && (forall k :: k in r.changed <==> 0 <= k < TOTAL_AXIS_COUNT && r.values[k] != values[k])
      && ApplyAll(AxisState(r.values, {}), XboxDukeUpdates(raw)) == AxisState(r.values, {})
  {
    var us := XboxDukeUpdates(raw);
    var s := AxisState(values, {});
    ApplyAllEffect(s, us);
    ChangedIffDiffers(s, us);
    ReplayQuiet(s, us, {});
    var r := ApplyAll(s, us);
    forall j | 0 <= j < 8
      ensures r.values[j] == raw[j + 4]
    {
      assert us[j].index == j;
    }
    forall j | 0 <= j < 4
      ensures r.values[8 + j] == S16(raw[12 + 2 * j], raw[13 + 2 * j])
    {
      assert us[8 + j].index == 8 + j;
    }
    forall k | 12 <= k < TOTAL_AXIS_COUNT
      ensures r.values[k] == values[k]
    {
      assert NotUpdated(us, k);
    }
  }

  // ---------------------------------------------------------------------------
  // Bluetooth report 0x01 (process_bluetooth_HID_data)
  // ---------------------------------------------------------------------------

  /** The report length after `if (length > TOTAL_AXIS_COUNT) length = TOTAL_AXIS_COUNT`. */
  function ClampLength(n: nat): nat
  {
    if n > TOTAL_AXIS_COUNT then TOTAL_AXIS_COUNT else n
  }

  /** The PS3 branch also reads bytes 18 and 19, whatever the length. */
  const PS3_BT_REPORT_SIZE: nat := 20

  /** Axes 0..2 from bytes 6..8, axis 5 from byte 9, axes 3, 4 from bytes 18,
      19, then axis i from byte i for 10 <= i < length. */
  function BtPs3Updates(data: seq<byte>): (us: seq<AxisUpdate>)
    requires |data| >= PS3_BT_REPORT_SIZE
    ensures |us| == ClampLength(|data|) - 4
    ensures InRange(us, TOTAL_AXIS_COUNT) && DistinctIndices(us) && SelfMarked(us)
  {
    var n := ClampLength(|data|);
    [AxisUpdate(0, data[6], Bit(0)), AxisUpdate(1, data[7], Bit(1)), AxisUpdate(2, data[8], Bit(2)),
     AxisUpdate(5, data[9], Bit(5)), AxisUpdate(3, data[18], Bit(3)), AxisUpdate(4, data[19], Bit(4))]
    + seq(n - 10, j requires 0 <= j < n - 10 => AxisUpdate(10 + j, data[10 + j], Bit(10 + j)))
  }

  /** `axis_mask_` after the PS3 branch: 0x27 and a bit for each byte from 10 on. */
  function BtPs3AxisMask(n: nat): Mask
  {
    {0, 1, 2, 5} + BitRange(10, n)
  }

  /** The PS3 branch leaves the layout above in the axes, keeps axes 6..9 and
      those past the report, and only adds to the changed mask (it never
      clears it): a bit is added exactly for an axis whose value changed. */
  lemma BtPs3Decode(values: seq<int>, changed: Mask, data: seq<byte>)
    requires |values| == TOTAL_AXIS_COUNT && |data| >= PS3_BT_REPORT_SIZE
    ensures var r := ApplyAll(AxisState(values, changed), BtPs3Updates(data));
      var n := ClampLength(|data|);
      && r.values[0] == data[6] && r.values[1] == data[7] && r.values[2] == data[8]
      && r.values[3] == data[18] && r.values[4] == data[19] && r.values[5] == data[9]
      && r.values[6..10] == values[6..10]
      && (forall k :: 10 <= k < n ==> r.values[k] == data[k])
      && r.values[n..] == values[n..]
      && (forall k :: k in r.changed <==> k in changed || (0 <= k < TOTAL_AXIS_COUNT && r.values[k] != values[k]))
      && ApplyAll(AxisState(r.values, {}), BtPs3Updates(data)) == AxisState(r.values, {})
  {
    var us := BtPs3Updates(data);
    var s := AxisState(values, changed);
    var n := ClampLength(|data|);
    var r := ApplyAll(s, us);
    BtPs3DecodeFixed(values, changed, data);
    BtPs3DecodeKept(values, changed, data);
    assert r.values[6..10] == values[6..10];
    assert r.values[n..] == values[n..];
    ChangedIffDiffers(s, us);
    ReplayQuiet(s, us, {});
  }

  /** The six fixed slots of the PS3 report and the bytes from 10 on. */
  lemma BtPs3DecodeFixed(values: seq<int>, changed: Mask, data: seq<byte>)
    requires |values| == TOTAL_AXIS_COUNT && |data| >= PS3_BT_REPORT_SIZE
    ensures var r := ApplyAll(AxisState(values, changed), BtPs3Updates(data));
      && r.values[0] == data[6] && r.values[1] == data[7] && r.values[2] == data[8]
      && r.values[3] == data[18] && r.values[4] == data[19] && r.values[5] == data[9]
      && (forall k :: 10 <= k < ClampLength(|data|) ==> r.values[k] == data[k])
  {
    var us := BtPs3Updates(data);
    var s := AxisState(values, changed);
    ApplyAllEffect(s, us);
    var r := ApplyAll(s, us);
    assert us[0].index == 0 && us[1].index == 1 && us[2].index == 2;
    assert us[3].index == 5 && us[4].index == 3 && us[5].index == 4;
    forall k | 10 <= k < ClampLength(|data|)
      ensures r.values[k] == data[k]
    {
      assert us[k - 4].index == k;
    }
  }

  /** Axes 6..9 and those past the report keep their values. */
  lemma BtPs3DecodeKept(values: seq<int>, changed: Mask, data: seq<byte>)
    requires |values| == TOTAL_AXIS_COUNT && |data| >= PS3_BT_REPORT_SIZE
    ensures var r := ApplyAll(AxisState(values, changed), BtPs3Updates(data));
      forall k :: (6 <= k < 10 || ClampLength(|data|) <= k < TOTAL_AXIS_COUNT) ==> r.values[k] == values[k]
  {
    var us := BtPs3Updates(data);
    var s := AxisState(values, changed);
    ApplyAllEffect(s, us);
    forall k | (6 <= k < 10 || ClampLength(|data|) <= k < TOTAL_AXIS_COUNT)
      ensures NotUpdated(us, k)
    {
    }
  }

  /** The Motion branch reads its buttons from bytes 1..3. */
  const PS3_MOTION_BT_REPORT_SIZE: nat := 4

  /** The number of axes the Motion loop writes: one per byte from byte 5 on. */
  function MotionCount(n: nat): nat
  {
    if ClampLength(n) > 5 then ClampLength(n) - 5 else 0
  }

  /** Byte i (5 <= i < length) goes to axis i - 5 and marks bit i + 5. */
  function BtPs3MotionUpdates(data: seq<byte>): (us: seq<AxisUpdate>)
    requires |data| >= PS3_MOTION_BT_REPORT_SIZE
    ensures |us| == MotionCount(|data|)
    ensures InRange(us, TOTAL_AXIS_COUNT) && DistinctIndices(us)
    ensures forall i :: 0 <= i < |us| ==> us[i].index == i && us[i].value == data[i + 5]
    ensures forall i :: 0 <= i < |us| ==> us[i].bits == (if i + 10 < MASK_WIDTH then {i + 10} else {})
  {
    seq(MotionCount(|data|), j requires 0 <= j < MotionCount(|data|) => AxisUpdate(j, data[j + 5], Bit(j + 10)))
  }

  /** `axis_mask_` after the Motion branch: the bits set by the loop. */
  function BtPs3MotionAxisMask(n: nat): Mask
  {
    BitRange(10, n + 5)
  }

  /** Which bits the Motion updates mark: bit k (10 <= k < 64) for a change of axis k - 10. */
  lemma BtPs3MotionChangedBits(values: seq<int>, data: seq<byte>)
    requires |values| == TOTAL_AXIS_COUNT && |data| >= PS3_MOTION_BT_REPORT_SIZE
    ensures forall k: nat :: k in ChangedBits(values, BtPs3MotionUpdates(data)) <==>
      10 <= k < MASK_WIDTH && k - 10 < MotionCount(|data|) && values[k - 10] != data[k - 5]
  {
    var us := BtPs3MotionUpdates(data);
    ChangedBitsMembership(values, us);
    forall k: nat | 10 <= k < MASK_WIDTH && k - 10 < |us| && values[k - 10] != data[k - 5]
      ensures k in ChangedBits(values, us)
    {
      assert k in us[k - 10].bits;
    }
    forall k: nat | k in ChangedBits(values, us)
      ensures 10 <= k < MASK_WIDTH && k - 10 < |us| && values[k - 10] != data[k - 5]
    {
      var i :| 0 <= i < |us| && k in us[i].bits && values[us[i].index] != us[i].value;
      assert k == i + 10;
    }
  }

  /** The Motion branch copies bytes 5.. into axes 0.. and marks axis j's
      change in bit j + 10; no bit below 10 is added, and an axis from 54 on
      (whose bit would be 64 or more) changes without being marked. */
  lemma BtPs3MotionDecode(values: seq<int>, changed: Mask, data: seq<byte>)
    requires |values| == TOTAL_AXIS_COUNT && |data| >= PS3_MOTION_BT_REPORT_SIZE
    ensures var r := ApplyAll(AxisState(values, changed), BtPs3MotionUpdates(data));
      var m := MotionCount(|data|);
      && (forall j :: 0 <= j < m ==> r.values[j] == data[j + 5])
      && r.values[m..] == values[m..]
      && (forall k: nat :: k in r.changed <==>
            k in changed || (10 <= k < MASK_WIDTH && k - 10 < m && r.values[k - 10] != values[k - 10]))
  {
    var us := BtPs3MotionUpdates(data);
    var s := AxisState(values, changed);
    var m := |us|;
    ApplyAllEffect(s, us);
    BtPs3MotionChangedBits(values, data);
    var r := ApplyAll(s, us);
    forall j | 0 <= j < m
      ensures r.values[j] == data[j + 5]
    {
      assert us[j].index == j;
    }
    forall k | m <= k < TOTAL_AXIS_COUNT
      ensures r.values[k] == values[k]
    {
      assert NotUpdated(us, k);
    }
  }

  /** Any other family: byte i goes to axis i and marks bit i, for i < length. */
  function BtGenericUpdates(data: seq<byte>): (us: seq<AxisUpdate>)
    ensures |us| == ClampLength(|data|)
    ensures InRange(us, TOTAL_AXIS_COUNT) && DistinctIndices(us) && SelfMarked(us)
  {
    seq(ClampLength(|data|), j requires 0 <= j < ClampLength(|data|) => AxisUpdate(j, data[j], Bit(j)))
  }

  lemma BtGenericDecode(values: seq<int>, changed: Mask, data: seq<byte>)
    requires |values| == TOTAL_AXIS_COUNT
    ensures var r := ApplyAll(AxisState(values, changed), BtGenericUpdates(data));
      var n := ClampLength(|data|);
      && r.values[..n] == data[..n]
      && r.values[n..] == values[n..]
      && (forall k :: k in r.changed <==> k in changed || (0 <= k < TOTAL_AXIS_COUNT && r.values[k] != values[k]))
      && ApplyAll(AxisState(r.values, {}), BtGenericUpdates(data)) == AxisState(r.values, {})
  {
    var us := BtGenericUpdates(data);
    var s := AxisState(values, changed);
    var n := ClampLength(|data|);
    ApplyAllEffect(s, us);
    ChangedIffDiffers(s, us);
    ReplayQuiet(s, us, {});
    var r := ApplyAll(s, us);
    forall k | n <= k < TOTAL_AXIS_COUNT
      ensures r.values[k] == values[k]
    {
      assert NotUpdated(us, k);
    }
    assert r.values[..n] == data[..n] by {
      forall k | 0 <= k < n
        ensures r.values[k] == data[k]
      {
        assert us[k].index == k;
      }
    }
  }

  /** The bytes report 0x01 must have for family t: the PS3 branch reads
      bytes 18 and 19, the Motion branch bytes 1..3, any other only byte 0. */
  function BtReport01MinLength(t: JoyType): nat
  {
    if t == PS3 then PS3_BT_REPORT_SIZE else if t == PS3Motion then PS3_MOTION_BT_REPORT_SIZE else 1
  }

  /** The axis updates of report 0x01 for family t. */
  function BtReport01Updates(t: JoyType, data: seq<byte>): (us: seq<AxisUpdate>)
    requires |data| >= BtReport01MinLength(t)
    ensures InRange(us, TOTAL_AXIS_COUNT)
  {
    if t == PS3 then BtPs3Updates(data)
    else if t == PS3Motion then BtPs3MotionUpdates(data)
    else BtGenericUpdates(data)
  }

  /** The buttons of report 0x01: the 24-bit field at bytes 2..4 (PS3) or
      1..3 (Motion); any other family's report carries none. */
  function BtReport01Buttons(t: JoyType, data: seq<byte>): Option<bv32>
    requires |data| >= BtReport01MinLength(t)
  {
    if t == PS3 then Some(Le24(data[2], data[3], data[4]) as bv32)
    else if t == PS3Motion then Some(Le24(data[1], data[2], data[3]) as bv32)
    else None
  }

  /** `axis_mask_` after report 0x01 of n bytes (after clamping). */
  function BtReport01AxisMask(t: JoyType, n: nat): Mask
  {
    if t == PS3 then BtPs3AxisMask(n) else if t == PS3Motion then BtPs3MotionAxisMask(n) else LowBits(n)
  }

  // ---------------------------------------------------------------------------
  // Bluetooth report 0x11 (the 2-byte repack)
  // ---------------------------------------------------------------------------

  /** The 0x11 branch reads `tmp_data[63]`, that is `data[65]`. */
  const PS4_BT_REPORT_SIZE: nat := 66

  /** `tmp_data`: the report without its first two bytes, then byte 7 reduced
      to its low bit, byte 10 replaced by the low nibble of byte 5 and byte 5
      by its high nibble. */
  function Ps4BtRepack(data: seq<byte>): (t: seq<byte>)
    requires |data| >= PS4_BT_REPORT_SIZE
    ensures |t| == |data| - 2
    ensures forall i :: 0 <= i < |t| && i != 5 && i != 7 && i != 10 ==> t[i] == data[i + 2]
    ensures t[5] == data[7] / 16 && t[7] == data[9] % 2 && t[10] == data[7] % 16
  {
    var raw := data[2..];
    raw[7 := raw[7] % 2][10 := raw[5] % 16][5 := raw[5] / 16]
  }

  /** `tmp_data[7] | tmp_data[10] | (tmp_data[6] * 10) | (tmp_data[5] << 16)`. */
  function Ps4BtButtons(t: seq<byte>): bv32
    requires |t| > 10
  {
    (t[7] as bv32) | (t[10] as bv32) | ((t[6] as int * 10) as bv32) | ((t[5] as bv32) << 16)
  }

  /** The `* 10` is not a shift: two different reports give the same buttons. */
  lemma Ps4BtButtonsCollide()
    ensures Ps4BtButtons(seq(11, i => if i == 6 then 1 else 0))
         == Ps4BtButtons(seq(11, i => if i == 10 then 10 else 0))
  {
    var a := seq(11, i => if i == 6 then 1 else 0);
    var b := seq(11, i => if i == 10 then 10 else 0);
    assert a[5] == 0 && a[6] == 1 && a[7] == 0 && a[10] == 0;
    assert b[5] == 0 && b[6] == 0 && b[7] == 0 && b[10] == 10;
  }

  /** The value the 0x11 branch stores in axis k: t[1..3] in axes 0..2, t[8], t[9]
      in axes 3, 4, t[4] in axis 5 and t[k] in every axis from 6 on. */
  function Ps4BtAxisValue(t: seq<byte>, k: nat): byte
    requires |t| >= TOTAL_AXIS_COUNT && k < TOTAL_AXIS_COUNT
  {
    if k < 3 then t[k + 1] else if k == 3 then t[8] else if k == 4 then t[9] else if k == 5 then t[4] else t[k]
  }

  /** The updates of the 0x11 branch, in the source's order; from axis 6 on
      axis i marks bit i - 6. */
  function Ps4BtUpdates(t: seq<byte>): (us: seq<AxisUpdate>)
    requires |t| >= TOTAL_AXIS_COUNT
    ensures |us| == 64 && InRange(us, TOTAL_AXIS_COUNT) && DistinctIndices(us)
    ensures forall i :: 0 <= i < 6 ==> us[i].index < 6 && us[i].bits == {us[i].index}
    ensures forall i :: 0 <= i < 6 ==> us[i].value == Ps4BtAxisValue(t, us[i].index)
    ensures forall i :: 6 <= i < 64 ==> us[i] == AxisUpdate(i, t[i], {i - 6})
  {
    [AxisUpdate(0, t[1], Bit(0)), AxisUpdate(1, t[2], Bit(1)), AxisUpdate(2, t[3], Bit(2)),
     AxisUpdate(5, t[4], Bit(5)), AxisUpdate(3, t[8], Bit(3)), AxisUpdate(4, t[9], Bit(4))]
    + seq(58, j requires 0 <= j < 58 => AxisUpdate(6 + j, t[6 + j], Bit(j)))
  }

  /** `axis_mask_` after the 0x11 branch. */
  const PS4_BT_AXIS_MASK: Mask := {0, 1, 2, 5} + LowBits(58)

  /** Bit k of the 0x11 changed mask: axis k differs (k < 6) or axis k + 6 does (k < 58). */
  predicate Ps4BtBitChanged(values: seq<int>, t: seq<byte>, k: nat)
    requires |values| == TOTAL_AXIS_COUNT && |t| >= TOTAL_AXIS_COUNT
  {
    (k < 6 && values[k] != Ps4BtAxisValue(t, k)) || (k < 58 && values[k + 6] != t[k + 6])
  }

  /** Which bits the 0x11 updates mark: bit k for axis k (k < 6) or axis k + 6. */
  lemma Ps4BtChangedBits(values: seq<int>, t: seq<byte>)
    requires |values| == TOTAL_AXIS_COUNT && |t| >= TOTAL_AXIS_COUNT
    ensures forall k: nat :: k in ChangedBits(values, Ps4BtUpdates(t)) <==> Ps4BtBitChanged(values, t, k)
  {
    var us := Ps4BtUpdates(t);
    ChangedBitsMembership(values, us);
    assert us[0].index == 0 && us[1].index == 1 && us[2].index == 2;
    assert us[3].index == 5 && us[4].index == 3 && us[5].index == 4;
    forall k: nat | k < 58 && values[k + 6] != t[k + 6]
      ensures k in ChangedBits(values, us)
    {
      assert k in us[k + 6].bits;
    }
    forall k: nat | k < 6 && values[k] != Ps4BtAxisValue(t, k)
      ensures k in ChangedBits(values, us)
    {
      var i :| 0 <= i < 6 && us[i].index == k;
      assert k in us[i].bits;
    }
    forall k: nat | k in ChangedBits(values, us)
      ensures (k < 6 && values[k] != Ps4BtAxisValue(t, k)) || (k < 58 && values[k + 6] != t[k + 6])
    {
      var i :| 0 <= i < |us| && k in us[i].bits && values[us[i].index] != us[i].value;
      if i < 6 {
        assert k == us[i].index;
      } else {
        assert k == i - 6;
      }
    }
  }

  /** The 0x11 branch fills all 64 axes from the repacked bytes `t`; bit k
      then reports a change of axis k (for k < 6) or of axis k + 6 (for
      k < 58), so bits 0..5 conflate two axes and axes 6.. are reported six bits low. */
  lemma Ps4BtDecode(values: seq<int>, t: seq<byte>)
    requires |values| == TOTAL_AXIS_COUNT && |t| >= TOTAL_AXIS_COUNT
    ensures var r := ApplyAll(AxisState(values, {}), Ps4BtUpdates(t));
      && (forall k :: 0 <= k < TOTAL_AXIS_COUNT ==> r.values[k] == Ps4BtAxisValue(t, k))
      && (forall k: nat :: k in r.changed <==> Ps4BtBitChanged(values, t, k))
  {
    var us := Ps4BtUpdates(t);
    var s := AxisState(values, {});
    ApplyAllEffect(s, us);
    Ps4BtChangedBits(values, t);
    var r := ApplyAll(s, us);
    assert us[0].index == 0 && us[1].index == 1 && us[2].index == 2;
    assert us[3].index == 5 && us[4].index == 3 && us[5].index == 4;
    forall k | 0 <= k < TOTAL_AXIS_COUNT
      ensures r.values[k] == Ps4BtAxisValue(t, k)
    {
      if k >= 6 {
        assert us[k].index == k;
      }
    }
  }
}
