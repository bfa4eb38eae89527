/** What `rx_data` does with one raw report, for each Xbox family, stated
    as a relation between the controller state before and after it. */
module RawReports {
  import opened ByteFields
  import opened JoystickTypes
  import opened AxisUpdates
  import opened Decoders
  import opened Encoders
  import opened Feedback

  /** `sizeof(rxbuf_)`: the receive buffer every raw report is read from. */
  const RX_BUFFER_SIZE: nat := 64

  /** The requests of the `setLEDs(0); setLEDs(q)` pair the Xbox 360 paths
      use to light LED pattern q. */
  function LedResetRequests(t: JoyType, byte0: byte, oldLeds: seq<byte>, q: byte): seq<Request>
  {
    (if oldLeds != [0, 0, 0] then [QueueTx(LedCommand(t, byte0, 0))] else []) + [QueueTx(LedCommand(t, byte0, q))]
  }

  /** A transfer queued for each of `cmds`, in order. */
  function QueueAll(cmds: seq<seq<byte>>): (r: seq<Request>)
    ensures |r| == |cmds| && forall k :: 0 <= k < |cmds| ==> r[k] == QueueTx(cmds[k])
  {
    if cmds == [] then [] else [QueueTx(cmds[0])] + QueueAll(cmds[1..])
  }

  /** The part of the controller `rx_data` reads and changes, as values. */
  datatype RxState = RxState(buttons: bv32, axis: seq<int>, axisMask: Mask, changed: Mask, anychange: bool,
                             event: bool, connected: byte, leds: seq<byte>, txbuf: seq<byte>,
                             requests: seq<Request>, rumbleL: byte, rumbleR: byte, rumbleTimeout: byte)

  predicate RxShaped(s: RxState)
  {
    |s.axis| == TOTAL_AXIS_COUNT && |s.leds| == 3 && |s.txbuf| == TX_BUFFER_SIZE
  }

  /** Buttons, axes, masks and event flags as they were. */
  predicate KeepsInput(s0: RxState, s1: RxState)
  {
    && s1.buttons == s0.buttons && s1.axis == s0.axis && s1.axisMask == s0.axisMask
    && s1.changed == s0.changed && s1.anychange == s0.anychange && s1.event == s0.event
  }

  /** `connected_`, the LEDs, the transmit buffer, the requests and the rumble as they were. */
  predicate KeepsOutput(s0: RxState, s1: RxState)
  {
    && s1.connected == s0.connected && s1.leds == s0.leds && s1.txbuf == s0.txbuf && s1.requests == s0.requests
    && s1.rumbleL == s0.rumbleL && s1.rumbleR == s0.rumbleR && s1.rumbleTimeout == s0.rumbleTimeout
  }

  /** An input report stored: the new buttons, the six-axis mask, the
      compare-and-stores on a cleared changed mask, and `anychange` raised
      by a button change or a changed axis. */
  predicate InputStored(s0: RxState, s1: RxState, newButtons: bv32, us: seq<AxisUpdate>)
    requires RxShaped(s0) && RxShaped(s1) && InRange(us, TOTAL_AXIS_COUNT)
  {
    && s1.buttons == newButtons && s1.axisMask == LowBits(6)
    && AxisState(s1.axis, s1.changed) == ApplyAll(AxisState(s0.axis, {}), us)
    && s1.anychange == (s0.anychange || newButtons != s0.buttons || s1.changed != {})
  }

  /** The XBOXONE branch: every packet resets the masks; an input report
      (type 0x20, complete) is stored and always raises the event. */
  predicate XboxOneEffect(raw: seq<byte>, length: nat, s0: RxState, s1: RxState)
    requires |raw| == RX_BUFFER_SIZE && RxShaped(s0) && RxShaped(s1)
  {
    && KeepsOutput(s0, s1) && s1.axisMask == LowBits(6)
    && if raw[0] == 0x20 && length >= XBOXONE_REPORT_SIZE then
         InputStored(s0, s1, XboxOneButtons(raw), XboxOneUpdates(raw)) && s1.event
       else
         && s1.changed == {} && s1.buttons == s0.buttons && s1.axis == s0.axis
         && s1.anychange == s0.anychange && s1.event == s0.event
  }

  /** A connect or disconnect packet of the XBOX360 receiver with id `id`:
      a repeated id changes nothing; a new non-zero id is remembered and gets
      the LED pattern of the receive endpoint (2 + endpoint / 2) after the LEDs
      are switched off; a zero id switches the LEDs off. */
  predicate Xbox360ConnectionEffect(id: byte, rxEp: byte, link: Link, s0: RxState, s1: RxState)
    requires RxShaped(s0)
  {
    if id == s0.connected then s1 == s0
    else if id != 0 then
      var q := 2 + (rxEp % 16) / 2;
      s1 == s0.(connected := id, leds := [0, 0, q], txbuf := Overwrite(s0.txbuf, 0, Xbox360Leds(s0.txbuf[0], q)),
                requests := s0.requests + LedResetRequests(Xbox360, s0.txbuf[0], s0.leds, q))
    else
      var o := LedsOutcome(Xbox360, s0.txbuf, link, s0.rumbleL, s0.rumbleR, s0.rumbleTimeout, s0.leds, [0, 0, 0]);
      s1 == s0.(connected := 0, leds := [0, 0, 0], txbuf := o.buf, requests := s0.requests + o.sent)
  }

  /** The XBOX360 receiver branch, packet kind by packet kind: a connection
      change, the chatpad handshake (the init command is queued), an input
      report; the status, no-more-events, info and unknown packets change nothing. */
  predicate Xbox360Effect(raw: seq<byte>, rxEp: byte, link: Link, chatpadLeds: seq<seq<byte>>, s0: RxState, s1: RxState)
    requires |raw| == RX_BUFFER_SIZE && RxShaped(s0) && RxShaped(s1)
  {
    match Xbox360PacketKind(raw)
    case ConnectionChange => Xbox360ConnectionEffect(raw[1], rxEp, link, s0, s1)
    case ChatpadHandshake => s1 == s0.(requests := s0.requests + [QueueTx(XBOX360W_CHATPAD_INIT)])
    case InputReport => Xbox360InputEffect(raw, chatpadLeds, s0, s1)
    case _ => s1 == s0
  }

  /** An input report of the XBOX360 receiver: controller data is stored
      (with the event when anything changed since the application looked), a
      chatpad init request queues the init command, a chatpad LED status
      queues the reconciliation commands `chatpadLeds`. */
  predicate Xbox360InputEffect(raw: seq<byte>, chatpadLeds: seq<seq<byte>>, s0: RxState, s1: RxState)
    requires |raw| == RX_BUFFER_SIZE && RxShaped(s0) && RxShaped(s1)
  {
    && (if Xbox360HasControllerData(raw) then
          InputStored(s0, s1, Xbox360Buttons(raw), Xbox360Updates(raw)) && s1.event == (s0.event || s1.anychange)
        else KeepsInput(s0, s1))
    && s1.connected == s0.connected && s1.leds == s0.leds && s1.txbuf == s0.txbuf
    && s1.rumbleL == s0.rumbleL && s1.rumbleR == s0.rumbleR && s1.rumbleTimeout == s0.rumbleTimeout
    && s1.requests == s0.requests + (if Xbox360ChatpadInitNeeded(raw) then [QueueTx(XBOX360W_CHATPAD_INIT)] else [])
                                  + (if Xbox360ChatpadLedStatus(raw) then QueueAll(chatpadLeds) else [])
  }

  /** The wired XBOX360 branch: a rumble status report stops the rumble, an
      LED status of 0x0E (no valid LED) selects the first quadrant, the 00 14
      report is stored; anything else changes nothing. */
  predicate Xbox360WiredEffect(raw: seq<byte>, s0: RxState, s1: RxState)
    requires |raw| == RX_BUFFER_SIZE && RxShaped(s0) && RxShaped(s1)
  {
    if raw[0] == 0x03 && raw[1] == 0x03 then
      s1 == s0.(rumbleL := 0, rumbleR := 0, rumbleTimeout := 0,
                txbuf := Overwrite(s0.txbuf, 0, Xbox360WiredRumble(0, 0)),
                requests := s0.requests + [QueueTx(Xbox360WiredRumble(0, 0))])
    else if raw[0] == 0x01 && raw[1] == 0x03 && raw[2] == 0x0E then
      s1 == s0.(leds := [0, 0, 2], txbuf := Overwrite(s0.txbuf, 0, Xbox360WiredLeds(2)),
                requests := s0.requests + LedResetRequests(Xbox360Wired, 0, s0.leds, 2))
    else if raw[0] == 0x00 && raw[1] == 0x14 then
      && InputStored(s0, s1, Xbox360WiredButtons(raw), Xbox360WiredUpdates(raw))
      && s1.event == (s0.event || s1.anychange) && KeepsOutput(s0, s1)
    else s1 == s0
  }

  /** The original Xbox branch: the 00 14 report stores the digital buttons
      and twelve axes (the mask still says six); anything else changes nothing. */
  predicate XboxDukeEffect(raw: seq<byte>, s0: RxState, s1: RxState)
    requires |raw| == RX_BUFFER_SIZE && RxShaped(s0) && RxShaped(s1)
  {
    if raw[0] == 0x00 && raw[1] == 0x14 then
      && InputStored(s0, s1, raw[2] as bv32, XboxDukeUpdates(raw))
      && s1.event == (s0.event || s1.anychange) && KeepsOutput(s0, s1)
    else s1 == s0
  }

  /** The decoding half of `rx_data`: the claimed family's branch, or nothing. */
  predicate RxFamilyEffect(t: JoyType, raw: seq<byte>, length: nat, rxEp: byte, link: Link,
                           chatpadLeds: seq<seq<byte>>, s0: RxState, s1: RxState)
    requires |raw| == RX_BUFFER_SIZE && RxShaped(s0) && RxShaped(s1)
  {
    match t
    case XboxOne => XboxOneEffect(raw, length, s0, s1)
    case Xbox360 => Xbox360Effect(raw, rxEp, link, chatpadLeds, s0, s1)
    case Xbox360Wired => Xbox360WiredEffect(raw, s0, s1)
    case XboxDuke => XboxDukeEffect(raw, s0, s1)
    case _ => s1 == s0
  }
}
