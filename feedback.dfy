/** The output commands of the controller as functions of the state they
    read: what `setRumble`, `setLEDs`, the three PlayStation feedback
    transmitters and `PS3Pair` leave in `txbuf_`, which requests they make
    and what they answer. The methods of `JoystickController` are proved
    against these. */
module Feedback {
  import opened ByteFields
  import opened JoystickTypes
  import opened Encoders

  /** `buf` with `p` copied in at offset `at`. */
  function Overwrite(buf: seq<byte>, at: nat, p: seq<byte>): (r: seq<byte>)
    requires at + |p| <= |buf|
    ensures |r| == |buf|
  {
    buf[..at] + p + buf[at + |p|..]
  }

  /** The window reads back `p`; every byte outside it is the old one. */
  lemma OverwriteReads(buf: seq<byte>, at: nat, p: seq<byte>)
    requires at + |p| <= |buf|
    ensures Overwrite(buf, at, p)[at..at + |p|] == p
    ensures forall k :: 0 <= k < |buf| && !(at <= k < at + |p|) ==> Overwrite(buf, at, p)[k] == buf[k]
  {
    var r := Overwrite(buf, at, p);
    assert r[at..at + |p|] == p by {
      forall k | 0 <= k < |p|
        ensures r[at + k] == p[k]
      {
      }
    }
  }

  /** A second copy over the same window hides the first. */
  lemma OverwriteAgain(buf: seq<byte>, at: nat, p: seq<byte>, q: seq<byte>)
    requires at + |p| <= |buf| && |q| == |p|
    ensures Overwrite(Overwrite(buf, at, p), at, q) == Overwrite(buf, at, q)
  {
    var b := Overwrite(buf, at, p);
    assert b[at + |p|..] == buf[at + |p|..];
    assert b[..at] == buf[..at];
  }

  /** Copying all but the first byte of `p` is copying `p` when the buffer
      already starts with `p[0]`. */
  lemma OverwriteSkipFirst(buf: seq<byte>, p: seq<byte>)
    requires 1 <= |p| <= |buf| && buf[0] == p[0]
    ensures Overwrite(buf, 1, p[1..]) == Overwrite(buf, 0, p)
  {
    assert buf[..1] + p[1..] == p;
  }

  /** Writing one byte inside the window is copying the updated `p`. */
  lemma OverwriteUpdate(buf: seq<byte>, at: nat, p: seq<byte>, i: nat, v: byte)
    requires at + |p| <= |buf| && i < |p|
    ensures Overwrite(buf, at, p)[at + i := v] == Overwrite(buf, at, p[i := v])
  {
    assert Overwrite(buf, at, p)[at + i := v] == buf[..at] + p[i := v] + buf[at + |p|..];
  }

  /** Two bytes written at 0 and 1 and then `p` copied at 2 is `[a, b] + p` copied at 0. */
  lemma OverwriteAfterTwo(buf: seq<byte>, a: byte, b: byte, p: seq<byte>)
    requires 2 + |p| <= |buf|
    ensures Overwrite(buf[0 := a][1 := b], 2, p) == Overwrite(buf, 0, [a, b] + p)
  {
    assert buf[0 := a][1 := b][..2] == [a, b];
  }

  /** What one output command leaves in `txbuf_`, the requests it makes and what it returns. */
  datatype Outcome = Outcome(buf: seq<byte>, sent: seq<Request>, ok: bool)

  /** The drivers a feedback command may use: the HID driver (`driver_`) with
      its answer to the packet, and the Bluetooth driver (`btdriver_`). */
  datatype Link = Link(usb: bool, bluetooth: bool, usbAccepted: bool)

  /** The families whose rumble and LEDs go through a feedback report. */
  predicate IsPlayStation(t: JoyType)
  {
    t == PS3 || t == PS3Motion || t == PS4
  }

  /** `transmitPS4UserFeedbackMsg`: the report is built on the stack, so
      `txbuf_` is not touched. */
  function Ps4Transmit(buf: seq<byte>, link: Link, l: byte, r: byte, leds: seq<byte>): Outcome
    requires |leds| == 3
  {
    if link.usb then Outcome(buf, [HidPacket(Ps4FeedbackUsb(l, r, leds[0], leds[1], leds[2]))], link.usbAccepted)
    else if link.bluetooth then Outcome(buf, [L2Cap(Ps4FeedbackBt(l, r, leds[0], leds[1], leds[2]), CONTROL_SCID)], true)
    else Outcome(buf, [], false)
  }

  /** `transmitPS3UserFeedbackMsg`: the report is composed in `txbuf_`
      (48 bytes over USB as a set-report control transfer, 50 over Bluetooth). */
  function Ps3Transmit(buf: seq<byte>, link: Link, l: byte, r: byte, timeout: byte, leds: seq<byte>): Outcome
    requires |buf| == TX_BUFFER_SIZE && |leds| == 3
  {
    if link.usb then
      var b := Overwrite(buf, 0, Ps3FeedbackUsb(l, r, timeout, leds[2]));
      Outcome(b, [HidControl(0x21, 9, 0x201, 0, b[..48])], link.usbAccepted)
    else if link.bluetooth then
      var b := Overwrite(buf, 0, Ps3FeedbackBt(l, r, timeout, leds[2]));
      Outcome(b, [L2Cap(b[..50], CONTROL_SCID)], true)
    else Outcome(buf, [], false)
  }

  /** `transmitPS3MotionUserFeedbackMsg`: a few bytes of `txbuf_` are set and
      its first 7 (USB) or 50 (Bluetooth) bytes are sent. */
  function MotionTransmit(buf: seq<byte>, link: Link, l: byte, leds: seq<byte>): Outcome
    requires |buf| == TX_BUFFER_SIZE && |leds| == 3
  {
    if link.usb then
      var b := MotionFeedbackUsb(buf, leds[0], leds[1], leds[2], l);
      Outcome(b, [HidPacket(b[..7])], link.usbAccepted)
    else if link.bluetooth then
      var b := MotionFeedbackBt(buf, leds[0], leds[1], leds[2], l);
      Outcome(b, [L2Cap(b[..50], INTERRUPT_SCID)], true)
    else Outcome(buf, [], false)
  }

  /** The feedback transmitter of a PlayStation family. */
  function PsTransmit(t: JoyType, buf: seq<byte>, link: Link, l: byte, r: byte, timeout: byte, leds: seq<byte>): Outcome
    requires IsPlayStation(t) && |buf| == TX_BUFFER_SIZE && |leds| == 3
  {
    match t
    case PS3 => Ps3Transmit(buf, link, l, r, timeout, leds)
    case PS3Motion => MotionTransmit(buf, link, l, leds)
    case PS4 => Ps4Transmit(buf, link, l, r, leds)
  }

  /** A feedback report goes out on exactly one driver: over USB when the HID
      driver is there (answering what it answers), else over Bluetooth
      (answering true); with neither nothing is sent and the answer is false.
      Only the first 50 bytes of `txbuf_` can change. */
  lemma PsTransmitDrivers(t: JoyType, buf: seq<byte>, link: Link, l: byte, r: byte, timeout: byte, leds: seq<byte>)
    requires IsPlayStation(t) && |buf| == TX_BUFFER_SIZE && |leds| == 3
    ensures var o := PsTransmit(t, buf, link, l, r, timeout, leds);
      && |o.buf| == TX_BUFFER_SIZE && o.buf[50..] == buf[50..]
      && (link.usb ==> |o.sent| == 1 && (o.sent[0].HidPacket? || o.sent[0].HidControl?) && o.ok == link.usbAccepted)
      && (!link.usb && link.bluetooth ==> |o.sent| == 1 && o.sent[0].L2Cap? && o.ok)
      && (!link.usb && !link.bluetooth ==> o == Outcome(buf, [], false))
  {
  }

  /** The request carries the rumble forces and the LED values in the slots
      of each report, and over Bluetooth the PS4 and PS3 reports go on the
      control channel, the Motion report on the interrupt channel. */
  lemma PsTransmitCarries(t: JoyType, buf: seq<byte>, link: Link, l: byte, r: byte, timeout: byte, leds: seq<byte>)
    requires IsPlayStation(t) && |buf| == TX_BUFFER_SIZE && |leds| == 3
    requires link.usb || link.bluetooth
    ensures var o := PsTransmit(t, buf, link, l, r, timeout, leds);
      var d := o.sent[0].data;
      match t
      case PS4 =>
        if link.usb then |d| == 32 && d[4] == l && d[5] == r && d[6..9] == leds
        else |d| == 79 && d[7] == l && d[8] == r && d[9..12] == leds && o.sent[0].channel == CONTROL_SCID
      case PS3 =>
        if link.usb then |d| == 48 && d[2] == l && d[4] == r && d[9] == (leds[2] as int * 2) % 256
          && d[1] == RumbleDuration(l, timeout) && d[3] == RumbleDuration(r, timeout)
        else |d| == 50 && d[4] == l && d[6] == r && d[11] == (leds[2] as int * 2) % 256 && o.sent[0].channel == CONTROL_SCID
      case PS3Motion =>
        if link.usb then |d| == 7 && d[6] == l && d[2..5] == leds
        else |d| == 50 && d[7] == l && d[3..6] == leds && o.sent[0].channel == INTERRUPT_SCID
  {
    match t
    case PS4 => Ps4TransmitCarries(buf, link, l, r, leds);
    case PS3 => Ps3TransmitCarries(buf, link, l, r, timeout, leds);
    case PS3Motion =>
  }

  lemma Ps4TransmitCarries(buf: seq<byte>, link: Link, l: byte, r: byte, leds: seq<byte>)
    requires |leds| == 3 && (link.usb || link.bluetooth)
    ensures var o := Ps4Transmit(buf, link, l, r, leds);
      var d := o.sent[0].data;
      if link.usb then |d| == 32 && d[4] == l && d[5] == r && d[6..9] == leds
      else |d| == 79 && d[7] == l && d[8] == r && d[9..12] == leds && o.sent[0].channel == CONTROL_SCID
  {
    assert Ps4FeedbackUsb(l, r, leds[0], leds[1], leds[2])[6..9] == leds;
    assert Ps4FeedbackBt(l, r, leds[0], leds[1], leds[2])[9..12] == leds;
  }

  lemma Ps3TransmitCarries(buf: seq<byte>, link: Link, l: byte, r: byte, timeout: byte, leds: seq<byte>)
    requires |buf| == TX_BUFFER_SIZE && |leds| == 3 && (link.usb || link.bluetooth)
    ensures var o := Ps3Transmit(buf, link, l, r, timeout, leds);
      var d := o.sent[0].data;
      if link.usb then |d| == 48 && d[2] == l && d[4] == r && d[9] == (leds[2] as int * 2) % 256
        && d[1] == RumbleDuration(l, timeout) && d[3] == RumbleDuration(r, timeout)
      else |d| == 50 && d[4] == l && d[6] == r && d[11] == (leds[2] as int * 2) % 256 && o.sent[0].channel == CONTROL_SCID
  {
    if link.usb {
      OverwriteReads(buf, 0, Ps3FeedbackUsb(l, r, timeout, leds[2]));
    } else {
      OverwriteReads(buf, 0, Ps3FeedbackBt(l, r, timeout, leds[2]));
    }
  }


  // ---------------------------------------------------------------------------
  // setRumble
  // ---------------------------------------------------------------------------

  /** The rumble command `setRumble` writes for an Xbox family; none for the others. */
  function XboxRumbleCommand(t: JoyType, l: byte, r: byte): Option<seq<byte>>
  {
    match t
    case XboxOne => Some(XboxOneRumble(l, r))
    case Xbox360 => Some(Xbox360Rumble(l, r))
    case Xbox360Wired => Some(Xbox360WiredRumble(l, r))
    case XboxDuke => Some(XboxDukeRumble(l, r))
    case _ => None
  }

  /** `setRumble(l, r, timeout)` after storing the three values: the
      PlayStation families transmit their feedback report, the Xbox families
      queue their rumble command from `txbuf_` and answer true, every other
      family answers false. */
  function RumbleOutcome(t: JoyType, buf: seq<byte>, link: Link, l: byte, r: byte, timeout: byte, leds: seq<byte>): Outcome
    requires |buf| == TX_BUFFER_SIZE && |leds| == 3
  {
    if IsPlayStation(t) then PsTransmit(t, buf, link, l, r, timeout, leds)
    else match XboxRumbleCommand(t, l, r)
      case Some(p) => Outcome(Overwrite(buf, 0, p), [QueueTx(p)], true)
      case None => Outcome(buf, [], false)
  }

  /** An Xbox rumble command is at most 13 bytes and sits at the start of
      `txbuf_`, whose other bytes are kept; it is the one request, and the
      answer does not depend on the transfer. */
  lemma XboxRumbleQueued(t: JoyType, buf: seq<byte>, link: Link, l: byte, r: byte, timeout: byte, leds: seq<byte>)
    requires |buf| == TX_BUFFER_SIZE && |leds| == 3 && XboxRumbleCommand(t, l, r).Some?
    ensures var p := XboxRumbleCommand(t, l, r).value;
      var o := RumbleOutcome(t, buf, link, l, r, timeout, leds);
      && |p| <= 13 && o.ok && o.sent == [QueueTx(p)]
      && o.buf[..|p|] == p && o.buf[|p|..] == buf[|p|..]
  {
    var p := XboxRumbleCommand(t, l, r).value;
    OverwriteReads(buf, 0, p);
  }

  // ---------------------------------------------------------------------------
  // setLEDs
  // ---------------------------------------------------------------------------

  /** `setLEDs(lr, lg, lb)` on the LED values `leds`: nothing at all unless the
      new values differ; then the PlayStation families transmit their
      feedback report with the new values, XBOX360 and the wired XBOX360
      queue their LED command and answer true, every other family answers false. */
  function LedsOutcome(t: JoyType, buf: seq<byte>, link: Link, rumbleL: byte, rumbleR: byte, timeout: byte,
                       leds: seq<byte>, newLeds: seq<byte>): Outcome
    requires |buf| == TX_BUFFER_SIZE && |leds| == 3 && |newLeds| == 3
  {
    if leds == newLeds then Outcome(buf, [], false)
    else LedsSent(t, buf, link, rumbleL, rumbleR, timeout, newLeds)
  }

  /** The transfer `setLEDs` makes once the new values `newLeds` are stored. */
  function LedsSent(t: JoyType, buf: seq<byte>, link: Link, rumbleL: byte, rumbleR: byte, timeout: byte,
                    newLeds: seq<byte>): Outcome
    requires |buf| == TX_BUFFER_SIZE && |newLeds| == 3
  {
    if IsPlayStation(t) then PsTransmit(t, buf, link, rumbleL, rumbleR, timeout, newLeds)
    else if t == Xbox360 then
      var p := Xbox360Leds(buf[0], newLeds[2]);
      Outcome(Overwrite(buf, 0, p), [QueueTx(p)], true)
    else if t == Xbox360Wired then
      var p := Xbox360WiredLeds(newLeds[2]);
      Outcome(Overwrite(buf, 0, p), [QueueTx(p)], true)
    else Outcome(buf, [], false)
  }

  /** The same LED values twice in a row: the second call sends nothing and answers false. */
  lemma LedsRepeatQuiet(t: JoyType, buf: seq<byte>, link: Link, rumbleL: byte, rumbleR: byte, timeout: byte,
                        leds: seq<byte>, newLeds: seq<byte>)
    requires |buf| == TX_BUFFER_SIZE && |leds| == 3 && |newLeds| == 3
    ensures var o := LedsOutcome(t, buf, link, rumbleL, rumbleR, timeout, leds, newLeds);
      |o.buf| == TX_BUFFER_SIZE
      && LedsOutcome(t, o.buf, link, rumbleL, rumbleR, timeout, newLeds, newLeds) == Outcome(o.buf, [], false)
  {
    if leds != newLeds && IsPlayStation(t) {
      PsTransmitDrivers(t, buf, link, rumbleL, rumbleR, timeout, newLeds);
    }
  }

  /** The LED command an Xbox 360 receiver or wired controller is sent for LED value v. */
  function LedCommand(t: JoyType, byte0: byte, v: byte): seq<byte>
  {
    if t == Xbox360 then Xbox360Leds(byte0, v) else Xbox360WiredLeds(v)
  }

  /** `setLEDs(0); setLEDs(q)` for a non-zero q, on XBOX360 or the wired XBOX360: the
      "all off" command goes out only if some LED value was set, the command
      for q always does, and it is what `txbuf_` ends with. */
  lemma LedsOffThenOn(t: JoyType, buf: seq<byte>, link: Link, rumbleL: byte, rumbleR: byte, timeout: byte,
                      leds: seq<byte>, q: byte)
    requires |buf| == TX_BUFFER_SIZE && |leds| == 3 && q != 0
    requires t == Xbox360 || t == Xbox360Wired
    ensures var o1 := LedsOutcome(t, buf, link, rumbleL, rumbleR, timeout, leds, [0, 0, 0]);
      |o1.buf| == TX_BUFFER_SIZE
      && var o2 := LedsOutcome(t, o1.buf, link, rumbleL, rumbleR, timeout, [0, 0, 0], [0, 0, q]);
      && o1.sent == (if leds != [0, 0, 0] then [QueueTx(LedCommand(t, buf[0], 0))] else [])
      && o2.sent == [QueueTx(LedCommand(t, buf[0], q))] && o2.ok
      && o2.buf == Overwrite(buf, 0, LedCommand(t, buf[0], q))
  {
    if leds != [0, 0, 0] {
      var b1 := Overwrite(buf, 0, LedCommand(t, buf[0], 0));
      OverwriteReads(buf, 0, LedCommand(t, buf[0], 0));
      assert b1[0] == LedCommand(t, buf[0], 0)[0];
      if t == Xbox360 {
        assert LedCommand(t, buf[0], 0)[0] == buf[0];
      }
      OverwriteAgain(buf, 0, LedCommand(t, buf[0], 0), LedCommand(t, buf[0], q));
    }
  }

  // ---------------------------------------------------------------------------
  // PS3Pair
  // ---------------------------------------------------------------------------

  /** `PS3Pair(bdaddr)`: over USB only, the PS3 gets set-report 0x3F5 with
      the address reversed, the Motion controller set-report 0x305 with it in
      order; anything else answers false and sends nothing. */
  function PairOutcome(t: JoyType, buf: seq<byte>, usb: bool, accepted: bool, addr: seq<byte>): Outcome
    requires |buf| == TX_BUFFER_SIZE && |addr| == 6
  {
    if !usb then Outcome(buf, [], false)
    else if t == PS3 then
      var b := Overwrite(buf, 0, Ps3PairReport(addr));
      Outcome(b, [HidControl(0x21, 9, 0x3F5, 0, b[..8])], accepted)
    else if t == PS3Motion then
      var b := Overwrite(buf, 0, Ps3MotionPairReport(addr));
      Outcome(b, [HidControl(0x21, 9, 0x305, 0, b[..11])], accepted)
    else Outcome(buf, [], false)
  }

  /** The pairing request carries the host address, and the controller that
      reads it back gets the address it was given. */
  lemma PairCarriesAddress(t: JoyType, buf: seq<byte>, usb: bool, accepted: bool, addr: seq<byte>)
    requires |buf| == TX_BUFFER_SIZE && |addr| == 6
    ensures var o := PairOutcome(t, buf, usb, accepted, addr);
      && (o.sent == [] <==> !usb || (t != PS3 && t != PS3Motion))
      && (o.sent == [] ==> o == Outcome(buf, [], false))
      && (usb && t == PS3 ==> |o.sent[0].data| == 8 && Reversed(o.sent[0].data[2..]) == addr)
      && (usb && t == PS3Motion ==> |o.sent[0].data| == 11 && o.sent[0].data[1..7] == addr)
  {
    PairReportsCarryAddress(addr);
    if usb && t == PS3 {
      OverwriteReads(buf, 0, Ps3PairReport(addr));
    } else if usb && t == PS3Motion {
      OverwriteReads(buf, 0, Ps3MotionPairReport(addr));
    }
  }
}
