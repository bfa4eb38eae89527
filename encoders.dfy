/** The output packets of the controller as pure functions of what they
    carry: the rumble and LED commands of the four Xbox families, the
    PlayStation feedback reports in their USB and Bluetooth forms, the PS3
    pairing reports, the Bluetooth enable packets and the fixed Xbox init and
    keep-alive messages. Where the source fills `txbuf_` only in part, the
    packet is an overlay on the previous buffer contents. */
module Encoders {
  import opened ByteFields

  // ---------------------------------------------------------------------------
  // Fixed messages
  // ---------------------------------------------------------------------------

  const XBOXONE_START_INPUT: seq<byte> := [0x05, 0x20, 0x00, 0x01, 0x00]
  const XBOXONE_S_INIT: seq<byte> := [0x05, 0x20, 0x00, 0x0f, 0x06]
  const XBOXONE_PDP_INIT1: seq<byte> := [0x0a, 0x20, 0x00, 0x03, 0x00, 0x01, 0x14]
  const XBOXONE_PDP_INIT2: seq<byte> := [0x06, 0x30]
  const XBOXONE_PDP_INIT3: seq<byte> := [0x06, 0x20, 0x00, 0x02, 0x01, 0x00]
  const XBOX360W_INQUIRE_PRESENT: seq<byte> := [0x08, 0x00, 0x0F, 0xC0, 0x00, 0x00, 0x00, 0x00, 0x00, 0x00, 0x00, 0x00]
  const XBOX360W_CONNECTION_REFRESH: seq<byte> := [0x08, 0x00, 0x00, 0x00]
  const XBOX360W_CONTROLLER_INFO: seq<byte> := [0x00, 0x00, 0x00, 0x40]
  const XBOX360W_CHATPAD_INIT: seq<byte> := [0x00, 0x00, 0x0C, 0x1B]
  const XBOX360W_CHATPAD_KEEPALIVE1: seq<byte> := [0x00, 0x00, 0x0C, 0x1F]
  const XBOX360W_CHATPAD_KEEPALIVE2: seq<byte> := [0x00, 0x00, 0x0C, 0x1E]

  /** The chatpad keep-alive `timer_event` sends: `toggle ^= 1` is tested
      after the flip, so a toggle of 1 sends keep-alive 2. */
  function ChatpadKeepAlive(toggleBefore: nat): (p: seq<byte>)
    requires toggleBefore <= 1
    ensures p == XBOX360W_CHATPAD_KEEPALIVE1 <==> toggleBefore == 0
    ensures p == XBOX360W_CHATPAD_KEEPALIVE2 <==> toggleBefore == 1
  {
    if 1 - toggleBefore != 0 then XBOX360W_CHATPAD_KEEPALIVE1 else XBOX360W_CHATPAD_KEEPALIVE2
  }

  /** The keep-alive messages sent by n timer ticks starting from toggle t. */
  function KeepAliveRun(t: nat, n: nat): seq<seq<byte>>
    requires t <= 1
    decreases n
  {
    if n == 0 then [] else [ChatpadKeepAlive(t)] + KeepAliveRun(1 - t, n - 1)
  }

  /** Starting from the initial toggle 1, tick i sends keep-alive 2 when i is
      even and keep-alive 1 when it is odd. */
  lemma {:induction false} KeepAliveAlternates(t: nat, n: nat)
    requires t <= 1
    ensures |KeepAliveRun(t, n)| == n
    ensures forall i :: 0 <= i < n ==>
      KeepAliveRun(t, n)[i] == (if (t + i) % 2 == 1 then XBOX360W_CHATPAD_KEEPALIVE2 else XBOX360W_CHATPAD_KEEPALIVE1)
    decreases n
  {
    if n > 0 {
      KeepAliveAlternates(1 - t, n - 1);
      forall i | 1 <= i < n
        ensures KeepAliveRun(t, n)[i] == KeepAliveRun(1 - t, n - 1)[i - 1]
      {
      }
    }
  }

  /** The toggle is shared: when two receivers tick in turn from the initial
      toggle, every tick of the first (the even ticks of the run) sends
      keep-alive 2, so that receiver never alternates. */
  lemma InterleavedReceiverRepeats(n: nat)
    ensures |KeepAliveRun(1, 2 * n)| == 2 * n
    ensures forall i :: 0 <= i < 2 * n && i % 2 == 0 ==> KeepAliveRun(1, 2 * n)[i] == XBOX360W_CHATPAD_KEEPALIVE2
  {
    KeepAliveAlternates(1, 2 * n);
  }

  // ---------------------------------------------------------------------------
  // Xbox rumble and LED commands (setRumble, setLEDs)
  // ---------------------------------------------------------------------------

  /** `(v > 100) ? 100 : v`. */
  function Min100(v: byte): byte
  {
    if v > 100 then 100 else v
  }

  function XboxOneRumble(l: byte, r: byte): seq<byte>
  {
    [0x09, 0x00, 0x00, 0x09, 0x00, 0x0F, 0x00, 0x00, Min100(l), Min100(r), 0xFF, 0x00, 0x00]
  }

  function Xbox360Rumble(l: byte, r: byte): seq<byte>
  {
    [0x00, 0x01, 0x0F, 0xC0, 0x00, l, r, 0x00, 0x00, 0x00, 0x00, 0x00]
  }

  function Xbox360WiredRumble(l: byte, r: byte): seq<byte>
  {
    [0x00, 0x08, 0x00, l, r, 0x00, 0x00, 0x00]
  }

  function XboxDukeRumble(l: byte, r: byte): seq<byte>
  {
    [0x00, 0x06, l, l, r, r]
  }

  /** The XBOXONE motor forces never exceed 100 and are exact up to 100. */
  lemma XboxOneRumbleClamped(l: byte, r: byte)
    ensures |XboxOneRumble(l, r)| == 13
    ensures XboxOneRumble(l, r)[8] <= 100 && XboxOneRumble(l, r)[9] <= 100
    ensures XboxOneRumble(l, r)[8] == l <==> l <= 100
    ensures XboxOneRumble(l, r)[9] == r <==> r <= 100
  {
  }

  /** The three other Xbox rumble commands carry the forces unclamped: each
      is read back from its own slots, so distinct requests give distinct packets. */
  lemma XboxRumbleForcesReadBack(l: byte, r: byte, l2: byte, r2: byte)
    ensures Xbox360Rumble(l, r) == Xbox360Rumble(l2, r2) <==> l == l2 && r == r2
    ensures Xbox360WiredRumble(l, r) == Xbox360WiredRumble(l2, r2) <==> l == l2 && r == r2
    ensures XboxDukeRumble(l, r) == XboxDukeRumble(l2, r2) <==> l == l2 && r == r2
  {
    if Xbox360Rumble(l, r) == Xbox360Rumble(l2, r2) {
      assert Xbox360Rumble(l, r)[5] == l && Xbox360Rumble(l2, r2)[5] == l2;
      assert Xbox360Rumble(l, r)[6] == r && Xbox360Rumble(l2, r2)[6] == r2;
    }
    if Xbox360WiredRumble(l, r) == Xbox360WiredRumble(l2, r2) {
      assert Xbox360WiredRumble(l, r)[3] == l && Xbox360WiredRumble(l2, r2)[3] == l2;
      assert Xbox360WiredRumble(l, r)[4] == r && Xbox360WiredRumble(l2, r2)[4] == r2;
    }
    if XboxDukeRumble(l, r) == XboxDukeRumble(l2, r2) {
      assert XboxDukeRumble(l, r)[2] == l && XboxDukeRumble(l2, r2)[2] == l2;
      assert XboxDukeRumble(l, r)[4] == r && XboxDukeRumble(l2, r2)[4] == r2;
    }
  }

  /** `setLEDs` for XBOX360 writes bytes 1..11 only: byte 0 is whatever the
      buffer held. `0x40 + lb` is stored in a byte. */
  function Xbox360Leds(byte0: byte, lb: byte): seq<byte>
  {
    [byte0, 0x00, 0x08, (0x40 + lb) % 256, 0x00, 0x00, 0x00, 0x00, 0x00, 0x00, 0x00, 0x00]
  }

  function Xbox360WiredLeds(lb: byte): seq<byte>
  {
    [0x01, 0x03, lb]
  }

  /** The XBOX360 LED pattern byte wraps: patterns 0xC0 and above alias small ones. */
  lemma Xbox360LedsWrap(byte0: byte, lb: byte)
    ensures |Xbox360Leds(byte0, lb)| == 12 && Xbox360Leds(byte0, lb)[0] == byte0
    ensures lb < 0xC0 ==> Xbox360Leds(byte0, lb)[3] == 0x40 + lb
    ensures lb >= 0xC0 ==> Xbox360Leds(byte0, lb)[3] == lb - 0xC0
  {
  }

  // ---------------------------------------------------------------------------
  // PS4 feedback (transmitPS4UserFeedbackMsg)
  // ---------------------------------------------------------------------------

  /** The 32-byte USB output report 0x05. */
  function Ps4FeedbackUsb(l: byte, r: byte, ledR: byte, ledG: byte, ledB: byte): (p: seq<byte>)
    ensures |p| == 32
  {
    [0x05, 0xFF, 0, 0, l, r, ledR, ledG, ledB] + seq(23, _ => 0)
  }

  /** The 79-byte Bluetooth report 0x11 (HID header 0x52). */
  function Ps4FeedbackBt(l: byte, r: byte, ledR: byte, ledG: byte, ledB: byte): (p: seq<byte>)
    ensures |p| == 79
  {
    [0x52, 0x11, 0x80, 0, 0xFF, 0, 0, l, r, ledR, ledG, ledB] + seq(67, _ => 0)
  }

  /** Both forms carry rumble and colour in the same order, the Bluetooth one
      three bytes later; everything past byte 11 is zero in both. */
  lemma Ps4FeedbackForms(l: byte, r: byte, ledR: byte, ledG: byte, ledB: byte)
    ensures var usb := Ps4FeedbackUsb(l, r, ledR, ledG, ledB);
      var bt := Ps4FeedbackBt(l, r, ledR, ledG, ledB);
      && (forall k :: 4 <= k < 9 ==> bt[k + 3] == usb[k])
      && usb[4] == l && usb[5] == r && usb[6] == ledR && usb[7] == ledG && usb[8] == ledB
      && (forall k :: 9 <= k < 32 ==> usb[k] == 0)
      && (forall k :: 12 <= k < 79 ==> bt[k] == 0)
  {
  }

  // ---------------------------------------------------------------------------
  // PS3 feedback (transmitPS3UserFeedbackMsg)
  // ---------------------------------------------------------------------------

  /** `PS3_USER_FEEDBACK_INIT`: ten zeros, four `ff 27 10 00 32` LED
      blocks and eighteen zeros. */
  const PS3_FEEDBACK_INIT: seq<byte> :=
    [0x00, 0x00, 0x00, 0x00, 0x00,
     0x00, 0x00, 0x00, 0x00, 0x00,
     0xff, 0x27, 0x10, 0x00, 0x32,
     0xff, 0x27, 0x10, 0x00, 0x32,
     0xff, 0x27, 0x10, 0x00, 0x32,
     0xff, 0x27, 0x10, 0x00, 0x32,
     0x00, 0x00, 0x00, 0x00, 0x00,
     0x00, 0x00, 0x00, 0x00, 0x00,
     0x00, 0x00, 0x00, 0x00, 0x00,
     0x00, 0x00, 0x00]

  /** A rumble duration is sent only with a non-zero force. */
  function RumbleDuration(force: byte, timeout: byte): byte
  {
    if force != 0 then timeout else 0
  }

  /** The 48-byte USB report: the template with the two motors in 1..4 and
      the LED bits (the third LED value shifted left once) in 9. */
  function Ps3FeedbackUsb(l: byte, r: byte, timeout: byte, ledB: byte): (p: seq<byte>)
    ensures |p| == 48
  {
    PS3_FEEDBACK_INIT[1 := RumbleDuration(l, timeout)][2 := l][3 := RumbleDuration(r, timeout)][4 := r]
      [9 := (ledB * 2) % 256]
  }

  /** The 50-byte Bluetooth report: `52 01` then the USB report. */
  function Ps3FeedbackBt(l: byte, r: byte, timeout: byte, ledB: byte): (p: seq<byte>)
    ensures |p| == 50
  {
    [0x52, 0x01] + Ps3FeedbackUsb(l, r, timeout, ledB)
  }

  /** The Bluetooth report as the header, the template and the slots shifted by two. */
  lemma Ps3FeedbackBtSlots(l: byte, r: byte, timeout: byte, ledB: byte)
    ensures Ps3FeedbackBt(l, r, timeout, ledB)
         == ([0x52, 0x01] + PS3_FEEDBACK_INIT)[3 := RumbleDuration(l, timeout)][4 := l]
              [5 := RumbleDuration(r, timeout)][6 := r][11 := (ledB as int * 2) % 256]
  {
  }

  /** The slots 1, 2, 3, 4 and 9 carry the request; every other byte is the
      template's; the Bluetooth form shifts all of it by two. */
  lemma Ps3FeedbackLayout(l: byte, r: byte, timeout: byte, ledB: byte)
    ensures var usb := Ps3FeedbackUsb(l, r, timeout, ledB);
      && usb[1] == (if l != 0 then timeout else 0) && usb[2] == l
      && usb[3] == (if r != 0 then timeout else 0) && usb[4] == r
      && usb[9] == (ledB * 2) % 256
      && (forall k :: 0 <= k < 48 && k !in {1, 2, 3, 4, 9} ==> usb[k] == PS3_FEEDBACK_INIT[k])
      && (forall k :: 0 <= k < 48 ==> Ps3FeedbackBt(l, r, timeout, ledB)[k + 2] == usb[k])
  {
  }

  /** Shifting the LED byte left loses its top bit: two LED values collide. */
  lemma Ps3FeedbackLedCollision()
    ensures Ps3FeedbackUsb(0, 0, 0, 0x01) == Ps3FeedbackUsb(0, 0, 0, 0x81)
  {
  }

  // ---------------------------------------------------------------------------
  // PS3 Motion feedback (transmitPS3MotionUserFeedbackMsg)
  // ---------------------------------------------------------------------------

  /** The USB form writes bytes 0, 2..4 and 6 of `txbuf_` and sends the first
      seven: bytes 1 and 5 are whatever the buffer held. */
  function MotionFeedbackUsb(buf: seq<byte>, ledR: byte, ledG: byte, ledB: byte, l: byte): (b: seq<byte>)
    requires |buf| >= 7
    ensures |b| == |buf|
  {
    buf[0 := 0x02][2 := ledR][3 := ledG][4 := ledB][6 := l]
  }

  /** The Bluetooth form writes bytes 0, 1, 3..5 and 7 and sends the first fifty. */
  function MotionFeedbackBt(buf: seq<byte>, ledR: byte, ledG: byte, ledB: byte, l: byte): (b: seq<byte>)
    requires |buf| >= 50
    ensures |b| == |buf|
  {
    buf[0 := 0xA2][1 := 0x02][3 := ledR][4 := ledG][5 := ledB][7 := l]
  }

  /** Both Motion forms carry colour and rumble one byte apart and keep every
      byte they do not write. */
  lemma MotionFeedbackLayout(buf: seq<byte>, ledR: byte, ledG: byte, ledB: byte, l: byte)
    requires |buf| >= 50
    ensures var usb := MotionFeedbackUsb(buf, ledR, ledG, ledB, l);
      var bt := MotionFeedbackBt(buf, ledR, ledG, ledB, l);
      && usb[0] == 2 && usb[2] == ledR && usb[3] == ledG && usb[4] == ledB && usb[6] == l
      && bt[0] == 0xA2 && bt[1] == 2
      && (forall k :: 2 <= k < 5 ==> bt[k + 1] == usb[k]) && bt[7] == usb[6]
      && (forall k :: 0 <= k < |buf| && k !in {0, 2, 3, 4, 6} ==> usb[k] == buf[k])
      && (forall k :: 0 <= k < |buf| && k !in {0, 1, 3, 4, 5, 7} ==> bt[k] == buf[k])
  {
  }

  // ---------------------------------------------------------------------------
  // Pairing (PS3Pair) and Bluetooth enable packets (connectionComplete)
  // ---------------------------------------------------------------------------

  /** `bdaddr` backwards. */
  function Reversed(s: seq<byte>): (r: seq<byte>)
    ensures |r| == |s|
    ensures forall i :: 0 <= i < |s| ==> r[i] == s[|s| - 1 - i]
    decreases |s|
  {
    if s == [] then [] else Reversed(s[1..]) + [s[0]]
  }

  /** Reversing twice gives the address back. */
  lemma ReversedTwice(s: seq<byte>)
    ensures Reversed(Reversed(s)) == s
  {
    assert forall i :: 0 <= i < |s| ==> Reversed(Reversed(s))[i] == s[i];
  }

  /** The PS3 set-report 0xF5: `01 00` and the address most significant byte first. */
  function Ps3PairReport(addr: seq<byte>): seq<byte>
    requires |addr| == 6
  {
    [0x01, 0x00] + Reversed(addr)
  }

  /** The Motion set-report 0x05: the address in its own order and a fixed tail. */
  function Ps3MotionPairReport(addr: seq<byte>): seq<byte>
    requires |addr| == 6
  {
    [0x05] + addr + [0x10, 0x01, 0x02, 0x12]
  }

  /** The host address is recovered from either report, reversed from the
      PS3 one and as is from the Motion one. */
  lemma PairReportsCarryAddress(addr: seq<byte>)
    requires |addr| == 6
    ensures |Ps3PairReport(addr)| == 8 && |Ps3MotionPairReport(addr)| == 11
    ensures Reversed(Ps3PairReport(addr)[2..]) == addr
    ensures Ps3MotionPairReport(addr)[1..7] == addr
  {
    assert Ps3PairReport(addr)[2..] == Reversed(addr);
    ReversedTwice(addr);
  }

  /** PS4 over Bluetooth: HID get-report of feature report 2. */
  const PS4_BT_GET_REPORT: seq<byte> := [0x43, 0x02]
  /** PS3 over Bluetooth: set-report of feature 0xF4 with the enable command. */
  const PS3_BT_ENABLE: seq<byte> := [0x53, 0xF4, 0x42, 0x03, 0x00, 0x00]
}
