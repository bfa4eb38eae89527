/** `JoystickController`: the state one game controller keeps and the entry
    points the USB host, the HID parser and the Bluetooth stack call. Every
    request the controller makes of those collaborators (a transfer, a HID
    or Bluetooth packet, a timer start or stop) is appended to `requests`;
    their answers, where the code looks at them, are parameters. */
module Controller {
  import opened ByteFields
  import opened JoystickTypes
  import opened AxisUpdates
  import opened ButtonBits
  import opened Classify
  import opened Decoders
  import opened Encoders
  import opened Feedback
  import opened RawReports

  /** The init transfers `claim` queues for the family it found. */
  function ClaimInitRequests(jtype: JoyType, dev: Device, oldLeds: seq<byte>): seq<Request>
  {
    match jtype
    case XboxOne =>
      [QueueTx(XBOXONE_START_INPUT)]
      + (if dev.idVendor == 0x045e && (dev.idProduct == 0x02ea || dev.idProduct == 0x0b00)
         then [QueueTx(XBOXONE_S_INIT)] else [])
      + (if dev.idVendor == 0x0e6f
         then [QueueTx(XBOXONE_PDP_INIT1), QueueTx(XBOXONE_PDP_INIT2), QueueTx(XBOXONE_PDP_INIT3)] else [])
    case Xbox360 => [QueueTx(XBOX360W_INQUIRE_PRESENT)]
    case Xbox360Wired => LedResetRequests(Xbox360Wired, 0, oldLeds, 2)
    case _ => []
  }

  /** Everything `claim` asks for once it has found both endpoints: the two
      pipes (only while pipes are granted), then the receive transfer, the
      family's init transfers and the periodic timer. */
  function ClaimRequests(jtype: JoyType, e: Endpoints, dev: Device, oldLeds: seq<byte>,
                         rxPipeOk: bool, txPipeOk: bool): seq<Request>
  {
    [NewPipe(e.rxEp % 16, true, e.rxSize, e.rxInterval)]
    + (if rxPipeOk then [NewPipe(e.txEp, false, e.txSize, e.txInterval)] else [])
    + (if rxPipeOk && txPipeOk
       then [QueueRx(e.rxSize)] + ClaimInitRequests(jtype, dev, oldLeds) + [TimerStart(TIMER_PERIOD_US)]
       else [])
  }

  /** The `static int toggle` of `timer_event`: one variable shared by every
      controller, initialised once to 1. The program makes one and hands the
      same one to every controller it constructs. */
  class KeepAliveToggle {
    var value: ToggleBit

    constructor ()
      ensures value == 1
    {
      value := 1;
    }
  }

  type ToggleBit = x: nat | x <= 1

  class JoystickController {
    var buttons: bv32
    const axis: array<int>
    var axisMask: Mask                 // axis_mask_: the axes the last report carried
    var axisChangedMask: Mask          // axis_changed_mask_
    var axisChangeNotifyMask: Mask     // axis_change_notify_mask_
    var anychange: bool
    var joystickEvent: bool
    var joystickType: JoyType
    const leds: array<byte>            // leds_[3]
    var rumbleL: byte
    var rumbleR: byte
    var rumbleTimeout: byte
    const txbuf: array<byte>           // txbuf_
    var requests: seq<Request>
    var mydevice: Option<Device>       // the device whose HID collections are claimed
    var device: Option<Device>         // the device claimed at the interface level
    var hidDriver: bool                // driver_ != nullptr
    var btDriver: bool                 // btdriver_ != nullptr
    var btDevice: bool                 // btdevice != nullptr
    var connected: byte                // connected_
    var collectionsClaimed: byte
    var additionalAxisPage: nat
    var additionalAxisStart: nat
    var additionalAxisCount: nat
    var specialProcess: SpecialProcess
    var rxEp: byte                     // rx_ep_
    var rxSize: nat                    // rx_size_
    var txSize: nat                    // tx_size_
    const keepAlive: KeepAliveToggle   // the static `toggle` of timer_event, shared

    ghost predicate Valid()
      reads this
    {
      && axis.Length == TOTAL_AXIS_COUNT
      && txbuf.Length == TX_BUFFER_SIZE
      && leds.Length == 3
      && txbuf != leds
    }

    /** A controller before anything is attached, sharing the keep-alive
        toggle `toggle` with the other controllers (and leaving it as it is). */
    constructor (toggle: KeepAliveToggle)
      ensures Valid()
      ensures buttons == 0 && axis[..] == seq(TOTAL_AXIS_COUNT, _ => 0)
      ensures axisMask == {} && axisChangedMask == {} && axisChangeNotifyMask == LowBits(STANDARD_AXIS_COUNT)
      ensures !anychange && !joystickEvent && joystickType == Unknown
      ensures leds[..] == [0, 0, 0] && rumbleL == 0 && rumbleR == 0 && rumbleTimeout == 0
      ensures requests == [] && mydevice == None && device == None
      ensures !hidDriver && !btDriver && !btDevice && connected == 0 && collectionsClaimed == 0
      ensures specialProcess == SpNone && keepAlive == toggle
      ensures fresh(axis) && fresh(txbuf) && fresh(leds)
    {
      buttons := 0;
      axis := new int[TOTAL_AXIS_COUNT](_ => 0);
      axisMask := {};
      axisChangedMask := {};
      axisChangeNotifyMask := LowBits(STANDARD_AXIS_COUNT);
      anychange := false;
      joystickEvent := false;
      joystickType := Unknown;
      leds := new byte[3](_ => 0);
      rumbleL := 0;
      rumbleR := 0;
      rumbleTimeout := 0;
      txbuf := new byte[TX_BUFFER_SIZE](_ => 0);
      requests := [];
      mydevice := None;
      device := None;
      hidDriver := false;
      btDriver := false;
      btDevice := false;
      connected := 0;
      collectionsClaimed := 0;
      additionalAxisPage := 0;
      additionalAxisStart := 0;
      additionalAxisCount := 0;
      specialProcess := SpNone;
      rxEp := 0;
      rxSize := 0;
      txSize := 0;
      keepAlive := toggle;
    }

    // -------------------------------------------------------------------------
    // Session bookkeeping
    // -------------------------------------------------------------------------

    /** `joystickDataClear`: the application has read the event. */
    method JoystickDataClear()
      modifies this`joystickEvent, this`anychange, this`axisChangedMask, this`axisMask
      ensures !joystickEvent && !anychange && axisChangedMask == {} && axisMask == {}
    {
      joystickEvent := false;
      anychange := false;
      axisChangedMask := {};
      axisMask := {};
    }

    /** `disconnect`: the USB device went away. The host core then forgets
        the device (`device = nullptr`), which the model does here. */
    method Disconnect()
      modifies this`axisMask, this`axisChangedMask, this`requests, this`device
      ensures axisMask == {} && axisChangedMask == {} && device == None
      ensures requests == old(requests) + [TimerStop]
    {
      axisMask := {};
      axisChangedMask := {};
      requests := requests + [TimerStop];
      device := None;
    }

    /** `disconnect_collection`: one claimed collection fewer (the count is a
        byte and wraps below zero); at zero the HID device is released. */
    method DisconnectCollection()
      modifies this`collectionsClaimed, this`mydevice, this`hidDriver, this`axisMask, this`axisChangedMask
      ensures collectionsClaimed == (old(collectionsClaimed) + 255) % 256
      ensures collectionsClaimed == 0 ==> mydevice == None && !hidDriver && axisMask == {} && axisChangedMask == {}
      ensures collectionsClaimed != 0 ==>
        mydevice == old(mydevice) && hidDriver == old(hidDriver)
        && axisMask == old(axisMask) && axisChangedMask == old(axisChangedMask)
    {
      collectionsClaimed := (collectionsClaimed + 255) % 256;
      if collectionsClaimed == 0 {
        mydevice := None;
        hidDriver := false;
        axisMask := {};
        axisChangedMask := {};
      }
    }

    /** `release_bluetooth`. */
    method ReleaseBluetooth()
      modifies this`btDevice, this`btDriver, this`connected, this`specialProcess
      ensures !btDevice && !btDriver && connected == 0 && specialProcess == SpNone
    {
      btDevice := false;
      btDriver := false;
      connected := 0;
      specialProcess := SpNone;
    }

    /** `timer_event` for the controller's own timer: the XBOX360 receiver is
        asked for refresh and info and sent the next chatpad keep-alive; the
        timer is always restarted. The toggle is the one all controllers
        share, so the keep-alives alternate across every receiver's ticks
        taken together, not per receiver. */
    method TimerEvent()
      modifies keepAlive, this`requests
      ensures joystickType == Xbox360 ==>
        keepAlive.value == 1 - old(keepAlive.value)
        && requests == old(requests) + [QueueTx(XBOX360W_CONNECTION_REFRESH), QueueTx(XBOX360W_CONTROLLER_INFO),
                                        QueueTx(ChatpadKeepAlive(old(keepAlive.value))), TimerStart(TIMER_PERIOD_US)]
      ensures joystickType != Xbox360 ==>
        keepAlive.value == old(keepAlive.value) && requests == old(requests) + [TimerStart(TIMER_PERIOD_US)]
    {
      if joystickType == Xbox360 {
        requests := requests + [QueueTx(XBOX360W_CONNECTION_REFRESH), QueueTx(XBOX360W_CONTROLLER_INFO)];
        keepAlive.value := 1 - keepAlive.value;
        if keepAlive.value != 0 {
          requests := requests + [QueueTx(XBOX360W_CHATPAD_KEEPALIVE1)];
        } else {
          requests := requests + [QueueTx(XBOX360W_CHATPAD_KEEPALIVE2)];
        }
      }
      requests := requests + [TimerStart(TIMER_PERIOD_US)];
    }

    // -------------------------------------------------------------------------
    // Interface-level claim (claim)
    // -------------------------------------------------------------------------

    /** `claim`: take an Xbox interface of a device nobody has claimed. The
        pipe allocator's answers are `rxPipeOk` and `txPipeOk`; the source
        does not bound the endpoint scan by `len`, so the bytes the scan
        reads before it stops must be there. */
    method Claim(dev: Device, claimType: int, desc: seq<byte>, rxPipeOk: bool, txPipeOk: bool) returns (ok: bool)
      requires Valid()
      requires mydevice == None && device == None ==> ClaimInside(claimType, desc, dev.idVendor, dev.idProduct)
      modifies axis, leds, txbuf, this`rxEp, this`rxSize, this`txSize, this`requests, this`joystickType,
        this`connected, this`device
      ensures old(mydevice) != None || old(device) != None ==>
        !ok && requests == old(requests) && rxEp == old(rxEp) && rxSize == old(rxSize) && txSize == old(txSize)
      ensures old(mydevice) == None && old(device) == None ==>
        var v := InterfaceClaim(claimType, desc, dev.idVendor, dev.idProduct);
        && (ok <==> v.Claimable? && rxPipeOk && txPipeOk)
        && (v.NotClaimed? ==>
              requests == old(requests) && rxEp == old(rxEp) && rxSize == old(rxSize) && txSize == old(txSize))
        && (v.NoEndpoints? ==>
              requests == old(requests)
              && rxEp == v.endpoints.rxEp && rxSize == v.endpoints.rxSize && txSize == v.endpoints.txSize)
        && (v.Claimable? ==>
              && rxEp == v.endpoints.rxEp && rxSize == v.endpoints.rxSize && txSize == v.endpoints.txSize
              && requests == old(requests) + ClaimRequests(v.jtype, v.endpoints, dev, old(leds[..]), rxPipeOk, txPipeOk))
        && (ok ==>
              && joystickType == v.jtype && device == Some(dev)
              && connected == (if v.jtype == Xbox360 then 0 else 1)
              && axis[..] == seq(TOTAL_AXIS_COUNT, _ => 0)
              && (v.jtype == Xbox360Wired ==>
                    leds[..] == [0, 0, 2] && txbuf[..] == Overwrite(old(txbuf[..]), 0, Xbox360WiredLeds(2)))
              && (v.jtype != Xbox360Wired ==> leds[..] == old(leds[..]) && txbuf[..] == old(txbuf[..])))
      ensures !ok ==>
        && joystickType == old(joystickType) && connected == old(connected) && device == old(device)
        && axis[..] == old(axis[..]) && leds[..] == old(leds[..]) && txbuf[..] == old(txbuf[..])
    {
      if mydevice != None || device != None {
        return false;
      }
      var v := ClassifyInterface(claimType, desc, dev.idVendor, dev.idProduct);
      if v.NotClaimed? {
        return false;
      }
      rxEp := v.endpoints.rxEp;
      rxSize := v.endpoints.rxSize;
      txSize := v.endpoints.txSize;
      if v.NoEndpoints? {
        return false;
      }
      ok := OpenInterface(dev, v.jtype, v.endpoints, rxPipeOk, txPipeOk);
    }

    /** The rest of `claim` once both endpoints are known: the pipes, the
        receive transfer, the family and its init, the cleared axes and the timer. */
    method OpenInterface(dev: Device, jtype: JoyType, e: Endpoints, rxPipeOk: bool, txPipeOk: bool) returns (ok: bool)
      requires Valid()
      modifies axis, leds, txbuf, this`requests, this`joystickType, this`connected, this`device
      ensures ok == (rxPipeOk && txPipeOk)
      ensures requests == old(requests) + ClaimRequests(jtype, e, dev, old(leds[..]), rxPipeOk, txPipeOk)
      ensures ok ==> InterfaceStarted(dev, jtype, old(connected), old(leds[..]), old(txbuf[..]))
      ensures !ok ==>
        && joystickType == old(joystickType) && connected == old(connected) && device == old(device)
        && axis[..] == old(axis[..]) && leds[..] == old(leds[..]) && txbuf[..] == old(txbuf[..])
    {
      requests := requests + [NewPipe(e.rxEp % 16, true, e.rxSize, e.rxInterval)];
      if !rxPipeOk {
        return false;
      }
      requests := requests + [NewPipe(e.txEp, false, e.txSize, e.txInterval)];
      if !txPipeOk {
        return false;
      }
      ghost var r0 := requests;
      StartInterface(dev, jtype, e);
      assert requests == r0 + ([QueueRx(e.rxSize)] + ClaimInitRequests(jtype, dev, old(leds[..])) + [TimerStart(TIMER_PERIOD_US)]);
      return true;
    }

    /** The state `claim` leaves on success, from the `connected_`, `leds_`
        and `txbuf_` it found: the family and device are set, `connected_`
        follows the family, the axes are zero, and only the wired
        controller's LED reset touches `leds_` and `txbuf_`. */
    ghost predicate InterfaceStarted(dev: Device, jtype: JoyType, connected0: byte, leds0: seq<byte>, txbuf0: seq<byte>)
      requires Valid() && |txbuf0| == TX_BUFFER_SIZE
      reads this, axis, leds, txbuf
    {
      && joystickType == jtype && device == Some(dev)
      && connected == (if jtype == Xbox360 then 0 else if jtype in {XboxOne, Xbox360Wired, XboxDuke} then 1
                       else connected0)
      && axis[..] == seq(TOTAL_AXIS_COUNT, _ => 0)
      && (jtype == Xbox360Wired ==> leds[..] == [0, 0, 2] && txbuf[..] == Overwrite(txbuf0, 0, Xbox360WiredLeds(2)))
      && (jtype != Xbox360Wired ==> leds[..] == leds0 && txbuf[..] == txbuf0)
    }

    /** `claim` once both pipes are open: the first receive transfer, the
        family's init, the axes cleared, the timer and the device bound. */
    method StartInterface(dev: Device, jtype: JoyType, e: Endpoints)
      requires Valid()
      modifies axis, leds, txbuf, this`requests, this`joystickType, this`connected, this`device
      ensures requests == old(requests) + ([QueueRx(e.rxSize)] + ClaimInitRequests(jtype, dev, old(leds[..]))
                                           + [TimerStart(TIMER_PERIOD_US)])
      ensures InterfaceStarted(dev, jtype, old(connected), old(leds[..]), old(txbuf[..]))
    {
      requests := requests + [QueueRx(e.rxSize)];
      joystickType := jtype;
      ClaimInit(dev);
      ClearAxes();
      requests := requests + [TimerStart(TIMER_PERIOD_US)];
      device := Some(dev);
    }

    /** `memset(axis, 0, sizeof(axis))`. */
    method ClearAxes()
      requires Valid()
      modifies axis
      ensures axis[..] == seq(TOTAL_AXIS_COUNT, _ => 0)
    {
      forall k | 0 <= k < axis.Length {
        axis[k] := 0;
      }
    }

    /** The family-specific tail of `claim`: init transfers and `connected_`. */
    method ClaimInit(dev: Device)
      requires Valid()
      modifies leds, txbuf, this`requests, this`connected
      ensures requests == old(requests) + ClaimInitRequests(joystickType, dev, old(leds[..]))
      ensures connected == if joystickType == Xbox360 then 0
                           else if joystickType in {XboxOne, Xbox360Wired, XboxDuke} then 1
                           else old(connected)
      ensures joystickType == Xbox360Wired ==>
        leds[..] == [0, 0, 2] && txbuf[..] == Overwrite(old(txbuf[..]), 0, Xbox360WiredLeds(2))
      ensures joystickType != Xbox360Wired ==> leds[..] == old(leds[..]) && txbuf[..] == old(txbuf[..])
    {
      if joystickType == XboxOne {
        requests := requests + [QueueTx(XBOXONE_START_INPUT)];
        if dev.idVendor == 0x045e && (dev.idProduct == 0x02ea || dev.idProduct == 0x0b00) {
          requests := requests + [QueueTx(XBOXONE_S_INIT)];
        }
        if dev.idVendor == 0x0e6f {
          requests := requests + [QueueTx(XBOXONE_PDP_INIT1), QueueTx(XBOXONE_PDP_INIT2), QueueTx(XBOXONE_PDP_INIT3)];
        }
        connected := 1;
      } else if joystickType == Xbox360 {
        requests := requests + [QueueTx(XBOX360W_INQUIRE_PRESENT)];
        connected := 0;
      } else if joystickType == Xbox360Wired {
        connected := 1;
        ResetLedQuadrant(2);
      } else if joystickType == XboxDuke {
        connected := 1;
      }
    }

    // -------------------------------------------------------------------------
    // HID collections (claim_collection, hid_input_data, hid_input_end)
    // -------------------------------------------------------------------------

    /** `claim_collection`: a joystick, gamepad or multi-axis collection of
        the one device this controller serves, unless that device is already
        claimed at the interface level. */
    method ClaimCollection(dev: Device, topusage: nat) returns (r: HidClaim)
      modifies this`mydevice, this`collectionsClaimed, this`anychange, this`hidDriver, this`connected,
        this`joystickType, this`additionalAxisPage, this`additionalAxisStart, this`additionalAxisCount,
        this`axisChangeNotifyMask
      ensures r == ClaimReport <==>
        IsJoystickTopUsage(topusage) && (old(mydevice) == None || old(mydevice) == Some(dev)) && old(device) == None
      ensures r == ClaimNo ==>
        mydevice == old(mydevice) && collectionsClaimed == old(collectionsClaimed) && anychange == old(anychange)
        && hidDriver == old(hidDriver) && connected == old(connected) && joystickType == old(joystickType)
        && additionalAxisPage == old(additionalAxisPage) && additionalAxisStart == old(additionalAxisStart)
        && additionalAxisCount == old(additionalAxisCount) && axisChangeNotifyMask == old(axisChangeNotifyMask)
      ensures r == ClaimReport ==>
        && mydevice == Some(dev) && collectionsClaimed == (old(collectionsClaimed) + 1) % 256
        && anychange && hidDriver && connected == 1
        && joystickType == VidPidJoyType(dev.idVendor, dev.idProduct, false)
        && AxisWindow(additionalAxisPage, additionalAxisStart, additionalAxisCount, axisChangeNotifyMask)
           == AxisWindowFor(joystickType)
    {
      if !IsJoystickTopUsage(topusage) {
        return ClaimNo;
      }
      if mydevice != None && mydevice != Some(dev) {
        return ClaimNo;
      }
      if device != None {
        return ClaimNo;
      }
      mydevice := Some(dev);
      collectionsClaimed := (collectionsClaimed + 1) % 256;
      anychange := true;
      hidDriver := true;
      connected := 1;
      joystickType := MapVidPidToJoystickType(dev.idVendor, dev.idProduct, false);
      SetAxisWindow();
      return ClaimReport;
    }

    /** The extended axis window and notify mask of the family just found. */
    method SetAxisWindow()
      modifies this`additionalAxisPage, this`additionalAxisStart, this`additionalAxisCount, this`axisChangeNotifyMask
      ensures AxisWindow(additionalAxisPage, additionalAxisStart, additionalAxisCount, axisChangeNotifyMask)
              == AxisWindowFor(joystickType)
    {
      var w := AxisWindowFor(joystickType);
      additionalAxisPage := w.page;
      additionalAxisStart := w.start;
      additionalAxisCount := w.count;
      axisChangeNotifyMask := w.notify;
    }

    /** The compare-and-store of one HID axis value: the axis is always marked
        as present, and a new value is stored, marked as changed and, when
        some changed axis is one to notify about, reported. */
    method StoreHidAxis(i: nat, value: int)
      requires Valid() && i < TOTAL_AXIS_COUNT
      modifies axis, this`axisMask, this`axisChangedMask, this`anychange
      ensures HidAxisStored(i, value, old(axis[..]), old(axisMask), old(axisChangedMask), old(anychange))
    {
      if axis[i] != value {
        axis[i] := value;
        axisChangedMask := axisChangedMask + {i};
        if axisChangedMask * axisChangeNotifyMask != {} {
          anychange := true;
        }
      }
      axisMask := axisMask + {i};
    }

    /** The state one HID axis value leaves: axis i marked present and
        holding the value; when the value is new, axis i marked as changed
        and `anychange` raised if some changed axis is one to notify about;
        otherwise the changed mask and `anychange` as they were. */
    ghost predicate HidAxisStored(i: nat, value: int, axis0: seq<int>, mask0: Mask, changed0: Mask, anychange0: bool)
      requires Valid() && i < |axis0| == TOTAL_AXIS_COUNT
      reads this, axis
    {
      && axisMask == mask0 + {i} && axis[..] == axis0[i := value]
      && axisChangedMask == (if axis0[i] != value then changed0 + {i} else changed0)
      && anychange == (anychange0 || (axis0[i] != value && axisChangedMask * axisChangeNotifyMask != {}))
    }

    /** The state one HID button value leaves: bit `bit` follows `pressed`,
        and `anychange` is raised only when the bit flipped. */
    ghost predicate ButtonStored(bit: bv5, pressed: bool, buttons0: bv32, anychange0: bool)
      reads this
    {
      buttons == ButtonsAfter(buttons0, bit, pressed) && anychange == (anychange0 || ButtonSet(buttons0, bit) != pressed)
    }

    /** The button half of `hid_input_data`: bit `bit` follows the value, and
        only a flip counts as a change. */
    method StoreButton(bit: bv5, pressed: bool)
      modifies this`buttons, this`anychange
      ensures ButtonStored(bit, pressed, old(buttons), old(anychange))
    {
      if !pressed {
        if ButtonSet(buttons, bit) {
          buttons := buttons & !BitOf(bit);
          anychange := true;
        } else {
          ClearNoop(buttons, bit);
        }
      } else {
        if !ButtonSet(buttons, bit) {
          buttons := buttons | BitOf(bit);
          anychange := true;
        } else {
          SetNoop(buttons, bit);
        }
      }
    }

    /** `hid_input_data`: one (usage, value) pair from the HID parser. */
    method HidInputData(usage: nat, value: int)
      requires Valid() && usage < 0x1_0000_0000
      modifies axis, this`buttons, this`axisMask, this`axisChangedMask, this`anychange
      ensures var t := HidUsageTarget(usage, additionalAxisPage, additionalAxisStart, additionalAxisCount);
        match t
        case ButtonTarget(bit) =>
          && ButtonStored(bit, value != 0, old(buttons), old(anychange))
          && axis[..] == old(axis[..]) && axisMask == old(axisMask) && axisChangedMask == old(axisChangedMask)
        case StandardAxis(i) =>
          buttons == old(buttons)
          && HidAxisStored(i, value, old(axis[..]), old(axisMask), old(axisChangedMask), old(anychange))
        case ExtendedAxis(i) =>
          buttons == old(buttons)
          && HidAxisStored(i, value, old(axis[..]), old(axisMask), old(axisChangedMask), old(anychange))
        case Ignored =>
          && buttons == old(buttons) && axis[..] == old(axis[..]) && axisMask == old(axisMask)
          && axisChangedMask == old(axisChangedMask) && anychange == old(anychange)
    {
      var t := HidUsageTarget(usage, additionalAxisPage, additionalAxisStart, additionalAxisCount);
      match t {
        case ButtonTarget(b) =>
          StoreButton(b, value != 0);
        case StandardAxis(i) =>
          StoreHidAxis(i, value);
        case ExtendedAxis(i) =>
          StoreHidAxis(i, value);
        case Ignored =>
      }
    }

    /** `hid_input_end`: a report with a change raises the event. */
    method HidInputEnd()
      modifies this`joystickEvent
      ensures joystickEvent == (old(joystickEvent) || anychange)
    {
      if anychange {
        joystickEvent := true;
      }
    }

    /** The compare-and-store loop every raw decoder runs over its axes:
        the updates are applied in order and, when `markAny`, each store also
        sets `anychange` (the Duke decoder and the Bluetooth decoders do not). */
    method ApplyUpdates(us: seq<AxisUpdate>, markAny: bool)
      requires Valid() && InRange(us, TOTAL_AXIS_COUNT)
      modifies axis, this`axisChangedMask, this`anychange
      ensures AxisState(axis[..], axisChangedMask) == ApplyAll(AxisState(old(axis[..]), old(axisChangedMask)), us)
      ensures anychange == (old(anychange) || (markAny && Stores(AxisState(old(axis[..]), old(axisChangedMask)), us)))
    {
      ghost var s0 := AxisState(axis[..], axisChangedMask);
      var i := 0;
      while i < |us|
        invariant 0 <= i <= |us|
        invariant InRange(us[..i], TOTAL_AXIS_COUNT)
        invariant AxisState(axis[..], axisChangedMask) == ApplyAll(s0, us[..i])
        invariant anychange == (old(anychange) || (markAny && Stores(s0, us[..i])))
      {
        ApplyAllStep(s0, us, i);
        StoresStep(s0, us, i);
        var u := us[i];
        if axis[u.index] != u.value {
          axis[u.index] := u.value;
          axisChangedMask := axisChangedMask + u.bits;
          if markAny {
            anychange := true;
          }
        }
        i := i + 1;
      }
      assert us[..|us|] == us;
    }

    // -------------------------------------------------------------------------
    // Raw reports of the Xbox families (rx_data)
    // -------------------------------------------------------------------------

    /** `rx_data`: decode the report for the claimed family, then always queue
        the next receive transfer. `raw` is the whole `rxbuf_`, `length` the
        number of bytes received. */
    method RxData(raw: seq<byte>, length: nat, chatpadLeds: seq<seq<byte>>)
      requires Valid() && |raw| == RX_BUFFER_SIZE
      modifies axis, leds, txbuf, this`buttons, this`axisMask, this`axisChangedMask, this`anychange,
        this`joystickEvent, this`connected, this`requests, this`rumbleL, this`rumbleR, this`rumbleTimeout
      ensures |requests| > 0 && requests[|requests| - 1] == QueueRx(rxSize)
      ensures RxFamilyEffect(joystickType, raw, length, rxEp, Link(hidDriver, btDriver, true), chatpadLeds,
                             old(RxNow()), RxNow().(requests := requests[..|requests| - 1]))
    {
      RxFamily(raw, length, chatpadLeds);
      ghost var s1 := RxNow();
      requests := requests + [QueueRx(rxSize)];
      assert requests[..|requests| - 1] == s1.requests;
      assert RxNow().(requests := requests[..|requests| - 1]) == s1;
    }

    /** The state `rx_data` reads and changes. */
    ghost function RxNow(): (s: RxState)
      requires Valid()
      reads this, axis, leds, txbuf
      ensures RxShaped(s)
    {
      RxState(buttons, axis[..], axisMask, axisChangedMask, anychange, joystickEvent, connected, leds[..], txbuf[..],
              requests, rumbleL, rumbleR, rumbleTimeout)
    }

    /** The family dispatch of `rx_data`. */
    method RxFamily(raw: seq<byte>, length: nat, chatpadLeds: seq<seq<byte>>)
      requires Valid() && |raw| == RX_BUFFER_SIZE
      modifies axis, leds, txbuf, this`buttons, this`axisMask, this`axisChangedMask, this`anychange,
        this`joystickEvent, this`connected, this`requests, this`rumbleL, this`rumbleR, this`rumbleTimeout
      ensures RxFamilyEffect(joystickType, raw, length, rxEp, Link(hidDriver, btDriver, true), chatpadLeds,
                             old(RxNow()), RxNow())
    {
      match joystickType {
        case XboxOne => RxXboxOne(raw, length);
        case Xbox360 => RxXbox360(raw, chatpadLeds);
        case Xbox360Wired => RxXbox360Wired(raw);
        case XboxDuke => RxXboxDuke(raw);
        case _ =>
      }
    }

    /** The XBOXONE branch: every packet resets the masks; an input report
        (type 0x20, complete) stores buttons and axes and raises the event. */
    method RxXboxOne(raw: seq<byte>, length: nat)
      requires Valid() && |raw| == RX_BUFFER_SIZE
      modifies axis, this`buttons, this`axisMask, this`axisChangedMask, this`anychange, this`joystickEvent
      ensures XboxOneEffect(raw, length, old(RxNow()), RxNow())
    {
      axisMask := LowBits(6);
      axisChangedMask := {};
      if raw[0] == 0x20 && length >= XBOXONE_REPORT_SIZE {
        StoreXboxOneReport(raw);
      }
    }

    /** The input report of the XBOXONE branch, once the masks are reset:
        buttons (a change raises the event), the six axes, then the event. */
    method StoreXboxOneReport(raw: seq<byte>)
      requires Valid() && |raw| == RX_BUFFER_SIZE && axisMask == LowBits(6) && axisChangedMask == {}
      modifies axis, this`buttons, this`axisChangedMask, this`anychange, this`joystickEvent
      ensures InputStored(old(RxNow()), RxNow(), XboxOneButtons(raw), XboxOneUpdates(raw)) && joystickEvent
    {
      if XboxOneButtons(raw) != buttons {
        buttons := XboxOneButtons(raw);
        anychange := true;
        joystickEvent := true;
      }
      ghost var s0 := AxisState(axis[..], {});
      var us := XboxOneUpdates(raw);
      ApplyUpdates(us, true);
      StoresIffMarked(s0, us);
      joystickEvent := true;
    }

    /** The input-report half shared by the XBOX360 receiver and the wired
        controller: buttons, then the six axes, then the event if anything
        has changed since the application last looked. */
    method StoreXbox360Report(newButtons: bv32, us: seq<AxisUpdate>)
      requires Valid() && InRange(us, TOTAL_AXIS_COUNT) && SelfMarked(us)
      modifies axis, this`buttons, this`axisMask, this`axisChangedMask, this`anychange, this`joystickEvent
      ensures InputStored(old(RxNow()), RxNow(), newButtons, us) && joystickEvent == (old(joystickEvent) || anychange)
    {
      if buttons != newButtons {
        buttons := newButtons;
        anychange := true;
      }
      axisMask := LowBits(6);
      axisChangedMask := {};
      ghost var s0 := AxisState(axis[..], {});
      ApplyUpdates(us, true);
      StoresIffMarked(s0, us);
      if anychange {
        joystickEvent := true;
      }
    }

    /** A connect or disconnect packet of the XBOX360 receiver: a new id is
        remembered in `connected_`; a controller that came gets the LED
        pattern of its endpoint (2 + endpoint / 2), one that went gets none. */
    method Xbox360Connection(id: byte)
      requires Valid() && joystickType == Xbox360
      modifies leds, txbuf, this`connected, this`requests
      ensures Xbox360ConnectionEffect(id, rxEp, Link(hidDriver, btDriver, true), old(RxNow()), RxNow())
    {
      if id != connected {
        connected := id;
        if connected != 0 {
          ResetLedQuadrant(2 + (rxEp % 16) / 2);
        } else {
          var _ := SetLeds(0, 0, 0, true);
        }
      }
    }

    /** The XBOX360 receiver branch of `rx_data`. The commands the chatpad
        LED reconciliation queues depend on LED state the model does not
        keep; they are given as `chatpadLeds`. */
    method RxXbox360(raw: seq<byte>, chatpadLeds: seq<seq<byte>>)
      requires Valid() && joystickType == Xbox360 && |raw| == RX_BUFFER_SIZE
      modifies axis, leds, txbuf, this`buttons, this`axisMask, this`axisChangedMask, this`anychange,
        this`joystickEvent, this`connected, this`requests
      ensures Xbox360Effect(raw, rxEp, Link(hidDriver, btDriver, true), chatpadLeds, old(RxNow()), RxNow())
    {
      if raw[0] == 0x08 && raw[3] == 0xF0 {
        Xbox360Connection(raw[1]);
      } else if raw[1] == 0x00 && AnyOfBits0x13(raw[3]) && raw[4] >= 0x22 {
      } else if raw[1] == 0x00 && raw[3] == 0xF0 {
      } else if raw[1] == 0x0F && raw[3] == 0xF0 {
      } else if raw[1] == 0xF8 {
        requests := requests + [QueueTx(XBOX360W_CHATPAD_INIT)];
      } else if LowBit0(raw[1]) || LowBit1(raw[1]) {
        RxXbox360Input(raw, chatpadLeds);
      }
    }

    /** An input report of the XBOX360 receiver: controller data, then the
        chatpad init request, then the chatpad LED status. */
    method RxXbox360Input(raw: seq<byte>, chatpadLeds: seq<seq<byte>>)
      requires Valid() && |raw| == RX_BUFFER_SIZE
      modifies axis, this`buttons, this`axisMask, this`axisChangedMask, this`anychange, this`joystickEvent,
        this`requests
      ensures Xbox360InputEffect(raw, chatpadLeds, old(RxNow()), RxNow())
    {
      ghost var s0 := RxNow();
      if LowBit0(raw[1]) && raw[5] == 0x13 {
        StoreXbox360Report(Xbox360Buttons(raw), Xbox360Updates(raw));
      }
      ghost var s1 := RxNow();
      assert if Xbox360HasControllerData(raw) then
          InputStored(s0, s1, Xbox360Buttons(raw), Xbox360Updates(raw)) && s1.event == (s0.event || s1.anychange)
        else KeepsInput(s0, s1);
      QueueChatpadRequests(raw, chatpadLeds);
      assert RxNow() == s1.(requests := requests);
    }

    /** The chatpad half of an input report: the init command on an init
        request, the reconciliation commands on an LED status. */
    method QueueChatpadRequests(raw: seq<byte>, chatpadLeds: seq<seq<byte>>)
      requires |raw| == RX_BUFFER_SIZE
      modifies this`requests
      ensures requests == old(requests) + (if Xbox360ChatpadInitNeeded(raw) then [QueueTx(XBOX360W_CHATPAD_INIT)] else [])
                                        + (if Xbox360ChatpadLedStatus(raw) then QueueAll(chatpadLeds) else [])
    {
      if LowBit1(raw[1]) && raw[24] == 0xF0 && raw[25] == 0x03 {
        requests := requests + [QueueTx(XBOX360W_CHATPAD_INIT)];
      }
      if LowBit1(raw[1]) && raw[24] == 0xF0 && raw[25] == 0x04 && raw[26] >= 0x80 {
        requests := requests + QueueAll(chatpadLeds);
      }
    }

    /** The wired XBOX360 branch: a rumble status report stops the rumble, an
        LED status of 0x0E (no valid LED) selects the first quadrant, the 00 14
        report carries the input. */
    method RxXbox360Wired(raw: seq<byte>)
      requires Valid() && joystickType == Xbox360Wired && |raw| == RX_BUFFER_SIZE
      modifies axis, leds, txbuf, this`buttons, this`axisMask, this`axisChangedMask, this`anychange,
        this`joystickEvent, this`requests, this`rumbleL, this`rumbleR, this`rumbleTimeout
      ensures Xbox360WiredEffect(raw, old(RxNow()), RxNow())
    {
      if raw[0] == 0x03 && raw[1] == 0x03 {
        StopWiredRumble();
      } else if raw[0] == 0x01 && raw[1] == 0x03 {
        if raw[2] == 0x0E {
          ResetWiredLeds();
        }
      } else if raw[0] == 0x00 && raw[1] == 0x14 {
        StoreXbox360Report(Xbox360WiredButtons(raw), Xbox360WiredUpdates(raw));
      }
    }

    /** The wired rumble status report: `setRumble(0, 0, 0)`. */
    method StopWiredRumble()
      requires Valid() && joystickType == Xbox360Wired
      modifies txbuf, this`requests, this`rumbleL, this`rumbleR, this`rumbleTimeout
      ensures RxNow() == old(RxNow()).(rumbleL := 0, rumbleR := 0, rumbleTimeout := 0,
                                      txbuf := Overwrite(old(txbuf[..]), 0, Xbox360WiredRumble(0, 0)),
                                      requests := old(requests) + [QueueTx(Xbox360WiredRumble(0, 0))])
    {
      ghost var s0 := RxNow();
      var _ := SetRumble(0, 0, 0, true);
      assert RxNow() == s0.(rumbleL := 0, rumbleR := 0, rumbleTimeout := 0,
                            txbuf := Overwrite(s0.txbuf, 0, Xbox360WiredRumble(0, 0)),
                            requests := s0.requests + [QueueTx(Xbox360WiredRumble(0, 0))]);
    }

    /** The wired LED status 0x0E (no valid LED): `setLEDs(0); setLEDs(2)`. */
    method ResetWiredLeds()
      requires Valid() && joystickType == Xbox360Wired
      modifies leds, txbuf, this`requests
      ensures RxNow() == old(RxNow()).(leds := [0, 0, 2], txbuf := Overwrite(old(txbuf[..]), 0, Xbox360WiredLeds(2)),
                                      requests := old(requests) + LedResetRequests(Xbox360Wired, 0, old(leds[..]), 2))
    {
      ghost var s0 := RxNow();
      ResetLedQuadrant(2);
      assert RxNow() == s0.(leds := [0, 0, 2], txbuf := Overwrite(s0.txbuf, 0, Xbox360WiredLeds(2)),
                            requests := s0.requests + LedResetRequests(Xbox360Wired, 0, s0.leds, 2));
    }

    /** The original Xbox branch: the 00 14 report stores the digital buttons
        and twelve axes (the mask still says six); its compare loop does not
        set `anychange`, the changed mask does afterwards. */
    method RxXboxDuke(raw: seq<byte>)
      requires Valid() && |raw| == RX_BUFFER_SIZE
      modifies axis, this`buttons, this`axisMask, this`axisChangedMask, this`anychange, this`joystickEvent
      ensures XboxDukeEffect(raw, old(RxNow()), RxNow())
    {
      if raw[0] == 0x00 && raw[1] == 0x14 {
        StoreDukeReport(raw);
      }
    }

    /** The 00 14 report of the original Xbox: buttons, the twelve axes
        without `anychange`, then `anychange` from the changed mask, then the event. */
    method StoreDukeReport(raw: seq<byte>)
      requires Valid() && |raw| == RX_BUFFER_SIZE
      modifies axis, this`buttons, this`axisMask, this`axisChangedMask, this`anychange, this`joystickEvent
      ensures InputStored(old(RxNow()), RxNow(), raw[2] as bv32, XboxDukeUpdates(raw))
      ensures joystickEvent == (old(joystickEvent) || anychange)
    {
      if buttons != raw[2] as bv32 {
        buttons := raw[2] as bv32;
        anychange := true;
      }
      axisMask := LowBits(6);
      axisChangedMask := {};
      ApplyUpdates(XboxDukeUpdates(raw), false);
      if axisChangedMask != {} {
        anychange := true;
      }
      if anychange {
        joystickEvent := true;
      }
    }

    // -------------------------------------------------------------------------
    // Bluetooth reports (process_bluetooth_HID_data)
    // -------------------------------------------------------------------------

    /** `process_bluetooth_HID_data`: report 0x01 (answered true) or the
        PS4's report 0x11 (answered false, as is anything else). The source
        reads bytes without checking `length`; those reads are preconditions. */
    method ProcessBluetoothHidData(data: seq<byte>) returns (ok: bool)
      requires Valid() && 1 <= |data| < 0x1_0000
      requires data[0] == 0x01 ==> |data| >= BtReport01MinLength(joystickType)
      requires data[0] == 0x11 ==> |data| >= PS4_BT_REPORT_SIZE
      modifies axis, this`buttons, this`axisMask, this`axisChangedMask, this`anychange, this`joystickEvent,
        this`connected
      ensures anychange == old(anychange)
      ensures ok <==> data[0] == 0x01
      ensures data[0] == 0x01 ==> Report01Effect(data, old(buttons), old(axis[..]), old(axisChangedMask), old(joystickEvent))
      ensures data[0] == 0x11 ==> Report11Effect(data, old(axis[..]))
      ensures data[0] != 0x01 && data[0] != 0x11 ==>
        buttons == old(buttons) && axis[..] == old(axis[..]) && axisMask == old(axisMask)
        && axisChangedMask == old(axisChangedMask) && joystickEvent == old(joystickEvent) && connected == old(connected)
    {
      if data[0] == 0x01 {
        BtReport01(data);
        return true;
      } else if data[0] == 0x11 {
        BtReport11(data);
      }
      return false;
    }

    /** The state report 0x01 leaves: the family's buttons (an event if they
        changed), its axis updates added to the changed mask that is not
        cleared first, its axis mask, an event if a changed axis is one to
        notify about, and the link marked connected. */
    ghost predicate Report01Effect(data: seq<byte>, buttons0: bv32, axis0: seq<int>, changed0: Mask, event0: bool)
      requires |data| >= BtReport01MinLength(joystickType) && |axis0| == TOTAL_AXIS_COUNT
      reads this, axis
    {
      var b := BtReport01Buttons(joystickType, data);
      && buttons == (if b.Some? then b.value else buttons0)
      && AxisState(axis[..], axisChangedMask)
         == ApplyAll(AxisState(axis0, changed0), BtReport01Updates(joystickType, data))
      && axisMask == BtReport01AxisMask(joystickType, ClampLength(|data|))
      && joystickEvent == (event0 || (b.Some? && b.value != buttons0) || axisChangedMask * axisChangeNotifyMask != {})
      && connected == 1
    }

    /** The state report 0x11 leaves: the repacked buttons, the 64 axis
        updates on a cleared changed mask, the fixed axis mask, an event and
        the link marked connected. */
    ghost predicate Report11Effect(data: seq<byte>, axis0: seq<int>)
      requires |data| >= PS4_BT_REPORT_SIZE && |axis0| == TOTAL_AXIS_COUNT
      reads this, axis
    {
      var t := Ps4BtRepack(data);
      && buttons == Ps4BtButtons(t)
      && AxisState(axis[..], axisChangedMask) == ApplyAll(AxisState(axis0, {}), Ps4BtUpdates(t))
      && axisMask == PS4_BT_AXIS_MASK && joystickEvent && connected == 1
    }

    /** Report 0x01: the buttons of the PS3 and Motion layouts, the family's
        axis mask and compare-and-store loop, the notify test. */
    method BtReport01(data: seq<byte>)
      requires Valid() && |data| >= BtReport01MinLength(joystickType)
      modifies axis, this`buttons, this`axisMask, this`axisChangedMask, this`anychange, this`joystickEvent,
        this`connected
      ensures anychange == old(anychange)
      ensures Report01Effect(data, old(buttons), old(axis[..]), old(axisChangedMask), old(joystickEvent))
    {
      StoreBtButtons(BtReport01Buttons(joystickType, data));
      StoreBtAxes(BtReport01AxisMask(joystickType, ClampLength(|data|)), BtReport01Updates(joystickType, data));
    }

    /** The axis half of report 0x01: the axis mask, the compare-and-stores on
        the changed mask as it was, the notify test and the link marked connected. */
    method StoreBtAxes(mask: Mask, us: seq<AxisUpdate>)
      requires Valid() && InRange(us, TOTAL_AXIS_COUNT)
      modifies axis, this`axisMask, this`axisChangedMask, this`anychange, this`joystickEvent, this`connected
      ensures anychange == old(anychange) && axisMask == mask && connected == 1
      ensures AxisState(axis[..], axisChangedMask) == ApplyAll(AxisState(old(axis[..]), old(axisChangedMask)), us)
      ensures joystickEvent == (old(joystickEvent) || axisChangedMask * axisChangeNotifyMask != {})
    {
      axisMask := mask;
      ApplyUpdates(us, false);
      if axisChangedMask * axisChangeNotifyMask != {} {
        joystickEvent := true;
      }
      connected := 1;
    }

    /** The button half of report 0x01: a family with a button layout stores
        its buttons and raises the event when they changed. */
    method StoreBtButtons(b: Option<bv32>)
      modifies this`buttons, this`joystickEvent
      ensures buttons == if b.Some? then b.value else old(buttons)
      ensures joystickEvent == (old(joystickEvent) || (b.Some? && b.value != old(buttons)))
    {
      if b.Some? && b.value != buttons {
        buttons := b.value;
        joystickEvent := true;
      }
    }

    /** Report 0x11: both masks cleared, the report repacked, then buttons and all 64 axes. */
    method BtReport11(data: seq<byte>)
      requires Valid() && |data| >= PS4_BT_REPORT_SIZE
      modifies axis, this`buttons, this`axisMask, this`axisChangedMask, this`anychange, this`joystickEvent,
        this`connected
      ensures anychange == old(anychange)
      ensures Report11Effect(data, old(axis[..]))
    {
      axisMask := {};
      axisChangedMask := {};
      var t := Ps4BtRepack(data);
      StorePs4Report(t);
    }

    /** The second half of report 0x11, on the repacked bytes `t`: buttons,
        the fixed axis mask, the 64 compare-and-stores, the event and the link. */
    method StorePs4Report(t: seq<byte>)
      requires Valid() && |t| >= TOTAL_AXIS_COUNT
      modifies axis, this`buttons, this`axisMask, this`axisChangedMask, this`anychange, this`joystickEvent,
        this`connected
      ensures anychange == old(anychange)
      ensures buttons == Ps4BtButtons(t) && axisMask == PS4_BT_AXIS_MASK && joystickEvent && connected == 1
      ensures AxisState(axis[..], axisChangedMask) == ApplyAll(AxisState(old(axis[..]), old(axisChangedMask)), Ps4BtUpdates(t))
    {
      StoreBtButtons(Some(Ps4BtButtons(t)));
      axisMask := PS4_BT_AXIS_MASK;
      ApplyUpdates(Ps4BtUpdates(t), false);
      joystickEvent := true;
      connected := 1;
    }

    // -------------------------------------------------------------------------
    // Bluetooth identification (claim_bluetooth, mapNameToJoystickType, remoteNameComplete)
    // -------------------------------------------------------------------------

    /** `mapNameToJoystickType`: the first prefix the remote name starts with
        picks the family; any other name keeps it. The answer is always true. */
    method MapNameToJoystickType(name: seq<char>) returns (ok: bool)
      modifies this`joystickType
      ensures joystickType == NameJoyType(name, old(joystickType)) && ok
    {
      if HasPrefix(name, "Wireless Controller") {
        joystickType := PS4;
      } else if HasPrefix(name, "PLAYSTATION(R)3") {
        joystickType := PS3;
      } else if HasPrefix(name, "Navigation Controller") {
        joystickType := PS3;
      } else if HasPrefix(name, "Motion Controller") {
        joystickType := PS3Motion;
      } else if HasPrefix(name, "Xbox Wireless") {
        joystickType := XboxOne;
      }
      return true;
    }

    /** `claim_bluetooth`: a gamepad class of device is taken, and its name,
        if known, picks the family; otherwise a name that maps to a PS3 or
        Motion controller is taken with the PS3 ids. A name is mapped even
        when the device is then refused. */
    method ClaimBluetooth(bluetoothClass: bv32, name: Option<seq<char>>) returns (ok: bool)
      modifies this`btDriver, this`btDevice, this`joystickType, this`specialProcess
      ensures joystickType == if name.Some? then NameJoyType(name.value, old(joystickType)) else old(joystickType)
      ensures ok <==> IsGamepadClass(bluetoothClass) || (name.Some? && joystickType in {PS3, PS3Motion})
      ensures ok ==> btDriver && btDevice
      ensures specialProcess == if !IsGamepadClass(bluetoothClass) && ok then SpPs3Ids else old(specialProcess)
      ensures !ok ==> btDriver == old(btDriver) && btDevice == old(btDevice)
    {
      if IsGamepadClass(bluetoothClass) {
        btDriver := true;
        btDevice := true;
        if name.Some? {
          var _ := MapNameToJoystickType(name.value);
        }
        return true;
      }
      if name.Some? {
        var mapped := MapNameToJoystickType(name.value);
        if mapped && (joystickType == PS3 || joystickType == PS3Motion) {
          btDriver := true;
          btDevice := true;
          specialProcess := SpPs3Ids;
          return true;
        }
      }
      return false;
    }

    /** `remoteNameComplete`: the name picks the family, and the PlayStation
        families get the special handling they need. The answer is always true. */
    method RemoteNameComplete(name: seq<char>) returns (ok: bool)
      modifies this`joystickType, this`specialProcess
      ensures joystickType == NameJoyType(name, old(joystickType))
      ensures specialProcess == SpecialProcessFor(joystickType, old(specialProcess))
      ensures ok
    {
      var mapped := MapNameToJoystickType(name);
      if mapped {
        match joystickType {
          case PS4 => specialProcess := SpNeedConnect;
          case PS3 => specialProcess := SpPs3Ids;
          case PS3Motion => specialProcess := SpPs3Ids;
          case _ =>
        }
      }
      return true;
    }

    // -------------------------------------------------------------------------
    // Output commands (setRumble, setLEDs, sendRaw, the feedback transmitters, PS3Pair)
    // -------------------------------------------------------------------------

    /** `memcpy(&txbuf_[at], p, |p|)`. */
    method WriteTx(at: nat, p: seq<byte>)
      requires Valid() && at + |p| <= TX_BUFFER_SIZE
      modifies txbuf
      ensures txbuf[..] == Overwrite(old(txbuf[..]), at, p)
    {
      var i := 0;
      while i < |p|
        invariant 0 <= i <= |p|
        invariant forall k :: 0 <= k < txbuf.Length ==>
          txbuf[k] == if at <= k < at + i then p[k - at] else old(txbuf[k])
      {
        txbuf[at + i] := p[i];
        i := i + 1;
      }
      assert txbuf[..] == Overwrite(old(txbuf[..]), at, p) by {
        OverwriteReads(old(txbuf[..]), at, p);
        forall k | 0 <= k < TX_BUFFER_SIZE
          ensures txbuf[k] == Overwrite(old(txbuf[..]), at, p)[k]
        {
          if at <= k < at + |p| {
            assert Overwrite(old(txbuf[..]), at, p)[at..at + |p|][k - at] == p[k - at];
          }
        }
      }
    }

    /** `transmitPS4UserFeedbackMsg`. */
    method TransmitPs4Feedback(accepted: bool) returns (ok: bool)
      requires Valid()
      modifies this`requests
      ensures var o := Ps4Transmit(txbuf[..], Link(hidDriver, btDriver, accepted), rumbleL, rumbleR, leds[..]);
        requests == old(requests) + o.sent && ok == o.ok
    {
      if hidDriver {
        requests := requests + [HidPacket(Ps4FeedbackUsb(rumbleL, rumbleR, leds[0], leds[1], leds[2]))];
        return accepted;
      } else if btDriver {
        requests := requests + [L2Cap(Ps4FeedbackBt(rumbleL, rumbleR, leds[0], leds[1], leds[2]), CONTROL_SCID)];
        return true;
      }
      return false;
    }

    /** The USB feedback report of `transmitPS3UserFeedbackMsg`, composed in
        `txbuf_`: the template, then the rumble and LED slots. */
    method ComposePs3Usb(l: byte, r: byte, timeout: byte, ledB: byte)
      requires Valid()
      modifies txbuf
      ensures txbuf[..] == Overwrite(old(txbuf[..]), 0, Ps3FeedbackUsb(l, r, timeout, ledB))
    {
      ghost var b0 := txbuf[..];
      WriteTx(0, PS3_FEEDBACK_INIT);
      ghost var p := PS3_FEEDBACK_INIT;
      txbuf[1] := RumbleDuration(l, timeout);
      OverwriteUpdate(b0, 0, p, 1, RumbleDuration(l, timeout));
      p := p[1 := RumbleDuration(l, timeout)];
      assert txbuf[..] == Overwrite(b0, 0, p);
      txbuf[2] := l;
      OverwriteUpdate(b0, 0, p, 2, l);
      p := p[2 := l];
      assert txbuf[..] == Overwrite(b0, 0, p);
      txbuf[3] := RumbleDuration(r, timeout);
      OverwriteUpdate(b0, 0, p, 3, RumbleDuration(r, timeout));
      p := p[3 := RumbleDuration(r, timeout)];
      assert txbuf[..] == Overwrite(b0, 0, p);
      txbuf[4] := r;
      OverwriteUpdate(b0, 0, p, 4, r);
      p := p[4 := r];
      assert txbuf[..] == Overwrite(b0, 0, p);
      txbuf[9] := (ledB as int * 2) % 256;
      OverwriteUpdate(b0, 0, p, 9, (ledB as int * 2) % 256);
      p := p[9 := (ledB as int * 2) % 256];
      assert txbuf[..] == Overwrite(b0, 0, p);
    }

    /** The Bluetooth form: the `52 01` header, then the template and slots two bytes on. */
    method ComposePs3Bt(l: byte, r: byte, timeout: byte, ledB: byte)
      requires Valid()
      modifies txbuf
      ensures txbuf[..] == Overwrite(old(txbuf[..]), 0, Ps3FeedbackBt(l, r, timeout, ledB))
    {
      ghost var b0 := txbuf[..];
      txbuf[0] := 0x52;
      txbuf[1] := 0x01;
      assert txbuf[..] == b0[0 := 0x52][1 := 0x01];
      WriteTx(2, PS3_FEEDBACK_INIT);
      OverwriteAfterTwo(b0, 0x52, 0x01, PS3_FEEDBACK_INIT);
      ghost var p := [0x52, 0x01] + PS3_FEEDBACK_INIT;
      assert txbuf[..] == Overwrite(b0, 0, p);
      txbuf[3] := RumbleDuration(l, timeout);
      OverwriteUpdate(b0, 0, p, 3, RumbleDuration(l, timeout));
      p := p[3 := RumbleDuration(l, timeout)];
      assert txbuf[..] == Overwrite(b0, 0, p);
      txbuf[4] := l;
      OverwriteUpdate(b0, 0, p, 4, l);
      p := p[4 := l];
      assert txbuf[..] == Overwrite(b0, 0, p);
      txbuf[5] := RumbleDuration(r, timeout);
      OverwriteUpdate(b0, 0, p, 5, RumbleDuration(r, timeout));
      p := p[5 := RumbleDuration(r, timeout)];
      assert txbuf[..] == Overwrite(b0, 0, p);
      txbuf[6] := r;
      OverwriteUpdate(b0, 0, p, 6, r);
      p := p[6 := r];
      assert txbuf[..] == Overwrite(b0, 0, p);
      txbuf[11] := (ledB as int * 2) % 256;
      OverwriteUpdate(b0, 0, p, 11, (ledB as int * 2) % 256);
      p := p[11 := (ledB as int * 2) % 256];
      assert txbuf[..] == Overwrite(b0, 0, p);
      Ps3FeedbackBtSlots(l, r, timeout, ledB);
      assert p == Ps3FeedbackBt(l, r, timeout, ledB);
    }

    /** `transmitPS3UserFeedbackMsg`. */
    method TransmitPs3Feedback(accepted: bool) returns (ok: bool)
      requires Valid()
      modifies txbuf, this`requests
      ensures var o := Ps3Transmit(old(txbuf[..]), Link(hidDriver, btDriver, accepted), rumbleL, rumbleR, rumbleTimeout, leds[..]);
        txbuf[..] == o.buf && requests == old(requests) + o.sent && ok == o.ok
    {
      if hidDriver {
        ComposePs3Usb(rumbleL, rumbleR, rumbleTimeout, leds[2]);
        requests := requests + [HidControl(0x21, 9, 0x201, 0, txbuf[..48])];
        return accepted;
      } else if btDriver {
        ComposePs3Bt(rumbleL, rumbleR, rumbleTimeout, leds[2]);
        requests := requests + [L2Cap(txbuf[..50], CONTROL_SCID)];
        return true;
      }
      return false;
    }

    /** `transmitPS3MotionUserFeedbackMsg`. */
    method TransmitPs3MotionFeedback(accepted: bool) returns (ok: bool)
      requires Valid()
      modifies txbuf, this`requests
      ensures var o := MotionTransmit(old(txbuf[..]), Link(hidDriver, btDriver, accepted), rumbleL, leds[..]);
        txbuf[..] == o.buf && requests == old(requests) + o.sent && ok == o.ok
    {
      if hidDriver {
        txbuf[0] := 0x02;
        txbuf[2] := leds[0];
        txbuf[3] := leds[1];
        txbuf[4] := leds[2];
        txbuf[6] := rumbleL;
        requests := requests + [HidPacket(txbuf[..7])];
        return accepted;
      } else if btDriver {
        txbuf[0] := 0xA2;
        txbuf[1] := 0x02;
        txbuf[3] := leds[0];
        txbuf[4] := leds[1];
        txbuf[5] := leds[2];
        txbuf[7] := rumbleL;
        requests := requests + [L2Cap(txbuf[..50], INTERRUPT_SCID)];
        return true;
      }
      return false;
    }

    /** Queue the command `p` written at the start of `txbuf_`. */
    method QueueTxCommand(p: seq<byte>)
      requires Valid() && |p| <= TX_BUFFER_SIZE
      modifies txbuf, this`requests
      ensures txbuf[..] == Overwrite(old(txbuf[..]), 0, p)
      ensures requests == old(requests) + [QueueTx(p)]
    {
      WriteTx(0, p);
      OverwriteReads(old(txbuf[..]), 0, p);
      requests := requests + [QueueTx(txbuf[..|p|])];
    }

    /** `setRumble`: the three values are stored, then the family's command is sent. */
    method SetRumble(l: byte, r: byte, timeout: byte, accepted: bool) returns (ok: bool)
      requires Valid()
      modifies txbuf, this`requests, this`rumbleL, this`rumbleR, this`rumbleTimeout
      ensures rumbleL == l && rumbleR == r && rumbleTimeout == timeout
      ensures var o := RumbleOutcome(joystickType, old(txbuf[..]), Link(hidDriver, btDriver, accepted), l, r, timeout, leds[..]);
        txbuf[..] == o.buf && requests == old(requests) + o.sent && ok == o.ok
    {
      rumbleL := l;
      rumbleR := r;
      rumbleTimeout := timeout;
      if IsPlayStation(joystickType) {
        ok := TransmitFeedback(accepted);
      } else {
        match XboxRumbleCommand(joystickType, l, r) {
          case Some(p) =>
            QueueTxCommand(p);
            ok := true;
          case None => ok := false;
        }
      }
    }

    /** The feedback report of a PlayStation family, with the stored rumble and LED values. */
    method TransmitFeedback(accepted: bool) returns (ok: bool)
      requires Valid() && IsPlayStation(joystickType)
      modifies txbuf, this`requests
      ensures var o := PsTransmit(joystickType, old(txbuf[..]), Link(hidDriver, btDriver, accepted),
                                  rumbleL, rumbleR, rumbleTimeout, leds[..]);
        txbuf[..] == o.buf && requests == old(requests) + o.sent && ok == o.ok
    {
      match joystickType {
        case PS3 => ok := TransmitPs3Feedback(accepted);
        case PS3Motion => ok := TransmitPs3MotionFeedback(accepted);
        case PS4 => ok := TransmitPs4Feedback(accepted);
      }
    }

    /** The XBOX360 LED command of `setLEDs`: bytes 1..11 of `txbuf_` are
        written and its first 12 queued, so byte 0 goes out as it was. */
    method QueueXbox360Leds(lb: byte)
      requires Valid()
      modifies txbuf, this`requests
      ensures txbuf[..] == Overwrite(old(txbuf[..]), 0, Xbox360Leds(old(txbuf[0]), lb))
      ensures requests == old(requests) + [QueueTx(Xbox360Leds(old(txbuf[0]), lb))]
    {
      var p := Xbox360Leds(txbuf[0], lb);
      WriteTx(1, p[1..]);
      OverwriteSkipFirst(old(txbuf[..]), p);
      OverwriteReads(old(txbuf[..]), 0, p);
      requests := requests + [QueueTx(txbuf[..12])];
    }

    /** `setLEDs(lr, lg, lb)`: only new values are stored and sent. */
    method SetLeds(lr: byte, lg: byte, lb: byte, accepted: bool) returns (ok: bool)
      requires Valid()
      modifies leds, txbuf, this`requests
      ensures leds[..] == [lr, lg, lb]
      ensures var o := LedsOutcome(joystickType, old(txbuf[..]), Link(hidDriver, btDriver, accepted),
                                   rumbleL, rumbleR, rumbleTimeout, old(leds[..]), [lr, lg, lb]);
        txbuf[..] == o.buf && requests == old(requests) + o.sent && ok == o.ok
    {
      if leds[0] != lr || leds[1] != lg || leds[2] != lb {
        leds[0] := lr;
        leds[1] := lg;
        leds[2] := lb;
        ok := SendLeds(accepted);
      } else {
        assert old(leds[..]) == [lr, lg, lb];
        ok := false;
      }
    }

    /** The transfer of `setLEDs` for the LED values just stored. */
    method SendLeds(accepted: bool) returns (ok: bool)
      requires Valid()
      modifies txbuf, this`requests
      ensures var o := LedsSent(joystickType, old(txbuf[..]), Link(hidDriver, btDriver, accepted),
                                rumbleL, rumbleR, rumbleTimeout, leds[..]);
        txbuf[..] == o.buf && requests == old(requests) + o.sent && ok == o.ok
    {
      if IsPlayStation(joystickType) {
        ok := TransmitFeedback(accepted);
      } else if joystickType == Xbox360 {
        QueueXbox360Leds(leds[2]);
        ok := true;
      } else if joystickType == Xbox360Wired {
        QueueTxCommand(Xbox360WiredLeds(leds[2]));
        ok := true;
      } else {
        ok := false;
      }
    }

    /** `setLEDs(0); setLEDs(q)` on an Xbox 360 receiver or wired controller.
        The Xbox paths do not look at the transport's answer. */
    method ResetLedQuadrant(q: byte)
      requires Valid() && q != 0 && (joystickType == Xbox360 || joystickType == Xbox360Wired)
      modifies leds, txbuf, this`requests
      ensures leds[..] == [0, 0, q]
      ensures txbuf[..] == Overwrite(old(txbuf[..]), 0, LedCommand(joystickType, old(txbuf[0]), q))
      ensures requests == old(requests) + LedResetRequests(joystickType, old(txbuf[0]), old(leds[..]), q)
    {
      ghost var b0 := txbuf[..];
      ghost var l0 := leds[..];
      LedsOffThenOn(joystickType, b0, Link(hidDriver, btDriver, true), rumbleL, rumbleR, rumbleTimeout, l0, q);
      var _ := SetLeds(0, 0, 0, true);
      var _ := SetLeds(0, 0, q, true);
    }

    /** `sendRaw`: the bytes are queued as given; they are also copied into
        `txbuf_` when they fit. */
    method SendRaw(data: seq<byte>, accepted: bool) returns (ok: bool)
      requires Valid() && |data| < 256
      modifies txbuf, this`requests
      ensures txbuf[..] == if |data| < TX_BUFFER_SIZE then Overwrite(old(txbuf[..]), 0, data) else old(txbuf[..])
      ensures requests == old(requests) + [QueueTx(data)] && ok == accepted
    {
      if |data| < TX_BUFFER_SIZE {
        WriteTx(0, data);
      }
      requests := requests + [QueueTx(data)];
      return accepted;
    }

    /** `PS3Pair`: tell a USB-attached PS3 or Motion controller the host's Bluetooth address. */
    method Ps3Pair(addr: seq<byte>, accepted: bool) returns (ok: bool)
      requires Valid() && |addr| == 6
      modifies txbuf, this`requests
      ensures var o := PairOutcome(joystickType, old(txbuf[..]), hidDriver, accepted, addr);
        txbuf[..] == o.buf && requests == old(requests) + o.sent && ok == o.ok
    {
      if !hidDriver {
        return false;
      }
      if joystickType == PS3 {
        WritePs3PairReport(addr);
        assert txbuf[..8] == txbuf[..][..8];
        requests := requests + [HidControl(0x21, 9, 0x3F5, 0, txbuf[..8])];
        return accepted;
      } else if joystickType == PS3Motion {
        WriteMotionPairReport(addr);
        assert txbuf[..11] == txbuf[..][..11];
        requests := requests + [HidControl(0x21, 9, 0x305, 0, txbuf[..11])];
        return accepted;
      }
      return false;
    }

    /** The PS3 set-report 0xF5 composed in `txbuf_`: `01 00`, then the address reversed. */
    method WritePs3PairReport(addr: seq<byte>)
      requires Valid() && |addr| == 6
      modifies txbuf
      ensures txbuf[..] == Overwrite(old(txbuf[..]), 0, Ps3PairReport(addr))
    {
      txbuf[0] := 0x01;
      txbuf[1] := 0x00;
      var i := 0;
      while i < 6
        invariant 0 <= i <= 6
        invariant forall k :: 0 <= k < TX_BUFFER_SIZE ==>
          txbuf[k] == if k == 0 then 0x01 else if k == 1 then 0x00 else if k < i + 2 then addr[7 - k] else old(txbuf[k])
      {
        txbuf[i + 2] := addr[5 - i];
        i := i + 1;
      }
      assert txbuf[..] == Overwrite(old(txbuf[..]), 0, Ps3PairReport(addr));
    }

    /** The Motion set-report 0x05 composed in `txbuf_`: `05`, the address in order and a fixed tail. */
    method WriteMotionPairReport(addr: seq<byte>)
      requires Valid() && |addr| == 6
      modifies txbuf
      ensures txbuf[..] == Overwrite(old(txbuf[..]), 0, Ps3MotionPairReport(addr))
    {
      txbuf[0] := 0x05;
      var i := 0;
      while i < 6
        invariant 0 <= i <= 6
        invariant forall k :: 0 <= k < TX_BUFFER_SIZE ==>
          txbuf[k] == if k == 0 then 0x05 else if k < i + 1 then addr[k - 1] else old(txbuf[k])
      {
        txbuf[i + 1] := addr[i];
        i := i + 1;
      }
      txbuf[7] := 0x10;
      txbuf[8] := 0x01;
      txbuf[9] := 0x02;
      txbuf[10] := 0x12;
      assert txbuf[..] == Overwrite(old(txbuf[..]), 0, Ps3MotionPairReport(addr));
    }

    /** `connectionComplete`: the Bluetooth link is up. A PS4 is asked for
        feature report 2, a PS3 is sent its enable command (both need the
        Bluetooth driver, which is not checked), a Motion controller's LEDs
        are set to green. */
    method ConnectionComplete(accepted: bool)
      requires Valid()
      requires joystickType == PS4 || joystickType == PS3 ==> btDriver
      modifies leds, txbuf, this`requests
      ensures joystickType == PS4 ==>
        requests == old(requests) + [L2Cap(PS4_BT_GET_REPORT, CONTROL_SCID)]
        && txbuf[..] == old(txbuf[..]) && leds[..] == old(leds[..])
      ensures joystickType == PS3 ==>
        requests == old(requests) + [L2Cap(PS3_BT_ENABLE, CONTROL_SCID)]
        && txbuf[..] == old(txbuf[..]) && leds[..] == old(leds[..])
      ensures joystickType == PS3Motion ==>
        leds[..] == [0, 0xFF, 0]
        && var o := LedsOutcome(PS3Motion, old(txbuf[..]), Link(hidDriver, btDriver, accepted),
                                rumbleL, rumbleR, rumbleTimeout, old(leds[..]), [0, 0xFF, 0]);
           txbuf[..] == o.buf && requests == old(requests) + o.sent
      ensures !IsPlayStation(joystickType) ==>
        requests == old(requests) && txbuf[..] == old(txbuf[..]) && leds[..] == old(leds[..])
    {
      match joystickType {
        case PS4 =>
          requests := requests + [L2Cap(PS4_BT_GET_REPORT, CONTROL_SCID)];
        case PS3 =>
          requests := requests + [L2Cap(PS3_BT_ENABLE, CONTROL_SCID)];
        case PS3Motion =>
          var _ := SetLeds(0, 0xFF, 0, accepted);
        case _ =>
      }
    }
  }
}
