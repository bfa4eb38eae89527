/** The vocabulary shared by the classifier, the decoders, the encoders and the
    controller: controller families, the constants of the driver's header,
    the 64-bit masks and the requests the controller makes of its
    collaborators (USB pipes, the HID parser, the Bluetooth stack, the timer). */
module JoystickTypes {
  import opened ByteFields

  /** `joytype_t`: the controller families the driver tells apart. */
  datatype JoyType =
    | Unknown | PS3 | PS4 | XboxOne | Xbox360 | PS3Motion | SpaceNav | XboxDuke | Xbox360Wired

  /** Axes 0..9 are the HID desktop usages 0x30..0x39. */
  const STANDARD_AXIS_COUNT: nat := 10
  /** Capacity of `axis[]`; the Bluetooth 0x11 report writes index 63. */
  const TOTAL_AXIS_COUNT: nat := 64
  /** `sizeof(txbuf_)`. */
  const TX_BUFFER_SIZE: nat := 64
  /** Bits in a `uint64_t` mask. */
  const MASK_WIDTH: nat := 64
  /** L2CAP channel ids of the Bluetooth controller's HID control and interrupt channels. */
  const CONTROL_SCID: nat := 0x40
  const INTERRUPT_SCID: nat := 0x41
  /** Timer period requested by `claim` and `timer_event`, in microseconds. */
  const TIMER_PERIOD_US: nat := 2000000

  /** A `uint64_t` mask is modelled by the set of its bit positions. */
  type Mask = set<nat>

  predicate IsMask(m: Mask)
  {
    forall k :: k in m ==> k < MASK_WIDTH
  }

  /** `(uint64_t)1 << k`: bit k, or nothing once the shift leaves the word. */
  function Bit(k: nat): (m: Mask)
    ensures IsMask(m)
    ensures k < MASK_WIDTH ==> m == {k}
    ensures k >= MASK_WIDTH ==> m == {}
  {
    if k < MASK_WIDTH then {k} else {}
  }

  /** The mask with bits 0 .. n-1 set (`0x3f` is `LowBits(6)`). */
  function LowBits(n: nat): (m: Mask)
    ensures IsMask(m)
    ensures forall k :: k in m <==> 0 <= k < n && k < MASK_WIDTH
  {
    BitRange(0, n)
  }

  /** Bit position i of a `uint64_t`. It is the identity: it exists only to
      give the set comprehension in `BitRange` a term to trigger on. */
  function BitPosition(i: nat): nat { i }

  /** The mask with bits lo .. hi-1 set. */
  function BitRange(lo: nat, hi: nat): (m: Mask)
    ensures IsMask(m)
    ensures forall k :: k in m <==> lo <= k < hi && k < MASK_WIDTH
  {
    var m := set i: nat | i < MASK_WIDTH && lo <= i < hi :: BitPosition(i);
    forall k: nat | k < MASK_WIDTH && lo <= k < hi
      ensures k in m
    {
      assert BitPosition(k) in m;
    }
    m
  }

  datatype Option<T> = None | Some(value: T)

  /** A USB device as the controller sees it (`Device_t *`): its identity and ids. */
  datatype Device = Device(id: nat, idVendor: nat, idProduct: nat)

  /** `hidclaim_t` answers of `claim_collection`. */
  datatype HidClaim = ClaimNo | ClaimReport

  /** `special_process_required` values the controller sets. */
  datatype SpecialProcess = SpNone | SpNeedConnect | SpPs3Ids

  /** One request made of a collaborator, in the order the controller makes them. */
  datatype Request =
    | QueueTx(data: seq<byte>)          // queue_Data_Transfer on the transmit pipe
    | QueueRx(size: nat)                // queue_Data_Transfer(rxpipe_, rxbuf_, rx_size_)
    | NewPipe(endpoint: nat, directionIn: bool, maxSize: nat, interval: nat)
    | HidPacket(data: seq<byte>)        // driver_->sendPacket
    | HidControl(bmRequestType: nat, bRequest: nat, wValue: nat, wIndex: nat, data: seq<byte>)
    | L2Cap(data: seq<byte>, channel: nat)  // btdriver_->sendL2CapCommand
    | TimerStart(micros: nat)
    | TimerStop
}
