/** Telling which controller family is attached: the vendor/product table,
    the interface-descriptor signatures and endpoint scan used when the
    controller claims a USB interface, and the Bluetooth class-of-device and
    remote-name tests. */
module Classify {
  import opened ByteFields
  import opened JoystickTypes

  // ---------------------------------------------------------------------------
  // Vendor/product table (pid_vid_mapping, mapVIDPIDtoJoystickType)
  // ---------------------------------------------------------------------------

  datatype ProductVendor = ProductVendor(idVendor: nat, idProduct: nat, joyType: JoyType, hidDevice: bool)

  /** `pid_vid_mapping[]`, in table order. */
  const PID_VID_MAPPING: seq<ProductVendor> := [
    ProductVendor(0x054C, 0x0268, PS3, true),
    ProductVendor(0x054C, 0x042F, PS3, true),        // PS3 Navigation controller
    ProductVendor(0x054C, 0x03D5, PS3Motion, true),  // PS3 Motion controller
    ProductVendor(0x054C, 0x05C4, PS4, true),
    ProductVendor(0x054C, 0x09CC, PS4, true),
    ProductVendor(0x046D, 0xC626, SpaceNav, true),   // 3Dconnexion Space Navigator
    ProductVendor(0x046D, 0xC628, SpaceNav, true)
  ]

  predicate EntryMatches(i: nat, vid: nat, pid: nat)
    requires i < |PID_VID_MAPPING|
  {
    PID_VID_MAPPING[i].idVendor == vid && PID_VID_MAPPING[i].idProduct == pid
  }

  /** What a matching entry answers: its family, unless HID devices are excluded and it is one. */
  function EntryAnswer(i: nat, excludeHid: bool): JoyType
    requires i < |PID_VID_MAPPING|
  {
    if excludeHid && PID_VID_MAPPING[i].hidDevice then Unknown else PID_VID_MAPPING[i].joyType
  }

  /** The table scan from entry i on: the first matching entry decides. */
  function LookupFrom(i: nat, vid: nat, pid: nat, excludeHid: bool): JoyType
    requires i <= |PID_VID_MAPPING|
    decreases |PID_VID_MAPPING| - i
  {
    if i == |PID_VID_MAPPING| then Unknown
    else if EntryMatches(i, vid, pid) then EntryAnswer(i, excludeHid)
    else LookupFrom(i + 1, vid, pid, excludeHid)
  }

  /** The family `mapVIDPIDtoJoystickType` answers. */
  function VidPidJoyType(vid: nat, pid: nat, excludeHid: bool): JoyType
  {
    LookupFrom(0, vid, pid, excludeHid)
  }

  /** `mapVIDPIDtoJoystickType`: the loop over the table. */
  method MapVidPidToJoystickType(vid: nat, pid: nat, excludeHid: bool) returns (t: JoyType)
    ensures t == VidPidJoyType(vid, pid, excludeHid)
  {
    var i := 0;
    while i < |PID_VID_MAPPING|
      invariant 0 <= i <= |PID_VID_MAPPING|
      invariant LookupFrom(i, vid, pid, excludeHid) == VidPidJoyType(vid, pid, excludeHid)
    {
      if PID_VID_MAPPING[i].idVendor == vid && PID_VID_MAPPING[i].idProduct == pid {
        if excludeHid && PID_VID_MAPPING[i].hidDevice {
          return Unknown;
        }
        return PID_VID_MAPPING[i].joyType;
      }
      i := i + 1;
    }
    return Unknown;
  }

  lemma {:induction false} LookupFromFirstMatch(k: nat, i: nat, vid: nat, pid: nat, excludeHid: bool)
    requires k <= i < |PID_VID_MAPPING| && EntryMatches(i, vid, pid)
    requires forall j :: k <= j < i ==> !EntryMatches(j, vid, pid)
    ensures LookupFrom(k, vid, pid, excludeHid) == EntryAnswer(i, excludeHid)
    decreases i - k
  {
    if k < i {
      LookupFromFirstMatch(k + 1, i, vid, pid, excludeHid);
    }
  }

  /** The first entry with exactly that (vendor, product) pair decides the answer. */
  lemma VidPidFirstMatch(vid: nat, pid: nat, excludeHid: bool, i: nat)
    requires i < |PID_VID_MAPPING| && EntryMatches(i, vid, pid)
    requires forall j :: 0 <= j < i ==> !EntryMatches(j, vid, pid)
    ensures VidPidJoyType(vid, pid, excludeHid) == EntryAnswer(i, excludeHid)
  {
    LookupFromFirstMatch(0, i, vid, pid, excludeHid);
  }

  lemma {:induction false} LookupFromAbsent(k: nat, vid: nat, pid: nat, excludeHid: bool)
    requires k <= |PID_VID_MAPPING|
    requires forall j :: k <= j < |PID_VID_MAPPING| ==> !EntryMatches(j, vid, pid)
    ensures LookupFrom(k, vid, pid, excludeHid) == Unknown
    decreases |PID_VID_MAPPING| - k
  {
    if k < |PID_VID_MAPPING| {
      LookupFromAbsent(k + 1, vid, pid, excludeHid);
    }
  }

  /** A pair that is not in the table is Unknown. */
  lemma VidPidAbsent(vid: nat, pid: nat, excludeHid: bool)
    requires forall j :: 0 <= j < |PID_VID_MAPPING| ==> !EntryMatches(j, vid, pid)
    ensures VidPidJoyType(vid, pid, excludeHid) == Unknown
  {
    LookupFromAbsent(0, vid, pid, excludeHid);
  }

  /** Each entry is found under its own ids, since no pair occurs twice. */
  lemma VidPidTableEntries(i: nat)
    requires i < |PID_VID_MAPPING|
    ensures VidPidJoyType(PID_VID_MAPPING[i].idVendor, PID_VID_MAPPING[i].idProduct, false)
         == PID_VID_MAPPING[i].joyType
  {
    var e := PID_VID_MAPPING[i];
    forall j | 0 <= j < i
      ensures !EntryMatches(j, e.idVendor, e.idProduct)
    {
      assert PID_VID_MAPPING[j] != e;
    }
    VidPidFirstMatch(e.idVendor, e.idProduct, false, i);
  }

  lemma {:induction false} LookupFromExcluded(k: nat, vid: nat, pid: nat)
    requires k <= |PID_VID_MAPPING|
    ensures LookupFrom(k, vid, pid, true) == Unknown
    decreases |PID_VID_MAPPING| - k
  {
    if k < |PID_VID_MAPPING| {
      assert PID_VID_MAPPING[k].hidDevice;
      LookupFromExcluded(k + 1, vid, pid);
    }
  }

  /** Every entry is marked as a HID device, so excluding HID devices always answers Unknown. */
  lemma VidPidExcludedIsUnknown(vid: nat, pid: nat)
    ensures VidPidJoyType(vid, pid, true) == Unknown
  {
    LookupFromExcluded(0, vid, pid);
  }

  // ---------------------------------------------------------------------------
  // Interface descriptor signatures (claim)
  // ---------------------------------------------------------------------------

  predicate IsXbox360WiredInterface(desc: seq<byte>)
    requires |desc| >= 23
  {
    desc[6] == 0x5D && desc[7] == 0x01
  }

  predicate IsXbox360WirelessInterface(desc: seq<byte>)
    requires |desc| >= 23
  {
    desc[6] == 0x5D && desc[7] == 0x81
  }

  /** Subclass 0x47, protocol 0xD0 and both endpoints polled every 4 frames. */
  predicate IsXboxOneInterface(desc: seq<byte>)
    requires |desc| >= 23
  {
    desc[6] == 0x47 && desc[7] == 0xD0 && desc[15] == 0x04 && desc[22] == 0x04
  }

  predicate IsXboxDukeInterface(desc: seq<byte>)
    requires |desc| >= 23
  {
    desc[5] == 0x58 && desc[6] == 0x42
  }

  /** The family `claim` settles on: each signature test in turn overrides
      what the earlier ones (and the table) said. */
  function InterfaceJoyType(desc: seq<byte>, tableType: JoyType): (t: JoyType)
    requires |desc| >= 23
    ensures IsXboxDukeInterface(desc) ==> t == XboxDuke
    ensures !IsXboxDukeInterface(desc) && IsXboxOneInterface(desc) ==> t == XboxOne
    ensures (!IsXboxDukeInterface(desc) && !IsXboxOneInterface(desc) && IsXbox360WirelessInterface(desc))
            ==> t == Xbox360
    ensures (!IsXboxDukeInterface(desc) && !IsXboxOneInterface(desc) && !IsXbox360WirelessInterface(desc)
             && IsXbox360WiredInterface(desc)) ==> t == Xbox360Wired
    ensures (!IsXboxDukeInterface(desc) && !IsXboxOneInterface(desc) && !IsXbox360WirelessInterface(desc)
             && !IsXbox360WiredInterface(desc)) ==> t == tableType
  {
    var t1 := if IsXbox360WiredInterface(desc) then Xbox360Wired else tableType;
    var t2 := if IsXbox360WirelessInterface(desc) then Xbox360 else t1;
    var t3 := if IsXboxOneInterface(desc) then XboxOne else t2;
    if IsXboxDukeInterface(desc) then XboxDuke else t3
  }

  /** The four signatures disagree on the subclass or protocol byte, so at
      most one of them matches and the override order never decides. */
  lemma InterfaceSignaturesExclusive(desc: seq<byte>)
    requires |desc| >= 23
    ensures !(IsXboxDukeInterface(desc) && IsXboxOneInterface(desc))
    ensures !(IsXboxDukeInterface(desc) && IsXbox360WirelessInterface(desc))
    ensures !(IsXboxDukeInterface(desc) && IsXbox360WiredInterface(desc))
    ensures !(IsXboxOneInterface(desc) && IsXbox360WirelessInterface(desc))
    ensures !(IsXboxOneInterface(desc) && IsXbox360WiredInterface(desc))
    ensures !(IsXbox360WirelessInterface(desc) && IsXbox360WiredInterface(desc))
  {
  }

  // ---------------------------------------------------------------------------
  // Endpoint scan (claim)
  // ---------------------------------------------------------------------------

  /** The endpoints found so far: `rx_ep_`, `rx_size_`, `rx_interval`, `txep`, `tx_size_`, `tx_interval`. */
  datatype Endpoints = Endpoints(rxEp: byte, rxSize: nat, rxInterval: byte, txEp: byte, txSize: nat, txInterval: byte)

  const NO_ENDPOINTS := Endpoints(0, 0, 0, 0, 0, 0)

  /** What the scan ends with; `malformed` when it met a descriptor that is not a 7-byte endpoint descriptor. */
  datatype ScanResult = ScanResult(endpoints: Endpoints, malformed: bool)

  /** Where the scan starts: just after the 9-byte interface descriptor, or
      one descriptor further when the next one is not an endpoint. */
  function ScanStart(desc: seq<byte>): nat
    requires |desc| >= 23
  {
    if desc[10] != 0x05 then 9 + desc[9] as nat else 9
  }

  /** An interrupt endpoint (type 3) with max packet at most 64 (high byte 0). */
  predicate IsSmallInterruptEndpoint(desc: seq<byte>, i: nat)
    requires i + 7 <= |desc|
  {
    desc[i + 3] == 3 && desc[i + 4] <= 64 && desc[i + 5] == 0
  }

  /** One endpoint descriptor at offset i: an IN endpoint (address bit 7)
      becomes the receive endpoint, an OUT endpoint the transmit endpoint. */
  function ScanStep(e: Endpoints, desc: seq<byte>, i: nat, jtype: JoyType): Endpoints
    requires i + 7 <= |desc|
  {
    if !IsSmallInterruptEndpoint(desc, i) then e
    else if desc[i + 2] >= 0x80 then
      e.(rxEp := desc[i + 2], rxSize := desc[i + 4],
         rxInterval := if jtype == Xbox360 then (desc[i + 6] as int * 8) % 256 else desc[i + 6])
    else
      e.(txEp := desc[i + 2], txSize := desc[i + 4], txInterval := desc[i + 6])
  }

  /** The source does not compare the scan position with `len`. The scan
      from offset i stays inside the descriptors: it stops (no descriptors
      left, both endpoints found, a byte that is not 7 or not 5) before it
      reads past the end, taking each exit of the loop as the loop does. */
  predicate ScanInside(desc: seq<byte>, i: nat, remaining: nat, jtype: JoyType, e: Endpoints)
    decreases remaining
  {
    || remaining == 0 || (e.rxEp != 0 && e.txEp != 0)
    || (i < |desc|
        && (desc[i] != 7
            || (i + 1 < |desc|
                && (desc[i + 1] != 5
                    || (i + 7 <= |desc| && ScanInside(desc, i + 7, remaining - 1, jtype, ScanStep(e, desc, i, jtype)))))))
  }

  /** The whole endpoint scan of an interface stays inside its descriptors. */
  predicate InterfaceScanInside(desc: seq<byte>, jtype: JoyType)
    requires |desc| >= 23
  {
    ScanInside(desc, ScanStart(desc), desc[4], jtype, NO_ENDPOINTS)
  }

  /** The scan from offset i with `remaining` endpoint descriptors still allowed. */
  function ScanFrom(desc: seq<byte>, i: nat, remaining: nat, jtype: JoyType, e: Endpoints): ScanResult
    requires ScanInside(desc, i, remaining, jtype, e)
    decreases remaining
  {
    if remaining == 0 || (e.rxEp != 0 && e.txEp != 0) then ScanResult(e, false)
    else if desc[i] != 7 || desc[i + 1] != 5 then ScanResult(e, true)
    else ScanFrom(desc, i + 7, remaining - 1, jtype, ScanStep(e, desc, i, jtype))
  }

  /** The endpoint loop of `claim`. */
  method ScanEndpoints(desc: seq<byte>, jtype: JoyType) returns (r: ScanResult)
    requires |desc| >= 23 && InterfaceScanInside(desc, jtype)
    ensures r == ScanFrom(desc, ScanStart(desc), desc[4], jtype, NO_ENDPOINTS)
  {
    var e := NO_ENDPOINTS;
    var countEndPoints: nat := desc[4];
    var descriptorIndex: nat := 9;
    if desc[descriptorIndex + 1] != 0x05 {
      descriptorIndex := descriptorIndex + desc[descriptorIndex];
    }
    while countEndPoints > 0 && (e.rxEp == 0 || e.txEp == 0)
      invariant ScanInside(desc, descriptorIndex, countEndPoints, jtype, e)
      invariant ScanFrom(desc, descriptorIndex, countEndPoints, jtype, e)
             == ScanFrom(desc, ScanStart(desc), desc[4], jtype, NO_ENDPOINTS)
    {
      countEndPoints := countEndPoints - 1;
      if desc[descriptorIndex] != 7 {
        return ScanResult(e, true);
      }
      if desc[descriptorIndex + 1] != 5 {
        return ScanResult(e, true);
      }
      if desc[descriptorIndex + 3] == 3 && desc[descriptorIndex + 4] <= 64 && desc[descriptorIndex + 5] == 0 {
        if desc[descriptorIndex + 2] >= 0x80 {
          var interval := if jtype == Xbox360 then (desc[descriptorIndex + 6] as int * 8) % 256 else desc[descriptorIndex + 6];
          e := e.(rxEp := desc[descriptorIndex + 2], rxSize := desc[descriptorIndex + 4], rxInterval := interval);
        } else {
          e := e.(txEp := desc[descriptorIndex + 2], txSize := desc[descriptorIndex + 4],
                  txInterval := desc[descriptorIndex + 6]);
        }
      }
      descriptorIndex := descriptorIndex + 7;
    }
    return ScanResult(e, false);
  }

  /** A receive endpoint the scan keeps is an IN endpoint of at most 64 bytes,
      a transmit endpoint an OUT endpoint of at most 64 bytes. */
  predicate SaneEndpoints(e: Endpoints)
  {
    && (e.rxEp != 0 ==> e.rxEp >= 0x80 && e.rxSize <= 64)
    && e.txEp < 0x80 && e.txSize <= 64
  }

  lemma {:induction false} ScanFromSane(desc: seq<byte>, i: nat, remaining: nat, jtype: JoyType, e: Endpoints)
    requires ScanInside(desc, i, remaining, jtype, e) && SaneEndpoints(e)
    ensures SaneEndpoints(ScanFrom(desc, i, remaining, jtype, e).endpoints)
    decreases remaining
  {
    if remaining == 0 || (e.rxEp != 0 && e.txEp != 0) {
    } else if desc[i] != 7 || desc[i + 1] != 5 {
    } else {
      ScanFromSane(desc, i + 7, remaining - 1, jtype, ScanStep(e, desc, i, jtype));
    }
  }

  /** Whatever the scan ends with, its endpoints have the right direction and size. */
  lemma ScanEndpointsSane(desc: seq<byte>, jtype: JoyType)
    requires |desc| >= 23 && InterfaceScanInside(desc, jtype)
    ensures SaneEndpoints(ScanFrom(desc, ScanStart(desc), desc[4], jtype, NO_ENDPOINTS).endpoints)
  {
    ScanFromSane(desc, ScanStart(desc), desc[4], jtype, NO_ENDPOINTS);
  }

  // ---------------------------------------------------------------------------
  // What claim makes of an interface
  // ---------------------------------------------------------------------------

  /** The family `claim` settles on: the table looked up with HID devices
      excluded, then overridden by the descriptor signatures. */
  function InterfaceFamily(desc: seq<byte>, vid: nat, pid: nat): JoyType
    requires |desc| >= 23
  {
    InterfaceJoyType(desc, VidPidJoyType(vid, pid, true))
  }

  /** Every table entry is a HID device, so only a descriptor signature can
      give `claim` a family: one of the four Xbox families, or none. */
  lemma InterfaceFamilyIsXbox(desc: seq<byte>, vid: nat, pid: nat)
    requires |desc| >= 23
    ensures InterfaceFamily(desc, vid, pid) in {Unknown, XboxOne, Xbox360, Xbox360Wired, XboxDuke}
    ensures InterfaceFamily(desc, vid, pid) == Unknown <==>
      !IsXboxDukeInterface(desc) && !IsXboxOneInterface(desc)
      && !IsXbox360WirelessInterface(desc) && !IsXbox360WiredInterface(desc)
  {
    VidPidExcludedIsUnknown(vid, pid);
  }

  /** The checks before the endpoint scan: interface-level claim (`type == 1`),
      at least 9 + 7 + 7 descriptor bytes, at least two endpoints, a known family. */
  predicate ScanReached(claimType: int, desc: seq<byte>, vid: nat, pid: nat)
  {
    claimType == 1 && |desc| >= 23 && desc[4] >= 2 && InterfaceFamily(desc, vid, pid) != Unknown
  }

  /** Every byte `claim` reads lies inside the descriptors: the scan, when it
      is reached, stays inside them. */
  predicate ClaimInside(claimType: int, desc: seq<byte>, vid: nat, pid: nat)
  {
    ScanReached(claimType, desc, vid, pid) ==> InterfaceScanInside(desc, InterfaceFamily(desc, vid, pid))
  }

  /** What `claim` decides before it asks for pipes. */
  datatype InterfaceVerdict =
    | NotClaimed                          // turned down before the scan; nothing is touched
    | NoEndpoints(endpoints: Endpoints)   // the scan failed; what it found stays in rx_ep_, rx_size_, tx_size_
    | Claimable(jtype: JoyType, endpoints: Endpoints)

  function InterfaceClaim(claimType: int, desc: seq<byte>, vid: nat, pid: nat): InterfaceVerdict
    requires ClaimInside(claimType, desc, vid, pid)
  {
    if !ScanReached(claimType, desc, vid, pid) then NotClaimed
    else
      var jtype := InterfaceFamily(desc, vid, pid);
      var scan := ScanFrom(desc, ScanStart(desc), desc[4], jtype, NO_ENDPOINTS);
      if scan.malformed || scan.endpoints.rxEp == 0 || scan.endpoints.txEp == 0 then NoEndpoints(scan.endpoints)
      else Claimable(jtype, scan.endpoints)
  }

  /** The checks of `claim` from `type != 1` to the end of the endpoint scan. */
  method ClassifyInterface(claimType: int, desc: seq<byte>, vid: nat, pid: nat) returns (v: InterfaceVerdict)
    requires ClaimInside(claimType, desc, vid, pid)
    ensures v == InterfaceClaim(claimType, desc, vid, pid)
  {
    if claimType != 1 {
      return NotClaimed;
    }
    var jtype := MapVidPidToJoystickType(vid, pid, true);
    if |desc| < 9 + 7 + 7 {
      return NotClaimed;
    }
    if desc[4] < 2 {
      return NotClaimed;
    }
    jtype := InterfaceJoyType(desc, jtype);
    if jtype == Unknown {
      return NotClaimed;
    }
    var scan := ScanEndpoints(desc, jtype);
    if scan.malformed || scan.endpoints.rxEp == 0 || scan.endpoints.txEp == 0 {
      return NoEndpoints(scan.endpoints);
    }
    return Claimable(jtype, scan.endpoints);
  }

  /** A claimable interface is an Xbox one with an interrupt IN endpoint and an
      interrupt OUT endpoint of at most 64 bytes each. */
  lemma ClaimableIsXboxWithTwoEndpoints(claimType: int, desc: seq<byte>, vid: nat, pid: nat)
    requires ClaimInside(claimType, desc, vid, pid)
    ensures var v := InterfaceClaim(claimType, desc, vid, pid);
      v.Claimable? ==>
        && v.jtype in {XboxOne, Xbox360, Xbox360Wired, XboxDuke}
        && v.endpoints.rxEp >= 0x80 && v.endpoints.rxSize <= 64
        && 0 < v.endpoints.txEp < 0x80 && v.endpoints.txSize <= 64
  {
    if ScanReached(claimType, desc, vid, pid) {
      var jtype := InterfaceFamily(desc, vid, pid);
      InterfaceFamilyIsXbox(desc, vid, pid);
      ScanEndpointsSane(desc, jtype);
    }
  }

  /** The early refusals: anything but an interface-level claim, fewer than
      23 descriptor bytes, fewer than two endpoints, or no Xbox signature.
      They come before the scan, so they hold for any descriptors; once the
      scan is reached (and stays inside the descriptors) the verdict is
      never `NotClaimed`. */
  lemma EarlyRefusals(claimType: int, desc: seq<byte>, vid: nat, pid: nat)
    ensures !ScanReached(claimType, desc, vid, pid) <==>
      claimType != 1 || |desc| < 23 || desc[4] < 2
      || (!IsXboxDukeInterface(desc) && !IsXboxOneInterface(desc)
          && !IsXbox360WirelessInterface(desc) && !IsXbox360WiredInterface(desc))
    ensures !ScanReached(claimType, desc, vid, pid) ==>
      ClaimInside(claimType, desc, vid, pid) && InterfaceClaim(claimType, desc, vid, pid) == NotClaimed
    ensures ScanReached(claimType, desc, vid, pid) && ClaimInside(claimType, desc, vid, pid) ==>
      InterfaceClaim(claimType, desc, vid, pid) != NotClaimed
  {
    if claimType == 1 && |desc| >= 23 {
      InterfaceFamilyIsXbox(desc, vid, pid);
    }
  }

  /** A first endpoint descriptor that is not a 7-byte endpoint descriptor
      fails the scan, whatever follows and however many endpoints the
      interface declares: the loop returns before it reads further. */
  lemma MalformedFirstEndpointRefused(claimType: int, desc: seq<byte>, vid: nat, pid: nat)
    requires ScanReached(claimType, desc, vid, pid)
    requires ScanStart(desc) < |desc|
    requires desc[ScanStart(desc)] != 7 || (ScanStart(desc) + 1 < |desc| && desc[ScanStart(desc) + 1] != 5)
    ensures ClaimInside(claimType, desc, vid, pid)
    ensures InterfaceClaim(claimType, desc, vid, pid) == NoEndpoints(NO_ENDPOINTS)
  {
  }

  /** A 23-byte wired Xbox 360 interface declaring `declared` endpoints, the
      first two of which are the interrupt endpoints 0x81 and 0x01 of 32 bytes. */
  function Wired360Interface(declared: byte): (d: seq<byte>)
    ensures |d| == 23 && d[4] == declared
  {
    [9, 4, 0, 0, declared, 0xFF, 0x5D, 0x01, 0,
     7, 5, 0x81, 3, 32, 0, 4,
     7, 5, 0x01, 3, 32, 0, 8]
  }

  /** It is claimed as XBOX360_WIRED with both endpoints, whatever its ids
      and however many endpoints it declares beyond two: the scan stops once
      both are found and reads nothing past byte 22. */
  lemma Wired360InterfaceClaimable(declared: byte, vid: nat, pid: nat)
    requires declared >= 2
    ensures ClaimInside(1, Wired360Interface(declared), vid, pid)
    ensures InterfaceClaim(1, Wired360Interface(declared), vid, pid)
            == Claimable(Xbox360Wired, Endpoints(0x81, 32, 4, 0x01, 32, 8))
  {
    Wired360Family(declared, vid, pid);
    Wired360Scan(declared);
  }

  /** The wired signature matches and no other does, so the family is XBOX360_WIRED. */
  lemma Wired360Family(declared: byte, vid: nat, pid: nat)
    ensures InterfaceFamily(Wired360Interface(declared), vid, pid) == Xbox360Wired
  {
    VidPidExcludedIsUnknown(vid, pid);
    var d := Wired360Interface(declared);
    assert IsXbox360WiredInterface(d) && !IsXbox360WirelessInterface(d);
    assert !IsXboxOneInterface(d) && !IsXboxDukeInterface(d);
  }

  /** The scan meets the IN endpoint 0x81 and then the OUT endpoint 0x01, and stops. */
  lemma Wired360Scan(declared: byte)
    requires declared >= 2
    ensures InterfaceScanInside(Wired360Interface(declared), Xbox360Wired)
    ensures ScanFrom(Wired360Interface(declared), ScanStart(Wired360Interface(declared)), declared,
                     Xbox360Wired, NO_ENDPOINTS)
            == ScanResult(Endpoints(0x81, 32, 4, 0x01, 32, 8), false)
  {
    var d := Wired360Interface(declared);
    assert ScanStart(d) == 9;
    var e1 := ScanStep(NO_ENDPOINTS, d, 9, Xbox360Wired);
    assert e1 == Endpoints(0x81, 32, 4, 0, 0, 0);
    var e2 := ScanStep(e1, d, 16, Xbox360Wired);
    assert e2 == Endpoints(0x81, 32, 4, 0x01, 32, 8);
    assert ScanInside(d, 23, declared - 2, Xbox360Wired, e2);
    assert ScanInside(d, 16, declared - 1, Xbox360Wired, e1);
    assert ScanInside(d, 9, declared, Xbox360Wired, NO_ENDPOINTS);
    assert ScanFrom(d, 23, declared - 2, Xbox360Wired, e2) == ScanResult(e2, false);
    assert ScanFrom(d, 16, declared - 1, Xbox360Wired, e1) == ScanResult(e2, false);
  }


  // ---------------------------------------------------------------------------
  // HID collections (claim_collection)
  // ---------------------------------------------------------------------------

  /** Desktop/Joystick, Desktop/Gamepad and Desktop/Multi-axis Controller. */
  predicate IsJoystickTopUsage(topusage: nat)
  {
    topusage == 0x10004 || topusage == 0x10005 || topusage == 0x10008
  }

  /** The extended axes of a claimed collection: usages `start .. start + count - 1`
      of page `page` go to axes 10 and up, and only changes of the axes in
      `notify` count as a change (`axis_change_notify_mask_`). */
  datatype AxisWindow = AxisWindow(page: nat, start: nat, count: nat, notify: Mask)

  function AxisWindowFor(t: JoyType): AxisWindow
  {
    match t
    case PS3 => AxisWindow(0x01, 0x100, 39, LowBits(MASK_WIDTH))
    case PS3Motion => AxisWindow(0x01, 0x100, 39, LowBits(MASK_WIDTH))
    case PS4 => AxisWindow(0xFF00, 0x21, 54, LowBits(MASK_WIDTH) - {10, 11})
    case _ => AxisWindow(0x09, 0x21, 5, LowBits(STANDARD_AXIS_COUNT))
  }

  /** Every window ends inside `axis[]` and starts past the button usages
      (page 9) and the desktop axes (page 1) it shares a page with; the
      standard axes always notify. */
  lemma AxisWindowsFit(t: JoyType)
    ensures var w := AxisWindowFor(t);
      && STANDARD_AXIS_COUNT + w.count <= TOTAL_AXIS_COUNT
      && 0 < w.page < 0x1_0000 && w.start + w.count <= 0x1_0000
      && (w.page == 9 ==> w.start > 32)
      && (w.page == 1 ==> w.start > 0x39)
      && IsMask(w.notify)
      && (forall k :: 0 <= k < STANDARD_AXIS_COUNT ==> k in w.notify)
  {
  }

  /** Which changed axes raise an event: all 64 for the PS3 families, all but
      10 and 11 for PS4, the ten standard axes otherwise. */
  lemma NotifyMasks(t: JoyType, k: nat)
    ensures t in {PS3, PS3Motion} ==> (k in AxisWindowFor(t).notify <==> k < MASK_WIDTH)
    ensures t == PS4 ==> (k in AxisWindowFor(t).notify <==> k < MASK_WIDTH && k != 10 && k != 11)
    ensures t !in {PS3, PS3Motion, PS4} ==> (k in AxisWindowFor(t).notify <==> k < STANDARD_AXIS_COUNT)
  {
  }

  // ---------------------------------------------------------------------------
  // Bluetooth class of device and remote name
  // ---------------------------------------------------------------------------

  /** The class test of `claim_bluetooth`: a peripheral (with or without the
      limited-discoverable service bit) whose minor class says gamepad. */
  predicate IsGamepadClass(bluetoothClass: bv32)
  {
    ((bluetoothClass & 0xff00) == 0x2500 || (bluetoothClass & 0xff00) == 0x500)
    && (bluetoothClass & 0x3C) == 0x08
  }

  /** Fields of a Bluetooth class of device: major device class in bits 8..12,
      the peripheral's device type in bits 2..5, service classes from bit 13. */
  function MajorDeviceClass(bluetoothClass: bv32): bv32 { (bluetoothClass >> 8) & 0x1F }
  function PeripheralType(bluetoothClass: bv32): bv32 { (bluetoothClass >> 2) & 0xF }
  function ServiceBits13To15(bluetoothClass: bv32): bv32 { (bluetoothClass >> 13) & 0x7 }

  /** The mask test reads as: major class Peripheral (5), device type
      Gamepad (2), and of service bits 13..15 at most bit 13 set. */
  lemma GamepadClassFields(bluetoothClass: bv32)
    ensures IsGamepadClass(bluetoothClass) <==>
      MajorDeviceClass(bluetoothClass) == 5 && PeripheralType(bluetoothClass) == 2
      && (ServiceBits13To15(bluetoothClass) == 0 || ServiceBits13To15(bluetoothClass) == 1)
  {
  }

  /** `strncmp(name, p, |p|) == 0` for a name without embedded NUL. */
  predicate HasPrefix(name: seq<char>, p: seq<char>)
  {
    |p| <= |name| && name[..|p|] == p
  }

  /** The family `mapNameToJoystickType` leaves in `joystickType_`. */
  function NameJoyType(name: seq<char>, current: JoyType): (t: JoyType)
    ensures t == current || t in {PS4, PS3, PS3Motion, XboxOne}
  {
    if HasPrefix(name, "Wireless Controller") then PS4
    else if HasPrefix(name, "PLAYSTATION(R)3") then PS3
    else if HasPrefix(name, "Navigation Controller") then PS3
    else if HasPrefix(name, "Motion Controller") then PS3Motion
    else if HasPrefix(name, "Xbox Wireless") then XboxOne
    else current
  }

  /** The remote-name prefixes, in the order they are tried. */
  const NAME_PREFIXES: seq<(string, JoyType)> := [
    ("Wireless Controller", PS4),
    ("PLAYSTATION(R)3", PS3),
    ("Navigation Controller", PS3),
    ("Motion Controller", PS3Motion),
    ("Xbox Wireless", XboxOne)
  ]

  /** If prefix i matches, the name maps to its family (the five prefixes
      begin with different letters, so no earlier one can match as well). */
  lemma NameMatchDecides(name: seq<char>, current: JoyType, i: nat)
    requires i < |NAME_PREFIXES| && HasPrefix(name, NAME_PREFIXES[i].0)
    ensures NameJoyType(name, current) == NAME_PREFIXES[i].1
  {
    assert name[0] == NAME_PREFIXES[i].0[0] by {
      assert name[..|NAME_PREFIXES[i].0|][0] == name[0];
    }
  }

  /** A name that starts with none of the prefixes leaves the family as it was. */
  lemma NameNoMatchKeeps(name: seq<char>, current: JoyType)
    requires forall i :: 0 <= i < |NAME_PREFIXES| ==> !HasPrefix(name, NAME_PREFIXES[i].0)
    ensures NameJoyType(name, current) == current
  {
    assert !HasPrefix(name, NAME_PREFIXES[0].0);
    assert !HasPrefix(name, NAME_PREFIXES[1].0);
    assert !HasPrefix(name, NAME_PREFIXES[2].0);
    assert !HasPrefix(name, NAME_PREFIXES[3].0);
    assert !HasPrefix(name, NAME_PREFIXES[4].0);
  }

  /** The `special_process_required` choice of `remoteNameComplete` for the family found. */
  function SpecialProcessFor(t: JoyType, current: SpecialProcess): SpecialProcess
  {
    match t
    case PS4 => SpNeedConnect
    case PS3 => SpPs3Ids
    case PS3Motion => SpPs3Ids
    case _ => current
  }
}
