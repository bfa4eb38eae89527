# JoystickController — a verified model

This project models `JoystickController` from the USBHost_t36 library. That
driver handles game controllers on a Teensy USB host. It covers:

- the Xbox families that attach as raw USB interfaces (XBOXONE, XBOX360
  receiver, wired XBOX360, original Xbox "Duke");
- the controllers reached through the HID report parser;
- the PlayStation controllers reached over Bluetooth (PS3, PS3 Motion, PS4).

The model keeps the driver's own state as the fields of a class,
`Controller.JoystickController`. These include `buttons`, `axis[64]`, the
64-bit masks, `leds_[3]`, `txbuf_[64]`, the endpoint sizes, `connected_`, the
claim counters and the family in use. Each entry point is a method that
changes those fields. Each method is proved against pure functions of the
bytes it reads or writes.

Whatever the controller hands to its collaborators is appended, in order, to
a `requests` sequence. That covers USB transfers, new pipes, HID packets and
control transfers, L2CAP commands, and timer starts and stops. The answers of
those collaborators are method parameters: whether a pipe could be created,
and whether a packet was accepted.

The modules follow the program's structure:

- `ByteFields`: bytes and the little-endian 16- and 24-bit fields of the
  reports.
- `JoystickTypes`: the families, the header constants, masks (a `uint64_t`
  mask is its set of bit positions below 64) and the request vocabulary.
- `ButtonBits`: the 32-bit `buttons` word and single-bit updates.
- `AxisUpdates`: the compare-and-store step that every decoder repeats. It is
  written as a list of updates folded over the axis values and the changed
  mask, with the lemmas that say which bits end up marked.
- `Classify`:
  - the vendor/product table lookup;
  - the interface signatures and the endpoint scan of `claim`;
  - the HID collection windows of `claim_collection`;
  - the Bluetooth class test and the remote-name prefixes.
- `Decoders`: every input report layout as a function to an update list, with
  a lemma stating where each report byte lands.
- `Encoders`: every output report (rumble, LEDs, PS3/PS4/Motion feedback,
  pairing, chatpad keep-alive) as a byte sequence, with layout lemmas.
- `Feedback`: what an output command leaves in `txbuf_`, what it sends and
  what it returns, for each family and link.
- `RawReports`: the receive state as a value (`RxState`) and, for each Xbox
  family, a predicate saying what one received packet does to it.
- `Controller`: the keep-alive toggle all controllers share, the class and
  its methods.

Some behaviours of the code are modelled exactly as written and exhibited by
lemmas:

- The PS4 Bluetooth button word uses `tmp_data[6]*10`, so two reports can
  give the same buttons (`Decoders.Ps4BtButtonsCollide`).
- The PS3 feedback shifts the LED byte left and loses its top bit
  (`Encoders.Ps3FeedbackLedCollision`).
- The XBOX360 LED pattern byte `0x40 + lb` wraps (`Encoders.Xbox360LedsWrap`).
- `1 << k` past bit 63 sets nothing: the PS3 Motion report marks no change
  above bit 63.
- The XBOX360 "no more events" test is shadowed by the status test whenever
  byte 4 is at least 0x22 (`Decoders.Xbox360StatusShadowsNoMoreEvents`).

## Model

| member | source | states |
|---|---|---|
| ByteFields.U16 | joystick.cpp:716-729 | a little-endian 16-bit field is below 0x10000 |
| ByteFields.Le24 | joystick.cpp:1060 | a 24-bit little-endian field is below 2^24 |
| ByteFields.S16 | joystick.cpp:716-729 | a signed 16-bit field lies in [-32768, 32768) and equals the unsigned reading exactly when the high byte is below 0x80 |
| ByteFields.U16Bytes | joystick.cpp:716-729 | splitting an unsigned field gives back its two bytes |
| ByteFields.Le24Bytes | joystick.cpp:1060 | each of the three bytes is read back from the 24-bit field |
| ByteFields.U16RoundTrip | joystick.cpp:716-729 | every value below 0x10000 is read back from its two bytes |
| ByteFields.S16RoundTrip | joystick.cpp:716-729 | every signed 16-bit value is read back from its two's complement bytes |
| JoystickTypes.Bit | joystick.cpp:874 | `1 << k` is bit k for k < 64 and no bit past the word |
| JoystickTypes.LowBits | joystick.cpp:787 | the mask of bits 0..n-1 holds exactly those positions below 64 |
| JoystickTypes.BitRange | joystick.cpp:1091-1098 | the mask of bits lo..hi-1 holds exactly those positions below 64 |
| ButtonBits.SetOther | joystick.cpp:444-457 | setting button k leaves every other button bit alone |
| ButtonBits.ClearOther | joystick.cpp:444-457 | clearing button k leaves every other button bit alone |
| ButtonBits.SetSelf | joystick.cpp:444-457 | setting button k sets it |
| ButtonBits.ClearSelf | joystick.cpp:444-457 | clearing button k clears it |
| ButtonBits.SetNoop | joystick.cpp:444-457 | setting a button that is already set changes nothing |
| ButtonBits.ClearNoop | joystick.cpp:444-457 | clearing a button that is already clear changes nothing |
| ButtonBits.ButtonsAfterBits | joystick.cpp:444-457 | after a button usage the addressed bit follows the value and every other bit keeps its state |
| ButtonBits.ButtonsAfterChanges | joystick.cpp:444-457 | the button word changes exactly when the addressed bit flips, which is when `anychange` is set |
| AxisUpdates.Apply1 | joystick.cpp:1204-1208 | one compare-and-store writes the axis and marks its bits only when the value differs, and leaves every other axis alone |
| AxisUpdates.ApplyAll | joystick.cpp:1227-1234 | a run of compare-and-stores keeps the number of axes |
| AxisUpdates.ApplyAllStep | joystick.cpp:1227-1234 | one more compare extends the run by one step |
| AxisUpdates.ApplyAllEffect | joystick.cpp:1136-1144 | with distinct axes every stored value lands, untouched axes keep theirs, and the changed mask gains exactly the bits of the compares that differed |
| AxisUpdates.ApplyAllNoop | joystick.cpp:1136-1144 | a report whose values are all in place changes no axis and marks nothing |
| AxisUpdates.ReplayQuiet | joystick.cpp:1136-1144 | decoding the same report twice: the second pass stores nothing and marks nothing |
| AxisUpdates.ChangedBitsMembership | joystick.cpp:1136-1144 | a bit is marked exactly when some compare carrying it found a different value |
| AxisUpdates.ChangedBitsExact | joystick.cpp:1136-1144 | for self-marking updates, bit k is marked exactly when an update of axis k found a different value |
| AxisUpdates.ChangedIffDiffers | joystick.cpp:1136-1144 | after self-marking updates of distinct axes, bit k is in the changed mask exactly when it was before or axis k now differs from its old value |
| AxisUpdates.StoresStep | joystick.cpp:1227-1234 | one more compare extends "some compare stored" by that compare |
| AxisUpdates.StoresIffMarked | joystick.cpp:858-878 | from an empty changed mask, "some axis changed" is "the changed mask is non-empty", which is how the Xbox decoders set `anychange` |
| Classify.MapVidPidToJoystickType | joystick.cpp:69-79 | the loop over `pid_vid_mapping` answers the table lookup |
| Classify.LookupFromFirstMatch | joystick.cpp:69-79 | the scan from any entry up to the first match answers that match |
| Classify.VidPidFirstMatch | joystick.cpp:40-79 | the first entry with the (vendor, product) pair decides the family, or Unknown when HID devices are excluded and it is one |
| Classify.LookupFromAbsent | joystick.cpp:69-79 | a scan meeting no match answers Unknown |
| Classify.VidPidAbsent | joystick.cpp:69-79 | a pair absent from the table is Unknown |
| Classify.VidPidTableEntries | joystick.cpp:40-53 | every table entry is found under its own ids |
| Classify.LookupFromExcluded | joystick.cpp:69-79 | with HID devices excluded every scan answers Unknown |
| Classify.VidPidExcludedIsUnknown | joystick.cpp:546 | every entry is a HID device, so the lookup `claim` makes always answers Unknown |
| Classify.LookupFrom | joystick.cpp:69-79 | reference definition of the table scan from an entry: the first entry with the pair decides (its properties are the `LookupFrom*` lemmas) |
| Classify.VidPidJoyType | joystick.cpp:69-79 | reference definition of the answer of `mapVIDPIDtoJoystickType`: the scan from entry 0 |
| Classify.InterfaceJoyType | joystick.cpp:556-576 | the family `claim` settles on: a Duke signature wins, then XBOXONE, then the wireless and then the wired XBOX360 signature; with none the table answer stays |
| Classify.InterfaceSignaturesExclusive | joystick.cpp:556-576 | no interface matches two of the four signatures |
| Classify.ScanEndpoints | joystick.cpp:580-614 | the endpoint loop of `claim`, on descriptors it does not read past, computes the functional scan, including the malformed-descriptor refusals |
| Classify.ScanStep | joystick.cpp:596-611 | reference definition of one endpoint descriptor: an IN interrupt endpoint of at most 64 bytes becomes the receive endpoint, an OUT one the transmit endpoint |
| Classify.ScanFrom | joystick.cpp:593-614 | reference definition of the scan: stop when nothing is left to scan, when both endpoints are found or at a malformed descriptor |
| Classify.ScanFromSane | joystick.cpp:593-614 | every receive endpoint the scan keeps is an interrupt IN endpoint of at most 64 bytes |
| Classify.ScanEndpointsSane | joystick.cpp:593-614 | whatever the scan ends with (it stops after both endpoints, at a malformed descriptor, or when the declared count runs out), its endpoints have the right direction and size |
| Classify.InterfaceFamilyIsXbox | joystick.cpp:546-578 | only an Xbox signature gives `claim` a family, and Unknown exactly when none matches |
| Classify.ClassifyInterface | joystick.cpp:542-615 | the checks of `claim` from `type != 1` to the end of the scan answer InterfaceClaim, in the code's order |
| Classify.InterfaceClaim | joystick.cpp:533-615 | reference definition of the verdict of `claim` on an interface: not claimed, failed scan with what it found, or claimable with family and endpoints |
| Classify.ClaimableIsXboxWithTwoEndpoints | joystick.cpp:542-615 | a claimable interface is an Xbox one with an IN and an OUT endpoint found, for any descriptors whose scan stays inside them |
| Classify.EarlyRefusals | joystick.cpp:542-578 | for any descriptors, the interface is refused before the scan exactly when the claim type is not 1, the descriptors are shorter than 23 bytes, fewer than two endpoints are declared or no signature matches; once the scan is reached the verdict is a scan failure or a claim |
| Classify.MalformedFirstEndpointRefused | joystick.cpp:594-595 | a first endpoint descriptor that is not a 7-byte endpoint descriptor ends the claim with no endpoints, whatever follows it and however many endpoints are declared |
| Classify.Wired360InterfaceClaimable | joystick.cpp:557-614 | a 23-byte wired XBOX360 interface with 32-byte endpoints 0x81 and 0x01 is claimable as XBOX360_WIRED with exactly those endpoints, whatever its ids and however many endpoints (two or more) it declares |
| Classify.Wired360Family | joystick.cpp:546-576 | that interface matches only the wired signature, so `claim` takes it as XBOX360_WIRED whatever its ids and declared count |
| Classify.Wired360Scan | joystick.cpp:593-614 | its scan reads only bytes 9..22: it finds endpoint 0x81 as receive and 0x01 as transmit, both 32 bytes, and stops with both found |
| Classify.AxisWindowsFit | joystick.cpp:399-417 | every extended axis window of `claim_collection` ends inside `axis[]` and starts past the standard axes |
| Classify.AxisWindowFor | joystick.cpp:399-417 | reference definition of the extended axis window and notify mask per family |
| Classify.NotifyMasks | joystick.cpp:399-417 | the change-notify mask is all 64 axes for PS3 families, all but 10 and 11 for PS4, and the ten standard axes otherwise |
| Classify.GamepadClassFields | joystick.cpp:1023 | the mask test reads as: major class Peripheral (5), device type Gamepad (2), and of service bits 13..15 at most bit 13 set |
| Classify.IsGamepadClass | joystick.cpp:1023 | reference definition of the class test of `claim_bluetooth`, as the masks are written |
| Classify.NameJoyType | joystick.cpp:1244-1267 | a remote name leaves the family as it was or sets PS4, PS3, PS3 Motion or XBOXONE |
| Classify.NameMatchDecides | joystick.cpp:1244-1267 | if a prefix matches, the name takes that prefix's family, since the prefixes exclude each other |
| Classify.NameNoMatchKeeps | joystick.cpp:1262-1265 | a name starting with none of the prefixes leaves the family unchanged |
| Classify.SpecialProcessFor | joystick.cpp:1274-1280 | reference definition of the `special_process_required` choice: connect handling for PS4, the PS3 id handling for PS3 and Motion, unchanged otherwise |
| Decoders.HidUsageTarget | joystick.cpp:438-492 | a HID usage goes to a button bit (a 5-bit index, so below 32), a standard axis below 10, an extended axis inside `axis[]`, or nowhere |
| Decoders.ButtonUsagesRouted | joystick.cpp:444-457 | button usages 1..32 on page 9 are buttons 0..31, whatever window is claimed |
| Decoders.StandardUsagesRouted | joystick.cpp:457-468 | desktop usages 0x30..0x39 go to axes 0..9 |
| Decoders.ExtendedWindowRouted | joystick.cpp:468-485 | usage start+j on the claimed page goes to axis 10+j |
| Decoders.ClaimedWindowRouted | joystick.cpp:468-485 | every usage of the window `claim_collection` chose lands in `axis[]` |
| Decoders.XboxOneUpdates | joystick.cpp:798-806 | the XBOXONE report updates six distinct standard axes, each marking itself |
| Decoders.XboxOneButtons | joystick.cpp:792-793 | reference definition of the XBOXONE button word: the 16-bit field at bytes 4..5 |
| Decoders.XboxOneDecode | joystick.cpp:778-806 | the triggers land unsigned in axes 3 and 4 and the sticks signed in axes 0, 1, 2 and 5; no other axis changes; a bit is marked exactly when its axis changed |
| Decoders.Xbox360Updates | joystick.cpp:849-879 | the XBOX360 receiver report updates six distinct standard axes, each marking itself |
| Decoders.Xbox360PacketKind | joystick.cpp:815-847 | reference definition of the receiver packet kinds, tested in the code's order: connection change, controller status, chatpad handshake, input report, or other |
| Decoders.Xbox360Buttons | joystick.cpp:851-852 | reference definition of the receiver button word: the 16-bit field at bytes 6..7 |
| Decoders.Xbox360Decode | joystick.cpp:849-879 | the four sticks land signed in axes 0..3 and lt, rt in axes 4 and 5; no other axis changes; marks exactly the changed axes |
| Decoders.Xbox360StatusShadowsNoMoreEvents | joystick.cpp:829-833 | a "no more events" packet (byte 3 = 0xF0) is taken as a controller status whenever byte 4 is at least 0x22 |
| Decoders.Xbox360WiredUpdates | joystick.cpp:936-966 | the wired report updates six distinct standard axes, each marking itself |
| Decoders.Xbox360WiredButtons | joystick.cpp:938-939 | reference definition of the wired button word: the 16-bit field at bytes 2..3 |
| Decoders.Xbox360WiredDecode | joystick.cpp:936-966 | lt, rt land in axes 4 and 5 and the sticks signed in axes 0..3; no other axis changes; marks exactly the changed axes |
| Decoders.XboxDukeUpdates | joystick.cpp:970-1003 | the Duke report updates twelve distinct axes, each marking itself |
| Decoders.XboxDukeDecode | joystick.cpp:970-1003 | the eight analog buttons land in axes 0..7 and the sticks signed in axes 8..11; no other axis changes; marks exactly the changed axes |
| Decoders.BtPs3Updates | joystick.cpp:1054-1099 | the PS3 report makes one update per byte from byte 4 of the clamped length, on distinct axes, each marking itself |
| Decoders.BtPs3Decode | joystick.cpp:1066-1099 | bytes 6..8 land in axes 0..2, byte 9 in axis 5, bytes 18 and 19 in axes 3 and 4, and bytes from 10 on in their own axes; axes 6..9 are kept; the marks are the changed axes |
| Decoders.BtPs3DecodeFixed | joystick.cpp:1066-1099 | bytes 6..9, 18 and 19 land in axes 0..5 as laid out, and each byte from 10 on in its own axis |
| Decoders.BtPs3DecodeKept | joystick.cpp:1066-1099 | axes 6..9 and the axes past the report keep their values |
| Decoders.BtPs3MotionUpdates | joystick.cpp:1121-1130 | byte i (5 <= i < length) goes to axis i - 5 and marks bit i + 5, or nothing past bit 63 |
| Decoders.BtPs3MotionChangedBits | joystick.cpp:1121-1130 | bit k is marked exactly when 10 <= k < 64 and axis k - 10 differed from byte k - 5 |
| Decoders.BtPs3MotionDecode | joystick.cpp:1121-1130 | the Motion report copies bytes 5.. into axes 0.. and keeps the other axes |
| Decoders.BtGenericUpdates | joystick.cpp:1133-1145 | the generic report makes one self-marking update per byte, on distinct axes |
| Decoders.BtGenericDecode | joystick.cpp:1133-1145 | byte i lands in axis i for i below the clamped length; the other axes are kept |
| Decoders.BtReport01Updates | joystick.cpp:1051-1146 | the report-0x01 updates of every family stay inside `axis[]` |
| Decoders.BtReport01Buttons | joystick.cpp:1058-1065 | reference definition of the report-0x01 buttons: the 24-bit field at bytes 2..4 for PS3, 1..3 for Motion, none otherwise |
| Decoders.BtReport01AxisMask | joystick.cpp:1066-1129 | reference definition of `axis_mask_` after report 0x01 for each family and clamped length |
| Decoders.Ps4BtRepack | joystick.cpp:1159-1192 | `tmp_data` is the report without its first two bytes, except that bytes 5, 7 and 10 are rebuilt from the d-pad/button nibbles and the PS button bit |
| Decoders.Ps4BtButtonsCollide | joystick.cpp:1195 | `tmp_data[6]*10` is not a shift: two different reports give the same button word |
| Decoders.Ps4BtButtons | joystick.cpp:1195 | reference definition of the 0x11 button word, `tmp_data[6]*10` included |
| Decoders.Ps4BtUpdates | joystick.cpp:1200-1234 | the 0x11 branch makes 64 updates of distinct axes; axes 0..5 mark themselves, and axis i from 6 on stores `tmp_data[i]` and marks bit i - 6 |
| Decoders.Ps4BtChangedBits | joystick.cpp:1200-1234 | bit k is marked exactly when axis k (k < 6) or axis k + 6 (k < 58) changed |
| Decoders.Ps4BtDecode | joystick.cpp:1200-1234 | the 0x11 branch fills all 64 axes from the repacked bytes |
| Encoders.ChatpadKeepAlive | joystick.cpp:675-680 | the keep-alive sent is the first message exactly when the toggle was 0 before the tick |
| Encoders.KeepAliveAlternates | joystick.cpp:675-680 | n timer ticks send n keep-alives that alternate between the two messages |
| Encoders.InterleavedReceiverRepeats | joystick.cpp:675-680 | with the toggle shared, two receivers ticking in turn each get the same keep-alive on every one of their ticks: the first receiver is sent only `keepalive2` |
| Encoders.XboxOneRumbleClamped | joystick.cpp:140-158 | the XBOXONE command is 13 bytes, its motor forces never exceed 100, and each is exact when at most 100 |
| Encoders.XboxOneRumble | joystick.cpp:140-158 | reference definition of the XBOXONE rumble command, forces clamped to 100 |
| Encoders.Xbox360Rumble | joystick.cpp:159-175 | reference definition of the XBOX360 receiver rumble command |
| Encoders.Xbox360WiredRumble | joystick.cpp:176-187 | reference definition of the wired XBOX360 rumble command |
| Encoders.XboxDukeRumble | joystick.cpp:188-201 | reference definition of the Duke rumble command |
| Encoders.XboxRumbleForcesReadBack | joystick.cpp:159-203 | the XBOX360, wired and Duke rumble commands carry both forces unclamped, so equal commands mean equal forces |
| Encoders.Xbox360LedsWrap | joystick.cpp:223-242 | the XBOX360 LED command keeps byte 0 and writes `0x40 + lb`, which wraps for patterns 0xC0 and above |
| Encoders.Xbox360Leds | joystick.cpp:223-242 | reference definition of the XBOX360 receiver LED command: byte 0 as the buffer held it, then bytes 1..11 |
| Encoders.Xbox360WiredLeds | joystick.cpp:243-250 | reference definition of the wired XBOX360 LED command |
| Encoders.Ps4FeedbackUsb | joystick.cpp:267-282 | the USB PS4 report is 32 bytes |
| Encoders.Ps4FeedbackBt | joystick.cpp:283-304 | the Bluetooth PS4 report is 79 bytes |
| Encoders.Ps4FeedbackForms | joystick.cpp:267-306 | both PS4 forms carry rumble and colour in the same order, in their own slots |
| Encoders.Ps3FeedbackUsb | joystick.cpp:308-346 | the USB PS3 feedback report is 48 bytes |
| Encoders.Ps3FeedbackBt | joystick.cpp:320-346 | the Bluetooth PS3 feedback report is 50 bytes |
| Encoders.Ps3FeedbackBtSlots | joystick.cpp:320-346 | the Bluetooth report is the `52 01` header, then the template with the slots two bytes on |
| Encoders.Ps3FeedbackLayout | joystick.cpp:308-346 | slots 1..4 and 9 carry the request and every other byte is the template |
| Encoders.Ps3FeedbackLedCollision | joystick.cpp:328 | the LED shift loses the top bit: LED values 0x01 and 0x81 give the same report |
| Encoders.MotionFeedbackUsb | joystick.cpp:351-373 | the USB Motion form keeps the buffer length |
| Encoders.MotionFeedbackBt | joystick.cpp:351-373 | the Bluetooth Motion form keeps the buffer length |
| Encoders.MotionFeedbackLayout | joystick.cpp:351-373 | both Motion forms carry colour and rumble one byte apart and keep every other byte of `txbuf_` |
| Encoders.Reversed | joystick.cpp:1338-1339 | the address is written backwards, byte for byte |
| Encoders.ReversedTwice | joystick.cpp:1338-1339 | reversing twice gives the address back |
| Encoders.PairReportsCarryAddress | joystick.cpp:1331-1357 | the host address is recovered from the PS3 report (reversed) and from the Motion report (as is) |
| Encoders.Ps3PairReport | joystick.cpp:1333-1339 | reference definition of the PS3 pairing report: `01 00` and the address reversed |
| Encoders.Ps3MotionPairReport | joystick.cpp:1343-1352 | reference definition of the Motion pairing report: `05`, the address in order and the fixed tail |
| Feedback.Overwrite | joystick.cpp:1345-1352 | copying into `txbuf_` keeps its length |
| Feedback.OverwriteReads | joystick.cpp:1345-1352 | the copied window reads back the packet and every byte outside it is the old one |
| Feedback.OverwriteAgain | joystick.cpp:207-258 | a second copy over the same window hides the first |
| Feedback.OverwriteSkipFirst | joystick.cpp:223-242 | writing bytes 1.. of a command whose byte 0 is already in place is writing the whole command |
| Feedback.OverwriteUpdate | joystick.cpp:324-328 | writing one byte inside a copied window is copying the updated packet |
| Feedback.OverwriteAfterTwo | joystick.cpp:332-334 | two header bytes then a copy at offset 2 is one copy of header plus packet |
| Feedback.PsTransmitDrivers | joystick.cpp:267-373 | a PlayStation feedback report goes out on exactly one link: USB when the HID driver is there, else Bluetooth, else nothing, and the answer is false with no link |
| Feedback.Ps4Transmit | joystick.cpp:267-306 | reference definition of `transmitPS4UserFeedbackMsg`: the report on the stack, sent over USB or on the Bluetooth control channel |
| Feedback.Ps3Transmit | joystick.cpp:320-346 | reference definition of `transmitPS3UserFeedbackMsg`: the report composed in `txbuf_` and sent on the link |
| Feedback.MotionTransmit | joystick.cpp:351-373 | reference definition of `transmitPS3MotionUserFeedbackMsg`: a few bytes of `txbuf_` set and its head sent |
| Feedback.PsTransmitCarries | joystick.cpp:267-373 | the request sent carries the rumble forces and the LED values in the family's slots |
| Feedback.Ps4TransmitCarries | joystick.cpp:267-306 | the PS4 report carries the forces at 4, 5 and the colour at 6..8 over USB, at 7, 8 and 9..11 on the control channel over Bluetooth |
| Feedback.Ps3TransmitCarries | joystick.cpp:320-346 | the PS3 report carries the durations, forces and shifted LED byte in its slots, two bytes on over Bluetooth |
| Feedback.XboxRumbleQueued | joystick.cpp:140-203 | an Xbox rumble command is written at the start of `txbuf_` and queued as written |
| Feedback.RumbleOutcome | joystick.cpp:123-204 | reference definition of `setRumble` after storing: PlayStation families transmit feedback, Xbox families queue their command and answer true, others answer false |
| Feedback.LedsRepeatQuiet | joystick.cpp:211 | setting the same LED values twice: the second call sends nothing and answers false |
| Feedback.LedsOutcome | joystick.cpp:207-258 | reference definition of `setLEDs`: nothing unless the values are new, then the family's transfer |
| Feedback.LedsSent | joystick.cpp:213-256 | reference definition of the transfer `setLEDs` makes for new values |
| Feedback.LedsOffThenOn | joystick.cpp:821-822 | `setLEDs(0); setLEDs(q)` on an XBOX360 family sends the on command for q last and leaves it in `txbuf_` |
| Feedback.PairCarriesAddress | joystick.cpp:1331-1357 | pairing sends a control transfer with the address only to a USB PS3 or Motion controller |
| Feedback.PairOutcome | joystick.cpp:1331-1357 | reference definition of `PS3Pair`: a control transfer for a USB PS3 or Motion controller, false otherwise |
| Controller.KeepAliveToggle.constructor | joystick.cpp:675 | the shared toggle starts at 1, as the `static` initialiser says |
| Controller.JoystickController.constructor | joystick.cpp:417 | a new controller has the header's default state: no device, no buttons, zero axes and LEDs, the ten standard axes notified, and shares the keep-alive toggle it is given without changing it |
| Controller.JoystickController.JoystickDataClear | joystick.cpp:507-512 | the event, `anychange` and both masks are cleared |
| Controller.JoystickController.Disconnect | joystick.cpp:1013-1019 | the masks are cleared, the timer stopped and the device forgotten |
| Controller.JoystickController.DisconnectCollection | joystick.cpp:423-431 | the claim count drops by one (mod 256), and on reaching 0 the HID device and masks are released |
| Controller.JoystickController.ReleaseBluetooth | joystick.cpp:1321-1328 | the Bluetooth device and driver are released and `connected_` cleared |
| Controller.JoystickController.TimerEvent | joystick.cpp:667-683 | on the XBOX360 receiver the refresh, info and keep-alive go out and the shared toggle flips, so the alternation runs across every receiver's ticks; every family re-arms the timer and no other family touches the toggle |
| Controller.JoystickController.Claim | joystick.cpp:533-665 | a bound controller refuses; otherwise the claim succeeds exactly when the interface is claimable and both pipes open; the pipes, init transfers and timer are requested in order; on success the family, device, `connected_` and zeroed axes are set, and on failure none of them change |
| Controller.JoystickController.OpenInterface | joystick.cpp:617-664 | the pipes are requested, and when both open the family's init transfers and the timer follow |
| Controller.ClaimRequests | joystick.cpp:621-664 | reference definition of what `claim` requests once both endpoints are found: the pipes, then (if both open) the receive transfer, the family init and the timer |
| Controller.ClaimInitRequests | joystick.cpp:626-660 | reference definition of each family's init transfers |
| Controller.JoystickController.StartInterface | joystick.cpp:629-664 | once both pipes are open: the first receive transfer, the family init, the axes cleared, the timer started and the device bound |
| Controller.JoystickController.ClearAxes | joystick.cpp:661 | every axis is zero |
| Controller.JoystickController.ClaimInit | joystick.cpp:626-660 | each family's init packets are queued; `connected_` is 0 for the receiver and 1 for the others; the wired controller's LEDs are reset to quadrant 2 |
| Controller.JoystickController.ClaimCollection | joystick.cpp:379-421 | a joystick top usage on a free or already-bound device is claimed, with the table family and its window; anything else changes nothing |
| Controller.JoystickController.SetAxisWindow | joystick.cpp:399-417 | the extended axis window and notify mask are those of the family found |
| Controller.JoystickController.StoreHidAxis | joystick.cpp:457-488 | the axis is marked present and stored; a different value marks it changed and raises `anychange` if it is notified; nothing else changes |
| Controller.JoystickController.StoreButton | joystick.cpp:444-456 | the button follows the value, the other bits keep theirs, and `anychange` rises exactly when it flips |
| Controller.JoystickController.HidInputData | joystick.cpp:438-492 | each usage updates exactly its button or axis as routed, or nothing |
| Controller.JoystickController.HidInputEnd | joystick.cpp:494-499 | a report with a change raises the event |
| Controller.JoystickController.ApplyUpdates | joystick.cpp:790-806 | the compare-and-store loop leaves the fold's axes and changed mask, and sets `anychange` exactly when asked and some axis changed |
| Controller.JoystickController.RxData | joystick.cpp:780-1007 | the family's effect on the receive state (buttons, axes, masks, event, LEDs, `txbuf_`, rumble and the requests it makes) happens as the family's effect predicate says, then the receive transfer is queued again last; other families change nothing else |
| Controller.JoystickController.RxFamily | joystick.cpp:780-1007 | the receive dispatch: the family's effect predicate holds of the state before and after, and every non-Xbox family changes nothing |
| RawReports.QueueAll | joystick.cpp:905-915 | one queued transfer per command, in order, each carrying that command |
| RawReports.LedResetRequests | joystick.cpp:821-822 | reference definition of the requests of `setLEDs(0); setLEDs(q)`: the off command only when the LEDs were on, then the on command |
| Controller.JoystickController.RxXboxOne | joystick.cpp:785-809 | every packet resets the masks; an input report stores the decoded buttons and the six axes as the fold says and raises the event, with `anychange` when buttons or axes changed; nothing else changes |
| Controller.JoystickController.StoreXboxOneReport | joystick.cpp:790-807 | with the masks reset, the report's buttons and six axes are stored as the fold says, `anychange` follows a change, and the event is raised |
| Controller.JoystickController.StoreXbox360Report | joystick.cpp:849-879 | the buttons and six axes are stored as the fold says, `anychange` rises on a button or axis change, and the event follows `anychange` |
| Controller.JoystickController.Xbox360Connection | joystick.cpp:815-828 | a new controller id sets `connected_`, LED values [0,0,q] for the endpoint's quadrant q, the LED command in `txbuf_` and the off/on requests; a disconnect turns the LEDs off as `setLEDs(0,0,0)` does; the same id changes nothing |
| Controller.JoystickController.RxXbox360 | joystick.cpp:811-921 | each receiver packet kind has its effect: connection (LEDs, `txbuf_`, requests), chatpad handshake (the chatpad init queued), input report (controller data stored, chatpad init and LED commands queued), or nothing |
| Controller.JoystickController.RxXbox360Input | joystick.cpp:849-916 | a report with controller data stores buttons and axes (event following `anychange`); then the chatpad init and the reconciliation commands are queued as the report asks; nothing else changes |
| Controller.JoystickController.QueueChatpadRequests | joystick.cpp:886-916 | "chatpad init needed" queues the chatpad init; a chatpad LED status with bit 7 of byte 26 queues the reconciliation commands in order |
| Controller.JoystickController.RxXbox360Wired | joystick.cpp:923-969 | a rumble status stops the rumble with its command, an invalid LED status resets the quadrant with its commands, an input report stores buttons and axes, and anything else changes nothing |
| Controller.JoystickController.StopWiredRumble | joystick.cpp:925-928 | the rumble values become 0, the wired stop command is written at the start of `txbuf_` and queued, and nothing else changes |
| Controller.JoystickController.ResetWiredLeds | joystick.cpp:929-935 | the LEDs become [0,0,2], the wired quadrant command is left in `txbuf_`, the off command is queued only when the LEDs were on and then the on command; nothing else changes |
| Controller.JoystickController.RxXboxDuke | joystick.cpp:970-1003 | the 00 14 report stores the digital buttons and twelve axes as the fold says and raises the event on a change; anything else changes nothing |
| Controller.JoystickController.StoreDukeReport | joystick.cpp:971-1002 | the Duke buttons and twelve axes are stored as the fold says and the event follows `anychange` |
| Controller.JoystickController.ProcessBluetoothHidData | joystick.cpp:1044-1242 | reports 0x01 and 0x11 are decoded, only 0x01 answers true, and other reports change nothing |
| Controller.JoystickController.BtReport01 | joystick.cpp:1051-1152 | the family's buttons and axes are stored, the event is raised on a notified change or a button change, and `connected_` is set |
| Controller.JoystickController.StoreBtButtons | joystick.cpp:1058-1065 | a family with a button layout stores its buttons, and the event is raised exactly when they changed |
| Controller.JoystickController.StoreBtAxes | joystick.cpp:1146-1151 | the axis mask and compare-and-stores are applied to the changed mask as it was, the event is raised on a notified change and `connected_` set |
| Controller.JoystickController.BtReport11 | joystick.cpp:1153-1240 | both masks are cleared, the repacked buttons and all 64 axes are stored, the event is raised and `connected_` is set |
| Controller.JoystickController.StorePs4Report | joystick.cpp:1195-1240 | the repacked buttons, the fixed axis mask and the 64 compare-and-stores are applied, then the event and `connected_` are set |
| Controller.JoystickController.MapNameToJoystickType | joystick.cpp:1244-1267 | the family becomes the one the name's prefix says, and the answer is true |
| Controller.JoystickController.ClaimBluetooth | joystick.cpp:1021-1041 | a gamepad class is claimed, and so is a PS3 or Motion controller by name alone, which needs the PS3 id handling |
| Controller.JoystickController.RemoteNameComplete | joystick.cpp:1270-1283 | the name picks the family, and the PlayStation families get their connection handling |
| Controller.JoystickController.WriteTx | joystick.cpp:1345-1352 | the bytes are copied into `txbuf_` at the offset |
| Controller.JoystickController.TransmitPs4Feedback | joystick.cpp:267-306 | the PS4 report is sent on the link the transmit function chooses, with its answer |
| Controller.JoystickController.ComposePs3Usb | joystick.cpp:322-328 | `txbuf_` starts with the USB PS3 report |
| Controller.JoystickController.ComposePs3Bt | joystick.cpp:332-340 | `txbuf_` starts with the Bluetooth PS3 report |
| Controller.JoystickController.TransmitPs3Feedback | joystick.cpp:320-346 | the PS3 report is composed in `txbuf_` and sent on the link chosen |
| Controller.JoystickController.TransmitPs3MotionFeedback | joystick.cpp:351-373 | the Motion bytes are set in `txbuf_` and sent on the link chosen |
| Controller.JoystickController.QueueTxCommand | joystick.cpp:140-203 | the command is written at the start of `txbuf_` and queued |
| Controller.JoystickController.SetRumble | joystick.cpp:123-204 | the three values are stored and the family's command or report is sent, as the rumble function says |
| Controller.JoystickController.TransmitFeedback | joystick.cpp:134-139 | a PlayStation family sends its own feedback report with the stored rumble and LED values |
| Controller.JoystickController.QueueXbox360Leds | joystick.cpp:223-242 | bytes 1..11 of the XBOX360 LED command are written and the 12 bytes queued |
| Controller.JoystickController.SetLeds | joystick.cpp:207-258 | the LED values are stored and, only when they are new, the family's command is sent |
| Controller.JoystickController.SendLeds | joystick.cpp:213-256 | the LED transfer of the family for the values just stored, as the LED function says |
| Controller.JoystickController.ResetLedQuadrant | joystick.cpp:928-931 | `setLEDs(0); setLEDs(q)` leaves LEDs [0,0,q] and the on command in `txbuf_`, and sends the off command only when the LEDs were on |
| Controller.JoystickController.SendRaw | joystick.cpp:260-265 | the bytes are queued as given, with the transfer's answer |
| Controller.JoystickController.Ps3Pair | joystick.cpp:1331-1357 | a USB PS3 or Motion controller is sent the host address report; other cases send nothing |
| Controller.JoystickController.WritePs3PairReport | joystick.cpp:1335-1339 | `txbuf_` starts with `01 00` and the address reversed |
| Controller.JoystickController.WriteMotionPairReport | joystick.cpp:1345-1352 | `txbuf_` starts with `05`, the address in order and the fixed tail |
| Controller.JoystickController.ConnectionComplete | joystick.cpp:1285-1319 | a PS4 is asked for feature report 2, a PS3 is sent the enable command, a Motion controller has its LEDs set green, and other families get nothing |

## Left out

- The USB plumbing is not modelled (`contribute_Pipes`, transfers, string buffers, driver registration in `init`, the `rx_callback`/`tx_callback`/`control` hooks). New pipes and transfers appear only as requests, and their success is a parameter.
- The string accessors `manufacturer`, `product`, `serialNumber`, `idVendor` and `idProduct` are left out: they read the host core's string buffers, which are not part of this model.
- Debug output (`DBGPrintf`, `println`) and `hid_process_out_data` are left out: they have no effect on state.
- The `delay(1)` before each L2CAP command in `connectionComplete` (`joystick.cpp:1295`, `1310`) is left out: it only waits and changes no state.
- The timer service is not modelled: starting and stopping it is recorded as a request. `TimerEvent` models a tick of the controller's own periodic timer; `timer_event` for any other timer does nothing in the code (`joystick.cpp:669`) and is not modelled. The `static int toggle` is one `Controller.KeepAliveToggle` object. Every controller is constructed with a reference to it, so all receivers that share it alternate one toggle between them.
- The `device` field belongs to the USB driver base class and is set and cleared by the host core. The model's `Claim` sets it on success and `Disconnect` clears it, so the "already bound" refusal of `claim` can be stated.
- The XBOX360 chatpad LED reconciliation (`joystick.cpp:893-916`) compares `chatpad_led_actual` with `chatpad_led_wanted` and builds commands from `xbox360w_chatpad_led_ctrl`. Those arrays, the template and `CHATPAD_LED_MAX` are declared in the header, which is not part of this model. So the commands a chatpad LED status report produces are a parameter, `chatpadLeds`, of `Controller.JoystickController.RxData`. The model fixes when they are queued (chatpad-data bit, `F0 04` at bytes 24..25, bit 7 of byte 26) and that they are queued in order after the chatpad init. It does not model the update of `chatpad_led_actual` from byte 26.
- The 0x11 copy loop into `tmp_data` is modelled as the function `Decoders.Ps4BtRepack`, not as a loop. The axis-mask loops of the Bluetooth branches are computed as functions (`Decoders.BtReport01AxisMask`) rather than stepped.
- Controller.JoystickController.ProcessBluetoothHidData: requires as many bytes as each branch reads. The code reads `data[18]`, `data[19]` for PS3 and `data[65]` for 0x11 whatever `length` is, so a shorter report is a read past the buffer, which the model does not describe.
- Classify.ClassifyInterface: requires that the endpoint scan stop before it reads past the descriptors. The code does not compare the scan position with `len`, so a scan that would read past them is undefined behaviour. `Classify.ScanInside` follows each exit of the loop: no endpoints left to scan, both endpoints found, or a malformed descriptor. So the only descriptors excluded are those on which the code itself reads out of bounds; declaring more endpoints than the descriptors hold is allowed whenever the scan stops earlier.
- Controller.JoystickController.SendRaw: requires fewer than 256 bytes, the range of its `uint8_t` length.
- Controller.JoystickController.ConnectionComplete: requires the Bluetooth driver for PS4 and PS3, since the code dereferences `btdriver_` there.
- Controller.JoystickController.RxData: the receive buffer is modelled as its 64 bytes, and `length` only gates the XBOXONE report, as in the code.
- The `requests` log records a transfer's bytes when it is queued. The code queues `txbuf_` by pointer (`joystick.cpp:239`, `247`), so the bytes sent are those in the buffer when the transfer runs. After `setLEDs(0); setLEDs(2)`, for example, both transfers may carry the second command's bytes. The model does not describe transfer timing.
- The one-argument `setLEDs(v)` overload declared in the header is not part of this model. Its call sites are modelled as `setLEDs(0, 0, v)`.
- The header constants are not part of this model, so their values are taken as stated in `JoystickTypes` (axis counts, buffer sizes, L2CAP channel ids, timer period).
