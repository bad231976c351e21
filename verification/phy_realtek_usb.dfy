/** The RTL819x USB PHY power sequencer (drivers/phy/realtek/phy-realtek-usb.c).

    Power-on and power-off are fixed sequences of masked writes to three
    system-controller registers. Each routine is modelled twice: as the
    sequence of events it issues (`EnableSeq`, `PowerOnSeq`, `PowerOffSeq`),
    and as a method of `UsbPhy` that issues them through the shared
    `Regmap`, proved to leave exactly the registers that `Apply` of that
    sequence gives. The lemmas then state the bit-level effect of each
    sequence, its idempotence and its ordering. */
module RealtekUsbPhy {
  import opened Bits
  import opened RegisterMap

  // ---------------------------------------------------------------------
  // Register layout

  /** Register offsets in the system-controller block. */
  const RegClkManage: int := 0x10
  const RegUsbSie: int := 0x34
  const RegUsbPhy: int := 0x90

  /** USB_SIE: global PHY enable (bit 12). */
  const SiePhyEnable: bv32 := 0x1000
  /** USB_SIE: force port 1 into host mode (bit 18). */
  const SiePhy1HostMode: bv32 := 0x4_0000
  /** USB_SIE bits power-on sets together: UTMI suspend disable (11), the
      global PHY enable (12) and page-boundary disable (17). */
  const SieEnableBits: bv32 := 0x2_1800
  /** CLK_MANAGE: the two bus clock lanes (12, 13, 19, 20) and the USB host
      IP enable (21). */
  const ClkUsbBits: bv32 := 0x38_3000
  /** USB_PHY bits power-off clears: bit 8 and bit 19, the PHY enable bits
      of ports 0 and 1. */
  const PhyOffBits: bv32 := 0x8_0100

  /** The registers the driver relies on are all in the block. */
  predicate Covers(r: Regs) {
    RegClkManage in r && RegUsbSie in r && RegUsbPhy in r
  }

  /** The driver programs ports 0 and 1 only. */
  type Port = p: int | 0 <= p <= 1

  /** Position of control bit `field` (0 = PHY enable, 1 = PHY reset,
      2 = UTMI transceiver active) of `port` in USB_PHY: each port's field
      starts at bit 8 + 11 * port. Every position used is a valid shift of a
      32-bit value. */
  function PortBitPos(port: Port, field: nat): (pos: nat)
    requires field <= 2
    ensures 8 <= pos <= 21
    ensures pos < 32
  {
    8 + field + port * 11
  }

  /** The single-bit mask `1 << i`, as the C expression `(1<<(i))`; the
      shift is only defined for `i < 32`. */
  function Bit(i: nat): bv32
    requires i < 32
  {
    1 << i
  }

  /** USB_PHY control bits of a port, at the positions `PortBitPos` gives
      (see `PortMasks`). */
  function PhyEnableBit(port: Port): bv32 { if port == 0 then 0x100 else 0x8_0000 }
  function PhyResetBit(port: Port): bv32 { if port == 0 then 0x200 else 0x10_0000 }
  function PhyActiveBit(port: Port): bv32 { if port == 0 then 0x400 else 0x20_0000 }

  /** The three control bits of one port. */
  function PortBits(port: Port): bv32 {
    PhyEnableBit(port) | PhyResetBit(port) | PhyActiveBit(port)
  }

  /** The masks of each port's three control bits. */
  lemma PortBitsValues()
    ensures PortBits(0) == 0x700 && PortBits(1) == 0x38_0000
  {
  }

  /** Each port mask is the single bit `1 << (8 + field + 11 * port)`: bits
      8, 9, 10 for port 0 and 19, 20, 21 for port 1, so the two ports'
      fields do not overlap. */
  lemma PortMasks(port: Port)
    ensures PhyEnableBit(port) == Bit(PortBitPos(port, 0))
    ensures PhyResetBit(port) == Bit(PortBitPos(port, 1))
    ensures PhyActiveBit(port) == Bit(PortBitPos(port, 2))
    ensures PortBits(0) & PortBits(1) == 0
  {
    if port == 0 {
      assert Bit(8) == 0x100 && Bit(9) == 0x200 && Bit(10) == 0x400;
    } else {
      assert Bit(19) == 0x8_0000 && Bit(20) == 0x10_0000 && Bit(21) == 0x20_0000;
    }
  }

  /** The register masks, as the single-bit shifts they are built from. */
  lemma MasksAsShifts()
    ensures SiePhyEnable == Bit(12) && SiePhy1HostMode == Bit(18)
    ensures SieEnableBits == Bit(11) | SiePhyEnable | Bit(17)
    ensures ClkUsbBits == Bit(12) | Bit(13) | Bit(19) | Bit(20) | Bit(21)
    ensures PhyOffBits == Bit(8) | Bit(19)
    ensures PhyOffBits == PhyEnableBit(0) | PhyEnableBit(1)
  {
    assert Bit(11) == 0x800 && Bit(12) == 0x1000 && Bit(13) == 0x2000;
    assert Bit(17) == 0x2_0000 && Bit(18) == 0x4_0000;
    assert Bit(8) == 0x100 && Bit(19) == 0x8_0000 && Bit(20) == 0x10_0000 && Bit(21) == 0x20_0000;
  }

  // ---------------------------------------------------------------------
  // The event sequences of the three routines

  /** `realtek_usb_phy_enable(phy, port)`: enable the PHY and assert its
      (active-high) reset in one write, then release reset and activate the
      UTMI transceiver in a second write that touches only those two bits. */
  function EnableSeq(port: Port): seq<Op> {
    [ Write(RegUsbPhy, PhyEnableBit(port) | PhyResetBit(port), PhyEnableBit(port) | PhyResetBit(port)),
      Write(RegUsbPhy, PhyResetBit(port) | PhyActiveBit(port), PhyActiveBit(port)) ]
  }

  /** The two writes of `EnableSeq`, by their masks. */
  lemma EnableSeqWrites(port: Port)
    ensures EnableSeq(port) ==
      [Write(RegUsbPhy, PhyEnableBit(port) | PhyResetBit(port), PhyEnableBit(port) | PhyResetBit(port))] +
      [Write(RegUsbPhy, PhyResetBit(port) | PhyActiveBit(port), PhyActiveBit(port))]
  {
  }

  /** The USB_SIE part of power-on: the port-1 host-mode bit is cleared in
      single-port mode and set otherwise; then bits 11, 12, 17 are set. */
  function SieOnSeq(oneportsel: bool): seq<Op> {
    [ Write(RegUsbSie, SiePhy1HostMode, if oneportsel then 0 else SiePhy1HostMode),
      Write(RegUsbSie, SieEnableBits, SieEnableBits) ]
  }

  /** The ports power-on programs: 0 then 1 in single-port mode, only 1
      otherwise. */
  function PortsOnSeq(oneportsel: bool): seq<Op> {
    if oneportsel then EnableSeq(0) + EnableSeq(1) else EnableSeq(1)
  }

  /** The end of power-on: switch the clocks on, then wait 100 ms. */
  function ClkOnSeq(): seq<Op> {
    [ Write(RegClkManage, ClkUsbBits, ClkUsbBits), Delay(100) ]
  }

  /** `realtek_usb_phy_power_on`. */
  function PowerOnSeq(oneportsel: bool): seq<Op> {
    SieOnSeq(oneportsel) + PortsOnSeq(oneportsel) + ClkOnSeq()
  }

  /** The three parts of `PowerOnSeq`, by their writes. */
  lemma PowerOnParts(oneportsel: bool)
    ensures SieOnSeq(oneportsel) ==
      [Write(RegUsbSie, SiePhy1HostMode, if oneportsel then 0 else SiePhy1HostMode)] +
      [Write(RegUsbSie, SieEnableBits, SieEnableBits)]
    ensures ClkOnSeq() == [Write(RegClkManage, ClkUsbBits, ClkUsbBits)] + [Delay(100)]
    ensures PowerOnSeq(oneportsel) == SieOnSeq(oneportsel) + PortsOnSeq(oneportsel) + ClkOnSeq()
  {
  }

  /** `realtek_usb_phy_power_off`: clocks off, both PHY enable bits off,
      global PHY enable off. */
  function PowerOffSeq(): seq<Op> {
    [ Write(RegClkManage, ClkUsbBits, 0),
      Write(RegUsbPhy, PhyOffBits, 0),
      Write(RegUsbSie, SiePhyEnable, 0) ]
  }

  /** `PowerOffSeq`, write by write. */
  lemma PowerOffWrites()
    ensures PowerOffSeq() ==
      [Write(RegClkManage, ClkUsbBits, 0)] + [Write(RegUsbPhy, PhyOffBits, 0)] + [Write(RegUsbSie, SiePhyEnable, 0)]
  {
  }

  // ---------------------------------------------------------------------
  // Bit-level effects

  /** Registers other than the three the driver uses are as they were. */
  ghost predicate OthersUnchanged(after: Regs, before: Regs) {
    forall k :: k in before && k != RegClkManage && k != RegUsbSie && k != RegUsbPhy ==>
      k in after && after[k] == before[k]
  }

  /** Port `port` is enabled, out of reset and its transceiver active. */
  predicate PortProgrammed(phy: bv32, port: Port) {
    IsSet(phy, PhyEnableBit(port) | PhyActiveBit(port)) && IsClear(phy, PhyResetBit(port))
  }

  /** The enable sequence of `port` leaves USB_PHY with that port enabled,
      out of reset and active and every other USB_PHY bit as it was, and
      changes no other register. Its first write leaves the PHY enabled with
      reset asserted, so reset is released only after it was asserted. */
  lemma EnableEffect(r: Regs, port: Port)
    requires RegUsbPhy in r
    ensures var mid := Step(r, EnableSeq(port)[0]);
      RegUsbPhy in mid && IsSet(mid[RegUsbPhy], PhyEnableBit(port) | PhyResetBit(port))
    ensures var r' := Apply(r, EnableSeq(port));
      && r'.Keys == r.Keys
      && PortProgrammed(r'[RegUsbPhy], port)
      && SameOutside(r'[RegUsbPhy], r[RegUsbPhy], PortBits(port))
      && forall k :: k in r && k != RegUsbPhy ==> r'[k] == r[k]
  {
    var s := EnableSeq(port);
    ApplyTwo(r, s[0], s[1]);
    assert s == [s[0], s[1]];
  }

  /** The USB_SIE part of power-on sets bits 11, 12 and 17, programs bit 18
      from `oneportsel`, and changes nothing else. */
  lemma SieOnEffect(r: Regs, oneportsel: bool)
    requires RegUsbSie in r
    ensures var r' := Apply(r, SieOnSeq(oneportsel));
      && r'.Keys == r.Keys
      && IsSet(r'[RegUsbSie], SieEnableBits)
      && (if oneportsel then IsClear(r'[RegUsbSie], SiePhy1HostMode) else IsSet(r'[RegUsbSie], SiePhy1HostMode))
      && SameOutside(r'[RegUsbSie], r[RegUsbSie], SieEnableBits | SiePhy1HostMode)
      && forall k :: k in r && k != RegUsbSie ==> r'[k] == r[k]
  {
    var s := SieOnSeq(oneportsel);
    ApplyTwo(r, s[0], s[1]);
    assert s == [s[0], s[1]];
  }

  /** The port part of power-on: in single-port mode both ports end
      programmed and only their six bits of USB_PHY change; otherwise only
      port 1 is programmed and bits 8 to 10 keep their values. */
  lemma PortsOnEffect(r: Regs, oneportsel: bool)
    requires RegUsbPhy in r
    ensures var r' := Apply(r, PortsOnSeq(oneportsel));
      && r'.Keys == r.Keys
      && PortProgrammed(r'[RegUsbPhy], 1)
      && (if oneportsel
          then PortProgrammed(r'[RegUsbPhy], 0) && SameOutside(r'[RegUsbPhy], r[RegUsbPhy], PortBits(0) | PortBits(1))
          else SameOutside(r'[RegUsbPhy], r[RegUsbPhy], PortBits(1)))
      && forall k :: k in r && k != RegUsbPhy ==> r'[k] == r[k]
  {
    if oneportsel {
      var r0 := Apply(r, EnableSeq(0));
      ApplyAppend(r, EnableSeq(0), EnableSeq(1));
      EnableEffect(r, 0);
      EnableEffect(r0, 1);
    } else {
      EnableEffect(r, 1);
    }
  }

  /** The end of power-on sets the five clock bits of CLK_MANAGE and
      changes nothing else. */
  lemma ClkOnEffect(r: Regs)
    requires RegClkManage in r
    ensures var r' := Apply(r, ClkOnSeq());
      && r'.Keys == r.Keys
      && IsSet(r'[RegClkManage], ClkUsbBits)
      && SameOutside(r'[RegClkManage], r[RegClkManage], ClkUsbBits)
      && forall k :: k in r && k != RegClkManage ==> r'[k] == r[k]
  {
    var s := ClkOnSeq();
    ApplyTwo(r, s[0], s[1]);
    assert s == [s[0], s[1]];
  }

  /** What power-on leaves in the registers, started from `before`. */
  ghost predicate PoweredOn(after: Regs, before: Regs, oneportsel: bool)
    requires Covers(before)
  {
    && after.Keys == before.Keys
    // USB_SIE
    && IsSet(after[RegUsbSie], SieEnableBits)
    && (if oneportsel then IsClear(after[RegUsbSie], SiePhy1HostMode) else IsSet(after[RegUsbSie], SiePhy1HostMode))
    && SameOutside(after[RegUsbSie], before[RegUsbSie], SieEnableBits | SiePhy1HostMode)
    // USB_PHY
    && PortProgrammed(after[RegUsbPhy], 1)
    && (if oneportsel
        then PortProgrammed(after[RegUsbPhy], 0) && SameOutside(after[RegUsbPhy], before[RegUsbPhy], PortBits(0) | PortBits(1))
        else SameOutside(after[RegUsbPhy], before[RegUsbPhy], PortBits(1)))
    // CLK_MANAGE
    && IsSet(after[RegClkManage], ClkUsbBits)
    && SameOutside(after[RegClkManage], before[RegClkManage], ClkUsbBits)
    && OthersUnchanged(after, before)
  }

  /** What power-off leaves in the registers, started from `before`. */
  ghost predicate PoweredOff(after: Regs, before: Regs)
    requires Covers(before)
  {
    && after.Keys == before.Keys
    && IsClear(after[RegClkManage], ClkUsbBits)
    && SameOutside(after[RegClkManage], before[RegClkManage], ClkUsbBits)
    && IsClear(after[RegUsbPhy], PhyOffBits)
    && SameOutside(after[RegUsbPhy], before[RegUsbPhy], PhyOffBits)
    && IsClear(after[RegUsbSie], SiePhyEnable)
    && SameOutside(after[RegUsbSie], before[RegUsbSie], SiePhyEnable)
    && OthersUnchanged(after, before)
  }

  /** Power-on programs exactly the bits `PoweredOn` names. */
  lemma PowerOnEffect(r: Regs, oneportsel: bool)
    requires Covers(r)
    ensures PoweredOn(Apply(r, PowerOnSeq(oneportsel)), r, oneportsel)
  {
    var s, p, c := SieOnSeq(oneportsel), PortsOnSeq(oneportsel), ClkOnSeq();
    var r1 := Apply(r, s);
    var r2 := Apply(r1, p);
    ApplyAppend(r, s, p);
    ApplyAppend(r, s + p, c);
    SieOnEffect(r, oneportsel);
    PortsOnEffect(r1, oneportsel);
    ClkOnEffect(r2);
  }

  /** Power-off rewrites each of its three registers once, through its
      own mask. */
  lemma PowerOffRegs(r: Regs)
    requires Covers(r)
    ensures var off := Apply(r, PowerOffSeq());
      && off.Keys == r.Keys
      && off[RegClkManage] == Update(r[RegClkManage], ClkUsbBits, 0)
      && off[RegUsbPhy] == Update(r[RegUsbPhy], PhyOffBits, 0)
      && off[RegUsbSie] == Update(r[RegUsbSie], SiePhyEnable, 0)
      && OthersUnchanged(off, r)
  {
    var s := PowerOffSeq();
    ApplyAppend(r, [s[0], s[1]], [s[2]]);
    assert s == [s[0], s[1]] + [s[2]];
    ApplyTwo(r, s[0], s[1]);
    ApplyOne(Step(Step(r, s[0]), s[1]), s[2]);
  }

  /** Power-off clears exactly the clock bits, bits 8 and 19 of USB_PHY and
      the global PHY enable. */
  lemma PowerOffEffect(r: Regs)
    requires Covers(r)
    ensures PoweredOff(Apply(r, PowerOffSeq()), r)
  {
    PowerOffRegs(r);
  }

  // ---------------------------------------------------------------------
  // Idempotence and the power cycle

  /** A state that power-on produced (`a`) is left unchanged by a second
      power-on in the same mode (`c`). */
  lemma PoweredOnStable(r: Regs, a: Regs, c: Regs, oneportsel: bool)
    requires Covers(r) && Covers(a)
    requires PoweredOn(a, r, oneportsel)
    requires PoweredOn(c, a, oneportsel)
    ensures c == a
  {
    MaskedParts(c[RegUsbSie], a[RegUsbSie], SieEnableBits | SiePhy1HostMode);
    MaskedParts(c[RegClkManage], a[RegClkManage], ClkUsbBits);
    if oneportsel {
      MaskedParts(c[RegUsbPhy], a[RegUsbPhy], PortBits(0) | PortBits(1));
    } else {
      MaskedParts(c[RegUsbPhy], a[RegUsbPhy], PortBits(1));
    }
    forall k | k in a
      ensures c[k] == a[k]
    {
    }
  }

  /** Power-on is idempotent on register state. */
  lemma PowerOnIdempotent(r: Regs, oneportsel: bool)
    requires Covers(r)
    ensures Apply(Apply(r, PowerOnSeq(oneportsel)), PowerOnSeq(oneportsel)) == Apply(r, PowerOnSeq(oneportsel))
  {
    var a := Apply(r, PowerOnSeq(oneportsel));
    PowerOnEffect(r, oneportsel);
    PowerOnEffect(a, oneportsel);
    PoweredOnStable(r, a, Apply(a, PowerOnSeq(oneportsel)), oneportsel);
  }

  /** Power-off is idempotent on register state. */
  lemma PowerOffIdempotent(r: Regs)
    requires Covers(r)
    ensures Apply(Apply(r, PowerOffSeq()), PowerOffSeq()) == Apply(r, PowerOffSeq())
  {
    var a := Apply(r, PowerOffSeq());
    var c := Apply(a, PowerOffSeq());
    PowerOffEffect(r);
    PowerOffEffect(a);
    MaskedParts(c[RegUsbSie], a[RegUsbSie], SiePhyEnable);
    MaskedParts(c[RegClkManage], a[RegClkManage], ClkUsbBits);
    MaskedParts(c[RegUsbPhy], a[RegUsbPhy], PhyOffBits);
    forall k | k in a
      ensures c[k] == a[k]
    {
    }
  }

  /** Registers after power-on, power-off and power-on again. */
  ghost function Cycled(r: Regs, oneportsel: bool): (again: Regs)
    requires Covers(r)
    ensures Covers(again)
  {
    ApplyKeys(CycleOff(r, oneportsel), PowerOnSeq(oneportsel));
    Apply(CycleOff(r, oneportsel), PowerOnSeq(oneportsel))
  }

  /** The registers after the first power-on of a power cycle. */
  ghost function CycleOn(r: Regs, oneportsel: bool): (on: Regs)
    requires Covers(r)
    ensures Covers(on)
  {
    ApplyKeys(r, PowerOnSeq(oneportsel));
    Apply(r, PowerOnSeq(oneportsel))
  }

  /** The registers after the power-off of a power cycle. */
  ghost function CycleOff(r: Regs, oneportsel: bool): (off: Regs)
    requires Covers(r)
    ensures Covers(off)
  {
    ApplyKeys(CycleOn(r, oneportsel), PowerOffSeq());
    Apply(CycleOn(r, oneportsel), PowerOffSeq())
  }

  /** The three register states of a power cycle and what each step did. */
  lemma CycleSteps(r: Regs, oneportsel: bool)
    requires Covers(r)
    ensures var on := CycleOn(r, oneportsel);
      var off := CycleOff(r, oneportsel);
      && Covers(on) && Covers(off)
      && PoweredOn(on, r, oneportsel) && PoweredOff(off, on) && PoweredOn(Cycled(r, oneportsel), off, oneportsel)
  {
    var on := CycleOn(r, oneportsel);
    PowerOnEffect(r, oneportsel);
    PowerOffEffect(on);
    PowerOnEffect(CycleOff(r, oneportsel), oneportsel);
  }

  /** USB_SIE through a power cycle: set up, bit 12 cleared, set up again. */
  lemma CycleSieSteps(r: Regs, oneportsel: bool)
    requires Covers(r)
    ensures var on := CycleOn(r, oneportsel)[RegUsbSie];
      var off := CycleOff(r, oneportsel)[RegUsbSie];
      var again := Cycled(r, oneportsel)[RegUsbSie];
      && IsSet(on, SieEnableBits) && IsSet(again, SieEnableBits)
      && (if oneportsel then IsClear(on, SiePhy1HostMode) && IsClear(again, SiePhy1HostMode)
          else IsSet(on, SiePhy1HostMode) && IsSet(again, SiePhy1HostMode))
      && SameOutside(off, on, SiePhyEnable)
      && SameOutside(again, off, SieEnableBits | SiePhy1HostMode)
  {
    CycleSteps(r, oneportsel);
  }

  lemma SieRestored(on: bv32, off: bv32, again: bv32, oneportsel: bool)
    requires IsSet(on, SieEnableBits) && IsSet(again, SieEnableBits)
    requires if oneportsel then IsClear(on, SiePhy1HostMode) && IsClear(again, SiePhy1HostMode)
             else IsSet(on, SiePhy1HostMode) && IsSet(again, SiePhy1HostMode)
    requires SameOutside(off, on, SiePhyEnable) && SameOutside(again, off, SieEnableBits | SiePhy1HostMode)
    ensures again == on
  {
    var m := SieEnableBits | SiePhy1HostMode;
    if oneportsel {
      SetClearDetermine(again, on, SieEnableBits, SiePhy1HostMode);
    } else {
      IsSetUnion(again, SieEnableBits, SiePhy1HostMode);
      IsSetUnion(on, SieEnableBits, SiePhy1HostMode);
      SetClearDetermine(again, on, m, 0);
    }
    SameOutsideWiden(off, on, SiePhyEnable, m);
    SameOutsideTrans(again, off, on, m);
    MaskedParts(again, on, m);
  }

  lemma CycleSie(r: Regs, oneportsel: bool)
    requires Covers(r)
    ensures Cycled(r, oneportsel)[RegUsbSie] == CycleOn(r, oneportsel)[RegUsbSie]
  {
    CycleSieSteps(r, oneportsel);
    var on := CycleOn(r, oneportsel);
    SieRestored(on[RegUsbSie], CycleOff(r, oneportsel)[RegUsbSie], Cycled(r, oneportsel)[RegUsbSie], oneportsel);
  }

  /** CLK_MANAGE through a power cycle: clocks on, off, on again. */
  lemma CycleClkSteps(r: Regs, oneportsel: bool)
    requires Covers(r)
    ensures var on := CycleOn(r, oneportsel)[RegClkManage];
      var off := CycleOff(r, oneportsel)[RegClkManage];
      var again := Cycled(r, oneportsel)[RegClkManage];
      && IsSet(on, ClkUsbBits) && IsSet(again, ClkUsbBits)
      && SameOutside(off, on, ClkUsbBits)
      && SameOutside(again, off, ClkUsbBits)
  {
    CycleSteps(r, oneportsel);
  }

  lemma ClkRestored(on: bv32, off: bv32, again: bv32)
    requires IsSet(on, ClkUsbBits) && IsSet(again, ClkUsbBits)
    requires SameOutside(off, on, ClkUsbBits) && SameOutside(again, off, ClkUsbBits)
    ensures again == on
  {
    MaskedParts(again, on, ClkUsbBits);
  }

  lemma CycleClk(r: Regs, oneportsel: bool)
    requires Covers(r)
    ensures Cycled(r, oneportsel)[RegClkManage] == CycleOn(r, oneportsel)[RegClkManage]
  {
    CycleClkSteps(r, oneportsel);
    var on := CycleOn(r, oneportsel);
    ClkRestored(on[RegClkManage], CycleOff(r, oneportsel)[RegClkManage], Cycled(r, oneportsel)[RegClkManage]);
  }

  /** USB_PHY through a power cycle. */
  lemma CyclePhySteps(r: Regs, oneportsel: bool)
    requires Covers(r)
    ensures var before := r[RegUsbPhy];
      var on := CycleOn(r, oneportsel)[RegUsbPhy];
      var off := CycleOff(r, oneportsel)[RegUsbPhy];
      var again := Cycled(r, oneportsel)[RegUsbPhy];
      && PortProgrammed(on, 1) && PortProgrammed(again, 1)
      && (oneportsel ==> PortProgrammed(on, 0) && PortProgrammed(again, 0))
      && (!oneportsel ==> SameOutside(on, before, PortBits(1)))
      && SameOutside(off, on, PhyOffBits) && IsClear(off, PhyOffBits)
      && SameOutside(again, off, if oneportsel then PortBits(0) | PortBits(1) else PortBits(1))
  {
    CycleSteps(r, oneportsel);
  }

  /** A power cycle gives back the powered-on state of every register
      exactly when it gives back that of USB_PHY. */
  lemma CycleRegisters(r: Regs, oneportsel: bool)
    requires Covers(r)
    ensures var on := CycleOn(r, oneportsel);
      Cycled(r, oneportsel) == on <==> Cycled(r, oneportsel)[RegUsbPhy] == on[RegUsbPhy]
  {
    var on := CycleOn(r, oneportsel);
    var again := Cycled(r, oneportsel);
    CycleOthers(r, oneportsel);
    CycleSie(r, oneportsel);
    CycleClk(r, oneportsel);
    if again[RegUsbPhy] == on[RegUsbPhy] {
      forall k | k in on
        ensures again[k] == on[k]
      {
      }
    }
  }

  /** Registers outside the driver's three come through a power cycle as
      power-on left them. */
  lemma CycleOthers(r: Regs, oneportsel: bool)
    requires Covers(r)
    ensures var on := CycleOn(r, oneportsel);
      Cycled(r, oneportsel).Keys == on.Keys && OthersUnchanged(Cycled(r, oneportsel), on)
  {
    var on := CycleOn(r, oneportsel);
    var off := CycleOff(r, oneportsel);
    PowerOffEffect(on);
    PowerOnEffect(off, oneportsel);
  }

  /** The set and cleared bits of `PortProgrammed` for both ports fix
      both ports' six bits. */
  lemma BothPortsDetermine(x: bv32, y: bv32)
    requires PortProgrammed(x, 0) && PortProgrammed(x, 1)
    requires PortProgrammed(y, 0) && PortProgrammed(y, 1)
    ensures x & (PortBits(0) | PortBits(1)) == y & (PortBits(0) | PortBits(1))
  {
    PortBitsValues();
    PortDetermine(x, y, 0);
    PortDetermine(x, y, 1);
    AgreeUnion(x, y, PortBits(0), PortBits(1));
  }

  /** The set and cleared bits of `PortProgrammed` fix the port's bits. */
  lemma PortDetermine(x: bv32, y: bv32, port: Port)
    requires PortProgrammed(x, port) && PortProgrammed(y, port)
    ensures x & PortBits(port) == y & PortBits(port)
  {
    SetClearDetermine(x, y, PhyEnableBit(port) | PhyActiveBit(port), PhyResetBit(port));
  }

  lemma PhyRestoredBothPorts(on: bv32, off: bv32, again: bv32)
    requires PortProgrammed(on, 0) && PortProgrammed(on, 1)
    requires PortProgrammed(again, 0) && PortProgrammed(again, 1)
    requires SameOutside(off, on, PhyOffBits) && SameOutside(again, off, PortBits(0) | PortBits(1))
    ensures again == on
  {
    var m := PortBits(0) | PortBits(1);
    BothPortsDetermine(again, on);
    SameOutsideWiden(off, on, PhyOffBits, m);
    SameOutsideTrans(again, off, on, m);
    MaskedParts(again, on, m);
  }

  lemma PhyRestoredPort1(before: bv32, on: bv32, off: bv32, again: bv32)
    requires PortProgrammed(on, 1) && PortProgrammed(again, 1)
    requires SameOutside(on, before, PortBits(1))
    requires SameOutside(off, on, PhyOffBits) && IsClear(off, PhyOffBits)
    requires SameOutside(again, off, PortBits(1))
    ensures again == on <==> IsClear(before, PhyEnableBit(0))
  {
    var m, b8 := PortBits(1), PhyEnableBit(0);
    SameOutsideOn(on, before, m, b8);
    SameOutsideOn(again, off, m, b8);
    assert off & b8 == 0;
    if IsClear(before, b8) {
      PortDetermine(again, on, 1);
      SameOutsideWiden(off, on, PhyOffBits, m | b8);
      SameOutsideNarrow(off, on, m, b8);
      SameOutsideTrans(again, off, on, m);
      MaskedParts(again, on, m);
    }
  }

  /** Power-off does not undo all of power-on: it clears the clocks, the
      global PHY enable and bits 8 and 19 only. In single-port mode, powering
      on again after a power-off reprograms both ports and restores the
      powered-on state exactly. */
  lemma PowerCycleBothPorts(r: Regs)
    requires Covers(r)
    ensures Cycled(r, true) == Apply(r, PowerOnSeq(true))
  {
    var on := CycleOn(r, true);
    CyclePhySteps(r, true);
    PhyRestoredBothPorts(on[RegUsbPhy], CycleOff(r, true)[RegUsbPhy], Cycled(r, true)[RegUsbPhy]);
    CycleRegisters(r, true);
  }

  /** With only port 1 programmed, power-off still clears bit 8 (port 0's
      PHY enable), which power-on never sets again: a power cycle restores
      the powered-on state exactly when bit 8 was clear to begin with. */
  lemma PowerCyclePort1Only(r: Regs)
    requires Covers(r)
    ensures Cycled(r, false) == Apply(r, PowerOnSeq(false)) <==> IsClear(r[RegUsbPhy], PhyEnableBit(0))
  {
    var on := CycleOn(r, false);
    CyclePhySteps(r, false);
    PhyRestoredPort1(r[RegUsbPhy], on[RegUsbPhy], CycleOff(r, false)[RegUsbPhy], Cycled(r, false)[RegUsbPhy]);
    CycleRegisters(r, false);
  }

  // ---------------------------------------------------------------------
  // Order of the events

  /** A write to USB_PHY that touches any control bit of `port`. */
  predicate TouchesPort(op: Op, port: Port) {
    op.Write? && op.reg == RegUsbPhy && op.mask & PortBits(port) != 0
  }

  /** Power-on programs port 0 (when it does at all) entirely before
      port 1, programs port 0 exactly in single-port mode, switches the
      clocks on only after both ports are programmed, and ends with the
      100 ms wait, after its last write. */
  lemma PowerOnOrder(oneportsel: bool)
    ensures var s := PowerOnSeq(oneportsel);
      && |s| >= 2
      && s[|s| - 1] == Delay(100)
      && s[|s| - 2] == Write(RegClkManage, ClkUsbBits, ClkUsbBits)
      && (forall i :: 0 <= i < |s| - 1 ==> s[i].Write?)
      && (forall i, j :: 0 <= i < |s| && 0 <= j < |s| && TouchesPort(s[i], 0) && TouchesPort(s[j], 1) ==> i < j)
      && (forall i :: 0 <= i < |s| && (TouchesPort(s[i], 0) || TouchesPort(s[i], 1)) ==> i < |s| - 2)
      && (oneportsel <==> exists i :: 0 <= i < |s| && TouchesPort(s[i], 0))
  {
    var s := PowerOnSeq(oneportsel);
    if oneportsel {
      assert s == SieOnSeq(true) + EnableSeq(0) + EnableSeq(1) + ClkOnSeq();
      assert forall i :: 0 <= i < |s| ==> (TouchesPort(s[i], 0) <==> 2 <= i <= 3);
      assert forall i :: 0 <= i < |s| ==> (TouchesPort(s[i], 1) <==> 4 <= i <= 5);
      assert TouchesPort(s[2], 0);
    } else {
      assert s == SieOnSeq(false) + EnableSeq(1) + ClkOnSeq();
      assert forall i :: 0 <= i < |s| ==> !TouchesPort(s[i], 0);
      assert forall i :: 0 <= i < |s| ==> (TouchesPort(s[i], 1) <==> 2 <= i <= 3);
    }
  }

  /** Power-on and power-off write CLK_MANAGE, USB_SIE and USB_PHY only. */
  lemma DriverRegistersOnly(oneportsel: bool)
    ensures forall op :: op in PowerOnSeq(oneportsel) + PowerOffSeq() && op.Write? ==>
      op.reg == RegClkManage || op.reg == RegUsbSie || op.reg == RegUsbPhy
  {
  }

  // ---------------------------------------------------------------------
  // The driver

  /** `mdelay(ms)`: a busy-wait. Only its place among the register writes
      is modelled: it is recorded on the controller's timeline. */
  method Mdelay(sysctl: Regmap, ms: nat)
    requires sysctl.Valid()
    modifies sysctl`timeline
    ensures sysctl.Valid()
    ensures sysctl.timeline == old(sysctl.timeline) + [Delay(ms)]
  {
    ApplySnoc(sysctl.base, sysctl.timeline, Delay(ms));
    sysctl.timeline := sysctl.timeline + [Delay(ms)];
  }

  /** `struct phy`, the generic PHY object the framework routes power
      requests through; its driver data points back to the context. */
  class Phy {
    var drvdata: UsbPhy?

    constructor ()
      ensures drvdata == null
    {
      drvdata := null;
    }

    /** The `power_on` operation: power on the context `phy_get_drvdata`
        returns. */
    method PowerOn() returns (rc: int)
      requires drvdata != null && drvdata.Valid()
      modifies drvdata.sysctl
      ensures drvdata.Valid()
      ensures drvdata.sysctl.timeline == old(drvdata.sysctl.timeline) + PowerOnSeq(drvdata.oneportsel)
      ensures drvdata.sysctl.regs == Apply(old(drvdata.sysctl.regs), PowerOnSeq(drvdata.oneportsel))
      ensures rc == 0
    {
      rc := drvdata.PowerOn();
    }

    /** The `power_off` operation: power off the context `phy_get_drvdata`
        returns. */
    method PowerOff() returns (rc: int)
      requires drvdata != null && drvdata.Valid()
      modifies drvdata.sysctl
      ensures drvdata.Valid()
      ensures drvdata.sysctl.timeline == old(drvdata.sysctl.timeline) + PowerOffSeq()
      ensures drvdata.sysctl.regs == Apply(old(drvdata.sysctl.regs), PowerOffSeq())
      ensures rc == 0
    {
      rc := drvdata.PowerOff();
    }
  }

  /** `struct realtek_usb_phy`: the per-device context. */
  class UsbPhy {
    var phy: Phy?
    var sysctl: Regmap?
    var oneportsel: bool

    /** `devm_kzalloc`: a zero-filled context. */
    constructor ()
      ensures phy == null && sysctl == null && !oneportsel
    {
      phy := null;
      sysctl := null;
      oneportsel := false;
    }

    /** The register map was resolved and holds the driver's registers. */
    ghost predicate Valid()
      reads this, sysctl
    {
      sysctl != null && sysctl.Valid() && Covers(sysctl.regs)
    }

    /** `realtek_usb_phy_enable(phy, port)`. */
    method Enable(port: Port)
      requires Valid()
      modifies sysctl
      ensures Valid() && sysctl.base == old(sysctl.base)
      ensures sysctl.timeline == old(sysctl.timeline) + EnableSeq(port)
      ensures sysctl.regs == Apply(old(sysctl.regs), EnableSeq(port))
    {
      ghost var t0 := sysctl.timeline;
      var en, rst, act := PhyEnableBit(port), PhyResetBit(port), PhyActiveBit(port);
      // Enable the PHY and hold it in reset (active high), then release
      // reset and activate the UTMI transceiver.
      var _ := sysctl.UpdateBits(RegUsbPhy, en | rst, en | rst);
      var _ := sysctl.UpdateBits(RegUsbPhy, rst | act, act);
      EnableSeqWrites(port);
      AppendAssoc(t0, [Write(RegUsbPhy, en | rst, en | rst)], [Write(RegUsbPhy, rst | act, act)]);
      ApplyAppend(sysctl.base, t0, EnableSeq(port));
    }

    /** `realtek_usb_phy_power_on`: issues `PowerOnSeq(oneportsel)` (whose
        effect `PowerOnEffect` describes bit by bit); always returns 0. */
    method PowerOn() returns (rc: int)
      requires Valid()
      modifies sysctl
      ensures Valid() && sysctl.base == old(sysctl.base)
      ensures sysctl.timeline == old(sysctl.timeline) + PowerOnSeq(oneportsel)
      ensures sysctl.regs == Apply(old(sysctl.regs), PowerOnSeq(oneportsel))
      ensures rc == 0
    {
      ghost var t0 := sysctl.timeline;
      PowerOnParts(oneportsel);
      // USB_SIE: host mode for port 1 unless only port 1 is wired, then
      // the PHY enable and the two neighbouring control bits.
      var _ := sysctl.UpdateBits(RegUsbSie, SiePhy1HostMode, if oneportsel then 0 else SiePhy1HostMode);
      var _ := sysctl.UpdateBits(RegUsbSie, SieEnableBits, SieEnableBits);
      AppendAssoc(t0, [SieOnSeq(oneportsel)[0]], [SieOnSeq(oneportsel)[1]]);
      ghost var t1 := sysctl.timeline;
      // USB_PHY: port 0 first when both ports are in use, then port 1.
      if oneportsel {
        Enable(0);
        Enable(1);
        AppendAssoc(t1, EnableSeq(0), EnableSeq(1));
      } else {
        Enable(1);
      }
      ghost var t2 := sysctl.timeline;
      // CLK_MANAGE: the USB clocks, then let them settle.
      var _ := sysctl.UpdateBits(RegClkManage, ClkUsbBits, ClkUsbBits);
      Mdelay(sysctl, 100);
      AppendAssoc(t2, [ClkOnSeq()[0]], [ClkOnSeq()[1]]);
      AppendAssoc(t0, SieOnSeq(oneportsel), PortsOnSeq(oneportsel));
      AppendAssoc(t0, SieOnSeq(oneportsel) + PortsOnSeq(oneportsel), ClkOnSeq());
      ApplyAppend(sysctl.base, t0, PowerOnSeq(oneportsel));
      rc := 0;
    }

    /** `realtek_usb_phy_power_off`: issues `PowerOffSeq()` (whose effect
        `PowerOffEffect` describes bit by bit); always returns 0. */
    method PowerOff() returns (rc: int)
      requires Valid()
      modifies sysctl
      ensures Valid() && sysctl.base == old(sysctl.base)
      ensures sysctl.timeline == old(sysctl.timeline) + PowerOffSeq()
      ensures sysctl.regs == Apply(old(sysctl.regs), PowerOffSeq())
      ensures rc == 0
    {
      ghost var t0 := sysctl.timeline;
      var _ := sysctl.UpdateBits(RegClkManage, ClkUsbBits, 0);
      var _ := sysctl.UpdateBits(RegUsbPhy, PhyOffBits, 0);
      var _ := sysctl.UpdateBits(RegUsbSie, SiePhyEnable, 0);
      PowerOffWrites();
      AppendAssoc(t0, [PowerOffSeq()[0]], [PowerOffSeq()[1]]);
      AppendAssoc(t0, [PowerOffSeq()[0]] + [PowerOffSeq()[1]], [PowerOffSeq()[2]]);
      ApplyAppend(sysctl.base, t0, PowerOffSeq());
      rc := 0;
    }
  }

  // ---------------------------------------------------------------------
  // Probe

  const ENOMEM: int := 12
  const ENODEV: int := 19

  /** A kernel error code, as an error pointer can carry it. */
  type Errno = e: int | -4095 <= e <= -1 witness -1

  /** The only entry of the driver's match table. */
  const Compatible: string := "realtek,rtl819x-usbphy"
  /** The device-tree property that selects single-port operation. */
  const OnePortSelProperty: string := "realtek,oneportsel"

  /** The answer of a kernel service that returns an object or an error
      pointer. */
  datatype Lookup<T> = Found(value: T) | Failed(err: Errno)

  /** The answer of a kernel service whose result probe only checks. */
  datatype Status = Ok | Error(err: Errno)

  /** The device being probed, and how each kernel service probe calls
      answers for it. */
  datatype Device = Device(
    compatible: seq<string>,    // the device-tree node's compatible list
    properties: set<string>,    // names of the properties present on the node
    allocates: bool,            // whether devm_kzalloc succeeds
    sysctl: Lookup<Regmap>,     // syscon_regmap_lookup_by_phandle(node, "realtek,sysctl")
    phyCreate: Status,          // devm_phy_create
    providerRegister: Status)   // devm_of_phy_provider_register

  /** `of_match_device` against the match table. */
  predicate Matches(dev: Device) {
    Compatible in dev.compatible
  }

  function StatusCode(s: Status): int {
    if s.Ok? then 0 else s.err
  }

  /** The outcome of each step of probe in the order probe takes them, as a
      kernel return code (0 for success). */
  function StepCodes(dev: Device): seq<int> {
    [ if Matches(dev) then 0 else -ENODEV,
      if dev.allocates then 0 else -ENOMEM,
      if dev.sysctl.Found? then 0 else dev.sysctl.err,
      StatusCode(dev.phyCreate),
      StatusCode(dev.providerRegister) ]
  }

  /** The first failure of a run of steps, or 0 when every step succeeds. */
  function FirstError(codes: seq<int>): (rc: int)
    ensures rc == 0 <==> forall i :: 0 <= i < |codes| ==> codes[i] == 0
    ensures rc != 0 ==> exists i :: 0 <= i < |codes| && codes[i] == rc && forall j :: 0 <= j < i ==> codes[j] == 0
  {
    if codes == [] then 0
    else if codes[0] != 0 then codes[0]
    else FirstError(codes[1..])
  }

  /** Probe stops at its first failing step: no match gives -ENODEV, then
      a failed allocation -ENOMEM, then the error of the register-map
      lookup, of creating the PHY, of registering the provider. */
  lemma ProbeErrorOrder(dev: Device)
    ensures var rc := FirstError(StepCodes(dev));
      && (!Matches(dev) ==> rc == -ENODEV)
      && (Matches(dev) && !dev.allocates ==> rc == -ENOMEM)
      && (Matches(dev) && dev.allocates && dev.sysctl.Failed? ==> rc == dev.sysctl.err)
      && (Matches(dev) && dev.allocates && dev.sysctl.Found? ==>
            rc == if dev.phyCreate.Error? then dev.phyCreate.err else StatusCode(dev.providerRegister))
  {
    var s := StepCodes(dev);
    var s1, s2, s3, s4 := s[1..], s[2..], s[3..], s[4..];
    assert s2 == s1[1..] && s3 == s2[1..] && s4 == s3[1..] && s4[1..] == [];
    assert FirstError(s4) == s[4];
    assert FirstError(s3) == if s[3] != 0 then s[3] else s[4];
    assert FirstError(s2) == if s[2] != 0 then s[2] else FirstError(s3);
  }

  /** Probe returns 0 or a kernel error code, and 0 exactly when every
      step succeeds. */
  lemma ProbeReturnCode(dev: Device)
    ensures var rc := FirstError(StepCodes(dev));
      && (rc == 0 || -4095 <= rc <= -1)
      && (rc == 0 <==> Matches(dev) && dev.allocates && dev.sysctl.Found? && dev.phyCreate.Ok? && dev.providerRegister.Ok?)
  {
    ProbeErrorOrder(dev);
  }

  /** `realtek_usb_phy_probe`. The context is allocated once the device
      matches; it keeps the register map and the single-port flag once the
      lookup succeeds, and is linked both ways with the new PHY once that
      is created. Framework objects are released by the kernel on failure,
      which is not part of this model. */
  method Probe(dev: Device) returns (rc: int, ctx: UsbPhy?)
    ensures rc == FirstError(StepCodes(dev))
    ensures ctx == null <==> !Matches(dev) || !dev.allocates
    ensures ctx != null ==> fresh(ctx)
    ensures ctx != null && dev.sysctl.Failed? ==> ctx.sysctl == null && !ctx.oneportsel && ctx.phy == null
    ensures ctx != null && dev.sysctl.Found? ==>
      ctx.sysctl == dev.sysctl.value && ctx.oneportsel == (OnePortSelProperty in dev.properties)
    ensures ctx != null ==> (ctx.phy != null <==> dev.sysctl.Found? && dev.phyCreate.Ok?)
    ensures ctx != null && ctx.phy != null ==> fresh(ctx.phy) && ctx.phy.drvdata == ctx
  {
    ProbeErrorOrder(dev);
    if !Matches(dev) {
      return -ENODEV, null;
    }
    if !dev.allocates {
      return -ENOMEM, null;
    }
    ctx := new UsbPhy();
    if dev.sysctl.Failed? {
      return dev.sysctl.err, ctx;
    }
    ctx.sysctl := dev.sysctl.value;
    ctx.oneportsel := OnePortSelProperty in dev.properties;
    if dev.phyCreate.Error? {
      return dev.phyCreate.err, ctx;
    }
    var p := new Phy();
    ctx.phy := p;
    p.drvdata := ctx;
    rc := StatusCode(dev.providerRegister);
  }
}
