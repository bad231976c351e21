# RTL819x USB PHY power sequencer, in Dafny

This project models the Linux driver for the USB PHY block of the Realtek
RTL819x system-on-chip. The driver lives in
`target/linux/realtek/files-4.14/drivers/phy/realtek/phy-realtek-usb.c`.

The driver switches the two-port USB PHY on and off. It does this with
masked read-modify-writes (`regmap_update_bits`) to three registers of the
shared system controller:

- CLK_MANAGE at offset 0x10;
- USB_SIE at offset 0x34;
- USB_PHY at offset 0x90.

At probe time the driver reads one flag, `oneportsel`, from the device
tree. In single-port mode (`oneportsel` set), power-on programs port 0 and
then port 1, and clears the port-1 host-mode bit. Otherwise it programs
port 1 only and forces port 1 into host mode.

The project has three files:

- `bits.dfy` (module `Bits`) holds the mask vocabulary: `IsSet`, `IsClear`,
  `SameOutside`, and the masked `Update` that `regmap_update_bits` performs.
- `regmap.dfy` (module `RegisterMap`) holds the register block.
  - `Apply` is a pure semantics of a sequence of events, each a masked
    write or a delay.
  - `Regmap` is the imperative register map. Its ghost timeline records
    every event the controller has seen, and the invariant `Valid()` keeps
    the registers equal to `Apply` of that timeline.
- `phy_realtek_usb.dfy` (module `RealtekUsbPhy`) holds the driver.
  - `EnableSeq`, `PowerOnSeq` and `PowerOffSeq` are the event sequences of
    the three routines.
  - The class `UsbPhy` is the driver context `struct realtek_usb_phy`. Its
    methods `Enable`, `PowerOn` and `PowerOff` issue those events through
    the `Regmap`. Each is proved to leave exactly the registers that `Apply`
    of its sequence gives.
  - The class `Phy` is the generic PHY object, through which the framework
    calls the two operations.
  - Lemmas about the sequences state the bit-level effects, idempotence,
    ordering and the power-cycle behaviour.
  - `Probe` models `realtek_usb_phy_probe`. Kernel services are inputs of
    the `Device` value.

Power-off does not undo power-on completely. It clears only bits 8 and 19
of USB_PHY, which are the PHY-enable bits of ports 0 and 1. It leaves the
other port bits that power-on set.

- `PowerCycleBothPorts` shows that in single-port mode a later power-on
  restores the powered-on state exactly.
- `PowerCyclePort1Only` shows that in the other mode the state is restored
  exactly when bit 8 was clear before the first power-on. The reason is
  that power-off clears port 0's enable bit, and that mode never sets it
  again.

The model keeps this behaviour as written. It is an asymmetry, not a
demonstrated defect.

## Model

| member | source | states |
|---|---|---|
| RegisterMap.Regmap.UpdateBits | target/linux/realtek/files-4.14/drivers/phy/realtek/phy-realtek-usb.c:37-44 | `regmap_update_bits` appends one masked write to the controller's timeline. The registers stay equal to `Apply` of the timeline, the set of registers is unchanged, and the return value is 0. |
| RegisterMap.ApplyAppend | target/linux/realtek/files-4.14/drivers/phy/realtek/phy-realtek-usb.c:51-72 | Issuing two runs of writes one after the other has the same effect as issuing their concatenation. |
| RegisterMap.ApplyKeys | target/linux/realtek/files-4.14/drivers/phy/realtek/phy-realtek-usb.c:37-44 | Masked writes change register contents, never which registers exist. |
| RealtekUsbPhy.PortBitPos | target/linux/realtek/files-4.14/drivers/phy/realtek/phy-realtek-usb.c:38-44 | A port's control bits sit at 8 + field + 11 × port. Every position lies in 8..21, so it is a valid shift of a 32-bit value. |
| RealtekUsbPhy.PortMasks | target/linux/realtek/files-4.14/drivers/phy/realtek/phy-realtek-usb.c:38-44 | Each port's enable, reset and active mask is the single bit `1 << PortBitPos`. The bits of port 0 and port 1 are disjoint. |
| RealtekUsbPhy.MasksAsShifts | target/linux/realtek/files-4.14/drivers/phy/realtek/phy-realtek-usb.c:26-27 | The SIE, CLK and power-off masks equal the shifts the driver builds them from (lines 26-27, 58, 68, 86). Power-off's USB_PHY mask is exactly the PHY-enable bits of the two ports. |
| RealtekUsbPhy.EnableEffect | target/linux/realtek/files-4.14/drivers/phy/realtek/phy-realtek-usb.c:35-45 | The per-port enable first leaves the port enabled with reset asserted. It ends with the port enabled, out of reset and active. All other USB_PHY bits and all other registers are unchanged. |
| RealtekUsbPhy.UsbPhy.Enable | target/linux/realtek/files-4.14/drivers/phy/realtek/phy-realtek-usb.c:35-45 | `realtek_usb_phy_enable` issues exactly the two writes of `EnableSeq(port)`, and the registers become `Apply` of them. |
| RealtekUsbPhy.SieOnEffect | target/linux/realtek/files-4.14/drivers/phy/realtek/phy-realtek-usb.c:51-61 | Power-on's USB_SIE writes set bits 11, 12 and 17. They clear bit 18 when `oneportsel` holds and set it otherwise. No other bit or register changes. |
| RealtekUsbPhy.PortsOnEffect | target/linux/realtek/files-4.14/drivers/phy/realtek/phy-realtek-usb.c:62-66 | In single-port mode both ports end programmed and only their six bits change. Otherwise only port 1 is programmed and port 0's bits keep their values. |
| RealtekUsbPhy.ClkOnEffect | target/linux/realtek/files-4.14/drivers/phy/realtek/phy-realtek-usb.c:67-70 | CLK_MANAGE bits 12, 13, 19, 20 and 21 end set. No other bit or register changes. |
| RealtekUsbPhy.PowerOnEffect | target/linux/realtek/files-4.14/drivers/phy/realtek/phy-realtek-usb.c:47-75 | After power-on, the USB_SIE, USB_PHY and CLK_MANAGE facts above all hold together, and every other register is unchanged. |
| RealtekUsbPhy.UsbPhy.PowerOn | target/linux/realtek/files-4.14/drivers/phy/realtek/phy-realtek-usb.c:51-74 | Power-on issues exactly `PowerOnSeq(oneportsel)`: the writes and then the 100 ms delay. The registers become `Apply` of it, and the return value is 0. |
| RealtekUsbPhy.Phy.PowerOn | target/linux/realtek/files-4.14/drivers/phy/realtek/phy-realtek-usb.c:47-49 | The framework's `power_on` call on the PHY object powers on the context stored as its driver data (lines 93-97). |
| RealtekUsbPhy.PowerOffRegs | target/linux/realtek/files-4.14/drivers/phy/realtek/phy-realtek-usb.c:81-88 | Power-off rewrites each of CLK_MANAGE, USB_PHY and USB_SIE once, clearing its own mask. Every other register is unchanged. |
| RealtekUsbPhy.PowerOffEffect | target/linux/realtek/files-4.14/drivers/phy/realtek/phy-realtek-usb.c:77-91 | Power-off leaves CLK bits {12,13,19,20,21}, USB_PHY bits {8,19} and USB_SIE bit 12 clear. No other bit of those registers and no other register changes. |
| RealtekUsbPhy.UsbPhy.PowerOff | target/linux/realtek/files-4.14/drivers/phy/realtek/phy-realtek-usb.c:81-90 | Power-off issues exactly `PowerOffSeq()`, the registers become `Apply` of it, and the return value is 0. |
| RealtekUsbPhy.Phy.PowerOff | target/linux/realtek/files-4.14/drivers/phy/realtek/phy-realtek-usb.c:77-79 | The framework's `power_off` call on the PHY object powers off the context stored as its driver data. |
| RealtekUsbPhy.PoweredOnStable | target/linux/realtek/files-4.14/drivers/phy/realtek/phy-realtek-usb.c:47-75 | A second power-on in the same mode leaves unchanged a state that power-on produced. |
| RealtekUsbPhy.PowerOnIdempotent | target/linux/realtek/files-4.14/drivers/phy/realtek/phy-realtek-usb.c:47-75 | Powering on twice leaves the same registers as powering on once. |
| RealtekUsbPhy.PowerOffIdempotent | target/linux/realtek/files-4.14/drivers/phy/realtek/phy-realtek-usb.c:77-91 | Powering off twice leaves the same registers as powering off once. |
| RealtekUsbPhy.CycleSteps | target/linux/realtek/files-4.14/drivers/phy/realtek/phy-realtek-usb.c:47-91 | In an on-off-on cycle, each step has the powered-on or powered-off effect relative to the state before it. |
| RealtekUsbPhy.CycleSie | target/linux/realtek/files-4.14/drivers/phy/realtek/phy-realtek-usb.c:52-61 | A power cycle gives USB_SIE back its powered-on value. |
| RealtekUsbPhy.CycleClk | target/linux/realtek/files-4.14/drivers/phy/realtek/phy-realtek-usb.c:67-70 | A power cycle gives CLK_MANAGE back its powered-on value. |
| RealtekUsbPhy.CycleOthers | target/linux/realtek/files-4.14/drivers/phy/realtek/phy-realtek-usb.c:22-24 | Registers other than the three the driver uses come through a power cycle unchanged. |
| RealtekUsbPhy.CycleRegisters | target/linux/realtek/files-4.14/drivers/phy/realtek/phy-realtek-usb.c:47-91 | A power cycle restores the whole powered-on state exactly when it restores USB_PHY. |
| RealtekUsbPhy.PowerCycleBothPorts | target/linux/realtek/files-4.14/drivers/phy/realtek/phy-realtek-usb.c:62-64 | In single-port mode, on-off-on leaves the same registers as a single power-on. |
| RealtekUsbPhy.PowerCyclePort1Only | target/linux/realtek/files-4.14/drivers/phy/realtek/phy-realtek-usb.c:85-86 | With port 1 only, on-off-on equals a single power-on exactly when USB_PHY bit 8 was clear beforehand. The reason is that power-off clears port 0's enable bit, and this mode never sets it again. |
| RealtekUsbPhy.PowerOnOrder | target/linux/realtek/files-4.14/drivers/phy/realtek/phy-realtek-usb.c:62-72 | Every port-0 write precedes every port-1 write, and port writes precede the clock write. Port 0 is touched exactly in single-port mode. Power-on ends with the CLK write followed by the 100 ms delay, and every earlier event is a write. |
| RealtekUsbPhy.DriverRegistersOnly | target/linux/realtek/files-4.14/drivers/phy/realtek/phy-realtek-usb.c:52-88 | Power-on and power-off write only offsets 0x10, 0x34 and 0x90. |
| RealtekUsbPhy.Mdelay | target/linux/realtek/files-4.14/drivers/phy/realtek/phy-realtek-usb.c:72 | `mdelay(100)` appends a 100 ms delay event to the timeline and changes no register. |
| RealtekUsbPhy.UsbPhy.constructor | target/linux/realtek/files-4.14/drivers/phy/realtek/phy-realtek-usb.c:118 | `devm_kzalloc` gives a zeroed context: no PHY, no register map, and `oneportsel` false. |
| RealtekUsbPhy.FirstError | target/linux/realtek/files-4.14/drivers/phy/realtek/phy-realtek-usb.c:114-139 | A run of steps returns 0 exactly when every step succeeds. Otherwise it returns the code of the first failing step. |
| RealtekUsbPhy.ProbeErrorOrder | target/linux/realtek/files-4.14/drivers/phy/realtek/phy-realtek-usb.c:114-139 | Probe returns the first failure in this order: -ENODEV for no match, then -ENOMEM, then the register-map lookup error, then the PHY-create error, then the provider-register result. |
| RealtekUsbPhy.ProbeReturnCode | target/linux/realtek/files-4.14/drivers/phy/realtek/phy-realtek-usb.c:137-139 | Probe returns 0 or an error code in -4095..-1. It returns 0 exactly when every step succeeds. |
| RealtekUsbPhy.Probe | target/linux/realtek/files-4.14/drivers/phy/realtek/phy-realtek-usb.c:107-140 | Probe returns `FirstError` of its steps, and the context exists once the device matches and allocation succeeds. After a successful lookup the context holds the register map and `oneportsel` = whether "realtek,oneportsel" is present. A created PHY points back to the context. |

## Left out

- `mdelay` timing: the 100 ms busy-wait is only an event on the
  controller's timeline. Elapsed time is not modelled.
- Register map internals: locking, bus access and the error returns of
  `regmap_update_bits` are not modelled.
  - The model's write always returns 0, and the driver ignores the result
    anyway.
  - `UpdateBits` requires the offset to exist in the block. All three
    offsets the driver uses do, since `UsbPhy.Valid` requires `Covers`.
- Kernel services are inputs of `Device` and are not modelled themselves:
  `of_match_device`, `devm_kzalloc`, `syscon_regmap_lookup_by_phandle`,
  `of_get_property`, `devm_phy_create`, `devm_of_phy_provider_register`,
  `phy_set_drvdata` and `phy_get_drvdata`.
- Device-managed cleanup on failure and the `dev_err` messages are not
  modelled.
- The `phy_ops`, match-table and `platform_driver` registration tables
  (lines 93-105 and 142-153) are static data, not logic.
  - The match table is the constant `Compatible`.
  - The operations table is the pair `Phy.PowerOn` / `Phy.PowerOff`.
- Probe stores an error pointer in `phy->sysctl` or `phy->phy` before
  returning the error. The model keeps null there instead, and the context
  is unusable in either case.
- UsbPhy.PowerOn: the bit-level outcome (`PoweredOn`) is stated as the
  lemma `PowerOnEffect` about `Apply(_, PowerOnSeq(_))`, not in the method's
  own ensures. The method's ensures ties its result to that function.
- UsbPhy.PowerOff: likewise, its bit-level outcome is `PowerOffEffect`.
- PowerOnIdempotent: idempotence is proved for the driver's two routines on
  register state. It is not proved for arbitrary masked writes, and not for
  the event timeline, which grows with every call.
