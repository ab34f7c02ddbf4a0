# STM32/Stellaris peripheral models

This project models four peripherals of the board emulator in `hw/stm32.c`
and proves properties of them.

- **General purpose timer (GPTM), module `Timer`.** Two channels, A and B, share one register file.
  - Configuration 0 joins them into a 32-bit countdown timer.
  - Configuration 1 makes them a 32-bit real-time clock that ticks once a second.
  - Every other configuration times a channel only in PWM mode, which does nothing; any other mode is a fault.
  - Each channel owns an emulator timer, held as a deadline in nanoseconds plus an "armed" flag.
  - A countdown timeout can pulse the ADC trigger.
- **System controller, module `SystemControl`.** It holds the clock registers.
  - It derives the system clock scale, the multiplier that turns a timer count into a delay.
  - The board's DID0 register decides the reset value of RCC2.
  - RCC_CR and RCC_CFGR have a small special decode.
- **I2C master, module `I2c`.**
  - It has seven registers.
  - The master control/status register (MCS) drives the bus: start, run (move one byte) and stop.
  - The bus is an oracle passed to each write. The requests sent to it come back as a sequence of bus operations.
- **ADC, modules `AdcFifo` and `Adc`.**
  - There are four sample sequencers, each with a sixteen-slot FIFO whose indices and flags are packed into one state word.
  - It has raw, overflow and underflow status and four interrupt lines.
  - A noise generator stands in for the analogue input.
  - A trigger makes every enabled sequencer whose selector says "timer" store one sample.

`Words` holds the shared vocabulary:
- the 32-bit register word;
- masked and acknowledged status bits;
- the abort reasons (`Fault`).

Every `hw_error` call of the source is an `Abort` outcome or an `Err` result, so callers can see it.

Each peripheral whose registers change in place is a class:
- `Timer.Gptm`
- `SystemControl.SystemController`
- `I2c.I2cMaster`
- `Adc.AdcController`

Each class's methods are proved against pure functions of the register values: `WriteRegister`, `ReadRegister`, `TickEffect`, `McsCommand`, `StoreSample`, `AfterTrigger` and others. The properties are proved about those functions.

The ADC FIFO needs a note:
- Its state word is held decoded.
- `FifoWrite` and `FifoRead` compute on the packed word with the same bit operations as the source.
- `AdcFifo.WriteStateEncodes`, `ReadStateEncodes`, `EncodeDecodes` and `DecodeEncodes` show that the decoded view and the word agree exactly.

The source's quirks are kept as written:
- TBPMR writes channel A's match prescaler.
- TBMATCHR stores the high half of the value.
- TAR can be read only when CTL equals 1.
- A timeout in configurations 0 and 1 uses channel A's mode and reloads channel A.
- Any MIMR write sets MIMR to 1.
- The PLL-ready bit is always set by an RCC_CR write.
- The trigger selector is masked with 0xff.
- The FIFO empty test compares the unmasked `tail + 1` with the head.

`AdcFifo.LastSlotDrainLeavesEmptyClear` shows what that last quirk does: draining the last item from slot 15 leaves EMPTY clear.

## Model

| member | source | states |
|---|---|---|
| Timer.RtcNext | hw/stm32.c:123-128 | The real-time counter never exceeds the match value. It returns to 0 exactly when it was at or past the match value, and below it counts up by one. |
| Timer.RtcCountsUpToMatch | hw/stm32.c:123-128 | Starting from 0, the counter reads k after k ticks for every k up to the match value. |
| Timer.RtcWrapsAfterMatch | hw/stm32.c:123-128 | After match + 1 ticks from 0 the counter is back at 0. |
| Timer.ReloadDeadline | hw/stm32.c:77-100 | Computing a deadline fails exactly when the configuration is neither 0 nor 1 and the channel's mode is not PWM; the fault names that mode. |
| Timer.RtcDeadlineIgnoresScale | hw/stm32.c:90-92 | In RTC configuration the deadline is one second after the base, whatever the load registers and the clock scale. |
| Timer.CountdownDeadlineScales | hw/stm32.c:85-89 | A countdown deadline lies after its base exactly when the joined 32-bit load is non-zero, and doubling the clock scale doubles the delay. |
| Timer.CountdownExample | hw/stm32.c:85-89 | A load of 100 at clock scale 5 fires 500 ns after the base. |
| Timer.Arm | hw/stm32.c:98-99 | Arming channel n sets its deadline and armed flag and leaves the other channel alone. |
| Timer.Stop | hw/stm32.c:72-75 | Stopping channel n disarms it and changes nothing else. |
| Timer.Rearm | hw/stm32.c:77-100 | A reload fails exactly when its deadline cannot be computed; on success the timers stay well formed. |
| Timer.ChannelEdge | hw/stm32.c:212-227 | If channel n's enable bit did not change, the timers are unchanged. If it rose, the edge fails exactly when the deadline cannot be computed; otherwise channel n is armed at the deadline computed from now, and the other channel is untouched. If it fell, channel n is stopped and nothing else changes. |
| Timer.ControlSchedule | hw/stm32.c:210-228 | A CTL write's effect on both channels keeps the timers well formed. |
| Timer.StoreRegister | hw/stm32.c:201-265 | A register store fails only at an offset that is not decoded, naming it. No store touches the RTC counter or channel B's match prescaler; a TBPMR write goes to channel A's. |
| Timer.Fire | hw/stm32.c:110-137 | A timeout fails exactly when the configuration is neither 0 nor 1 and the channel mode is not PWM, naming that mode. Otherwise it changes only the raw status, CTL and the RTC counter. |
| Timer.WriteRegister | hw/stm32.c:191-270 | A register write keeps the timers well formed. |
| Timer.ReadRegister | hw/stm32.c:142-189 | MIS reads non-zero exactly when some raw interrupt bit is enabled in the mask. |
| Timer.TickEffect | hw/stm32.c:102-140 | A timeout aborts exactly when the mode is unsupported: a configuration other than 0 and 1 whose channel mode is not PWM. Otherwise the timers stay well formed. |
| Timer.AfterTimeout | hw/stm32.c:102-140 | The timers after a timeout stay well formed; what they hold is stated by TimeoutSchedule. |
| Timer.TimeoutSchedule | hw/stm32.c:102-140 | After channel n's timeout, channel n is disarmed unless it is channel A and is rearmed. A rearmed channel A waits one reload period past its previous deadline. Channel B's deadline never moves. The other channel's timer is untouched unless it is channel A being rearmed. |
| Timer.PwmTickIsNoOp | hw/stm32.c:134-135 | Outside configurations 0 and 1, a timeout of a channel in PWM mode changes no register and does not pulse the trigger; only that channel's timer expires. |
| Timer.MaskKeepsInterruptBits | hw/stm32.c:229-232 | An IMR write keeps exactly the bits of 0x77 that were written and changes no other register. |
| Timer.ClearAcknowledgesWrittenBits | hw/stm32.c:233-235 | A CR write clears exactly the written raw interrupt bits. The others keep their value, and RIS reads the result. |
| Timer.IntervalLoadRoundTrip | hw/stm32.c:236-241 | In a 32-bit configuration TAILR reads back the written value, and the joined load equals it. |
| Timer.IntervalLoadNarrow | hw/stm32.c:236-241 | In configuration 4 and up TAILR reads back only the low half, and channel B's load is untouched. |
| Timer.MatchRoundTrip | hw/stm32.c:245-250 | In a 32-bit configuration TAMATCHR reads back the written value, and the joined match value equals it. |
| Timer.MatchNarrow | hw/stm32.c:245-250 | In configuration 4 and up TAMATCHR reads back only the low half, and channel B's match is untouched. |
| Timer.PlainRegistersRoundTrip | hw/stm32.c:201-262 | CFG, TAMR, TBMR, TAPR, TBPR and TAPMR read back exactly what was written. Each write changes only its own register (channel A's or B's half where there are two) and leaves the timers alone. |
| Timer.ChannelBReadBack | hw/stm32.c:242-265 | TBILR reads back the low half and TBMATCHR the high half of the written value. A TBPMR write lands in TAPMR and leaves TBPMR as it was. |
| Timer.CounterReadGated | hw/stm32.c:180-184 | TAR reads the counter exactly when CTL equals 1 and aborts otherwise; TBR always aborts. |
| Timer.ReadFaults | hw/stm32.c:142-189 | A read aborts exactly at offsets outside the register map, and at TAR when CTL is not 1. |
| Timer.WriteFaults | hw/stm32.c:191-270 | A write other than CTL aborts exactly at unknown offsets, with the offset as the reason, and never changes the timers. |
| Timer.ControlEdges | hw/stm32.c:210-228 | A CTL write that toggles no enable bit only stores CTL. Enabling countdown channel A arms it at now + load × scale; disabling channel A disarms it. |
| Timer.RtcEnableArmsOneSecond | hw/stm32.c:214-217 | In configuration 1, enabling channel A arms it one second from now. |
| Timer.ChannelBIgnoredBelowConfig4 | hw/stm32.c:219-226 | Below configuration 4 a CTL write never touches channel B's timer. If channel A's bit is unchanged too, the write only stores CTL. |
| Timer.ChannelBEnable | hw/stm32.c:219-223 | From configuration 4 up, raising the channel B enable bit is a fault unless channel B's mode is PWM. When it succeeds, channel B is armed at now. |
| Timer.ChannelBEnableAlone | hw/stm32.c:219-223 | From configuration 4 up, raising only the channel B enable bit arms channel B and leaves channel A alone when B's mode is PWM. Otherwise it fails, naming B's mode. |
| Timer.ChannelBDisable | hw/stm32.c:219-226 | From configuration 4 up, lowering the channel B enable bit stops channel B. Lowering only that bit stores CTL and stops channel B, and changes nothing else. |
| Timer.CountdownTimeout | hw/stm32.c:110-122 | A countdown timeout of either channel sets the timeout bit and pulses the ADC trigger exactly when CTL bit 0x20 is set. The raw status gains exactly the timeout bit. Channel A's mode decides what follows. One-shot mode clears exactly the enable bit, disarms the expired channel and leaves the other alone. Periodic mode rearms channel A one load period after its previous deadline. No other register changes. Channel B stays armed only when channel A expired and B was armed, and its deadline never moves. |
| Timer.RtcTick | hw/stm32.c:123-133 | An RTC timeout of either channel advances the counter as RtcNext says, never pulses the trigger, and rearms channel A one second after its previous deadline. No register other than the counter and the raw status changes. Channel B stays armed only when channel A expired and B was armed, and its deadline never moves. |
| Timer.RtcMatchBit | hw/stm32.c:123-133 | Whichever channel expired, the raw status gains the RTC match bit when the counter comes back to 0, and is unchanged otherwise. |
| Timer.RtcKeepsOtherBits | hw/stm32.c:123-133 | An RTC timeout of either channel changes the raw status by at most setting the RTC match bit. |
| Timer.Gptm.constructor | hw/stm32.c:301-317 | A new timer has every register zero, both channels disarmed and the interrupt line low. |
| Timer.Gptm.UpdateIrq | hw/stm32.c:65-70 | The interrupt line is driven to the masked-status level; the registers are unchanged. |
| Timer.Gptm.StopTimer | hw/stm32.c:72-75 | The timers become Stop of the old timers. |
| Timer.Gptm.Reload | hw/stm32.c:77-100 | It aborts, leaving the timers alone, exactly when Rearm fails. Otherwise the timers become Rearm's result, from now when reset is set and from the previous deadline otherwise. |
| Timer.Gptm.Read | hw/stm32.c:142-189 | It returns ReadRegister of the current registers; MIS is non-zero exactly when the interrupt line is high. |
| Timer.Gptm.Write | hw/stm32.c:191-270 | It aborts exactly when WriteRegister fails. Otherwise the registers and timers become its result and the interrupt line follows them. |
| Timer.Gptm.Edge | hw/stm32.c:212-227 | It aborts exactly when ChannelEdge fails; otherwise the timers become its result. |
| Timer.Gptm.ControlTimers | hw/stm32.c:210-228 | It aborts exactly when ControlSchedule fails; otherwise the timers become its result and the registers are unchanged. |
| Timer.Gptm.Tick | hw/stm32.c:102-140 | It aborts exactly when TickEffect fails. Otherwise the registers, timers and trigger pulse are TickEffect's, and the interrupt line follows them. |
| Timer.Gptm.Expire | hw/stm32.c:102-140 | The timers become AfterTimeout of the old timers; the registers are unchanged. |
| SystemControl.ClockScale | hw/stm32.c:407-414 | The scale is a multiple of 5 between 5 and 320, and at most 80 when RCC2 is not in use. |
| SystemControl.ScaleIgnoresRccUnderRcc2 | hw/stm32.c:407-414 | When RCC2 is in use the scale does not depend on RCC. |
| SystemControl.ScaleReadsOnlySysdiv | hw/stm32.c:407-414 | Without RCC2 the scale depends only on RCC's 4-bit SYSDIV field. |
| SystemControl.BoardClass | hw/stm32.c:358-374 | The class is known exactly for DID0 version 0, and for version 1 with class Sandstorm or Fury. The known class is Sandstorm or Fury, and any other DID0 aborts naming it. |
| SystemControl.CfgrImage | hw/stm32.c:437-449 | The SWS field of the stored RCC_CFGR repeats the written SW field; every other bit is as written. |
| SystemControl.CrImage | hw/stm32.c:430-436 | The stored RCC_CR has the PLL-ready bits set; every other bit is as written. |
| SystemControl.PllGuardAlwaysTrue | hw/stm32.c:432-435 | The guard before setting PLL-ready is true for every written value. |
| SystemControl.BoardResetScale | hw/stm32.c:463-479 | On the board's DID0 the class is Sandstorm, RCC2 resets to 0 and the reset clock scale is 80. |
| SystemControl.SystemController.constructor | hw/stm32.c:513-524 | A new controller has every register zero before its first reset. |
| SystemControl.SystemController.CalculateSystemClock | hw/stm32.c:407-414 | The scale becomes ClockScale of RCC and RCC2. |
| SystemControl.SystemController.Reset | hw/stm32.c:463-479 | It aborts exactly when the board class is unknown. Otherwise PBORCTL, RCC and RCC2 take their reset values, the first gate register of each bank is set to 1, and the scale is recomputed (80 on the board's DID0). |
| SystemControl.SystemController.PostLoad | hw/stm32.c:481-488 | The scale is recomputed from the loaded RCC and RCC2. |
| SystemControl.SystemController.Read | hw/stm32.c:376-397 | Every offset other than RCC_CR and RCC_CFGR reads the single shared catch-all register. |
| SystemControl.SystemController.Write | hw/stm32.c:423-455 | Only the addressed one of RCC_CR, RCC_CFGR and the catch-all register changes. It reads back as CrImage, CfgrImage or the value, and the interrupt line follows the masked status. |
| I2c.McsWord | hw/stm32.c:545-551 | The MCS image has no bits outside ERROR, ARBLST and BUSBSY. |
| I2c.McsBits | hw/stm32.c:545-551 | Each flag is set exactly when its bit is set in the MCS image. |
| I2c.FlagUpdatesAreBitOperations | hw/stm32.c:604-637 | Each flag update of an MCS write is the source's bit operation on the MCS word. |
| I2c.Grab | hw/stm32.c:604-612 | A start command on an idle bus requests a transfer to the MSA address, in the direction MSA bit 0 gives. Otherwise nothing is requested or changed, and no register other than MCS changes. |
| I2c.Execute | hw/stm32.c:620-632 | Without the run bit nothing happens. |
| I2c.Finish | hw/stm32.c:633-637 | Without the stop bit nothing happens. |
| I2c.McsCommand | hw/stm32.c:599-638 | An enabled master's command begins with the requests of the grab step. |
| I2c.ReadRegister | hw/stm32.c:553-580 | A read aborts exactly at offsets outside the eight readable registers, naming the offset. |
| I2c.StoreRegister | hw/stm32.c:596-659 | A write to a register other than MCS never changes the MCS flags. Outside MCR it fails only at an undecoded offset, naming it. |
| I2c.WriteRegister | hw/stm32.c:590-665 | A write to any register but MCS makes no bus request. |
| I2c.ResetEffect | hw/stm32.c:667-680 | Reset sets every register to its reset value. |
| I2c.DisabledIgnoresCommands | hw/stm32.c:600-603 | With the master disabled an MCS write changes nothing and requests nothing. |
| I2c.RefusedStartLosesArbitration | hw/stm32.c:605-618 | A refused start sets ARBLST and ERROR and leaves BUSBSY clear. The MCS flags are exactly the old ones with ARBLST and ERROR set; no other register changes, and only the start is requested. |
| I2c.AcceptedStartHoldsBus | hw/stm32.c:605-612 | An accepted start clears ARBLST, sets BUSBSY unless the same write stops a busy transfer, and begins with the start request. |
| I2c.ErrorIffBusNotHeld | hw/stm32.c:613-619 | ERROR ends up set exactly when the master does not hold the bus after the grab step. Then the MCS flags are those after the grab with ERROR set, no other register changes, and the bus sees only the grab's requests. |
| I2c.RunMovesOneByte | hw/stm32.c:620-632 | With the bus held, the run bit receives one byte into MDR or sends MDR, and raises the raw interrupt; without it MDR and the raw interrupt are unchanged. The bus requests are exactly those of the grab step, then one byte transfer when run is set, then the end of the transfer when stop is set. |
| I2c.StopReleasesBus | hw/stm32.c:633-637 | With the bus held, the stop bit ends the transfer and clears BUSBSY, otherwise BUSBSY stays set; ERROR is clear. |
| I2c.McsReadsIdle | hw/stm32.c:561-563 | MCS always reads with IDLE set, and its other bits are the flags. |
| I2c.ByteRegistersRoundTrip | hw/stm32.c:596-644 | MSA, MDR and MTPR read back the low byte of the written value. Each write stores only that register's low byte and makes no bus request. |
| I2c.MaskWriteEnables | hw/stm32.c:645-647 | Any MIMR write sets MIMR to 1 and changes nothing else. |
| I2c.ClearAcknowledges | hw/stm32.c:648-650 | An MICR write clears exactly the written raw bits and changes nothing else. |
| I2c.ControlRegisterModes | hw/stm32.c:651-659 | An MCR write aborts exactly when loopback or slave mode is requested, loopback first. Otherwise it stores the value masked with 0x31. |
| I2c.WriteFaults | hw/stm32.c:590-665 | A write other than MCR aborts exactly at unknown offsets, naming the offset. |
| I2c.MaskedStatusIsLevel | hw/stm32.c:572-573 | MMIS reads non-zero exactly when a raw interrupt bit is enabled. |
| I2c.ResetEndsHeldTransfer | hw/stm32.c:667-680 | Reset ends the transfer exactly when the bus was held, and MCS then reads only IDLE. |
| I2c.I2cMaster.constructor | hw/stm32.c:705-718 | A new master holds the reset register values. |
| I2c.I2cMaster.UpdateIrq | hw/stm32.c:582-588 | The interrupt line is driven to the masked-status level; the registers are unchanged. |
| I2c.I2cMaster.Read | hw/stm32.c:553-580 | It returns ReadRegister of the current registers; MMIS is non-zero exactly when the interrupt line is high. |
| I2c.I2cMaster.McsWrite | hw/stm32.c:599-638 | The registers and bus requests become McsCommand's. |
| I2c.I2cMaster.GrabBus | hw/stm32.c:604-612 | The registers and bus requests become Grab's. |
| I2c.I2cMaster.MoveByte | hw/stm32.c:620-632 | The registers and bus requests become Execute's. |
| I2c.I2cMaster.Release | hw/stm32.c:633-637 | The registers and bus requests become Finish's. |
| I2c.I2cMaster.Write | hw/stm32.c:590-665 | It aborts exactly when WriteRegister fails. Otherwise the registers and requests are its result and the interrupt line follows them. |
| I2c.I2cMaster.Reset | hw/stm32.c:667-680 | The registers and requests are ResetEffect's, and the interrupt line is low. |
| AdcFifo.Decode | hw/stm32.c:734-735 | The decoded tail and head are slot indices below 16. |
| AdcFifo.WriteStateBits | hw/stm32.c:786-793 | A write's bit operations clear EMPTY and keep every bit outside the tail, head, EMPTY and FULL fields. |
| AdcFifo.ReadStateBits | hw/stm32.c:764-771 | A read's bit operations clear FULL and keep every bit outside the tail, head, EMPTY and FULL fields. |
| AdcFifo.WriteStateFields | hw/stm32.c:786-793 | A write's bit operations keep the tail and advance the head by one modulo 16. They clear EMPTY and set FULL exactly when FULL was set or the new head meets the tail. Bits outside the fields are kept. |
| AdcFifo.ReadStateFields | hw/stm32.c:764-771 | A read's bit operations advance the tail by one modulo 16 and keep the head. They clear FULL and set EMPTY exactly when EMPTY was set or the unmasked tail + 1 equals the head. Bits outside the fields are kept. |
| AdcFifo.WriteStateImplementsAfterWrite | hw/stm32.c:775-793 | Decoding the word after the write's bit operations gives the decoded write update. |
| AdcFifo.ReadStateImplementsAfterRead | hw/stm32.c:759-773 | Decoding the word after the read's bit operations gives the decoded read update. |
| AdcFifo.ResetDecodes | hw/stm32.c:837 | The reset word decodes to an empty FIFO with head and tail at slot 0. |
| AdcFifo.EncodeDecodes | hw/stm32.c:734-735 | Encoding a status and decoding it gives the status back, and the encoding uses only the state word's fields. |
| AdcFifo.DecodeEncodes | hw/stm32.c:734-735 | Any word with no bits outside those fields is the encoding of its decoding. |
| AdcFifo.ResetEncodes | hw/stm32.c:837 | The reset status encodes to the EMPTY word. |
| AdcFifo.WriteStateEncodes | hw/stm32.c:775-793 | The write's bit operations on an encoded status give the encoding of the decoded update. |
| AdcFifo.ReadStateEncodes | hw/stm32.c:759-773 | The read's bit operations on an encoded status give the encoding of the decoded update. |
| AdcFifo.Push | hw/stm32.c:775-793 | A push overflows exactly when FULL is set, and then changes nothing. Otherwise it stores the value at the head slot and clears EMPTY. |
| AdcFifo.Pop | hw/stm32.c:759-773 | A pop returns the tail slot even on underflow, and underflows exactly when EMPTY is set, then changing nothing. Otherwise it clears FULL. The data slots never change. |
| AdcFifo.ResetFifoIsEmpty | hw/stm32.c:837 | A FIFO in the reset state holds an empty queue. |
| AdcFifo.WriteAdvances | hw/stm32.c:786-793 | On a consistent FIFO that is not full, the head is the slot after the queue, and a write adds one item. |
| AdcFifo.ReadRetreats | hw/stm32.c:764-771 | On a consistent FIFO that is not empty, the unmasked test sees one item exactly when one item sits below slot 15. A read removes one item unless it drains the last item from slot 15. |
| AdcFifo.PushAppends | hw/stm32.c:775-793 | Pushing on a consistent FIFO that is not full appends the value to its queue. |
| AdcFifo.PopTakesOldest | hw/stm32.c:759-773 | Popping a consistent FIFO that is not empty returns the oldest item and advances the tail. The rest of the queue remains, unless the last item sat in slot 15, and only then does EMPTY stay clear. |
| AdcFifo.LastSlotDrainLeavesEmptyClear | hw/stm32.c:767-771 | Draining the only item from slot 15 leaves neither EMPTY nor FULL set, and a further read does not underflow. |
| AdcFifo.LastSlotExample | hw/stm32.c:767-771 | A FIFO holding one sample in slot 15 can be read twice without underflow. |
| AdcFifo.PushAllAppends | hw/stm32.c:775-793 | Pushing values that fit appends them all to the queue in order. |
| AdcFifo.PopAllReturnsQueue | hw/stm32.c:759-773 | Popping as many times as there are items returns the queue in order. EMPTY is then set exactly when the last item was not in slot 15. |
| AdcFifo.FifoOrderFromReset | hw/stm32.c:759-793 | After reset, pushing up to 16 samples and popping them returns them unchanged and in order. EMPTY is then set exactly when fewer than 16 were pushed. |
| Adc.Levels | hw/stm32.c:795-804 | Each of the four interrupt lines is high exactly when its sequencer's raw bit is enabled in the mask. |
| Adc.StoreSample | hw/stm32.c:775-793 | Storing a sample keeps the register file well shaped. |
| Adc.TakeSample | hw/stm32.c:759-773 | Taking a sample keeps the register file well shaped. |
| Adc.StoreSampleAppends | hw/stm32.c:775-793 | A store appends to a consistent sequencer FIFO that is not full. A full one instead sets only that sequencer's overflow bit and keeps every FIFO. Nothing else changes. |
| Adc.TakeSampleTakesOldest | hw/stm32.c:759-773 | A take returns the tail slot, which is the oldest item when the FIFO is consistent and not empty. An empty FIFO instead sets only that sequencer's underflow bit and keeps every FIFO. Nothing else changes. |
| Adc.StatusWordFollowsBitOperations | hw/stm32.c:759-793 | SSFSTAT after a store or a take is the source's packed word after its own bit operations, or the same word when FULL or EMPTY blocks the access. |
| Adc.NextNoise | hw/stm32.c:822 | One step of the noise generator flips the low bit of the noise: the multiplier is odd. |
| Adc.NoiseWrapsExample | hw/stm32.c:822 | The step wraps modulo 2^32: 0 steps to 1, and 0xffffffff steps to 0xfffb34d2. |
| Adc.SelectedIsSourceTest | hw/stm32.c:811-818 | A sequencer is selected exactly when its ACTSS bit is set and the eight EMUX bits from bit 4n equal 5. |
| Adc.Sample | hw/stm32.c:822-824 | Every sample lies between 0x200 and 0x207. |
| Adc.Serve | hw/stm32.c:811-827 | Serving one sequencer keeps the register file well shaped. |
| Adc.TriggerUpTo | hw/stm32.c:806-828 | Serving the first k sequencers keeps the register file well shaped. |
| Adc.ServeKeepsConfiguration | hw/stm32.c:811-827 | Serving a sequencer changes no configuration, mask or underflow register. |
| Adc.ServeNoise | hw/stm32.c:822 | The noise generator advances exactly when the sequencer is selected. |
| Adc.ServeFifo | hw/stm32.c:824 | Only the served sequencer's FIFO changes, and only when selected, by pushing a sample of the advanced noise. |
| Adc.ServeRaw | hw/stm32.c:825 | Serving sets exactly the served sequencer's raw bit, when selected. |
| Adc.ServeOverflow | hw/stm32.c:824 | Serving sets the served sequencer's overflow bit exactly when it is selected and its FIFO is full. |
| Adc.TriggerKeepsConfiguration | hw/stm32.c:806-828 | Serving any number of sequencers changes no configuration, mask or underflow register. |
| Adc.SelectionKept | hw/stm32.c:811-818 | Whether a sequencer is selected does not change while others are served. |
| Adc.TriggerNoise | hw/stm32.c:806-828 | After serving k sequencers the noise has advanced once per selected one. |
| Adc.TriggerFifoUntouched | hw/stm32.c:806-828 | Sequencers not yet served keep their FIFO. |
| Adc.TriggerFifo | hw/stm32.c:806-828 | After serving k sequencers, each selected one below k has had one sample pushed, drawn from the noise advanced once per selected sequencer up to it. The others are untouched. |
| Adc.TriggerRaisesInterrupt | hw/stm32.c:806-828 | After serving k sequencers the raw bit of each selected one below k is set and no other raw bit changes. |
| Adc.TriggerOverflow | hw/stm32.c:806-828 | After serving k sequencers the overflow bit is newly set exactly for the selected ones below k whose FIFO was full. |
| Adc.AfterTrigger | hw/stm32.c:806-828 | A trigger keeps the register file well shaped. |
| Adc.TriggerServesSelected | hw/stm32.c:806-828 | A trigger pushes one sample into each selected sequencer and raises its raw bit, setting overflow when it was full. Others are untouched, and the noise advances once per selected sequencer. Configuration is unchanged. |
| Adc.TriggerAppendsSample | hw/stm32.c:806-828 | A selected, consistent sequencer that is not full gains one sample between 0x200 and 0x207 at the end of its queue. |
| Adc.WideSelectorExample | hw/stm32.c:816 | Because the selector is masked with 0xff although the fields are four bits apart, with all sequencers active and EMUX 0x5555 (every selector "timer") only sequencer 3 is served. |
| Adc.ResetEffect | hw/stm32.c:830-839 | Reset keeps the register file well shaped. |
| Adc.ResetEmptiesFifos | hw/stm32.c:830-839 | Reset empties every FIFO without touching its data, makes SSFSTAT read EMPTY, zeroes SSMUX and SSCTL, and changes nothing else. |
| Adc.SequencerOf | hw/stm32.c:847-849 | The sequencer index of a sequencer block offset is below 4. |
| Adc.ReadRegister | hw/stm32.c:841-887 | Every sequencer register read succeeds and keeps the register file well shaped. A failing read names the offset. |
| Adc.ReadControllerRegister | hw/stm32.c:860-886 | A controller register read fails exactly at the offsets outside its nine registers, naming the offset. ISC reads the raw status masked by IM. |
| Adc.ReadSequencerRegister | hw/stm32.c:847-859 | A sequencer register read keeps the register file well shaped. |
| Adc.WriteRegister | hw/stm32.c:889-945 | A successful write keeps the register file well shaped. |
| Adc.WriteSequencerRegister | hw/stm32.c:895-911 | A successful sequencer register write keeps the register file well shaped. |
| Adc.WriteControllerRegister | hw/stm32.c:913-944 | A controller register write never touches the FIFOs, the sequencer configuration or the noise generator. |
| Adc.ReadFaults | hw/stm32.c:841-887 | A read aborts exactly at unreadable offsets, naming the offset. |
| Adc.WriteFaults | hw/stm32.c:889-945 | A write aborts exactly at offsets outside the writable registers and for any SSCTL value but 6. PSSI and unsupported sequences abort with their own reasons. |
| Adc.ReadPopsOnlyFifo | hw/stm32.c:841-887 | Only an SSFIFO read changes state, and it pops that sequencer's FIFO and returns the popped value. |
| Adc.SequencerRegistersRoundTrip | hw/stm32.c:895-911 | SSMUX reads back the value masked with 0x33333333, and SSCTL reads back the supported sequence. Each write changes only that sequencer's register. |
| Adc.ControlRegistersRoundTrip | hw/stm32.c:913-940 | ACTSS reads back the low four bits of the value; IM, EMUX, SSPRI and SAC read back the value. Each write changes only its own register. |
| Adc.ClearAcknowledgesRaw | hw/stm32.c:920-922 | An ISC write clears exactly the written raw bits and changes nothing else. |
| Adc.ClearAcknowledgesOverflow | hw/stm32.c:923-925 | An OSTAT write clears exactly the written overflow bits and changes nothing else. |
| Adc.ClearAcknowledgesUnderflow | hw/stm32.c:929-931 | A USTAT write clears exactly the written underflow bits and changes nothing else. |
| Adc.MaskedStatusRead | hw/stm32.c:870-871 | ISC reads the raw status masked by IM, and a sequencer's line is high exactly when its bit is set in that read. |
| Adc.AdcController.constructor | hw/stm32.c:988-1000 | A new controller holds the reset state of a zeroed register file, with all four interrupt lines low. |
| Adc.AdcController.Update | hw/stm32.c:795-804 | Each interrupt line is driven to its masked-status level; the registers are unchanged. |
| Adc.AdcController.FifoWrite | hw/stm32.c:775-793 | Computing on the packed state word, the registers become StoreSample's result. |
| Adc.AdcController.FifoRead | hw/stm32.c:759-773 | Computing on the packed state word, the registers and returned value become TakeSample's result. |
| Adc.AdcController.Trigger | hw/stm32.c:806-828 | The registers become AfterTrigger's result, and the interrupt lines follow them. |
| Adc.AdcController.ServeSequencer | hw/stm32.c:811-827 | The registers become Serve's result for that sequencer, and the interrupt lines follow them. |
| Adc.AdcController.Reset | hw/stm32.c:830-839 | The registers become ResetEffect's result. |
| Adc.AdcController.Read | hw/stm32.c:841-887 | It aborts, changing nothing, exactly when ReadRegister fails. Otherwise it returns its value and the registers become its registers. |
| Adc.AdcController.ReadSequencer | hw/stm32.c:847-859 | The value and registers become ReadSequencerRegister's. |
| Adc.AdcController.ReadController | hw/stm32.c:860-886 | It returns the controller register the offset names, or the fault, and changes nothing. |
| Adc.AdcController.Write | hw/stm32.c:889-945 | It aborts exactly when WriteRegister fails. Otherwise the registers become its result and the interrupt lines follow them. |
| Adc.AdcController.WriteSequencer | hw/stm32.c:895-911 | It aborts exactly when WriteSequencerRegister fails; otherwise the registers become its result. |
| Adc.AdcController.WriteController | hw/stm32.c:913-944 | It aborts exactly when WriteControllerRegister fails. Otherwise the registers become its result and the interrupt lines follow them. |

## Left out

- Device registration and glue are not modelled. This covers memory regions, sysbus and qdev wiring, snapshot descriptions, board tables, machine setup and the other peripherals of the file. They allocate or connect but compute nothing.
- Interrupt lines and the ADC trigger output are modelled as the level last driven: boolean fields, and a `pulse` result of `Timer.Gptm.Tick`. The receiving interrupt controller is not part of this model.
- The emulator clock and its timers are modelled as a deadline and an armed flag per channel. "Now" is a parameter, and the clock scale is passed to the timer operations instead of read from a global.
- The I2C bus is an oracle: whether a start is refused, whether the bus is busy, and the received byte. The requests made to it are returned as a sequence of bus operations and are not modelled further.
- The diagnostic `printf` output of the system controller is not modelled.
- Timer.ReloadDeadline: deadlines are unbounded integers, so the 64-bit overflow of the source's tick arithmetic is not modelled.
- SystemControl.SystemController.constructor: the values of the PLLON and PLLRDY bits come from a header that is not part of this model. They are parameters of the controller, with PLLON required to be non-zero.
- After an abort `hw_error` stops the emulator, so the state it leaves is not modelled as a whole. Each method reports the fault and promises only the following about the state:
  - `SystemControl.SystemController.Reset` has already reset PBORCTL and RCC, as the source stores them before decoding DID0. The other registers and the scale are unchanged.
  - `Timer.Gptm.Write` to CTL has already stored CTL. When channel B's reload faults, channel A may already have been rearmed.
  - `Timer.Gptm.Reload` leaves the timers unchanged. `Adc.AdcController.Read` leaves the registers unchanged.
  - The other methods that abort promise nothing about the state after the abort. These are `Timer.Gptm.Edge`, `Timer.Gptm.ControlTimers`, `Timer.Gptm.Tick`, `I2c.I2cMaster.Write`, and the ADC writes (`Adc.AdcController.Write`, `WriteSequencer` and `WriteController`).
- The I2C MCS register is held as its three flags (ERROR, ARBLST, BUSBSY), the only bits ever set in it. `I2c.McsWord` gives the register image.
- The timer prescaler registers are stored and read back, as in the source, but do not affect timing, also as in the source.
- The ADC trigger callback's line number and level arguments are ignored, as the source ignores them.
- Register write values are 64-bit in the source and 32-bit words here. Adc.WriteFaults: the SSCTL check compares only the low 32 bits, while the source compares the full 64-bit value.
- What happens after a snapshot load is modelled only for the system controller (`PostLoad`). The other peripherals have no load hook.
- The ADC FIFO pop sets EMPTY when the unmasked tail + 1 equals the head. A ring buffer would compare indices modulo 16. The model follows the source, and `AdcFifo.LastSlotDrainLeavesEmptyClear` shows the consequence.
- The ADC FIFOs are held decoded, not as a packed word. `AdcFifo.EncodeDecodes` and `AdcFifo.DecodeEncodes` prove the two forms equivalent, and SSFSTAT reads the encoding.
- Adc.AdcController.WriteController: the controller register switch takes its new register values from `WriteControllerRegister` rather than assigning field by field.
