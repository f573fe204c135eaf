# MLX90614 infrared thermometer driver — Dafny model

This project models the logic of an STM32 HAL driver for the Melexis MLX90614
infrared thermometer. The driver keeps four pieces of state:

- the believed 7-bit slave address;
- its left-shifted "wire" form, which the HAL expects;
- the selected temperature unit (Kelvin, Celsius or Fahrenheit);
- the conversion routine for that unit.

Each public operation is a transition on that state. Here each one is a pure
function that returns an `Outcome`: a status code, the new state and the
ordered trace of bus transactions it issued. The operations are:

- initialisation;
- address discovery by linear probing;
- changing the address the driver uses;
- rewriting the address stored in the sensor's EEPROM;
- selecting the unit;
- reading the ambient, object 1 and object 2 channels.

The I2C bus is an oracle (`Transport.Bus`) that answers readiness probes and
two-byte memory reads and writes. The HAL's transport outcomes go through one
status mapping (`Status.MapHal`).

Modules:

- `Wrappers`: `Option`.
- `Status`: the HAL outcomes, the driver's status codes, and the status mapping.
- `Transport`: bytes, the 8-bit shift, the bus oracle, trace events and the timing constants.
- `DriverState`: the state record, the power-on state, the consistency invariant, units and their codes.
- `AddressManager`: discovery, the module-address setter and the EEPROM address rewrite.
- `TemperatureReader`: channels, raw-word reassembly, the error flag, conversion, the readers and unit selection.
- `Lifecycle`: initialisation.
- `DriverProperties`: properties that span several operations. Examples are the invariant kept by any sequence of calls, atomicity on failure, and the outcomes the header's usage example asserts.

Behaviour of the code worth stating up front:

- The EEPROM rewrite sends exactly two raw payload bytes, `{0, 0}` and then `{address, 0}`, with no packet error code. Its only read is the verify read after the write.
- If that read-back's low byte differs from the requested address, the call fails and the state is unchanged.
- When discovery finds nothing, the driver state is unchanged. The header note says the address is "disconfigured"; the C code never touches it, and the model follows the code.

## Model

| member | source | states |
|---|---|---|
| Status.MapHal | Src/mlx90614_ir_thermometer_driver.c:373-385 | HAL busy or timeout maps to NR and HAL error to ERR. HAL_OK passes through with the same numeric code, which is EC_OK. Each of these is an if-and-only-if, and the mapping never yields STOP or NA. |
| Status.OfCode | Inc/mlx90614_ir_thermometer_driver.h:364-371 | Reading a number 0..4 as a status code gives the code with that numeric value. OK=0, STOP=1, NR=2, NA=3 and ERR=4. |
| Status.OfCodeInvertsCode | Inc/mlx90614_ir_thermometer_driver.h:364-371 | The numbering of status codes is injective, so reading a code's number back gives the same code. |
| Transport.Shl1 | Src/mlx90614_ir_thermometer_driver.c:103 | Storing `a << 1` in a uint8_t gives `2a` for every address up to 0x7F. It wraps modulo 256 above that, and the direction bit is always clear. |
| DriverState.UnitOfCode | Src/mlx90614_ir_thermometer_driver.c:120-133 | A unit code is recognised exactly when it is 0, 1 or 2, and it decodes to the unit with that enumeration value. |
| DriverState.UnitCodeRoundTrip | Inc/mlx90614_ir_thermometer_driver.h:378-383 | Decoding the code of any unit gives that unit back. |
| AddressManager.GetModuleAddress | Src/mlx90614_ir_thermometer_driver.c:166-169 | The reported address is the believed one. In a consistent state it is a valid address whose truncated left shift is the wire address in use. |
| AddressManager.ScanFrom | Src/mlx90614_ir_thermometer_driver.c:152-161 | Probing from address `from` upward finds the least answering address in `from`..127, or reports that none in that range answers. Probe `i` goes to wire address `2(from+i)`, and the scan stops right after the first answer. |
| AddressManager.Find | Src/mlx90614_ir_thermometer_driver.c:139-164 | Discovery succeeds exactly when some address in 1..127 answers. It then adopts the least answering address with wire form 2·address and issues exactly that many probes, in ascending order, never at 0. Otherwise it reports NR after 127 probes and leaves the state unchanged. |
| AddressManager.FindSlaveAddress | Src/mlx90614_ir_thermometer_driver.c:142-163 | The probe loop, run one iteration at a time, gives the same status, state and trace as discovery. |
| AddressManager.SetModuleAddress | Src/mlx90614_ir_thermometer_driver.c:171-190 | Addresses 0 and above 0x7F give ERR with no probe. A valid address that does not answer gives NR. Success comes exactly when the address is valid and answers, and only success changes the address, setting wire := 2·address. |
| AddressManager.SetDeviceAddress | Src/mlx90614_ir_thermometer_driver.c:194-247 | An invalid address gives ERR with no transaction. Otherwise the trace is a prefix of erase {0,0}, delay 1000, write {addr,0}, delay 1000, 2-byte read, all at wire 0x00 register 0x2E. The first failing mapped status ends the call, and a read-back low byte ≠ addr gives ERR. OK comes exactly when every step passes, and only then does the address change. |
| TemperatureReader.RegistersDistinct | Src/mlx90614_ir_thermometer_driver.c:9-11 | The three channels use registers 0x06, 0x07 and 0x08, and no two channels share a register. |
| TemperatureReader.RawOf | Src/mlx90614_ir_thermometer_driver.c:294 | The reassembled word is a 16-bit value whose low byte is the first byte received and whose high byte is the second. |
| TemperatureReader.ErrorFlagIsHighBit | Src/mlx90614_ir_thermometer_driver.c:294-298 | The test `raw > 0x7FFF` holds exactly when bit 7 of the high byte, bit 15 of the word, is set. |
| TemperatureReader.Convert | Src/mlx90614_ir_thermometer_driver.c:358-371 | Over the reals, the Kelvin routine gives raw/50, the Celsius routine raw/50 − 273.15 and the Fahrenheit routine (raw/50 − 273.15)·1.8 + 32. Each is stated as the inverse relation that recovers the raw word from the result. |
| TemperatureReader.ConvertStrictlyIncreasing | Src/mlx90614_ir_thermometer_driver.c:358-371 | Each unit's conversion is strictly increasing in the raw word, so distinct raw words never convert to the same temperature. |
| TemperatureReader.ReadTemperature | Src/mlx90614_ir_thermometer_driver.c:284-301 | One 2-byte read of the channel register at the driver's wire address. A transport failure returns the mapped status and a raised bit 15 returns ERR; neither stores a value. OK comes exactly when the HAL succeeds and bit 15 is clear, and then the stored value is the installed routine applied to the little-endian raw word. |
| TemperatureReader.AmbientTemperature | Src/mlx90614_ir_thermometer_driver.c:277-302 | The ambient reader reads register 0x06 and otherwise behaves as the common reader. |
| TemperatureReader.Object1Temperature | Src/mlx90614_ir_thermometer_driver.c:304-329 | The object 1 reader reads register 0x07 and otherwise behaves as the common reader. |
| TemperatureReader.Object2Temperature | Src/mlx90614_ir_thermometer_driver.c:331-356 | The object 2 reader reads register 0x08 and otherwise behaves as the common reader. |
| TemperatureReader.GetTemperatureType | Src/mlx90614_ir_thermometer_driver.c:250-253 | The reported code is 0, 1 or 2 and decodes back to the stored unit. |
| TemperatureReader.SetTemperatureType | Src/mlx90614_ir_thermometer_driver.c:255-275 | The call succeeds exactly for codes 0..2. It then installs that unit and its matching routine together and touches neither address. Any other code gives ERR and changes nothing. |
| Lifecycle.Init | Src/mlx90614_ir_thermometer_driver.c:91-137 | An address above 0x7F gives ERR with no effect. Address 0 keeps the stored address and refreshes its wire form without a probe. A non-answering nonzero address gives NR with no effect. OK comes exactly when the address step passes and the unit code is 0..2, and leaves a consistent state. An unknown unit gives ERR with the unit and routine unchanged. |
| DriverProperties.PowerOnState | Src/mlx90614_ir_thermometer_driver.c:18-22 | Before any call the driver holds address 0x5A, a zero wire form, unit code 0 (Kelvin) and no conversion routine. This state is not yet consistent. |
| DriverProperties.FailedReadBeforeInit | Src/mlx90614_ir_thermometer_driver.c:285-290 | A reading at power-on whose transport call fails returns the mapped status and stores nothing, without needing a conversion routine. |
| DriverProperties.StepKeepsConsistent | Src/mlx90614_ir_thermometer_driver.c:19-22 | From a consistent state, every public call, successful or not, leaves the address in 1..127 with wire = 2·address and the routine matching the unit. |
| DriverProperties.RunKeepsConsistent | Src/mlx90614_ir_thermometer_driver.c:19-22 | Any sequence of public calls, each against whatever the bus answers at the time, keeps that invariant. |
| DriverProperties.InitThenRunConsistent | Inc/mlx90614_ir_thermometer_driver.h:665 | After a successful initialisation from power-on, the wire address equals twice the address and the unit and routine never drift apart, whatever calls follow. |
| DriverProperties.FailureChangesNothing | Src/mlx90614_ir_thermometer_driver.c:139-275 | Discovery, both address setters and unit selection leave the state untouched whenever they do not return OK. |
| DriverProperties.InitNotAtomic | Src/mlx90614_ir_thermometer_driver.c:99-133 | Initialisation with address 0 and an unrecognised unit returns ERR, yet it has already rewritten the wire address. So initialisation is not atomic. |
| DriverProperties.InitKeepsDefaultAddress | Inc/mlx90614_ir_thermometer_driver.h:671-674 | From power-on, initialising with address 0 keeps 0x5A and sets wire 0xB4 and the requested unit, with no bus transaction. |
| DriverProperties.InitRejectsWideAddress | Inc/mlx90614_ir_thermometer_driver.h:674 | An initialisation address of 128 or more is invalid: ERR, no transaction, no change. |
| DriverProperties.InvalidAddressKeepsAddress | Inc/mlx90614_ir_thermometer_driver.h:103-125 | Setting address 128 returns ERR without touching the bus, and the reported address is still the previous one. |
| DriverProperties.SilentAddressNotResponding | Inc/mlx90614_ir_thermometer_driver.h:81-101 | Setting a valid address at which nothing answers returns NR and keeps the reported address. |
| DriverProperties.FindSingleDevice | Inc/mlx90614_ir_thermometer_driver.h:388-393 | With one device at k, discovery returns OK, adopts exactly k with wire 2k and issues k probes. |
| DriverProperties.FindSilentBus | Inc/mlx90614_ir_thermometer_driver.h:407-409 | With no device, discovery returns NR after 127 probes and the state is unchanged. |
| DriverProperties.SetThenGetUnit | Inc/mlx90614_ir_thermometer_driver.h:174-194 | Selecting K, C or F succeeds, and the reported unit afterwards is the one selected. |
| DriverProperties.ReadingUsesSelectedUnit | Inc/mlx90614_ir_thermometer_driver.h:546-550 | In a consistent state, a successful reading uses the conversion formula of the selected unit. |
| DriverProperties.RefusedUnitKeepsReadings | Inc/mlx90614_ir_thermometer_driver.h:538-539 | A refused unit code returns ERR, and every later reading is exactly what it would have been without the call. |
| DriverProperties.ErrorFlagFailsInEveryUnit | Inc/mlx90614_ir_thermometer_driver.h:562-567 | A reading with the error flag raised returns ERR and stores nothing, whatever the selected unit. |
| DriverProperties.FailedEraseStopsRewrite | Src/mlx90614_ir_thermometer_driver.c:207-214 | If the erase fails, the rewrite issues only the erase, never writes the new address, and leaves the state unchanged. |
| DriverProperties.WriteFollowsSuccessfulErase | Src/mlx90614_ir_thermometer_driver.c:207-225 | If the rewrite wrote the new address, the erase came first, as transaction 0, and succeeded. The write is transaction 2. |

## Left out

- HAL I2C primitives and the I2C handle: `HAL_I2C_IsDeviceReady`, `HAL_I2C_Mem_Read` and `HAL_I2C_Mem_Write` are vendor code that is not part of this model. They become the `Bus` oracle, and the handle plays no role. That includes the probe in initialisation using the handle before it is assigned.
- The oracle is stateless within one call. Every transaction of a single call is distinct, so this loses no behaviour of a call. Across calls, each `Step` carries its own bus.
- The HAL status values (OK 0, ERROR 1, BUSY 2, TIMEOUT 3) come from the vendor HAL. The mapping's pass-through branch is modelled only for HAL_OK, the one other enumerator.
- The probe trial count (1), the bus timeout (100 ms) and the register-address size (1 byte) are not modelled, because retries and timing happen inside the transport.
- `HAL_Delay` is recorded as a `Delay(1000)` trace event. No time passes.
- Floating point: the converters are stated over `real`. The model makes no claim about single-precision rounding.
- TemperatureReader.ReadTemperature requires a conversion routine only when the read succeeds with the error flag clear, which is the one path that calls it. Calling the routine before any unit was installed is undefined behaviour in C.
- The printf and `while(1)` scaffolding of the header's usage example is console I/O. Only the outcomes that example asserts are modelled, as lemmas.
- Power cycling after an EEPROM rewrite, and whether the device then answers at the new address, happen outside the driver.
- Concurrent use is left out, because the driver assumes one sequential owner of the bus.
