# Attitude estimation supervisor, software UART and sonar capture

This project is a Dafny model of three parts of the flight firmware, with proofs about each.

- **The Revolution attitude module**, `flight/modules/Attitude/revolution/attitude.c`. The model covers:
  - the settings callback, which validates the EKF variances and defers reinitialisation while armed;
  - the task loop, which turns a pending reinitialisation into a first run and dispatches on the selected fusion algorithm;
  - the control flow of the complementary filter: the timeout warning, first-run levelling, the gain schedule, sign normalisation and identity reset of the quaternion, and the GPS and airspeed pass-through;
  - the control flow of the INSGPS wrapper: the per-stream update flags, NaN/Inf and fix-quality gating, the graded alarm, the dT clamp, the eleven-step staged start-up, the sensor mask handed to the correction, and the barometric offset low-pass;
  - the pure helpers `invalid`, `invalid_var`, `IAS2TAS` and `getNED`.
- **The bit-banged UART**, `flight/PiOS/STM32F10x/pios_softusart.c`. It is modelled in the configuration without PARITY and without BIT9, with SLOW_STREAM. The model covers:
  - the status flags and the baud divisor;
  - TxStart;
  - the transmit sequencer in the timer overflow interrupt;
  - the receive decoder in the capture/compare interrupt.
- **The HC-SR04 sonar driver**, `flight/PiOS/Common/pios_hcsr04.c`. The model covers the rise/fall capture state machine, its overflow counter, the 16-bit pulse arithmetic and the completion counter.

Floats are the datatype `IeeeFloat.Float`: a finite real, NaN or ±infinity, with IEEE 754 special-value rules and exact real arithmetic. Everything the code only calls is an input:

- RTOS queue receives and the scheduler tick count (`AttitudeTypes.Cycle`);
- UAVObject reads;
- `sqrtf` and `cosf`;
- the atan2 levelling and the rotations;
- the quaternion Euler step;
- the delay timer;
- the INSGPS library's prediction and correction (`AttitudeTypes.Externals`);
- the levels the receive decoder reads, the bytes the COM layer hands over and whether it accepts a byte. RX_TEST (pios_softusart.c:444) reads the RX pin's port at the TX pin's number, which is the receive pin only in half duplex;
- the timer's interrupt status flags and capture register.

Where the code changes state in place, the model is a class with that state:

- `Attitude.AttitudeEstimator` holds the module's file statics, its function statics and the objects it publishes.
- `SoftUsart.SoftUsartDevice` holds the device record.
- `Hcsr04.SonarCapture` holds the driver statics.

Each method is proved against a function on a value of the same state (`Uart`, `Sonar`, or the pure filter steps). The properties are proved about those functions.

Files:

- `ieee_float.dfy`: floats with special values.
- `attitude_types.dfy`: the records and `invalid`, `invalid_var`, `IAS2TAS`, `getNED`.
- `attitude_complementary.dfy`: the complementary filter's gain schedule, errors and renormalisation.
- `attitude_insgps.dfy`: the INSGPS gating, alarm, clamp, staging, sensor mask and inputs.
- `attitude.dfy`: the module object.
- `softusart.dfy`, `hcsr04.dfy`: the two drivers.

## Model

| member | source | states |
|---|---|---|
| AttitudeTypes.InvalidVar | flight/modules/Attitude/revolution/attitude.c:135-143 | A variance is accepted exactly when it is finite and at least 1e-15. NaN, infinities, zero, negatives and tiny values are all rejected. |
| AttitudeTypes.Ias2TasGrowth | flight/modules/Attitude/revolution/attitude.c:88-90 | The IAS-to-TAS factor is 1 at altitude 0. It grows by exactly 0.02 for every 304.8 m (1000 ft) of altitude. It is NaN for a NaN altitude. |
| AttitudeTypes.GetNedAtHome | flight/modules/Attitude/revolution/attitude.c:1045-1056 | The GPS fix is at the home latitude, longitude and altitude, with no geoid separation. getNED, with the coefficients T computed from that home location, then gives (0, 0, 0). |
| AttitudeTypes.GetNedRoundTrip | flight/modules/Attitude/revolution/attitude.c:1045-1056 | getNED is the componentwise product T[i]·dL[i] and loses nothing. With non-zero finite coefficients, dividing the result by T gives back the geodetic delta (dLat, dLon, dAlt). |
| ComplementaryFilter.ScheduleGains | flight/modules/Attitude/revolution/attitude.c:364-381 | Fast gains (AccelKp 1, AccelKi 0.9, YawBiasRate 0.23, magKp 1) apply in two cases. The first is the settling window (init still 0 and 1000 < ticks < 7000). The second is arming with ZeroDuringArming set, which also resets init. Otherwise the stored AttitudeSettings are loaded once, with magKp 0.01, and then kept unchanged. init is 1 exactly when neither fast case applies. |
| ComplementaryFilter.ScheduleSettles | flight/modules/Attitude/revolution/attitude.c:364-381 | Outside the settling window and while not arming, one step loads the settings and a second step with the same inputs changes nothing. |
| ComplementaryFilter.MagError | flight/modules/Attitude/revolution/attitude.c:413-445 | This follows the code as written. mag_err is zeroed when a magnetometer event is waiting. It is recomputed only when no event is waiting. A non-finite reading keeps the previous error. |
| ComplementaryFilter.MagErrorShortReading | flight/modules/Attitude/revolution/attitude.c:427-441 | A finite magnetometer reading shorter than 1 gives a zero error. |
| ComplementaryFilter.SignNormalised | flight/modules/Attitude/revolution/attitude.c:481-486 | The scalar part is not negative afterwards. The result is q itself or -q, componentwise. |
| ComplementaryFilter.NormOfNonFinite | flight/modules/Attitude/revolution/attitude.c:489 | A quaternion with a NaN or infinite component has a non-finite norm. |
| ComplementaryFilter.NormaliseAsWrittenPublishesNaN | flight/modules/Attitude/revolution/attitude.c:488-502 | This follows the code as written. A stepped quaternion (-Inf, +Inf, +Inf, -Inf) sign-normalises to (+Inf, -Inf, -Inf, +Inf), whose infinite norm passes the reset test, and is published with a NaN scalar part (see Findings). |
| ComplementaryFilter.NormaliseResult | flight/modules/Attitude/revolution/attitude.c:481-502 | After the corrected renormalisation, the scalar part is finite and non-negative. The result is exactly the identity (1, 0, 0, 0) when the norm is below 1e-3 or NaN. Otherwise it is either the identity or the sign-normalised quaternion divided by a finite norm of at least 1e-3. |
| ComplementaryFilter.AttitudeStep | flight/modules/Attitude/revolution/attitude.c:398-502 | One steady-state step publishes an attitude with a finite, non-negative scalar part, which is the identity or fully finite. mag_err is zero when a magnetometer event was waiting, and kept when the reading is not finite. |
| InsGpsFilter.AccumulateStreams | flight/modules/Attitude/revolution/attitude.c:649-664 | The magnetometer, barometer and airspeed flags are or-ed with their queue events. Indoors the GPS flags are unchanged. Outdoors each GPS flag is set exactly when it was already set, its event arrived, or its object is read-only (simulation). |
| InsGpsFilter.CheckSampleValues | flight/modules/Attitude/revolution/attitude.c:696-742 | A stream survives exactly when it was flagged and its sample is finite. The magnetometer also needs a home field of usable strength. GPS position also needs finite altitude and usable R variances. value_error is raised exactly when one of these checks fails. |
| InsGpsFilter.GateStreams | flight/modules/Attitude/revolution/attitude.c:696-756 | The value checks, then the airspeed-connected check and the GPS fix-quality check, as one gating relation. |
| InsGpsFilter.GatedProperties | flight/modules/Attitude/revolution/attitude.c:696-756 | Gating only clears flags, and a surviving stream has a finite sample. A surviving GPS stream has a usable fix: at least 7 satellites, PDOP at most 4, not at (0, 0), and home set. Without a value error, the airspeed flag survives exactly when the sensor is connected, and the GPS velocity flag exactly when the fix is usable. So neither check raises value_error. |
| InsGpsFilter.InsAlarm | flight/modules/Attitude/revolution/attitude.c:758-768 | The alarm follows a strict priority order. Before init it is ERROR. Otherwise it is CRITICAL exactly on a value or variance error. It is cleared exactly when there is no error and not (outdoors with fewer than 7 satellites). It is never WARNING. |
| InsGpsFilter.ClampDt | flight/modules/Attitude/revolution/attitude.c:770-778 | dT is clamped into [0.001, 0.01]. A value in (0.001, 0.01] is kept. A step longer than 0.01 s becomes 0.01, and one of at most 0.001 s becomes 0.001. |
| InsGpsFilter.StagingCount | flight/modules/Attitude/revolution/attitude.c:886-888 | Each InsStartupStep updates (init_stage, inited) by StageStep, and a first run sets (0, false). So after k start-up steps init_stage is k, and the filter counts as initialised exactly when k > 10: one reset and ten predictions. |
| InsGpsFilter.SensorMask | flight/modules/Attitude/revolution/attitude.c:921-998 | The mask contains each sensor group when its condition holds: MAG when mag updated; BARO when baro updated; POS for a GPS fix outdoors, or always indoors; HORIZ and VERT when a velocity source feeds them. It contains no other bits. It is empty exactly when outdoors with no updated stream. |
| InsGpsFilter.AssembleSensors | flight/modules/Attitude/revolution/attitude.c:921-998 | The mask built up by or-ing each group in the order of the code equals SensorMask. |
| InsGpsFilter.BaroOffsetContracts | flight/modules/Attitude/revolution/attitude.c:948-951 | The low-passed barometric offset stays finite, and its distance to the target shrinks by exactly the factor 0.9997. |
| InsGpsFilter.OutdoorOffsetAligns | flight/modules/Attitude/revolution/attitude.c:815-816 | With the outdoor start-up offset, barometer plus offset equals the GPS height -NED[2]. |
| InsGpsFilter.IndoorInitialOffset | flight/modules/Attitude/revolution/attitude.c:818-822 | With the indoor start-up offset -baro, the initial height -(baro + offset) is zero for a finite barometer. It is not finite otherwise. |
| InsGpsFilter.InitialPosition | flight/modules/Attitude/revolution/attitude.c:805-824 | Indoors the filter starts at (0, 0, 0) when the barometer is finite. |
| InsGpsFilter.CorrectionNed | flight/modules/Attitude/revolution/attitude.c:929-965 | Indoors the position measurement is the fake one: zero horizontally, with height -(baro + offset). Outdoors without a GPS fix it is the origin. |
| InsGpsFilter.CorrectionVel | flight/modules/Attitude/revolution/attitude.c:967-997 | The velocity measurement is zero unless a velocity source feeds the correction. Outdoors with a GPS velocity it is that velocity. |
| InsGpsFilter.Deg2RadRestoresBias | flight/modules/Attitude/revolution/attitude.c:896-903 | Converting the corrected rate and the bias to radians separately and adding them gives the radian value of the raw rate. |
| InsGpsFilter.PredictionRatesRaw | flight/modules/Attitude/revolution/attitude.c:896-903 | The prediction receives the same rates whether the sensor module removed the bias (it is then added back) or not. |
| InsGpsFilter.TrueAirspeedScaling | flight/modules/Attitude/revolution/attitude.c:974-981 | For finite inputs, true airspeed is calibrated airspeed times 1 + 0.02·(home altitude - Down)/304.8. With Down equal to the home altitude (altitude 0) the two agree. At the home location (Down = 0) the factor is IAS2TAS of the home altitude. |
| InsGpsFilter.InitialVariancesUsable | flight/modules/Attitude/revolution/attitude.c:785-799 | A configuration that passed the settings check hands only finite variances of at least 1e-15 to the library at start-up. |
| InsGpsFilter.GpsVariancesUsable | flight/modules/Attitude/revolution/attitude.c:727-735 | When the GPS R-variance check passes, the position and velocity variances fed to the correction are usable. |
| Attitude.CheckVariances | flight/modules/Attitude/revolution/attitude.c:1075-1093 | The three loops over P, Q and R report an error exactly when some entry is NaN, infinite or below 1e-15. |
| Attitude.AttitudeEstimator.constructor | flight/modules/Attitude/revolution/attitude.c:158-200 | AttitudeActual is the identity and GyrosBias is zero. The initial statics of lines 113-115 hold: variance_error set, a reinitialisation pending, running_algorithm 0xffffffff. The INSGPS staging is at 0 and not initialised. |
| Attitude.AttitudeEstimator.ReloadFilterSettings | flight/modules/Attitude/revolution/attitude.c:1069-1111 | The configuration is rejected exactly when some P/Q/R variance is invalid, or the vehicle is ARMED while no initialisation is pending. A rejection sets variance_error and leaves running_algorithm and initialization_required unchanged. Otherwise the callback adopts FusionAlgorithm, clears variance_error and requests initialisation. |
| Attitude.AttitudeEstimator.SettingsUpdated | flight/modules/Attitude/revolution/attitude.c:1058-1129 | Each object is copied only on its own event or the forced call. The filter settings are reloaded, with the previous row's outcome, on a forced call, an EKF or Revo settings change, or a flight-status change while variance_error is set; otherwise they are untouched. T is recomputed only on a home-location update. |
| Attitude.AttitudeEstimator.TaskStart | flight/modules/Attitude/revolution/attitude.c:241-244 | The alarm is cleared and every settings object is read, including T from the home location. |
| Attitude.AttitudeEstimator.ComplementaryFirstRun | flight/modules/Attitude/revolution/attitude.c:315-360 | A first run with a magnetometer event resets init, sets the levelled attitude and restarts the clock. Nothing else changes. |
| Attitude.AttitudeEstimator.CopyNavigation | flight/modules/Attitude/revolution/attitude.c:511-558 | PositionActual becomes getNED of the fix only when a fix arrived and home is set. VelocityActual becomes the GPS velocity only when one arrived. AirspeedActual becomes (calibrated, true airspeed at the new height) only when a reading arrived from a connected sensor. |
| Attitude.AttitudeEstimator.ComplementaryStep | flight/modules/Attitude/revolution/attitude.c:364-565 | A steady-state step uses the scheduled gains and the time since the last step. With the corrected renormalisation (see Findings), it publishes an attitude with a finite q0 >= 0 and the integrated bias, copies the navigation objects, and sets the alarm to CRITICAL on variance_error, cleared otherwise. |
| Attitude.AttitudeEstimator.UpdateComplementary | flight/modules/Attitude/revolution/attitude.c:291-569 | The result is -1 exactly on a timeout outside simulation, which also sets the alarm to WARNING, or on a first run without a magnetometer event. A first run levels the attitude. Any other step publishes the variance alarm and, with the corrected renormalisation (see Findings), q0 >= 0. |
| Attitude.AttitudeEstimator.InsFirstRun | flight/modules/Attitude/revolution/attitude.c:634-647 | A first run clears every stream flag, sets inited false and init_stage 0, and restarts the clock. Nothing else changes. |
| Attitude.AttitudeEstimator.InsCheckSamples | flight/modules/Attitude/revolution/attitude.c:626-768 | The flags are cleared once inited, then accumulated. A non-finite gyro or accel sample sets the alarm to ERROR and stops the step. Otherwise the flags are gated and the alarm follows InsAlarm. |
| Attitude.AttitudeEstimator.InsStartupStep | flight/modules/Attitude/revolution/attitude.c:780-891 | (init_stage, inited) become StageStep of the old init_stage: init_stage goes up by one, and inited holds exactly when it exceeds 10. Stage 0 resets the library with the configured variances, the levelled attitude, the start position and P, and sets the barometric offset. Later stages only predict and publish the attitude. |
| Attitude.AttitudeEstimator.InsCorrect | flight/modules/Attitude/revolution/attitude.c:918-1030 | The correction runs only with a non-empty sensor mask, on the assembled measurements. The barometric offset is low-passed only on a GPS fix outdoors. The position/velocity variances come from GPS, indoor or airspeed settings. Position, velocity and gyro bias are published from the filter. |
| Attitude.AttitudeEstimator.InsFilterStep | flight/modules/Attitude/revolution/attitude.c:893-1030 | A running filter predicts over dT with the raw rates and publishes that attitude. The state is uncorrected when the mask is empty. Position, velocity and bias are published from the filter. |
| Attitude.AttitudeEstimator.InsProcess | flight/modules/Attitude/revolution/attitude.c:649-1032 | Bad gyro/accel samples leave the library and the objects untouched. Otherwise the step is gated, alarmed and timed. Staging advances exactly when mag, baro and (GPS or indoor) are in and variance_error is clear. Library and objects change only in a start-up step or once inited. Position and velocity change only once inited. |
| Attitude.AttitudeEstimator.UpdateInsGps | flight/modules/Attitude/revolution/attitude.c:582-1033 | The result is -1 exactly on a timeout outside simulation (WARNING). A first run restarts the staging. The correction never runs, and position and velocity are never published, before inited. |
| Attitude.AttitudeEstimator.TaskIteration | flight/modules/Attitude/revolution/attitude.c:250-281 | A pending initialisation is consumed as the first run. An unknown running_algorithm, such as the initial 0xffffffff, sets CRITICAL and returns -1. initialization_required is set afterwards exactly when the step returned non-zero. |
| SoftUsart.MskTable | flight/PiOS/STM32F10x/pios_softusart.c:67 | Entry i of MSK_TAB is bit i. Entries 0 to 7 are non-zero. |
| SoftUsart.SetStatus | flight/PiOS/STM32F10x/pios_softusart.c:313-316 | Afterwards the flag tests true, and every other flag tests as before. |
| SoftUsart.ClrStatus | flight/PiOS/STM32F10x/pios_softusart.c:321-324 | Afterwards the flag tests false, and every other flag tests as before. |
| SoftUsart.BaudDivisor | flight/PiOS/STM32F10x/pios_softusart.c:339-340 | The divisor (MASTER_CLOCK / (PSC + 1)) / baud / 2 is the floor of the clock rate over twice the baud rate, i.e. half a bit period in timer ticks. It is 0 for a zero baud rate. |
| SoftUsart.AutoReload | flight/PiOS/STM32F10x/pios_softusart.c:342 | The 16-bit autoreload register receives the divisor whenever the divisor fits in 16 bits. |
| SoftUsart.DefaultBaudReload | flight/PiOS/STM32F10x/pios_softusart.c:339-342 | At 4800 baud on an undivided 72 MHz clock the reload is 7500. |
| SoftUsart.TxLoad | flight/PiOS/STM32F10x/pios_softusart.c:397-413 | tx_data is loaded and TRANSMIT_DATA_REG_EMPTY cleared exactly when the flag was set and the COM layer handed over a byte. Otherwise nothing changes. |
| SoftUsart.Driven | flight/PiOS/STM32F10x/pios_softusart.c:473-524 | The line is driven by tx_bit: 0 drives low; 1 to DATA_LENGTH drive bit tx_bit-1 of tx_data; the stop bit drives high and also sets TRANSMIT_DATA_REG_EMPTY. Nothing else changes. |
| SoftUsart.SendBit | flight/PiOS/STM32F10x/pios_softusart.c:470-562 | Before the last bit, tx_bit advances. After the stop bit, tx_bit is 0 and the phase resets. Under SLOW_STREAM, TRANSMIT_IN_PROGRESS is cleared. The register is empty exactly when no next byte came, and a next byte is loaded. The receiver state is untouched. |
| SoftUsart.StartFrame | flight/PiOS/STM32F10x/pios_softusart.c:563-569 | An idle transmitter starts a frame at bit 0 exactly when the register is full and no reception runs. Otherwise nothing changes. |
| SoftUsart.OverflowTick | flight/PiOS/STM32F10x/pios_softusart.c:449-578 | An interrupt on an inactive device or an out-of-range channel changes nothing. A non-phase tick only flips the phase. The receiver state is never touched. The record invariant is kept. |
| SoftUsart.HighCount | flight/PiOS/STM32F10x/pios_softusart.c:719-722 | rx_samp lies in 0 to 3. It is 0 exactly when all three reads are low, and 3 exactly when all three are high. |
| SoftUsart.StartBitSample | flight/PiOS/STM32F10x/pios_softusart.c:724-733 | At rx_bit 0, three low reads give rx_bit 1 and rx_buff 0. Any high read ends the reception. |
| SoftUsart.DataBitSample | flight/PiOS/STM32F10x/pios_softusart.c:736-800 | A data bit is set in rx_buff (LSB first) exactly when two or three reads were high. One or two high reads flag RECEIVE_NOISE_ERROR. rx_bit advances. Nothing else changes. |
| SoftUsart.StopBitSample | flight/PiOS/STM32F10x/pios_softusart.c:764-794 | The stop bit delivers rx_buff and clears RECEIVE_IN_PROGRESS. FRAME_ERROR is set exactly when fewer than 3 reads were high. A refused byte increments rx_dropped (32-bit) and sets RECEIVE_BUFFER_OVERFLOW. |
| SoftUsart.SampleBit | flight/PiOS/STM32F10x/pios_softusart.c:716-802 | A sampling interrupt keeps the transmitter and the phase and records rx_samp. Only the stop bit delivers. |
| SoftUsart.EdgeTick | flight/PiOS/STM32F10x/pios_softusart.c:694-817 | An unserved interrupt changes nothing. On an idle line with no transmission, a reception starts with rx_bit = rx_phase = 0. Only every other interrupt samples. A byte is delivered only at the stop bit. The transmitter is never touched. |
| SoftUsart.SendDataBit | flight/PiOS/STM32F10x/pios_softusart.c:517-562 | The two interrupts of bit k put the level of bit k on the line and move on to bit k+1. |
| SoftUsart.SendStopBit | flight/PiOS/STM32F10x/pios_softusart.c:502-506 | The stop bit's interrupt drives the line high. |
| SoftUsart.TransmitFrom | flight/PiOS/STM32F10x/pios_softusart.c:470-562 | From bit k, the line carries every remaining bit of the frame for two interrupts each, up to the stop bit. |
| SoftUsart.DataBitTick | flight/PiOS/STM32F10x/pios_softusart.c:716-800 | Sampling a data bit on a steady line adds that level as the bit and moves on, delivering nothing. |
| SoftUsart.AssembledBit | flight/PiOS/STM32F10x/pios_softusart.c:757-759 | Adding data bit k, as sampled, to a buffer that holds the low k-1 bits of the byte gives a buffer holding the low k bits. |
| SoftUsart.ReceiveStartBit | flight/PiOS/STM32F10x/pios_softusart.c:724-728 | A start bit read low on its two interrupts begins the assembly at data bit 1 with an empty buffer. |
| SoftUsart.ReceiveDataBit | flight/PiOS/STM32F10x/pios_softusart.c:736-800 | The two interrupts of data bit k assemble it and move on to bit k+1, delivering nothing. |
| SoftUsart.ReceiveStopBit | flight/PiOS/STM32F10x/pios_softusart.c:764-794 | The stop bit's interrupt delivers the assembled byte once and ends the reception. |
| SoftUsart.ReceiveFrom | flight/PiOS/STM32F10x/pios_softusart.c:716-802 | From data bit k, reading the rest of a frame delivers exactly the byte once and ends the reception. |
| SoftUsart.StartReception | flight/PiOS/STM32F10x/pios_softusart.c:804-809 | The falling edge of a start bit on an idle receiver starts a reception at bit 0. |
| SoftUsart.TransmitThenReceive | flight/PiOS/STM32F10x/pios_softusart.c:449-817 | The round trip: a receiver that sees the start edge and then samples the levels the transmitter drives over a whole frame delivers exactly the byte sent, once, and goes back to waiting. |
| SoftUsart.SoftUsartDevice.constructor | flight/PiOS/STM32F10x/pios_softusart.c:160-249 | Init on a zero-filled record sets the device active, 4800 baud on the RX timer (and on the TX timer unless half duplex), and only TRANSMIT_DATA_REG_EMPTY set. |
| SoftUsart.SoftUsartDevice.ChangeBaud | flight/PiOS/STM32F10x/pios_softusart.c:329-349 | The RX timer gets the new reload. The TX timer gets it only when the device is not half duplex. The record is unchanged. |
| SoftUsart.SoftUsartDevice.TxStart | flight/PiOS/STM32F10x/pios_softusart.c:390-433 | The record after the call is TxLoad of the record before it. |
| SoftUsart.SoftUsartDevice.DriveBit | flight/PiOS/STM32F10x/pios_softusart.c:473-524 | The record after the call is Driven of the record before it. |
| SoftUsart.SoftUsartDevice.SendCurrentBit | flight/PiOS/STM32F10x/pios_softusart.c:470-562 | The record after the call is SendBit of the record before it. |
| SoftUsart.SoftUsartDevice.TimerOverflow | flight/PiOS/STM32F10x/pios_softusart.c:449-578 | The record after the call is OverflowTick of the record before it, served only when active and the channel is in range. |
| SoftUsart.SoftUsartDevice.CountHighReads | flight/PiOS/STM32F10x/pios_softusart.c:719-722 | rx_samp becomes the number of high reads. Nothing else changes. |
| SoftUsart.SoftUsartDevice.SampleStartBit | flight/PiOS/STM32F10x/pios_softusart.c:724-733 | The record after the call is StartBitSample of the record before it. |
| SoftUsart.SoftUsartDevice.SampleDataBit | flight/PiOS/STM32F10x/pios_softusart.c:736-800 | The record after the call is DataBitSample of the record before it. |
| SoftUsart.SoftUsartDevice.SampleStopBit | flight/PiOS/STM32F10x/pios_softusart.c:764-797 | The record after the call, and the byte delivered, are StopBitSample of the record before it. |
| SoftUsart.SoftUsartDevice.Sample | flight/PiOS/STM32F10x/pios_softusart.c:716-802 | The record after the call, and the byte delivered, are SampleBit of the record before it with the counted reads. |
| SoftUsart.SoftUsartDevice.TimerEdge | flight/PiOS/STM32F10x/pios_softusart.c:694-824 | The record after the call, and the byte delivered, are EdgeTick of the record before it, served only when active and the channel is in range. |
| Hcsr04.PulseWidth | flight/PiOS/Common/pios_hcsr04.c:222-227 | The corrected width fits in 16 bits and is the unique value that, added to RiseValue modulo 2^16, gives FallValue. It equals FallValue - RiseValue when FallValue is larger. |
| Hcsr04.OverflowTick | flight/PiOS/Common/pios_hcsr04.c:189-193 | An update interrupt advances only TimerCounter, modulo 2^16: by ARR as written, by the period ARR + 1 when corrected. CaptureState, RiseValue, FallValue, CaptureValue and CapCounter are unchanged. |
| Hcsr04.RisingCapture | flight/PiOS/Common/pios_hcsr04.c:197-202 | In state 0 a capture stores RiseValue, zeroes TimerCounter and enables the update interrupt. Nothing else changes. |
| Hcsr04.FallingCapture | flight/PiOS/Common/pios_hcsr04.c:203-205 | In state 1 a capture sets FallValue = (TimerCounter + capture) mod 2^16. Nothing else changes. |
| Hcsr04.SwitchState | flight/PiOS/Common/pios_hcsr04.c:211-241 | The state flips. Leaving state 1 computes the width (as written or corrected), increments CapCounter modulo 256 and disables both interrupts. |
| Hcsr04.IrqStep | flight/PiOS/Common/pios_hcsr04.c:187-242 | The handler under either arithmetic. CaptureState stays 0 or 1 and every static stays within its width. An update interrupt leaves the captures and CapCounter alone. Every other interrupt flips the state, even without the CC flag, and then leaves the timestamps alone. |
| Hcsr04.OverflowsAccumulate | flight/PiOS/Common/pios_hcsr04.c:189-193 | k overflows add k adders (ARR as written, ARR + 1 corrected) to TimerCounter modulo 2^16 and change nothing else. |
| Hcsr04.MeasureSteps | flight/PiOS/Common/pios_hcsr04.c:187-242 | Under either arithmetic, a rising capture, k overflows and a falling capture hand Get the width of the rise and the fall capture plus k adders modulo 2^16. CapCounter goes up by one and the machine is back in state 0 with both interrupts off. |
| Hcsr04.MeasurePulse | flight/PiOS/Common/pios_hcsr04.c:187-242 | With the corrected arithmetic, a rising capture, k overflows and a falling capture give CaptureValue = the elapsed ticks modulo 2^16. CapCounter goes up by one and the machine is back in state 0 with both interrupts off. |
| Hcsr04.PulseWidthAsWritten | flight/PiOS/Common/pios_hcsr04.c:223-227 | This follows the code as written. The width fits in 16 bits, and equal values give 0xFFFF. In the wrap case it is one less than the modular difference. |
| Hcsr04.MeasureAsWritten | flight/PiOS/Common/pios_hcsr04.c:189-227 | The closed form of a measurement as written: ARR added per overflow and the width counted from 0xFFFF. It fits in 16 bits, and is the plain difference when no wrap occurs. |
| Hcsr04.HandlerAsWritten | flight/PiOS/Common/pios_hcsr04.c:187-242 | The handler as written, run over a rising capture, k overflows and a falling capture, hands MeasureAsWritten to Get. |
| Hcsr04.AsWrittenLosesTicks | flight/PiOS/Common/pios_hcsr04.c:189-227 | An echo from tick 65000 across one 65536-tick period to tick 100 lasts 636 ticks. The handler as written hands 634 to Get (see Findings). |
| Hcsr04.CorrectedMeasuresTicks | flight/PiOS/Common/pios_hcsr04.c:187-242 | The same echo, through the corrected handler, hands 636 to Get. |
| Hcsr04.SonarCapture.constructor | flight/PiOS/Common/pios_hcsr04.c:41-47 | The zero-filled statics: state 0, all counters 0, both interrupts off. |
| Hcsr04.SonarCapture.Init | flight/PiOS/Common/pios_hcsr04.c:79-149 | CaptureState, RiseValue, FallValue and CaptureValue are zeroed. The polarity is rising and both interrupts are off. CapCounter and TimerCounter are unchanged. |
| Hcsr04.SonarCapture.Get | flight/PiOS/Common/pios_hcsr04.c:155-158 | Returns the last pulse width, which is below 2^16. |
| Hcsr04.SonarCapture.Completed | flight/PiOS/Common/pios_hcsr04.c:164-167 | Returns the completion counter, which is below 256. |
| Hcsr04.SonarCapture.Trigger | flight/PiOS/Common/pios_hcsr04.c:171-180 | CapCounter becomes 0 and the capture interrupt is enabled. Nothing else changes. |
| Hcsr04.SonarCapture.Irq | flight/PiOS/Common/pios_hcsr04.c:187-242 | The statics after the interrupt are IrqStep, with the corrected arithmetic, of the statics before it. |

## Left out

- Hardware programming is not modelled:
  - GPIO, NVIC and timer register programming (capture/compare mode switches, `TIM_ICInit`, `GPIO_Init`, the CCER enable bits, the pending-bit clears);
  - the yield from the interrupt;
  - the LED toggle;
  - the watchdog;
  - the 15 µs trigger pulse wait.

  None of these affect the modelled state.
- RTOS and UAVObject machinery is reduced to inputs and outputs:
  - task and queue creation and the 100-tick start-up delay;
  - queue waits and their timeouts (each becomes a boolean input);
  - UAVObject Get/Set, which become inputs and fields of `Objects`;
  - alarm setters, which become the field `alarm`.
- Concurrency is not modelled. Every callback, task step and interrupt handler runs atomically in the model. In the code:
  - `settingsUpdatedCb` (attitude.c:1058-1129) runs asynchronously and can interleave with an AttitudeTask iteration. It writes variance_error, initialization_required, running_algorithm, the settings and T.
  - TxStart (pios_softusart.c:390-433) does an unprotected read-modify-write of the status. An edge interrupt that sets RECEIVE_IN_PROGRESS in between would lose that flag.
- AttitudeTypes.GetNed: the latitude and longitude differences in GeodeticDelta are unbounded integers. The code subtracts int32 values (attitude.c:1047-1048), which overflows for a difference beyond about 214.7°.
- Float rounding, overflow to infinity and the float constants' binary values are not modelled. Arithmetic on finite floats is exact real arithmetic, with IEEE special-value rules for NaN and infinities.
- The float numerics are function-typed inputs, because they are float numerics or code outside the module:
  - `sqrtf` and `cosf`;
  - the atan2 levelling with `RPY2Quaternion`;
  - `Quaternion2R` with `rot_mult`;
  - the quaternion Euler step.

  Only `sqrtf` is constrained: its result is the non-negative root. `CrossProduct` is defined in the model (`ComplementaryFilter.Cross`).
- `Quaternion2RPY` (attitude.c:507, :882, :915) is not modelled, so the Roll, Pitch and Yaw fields of AttitudeActual are not part of the published attitude.
- The INSGPS library (`INSStatePrediction`, `INSCorrection`) is a pair of function-typed inputs. `INSGPSInit`, the variance setters and `INSResetP` are recorded as the values handed over. `INSCovariancePrediction` and `INSGetP` (EKFStateVariance) are not modelled. insgps.h is not part of this model, so its sensor bit values (HORIZ_POS 0x003, POS 0x007, HORIZ 0x018, VERT 0x020, MAG 0x1C0, BARO 0x200, FULL 0x3FF) are assumed.
- The UAVObject headers are not part of this model. These values are assumed:
  - the FusionAlgorithm values 0 (complementary), 1 (indoor) and 2 (outdoor);
  - the EKFConfiguration sizes 13/9/10/3 and indices.
- The complementary filter's build without the HMC5883 magnetometer (the fixed (100, 0, 0) field at first run) is not modelled. The HMC5883 build is modelled.
- The always-false block of old code at attitude.c:939-944 is not modelled.
- ComplementaryFilter.MagError: the rotation of the home field into the body frame is an uninterpreted input, so only the zero cases and the kept-error case are stated, not the computed error.
- ComplementaryFilter.AttitudeStep: uses the corrected renormalisation described under Findings, not the one as written.
- Attitude.AttitudeEstimator.ComplementaryStep: runs AttitudeStep, so its finite q0 >= 0 holds for the corrected renormalisation. As written, an infinite norm publishes NaN.
- Attitude.AttitudeEstimator.UpdateComplementary: runs AttitudeStep, so its q0 >= 0 holds for the corrected renormalisation. As written, an infinite norm publishes NaN.
- Attitude.AttitudeEstimator.InsCorrect: the FakeR variances are passed on without a check, as in the code (the settings check covers only P, Q and R).
- SoftUsart.SoftUsartDevice: a missing COM callback is not modelled. The code calls the callbacks unchecked at pios_softusart.c:537 and :777, and the model takes their answers as the inputs `next` and `accepted`. The PIOS_Assert at line 533 is stated as an assertion in SendCurrentBit and proved: the stop-bit tick has set TRANSMIT_DATA_REG_EMPTY just before that point.
- SoftUsart.SoftUsartDevice: the PARITY and BIT9 variants, device allocation, validate and the magic number, Enable/Disable, GetConfig and RxStart are not modelled.
- SoftUsart.SoftUsartDevice: the stop-bit case DATA_LENGTH+2 cannot be reached with one stop bit, so it is not modelled.
- SoftUsart: the status register is a set of flags, not a bitmask. pios_softusart_priv.h, where the flag values, DATA_LENGTH and STOP_BITS are defined, is not part of this model, so 8N1 is assumed.
- SoftUsart.SoftUsartDevice: the TX pin level before the first frame is not modelled.
- SoftUsart.SoftUsartDevice.constructor: the record is taken as zero-filled, as the static allocator gives it. Under FreeRTOS the record comes from `pvPortMalloc` (pios_softusart.c:127), which does not zero it, and Init only ORs TRANSMIT_DATA_REG_EMPTY into the status it finds.
- Hcsr04.SonarCapture.Irq: runs the handler with the corrected arithmetic (ARR + 1 per overflow, widths wrapping at 2^16), not as written (see Findings). The handler as written is IrqStep with AsWritten.
- Hcsr04.PulseWidth: is the corrected width, wrapping at 2^16; PulseWidthAsWritten is the width as written (see Findings).
- Hcsr04.SonarCapture: the interrupt status reads and the capture register are inputs, and the reload (ARR) is a constant of the object. The shared-timer board variant, which keeps another driver's period, is covered by leaving the reload open.

## Findings

| source | as written | input that shows it | evidently intended | confidence | as-written member | corrected member |
|---|---|---|---|---|---|---|
| flight/modules/Attitude/revolution/attitude.c:488-502 | The identity reset fires only when the norm is below 1e-3 or NaN. An infinite norm passes, and each component divided by it becomes NaN or 0. | q = (0.5, 0.5, 0.5, 0.5) and gyros.x = +Inf. This is possible because the complementary path never checks the gyro/accel samples. The Euler step at lines 470-479 gives (-Inf, +Inf, +Inf, -Inf), which sign-normalises to (+Inf, -Inf, -Inf, +Inf). qmag = +Inf, so q0 = Inf/Inf = NaN is published to AttitudeActual. | Reinitialise on any non-finite norm, so the published attitude is always the identity or finite. | medium, not executed | ComplementaryFilter.NormaliseAsWrittenPublishesNaN | ComplementaryFilter.NormaliseResult |
| flight/PiOS/Common/pios_hcsr04.c:189-227 | Each overflow adds ARR (0xFFFF) to TimerCounter, although a period is ARR + 1 = 65536 ticks. The wrap case counts from 0xFFFF, not from 2^16. Each loses one tick. | Rise captured at 65000, one overflow, fall captured at 100, ARR 0xFFFF. The echo lasts 636 ticks, but 634 is reported. | The width is the elapsed ticks modulo 2^16. | high, not executed | Hcsr04.AsWrittenLosesTicks | Hcsr04.MeasurePulse |
