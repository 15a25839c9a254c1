# Magnesium daughterboard manager — a Dafny model

This project models the configuration and bookkeeping core of the `Magnesium`
daughterboard manager (`mpm/python/usrp_mpm/dboard_manager/magnesium.py`), the
MPM class that drives the N310 radio daughterboard:

- **Re-initialisation decision** (`init`, `update_ref_clock_freq`,
  `get_master_clock_rate`). The class `MagnesiumDboard.Magnesium` keeps the
  reference clock frequency, the master clock rate, the last committed init
  arguments and whether peripheral bring-up succeeded. `Init` follows the
  source statement by statement. It is proved against the pure function
  `InitDecision.InitPrelude`, which gives the validation outcome, the clock state
  left behind and the fast-reinit hint. The external `MagnesiumInitManager` is a
  function-typed parameter `initManager(args, previousArgs, fastReinit)`. Its
  boolean verdict decides whether `args` is committed.
- **Revision fallback lookup** (`_get_user_eeprom_info`). `EepromLayout.GetUserEepromInfo`
  is the source's decrementing `while` loop. It is proved against
  `EepromLayout.FallbackRev`, whose contract gives the greatest table key at or
  below the requested revision among the probed revisions.
- **User-data overlay** (`get_user_eeprom_data` and the merge loop of
  `set_user_eeprom_data`). The `BufferFS` store is an abstract
  `map<string, seq<bv8>>`. Setting blobs is `UserData.Overlay`. The class method
  loops over the update's ids in an arbitrary order.
- **Pure helpers**. The four LO-lock sensor record builders and the per-slot
  deserializer lane crossbar are in `Sensors`.

Frequencies are whole hertz (10 000 000, 20 000 000, 25 000 000 for the reference
clock; 122 880 000, 125 000 000, 153 600 000 for the master clock rate; default
125 000 000). Init arguments are already parsed: `Args.refClkFreq` and
`Args.masterClockRate` are optional integers. `Args.forceReinit` is the truthiness
of the `force_reinit` entry. The source's `assert` statements and
`RuntimeError`s become `Failure`/`Fail` results.

A failed init is not all-or-nothing. The code writes `ref_clock_freq` and
`master_clock_rate` before the init manager runs (magnesium.py:291-293,
:304-305), so they stay updated when the manager returns false. A valid new
`ref_clk_freq` combined with an invalid `master_clock_rate` also leaves the new
reference clock stored when the rate is rejected
(`RejectedRateKeepsNewRefClock`).

## Model

| member | source | states |
|---|---|---|
| `EepromLayout.FallbackRev` | mpm/python/usrp_mpm/dboard_manager/magnesium.py:237-249 | the revision chosen is a table key, lies between the lowest probed candidate and `rev`, and no key lies above it up to `rev`; when there is none, no probed revision is in the table |
| `EepromLayout.GetUserEepromInfo` | mpm/python/usrp_mpm/dboard_manager/magnesium.py:237-249 | the loop returns the entry of the nearest probed revision that has one, and fails with `NoLayoutFound(rev)` exactly when there is none |
| `EepromLayout.NearestEntryUnique` | mpm/python/usrp_mpm/dboard_manager/magnesium.py:241-249 | at most one revision satisfies the nearest-entry property, so the lookup result is determined |
| `EepromLayout.FallbackRevFound` | mpm/python/usrp_mpm/dboard_manager/magnesium.py:242-246 | if any probed revision has an entry, the lookup succeeds with a revision at least as high |
| `EepromLayout.UserEepromFallback` | mpm/python/usrp_mpm/dboard_manager/magnesium.py:102-112 | with the shipped table, every revision from 2 up uses the RevC layout and every revision below 2 has no layout |
| `EepromLayout.UserEepromExamples` | mpm/python/usrp_mpm/dboard_manager/magnesium.py:105-112 | revisions 2 and 5 resolve to RevC; revisions 0, 1 and -1 fail |
| `UserData.Overlay` | mpm/python/usrp_mpm/dboard_manager/magnesium.py:354-355 | after the merge the store's ids are the old ids plus the update's; each updated id maps to its new blob; every other id keeps its old blob |
| `UserData.OverlayIdempotent` | mpm/python/usrp_mpm/dboard_manager/magnesium.py:354-355 | setting the same blobs twice equals setting them once |
| `UserData.OverlaySequential` | mpm/python/usrp_mpm/dboard_manager/magnesium.py:342-355 | two successive updates equal one update with their merge, the later update winning |
| `UserData.OverlayRoundTrip` | mpm/python/usrp_mpm/dboard_manager/magnesium.py:351-355 | reading back any id just set yields exactly the bytes set |
| `InitDecision.InitPrelude` | mpm/python/usrp_mpm/dboard_manager/magnesium.py:282-315 | init goes ahead iff the peripherals are up and the request is acceptable; the hint is true iff not forced, same master clock rate, and no or the same reference clock; on success the clocks hold the requested values; nothing is written when not ready or the reference clock is bad or unknown; every rejection keeps the stored reference clock except a rejected rate after a newly requested one, which stays; a rejected rate is never stored; valid clocks stay valid |
| `InitDecision.FirstInitIsFull` | mpm/python/usrp_mpm/dboard_manager/magnesium.py:286-315 | starting from unset clocks, no request yields the fast-reinit hint |
| `InitDecision.ForcedInitIsFull` | mpm/python/usrp_mpm/dboard_manager/magnesium.py:312-315 | a request with `force_reinit` set never yields the fast-reinit hint |
| `InitDecision.RepeatedInitIsFast` | mpm/python/usrp_mpm/dboard_manager/magnesium.py:288-315 | repeating an accepted unforced request yields the fast-reinit hint and changes no clock |
| `InitDecision.RejectedRateKeepsNewRefClock` | mpm/python/usrp_mpm/dboard_manager/magnesium.py:288-301 | a valid new reference clock with an invalid master clock rate is rejected but leaves the new reference clock stored |
| `InitDecision.OutOfBandRefClockKeepsFastPath` | mpm/python/usrp_mpm/dboard_manager/magnesium.py:397-405 | after the reference clock is changed without init, an unforced init naming no reference clock and the same rate still yields the fast-reinit hint |
| `MagnesiumDboard.Magnesium.constructor` | mpm/python/usrp_mpm/dboard_manager/magnesium.py:117-147 | clocks start unset and committed args empty; the store is loaded iff the driver came up and the revision has a layout; peripherals count as initialized iff every bring-up step succeeded |
| `MagnesiumDboard.Magnesium.Init` | mpm/python/usrp_mpm/dboard_manager/magnesium.py:274-331 | the clocks become those of `InitPrelude`; on acceptance the result is the manager's verdict on (args, previous committed args, hint), otherwise the validation error; args are committed iff the verdict is true; the clock invariant is kept |
| `MagnesiumDboard.Magnesium.GetUserEepromData` | mpm/python/usrp_mpm/dboard_manager/magnesium.py:333-340 | returns every stored blob, and always succeeds on a board whose peripherals came up |
| `MagnesiumDboard.Magnesium.SetUserEepromData` | mpm/python/usrp_mpm/dboard_manager/magnesium.py:342-355 | the store becomes the overlay of the update on the old store; a read afterwards sees every blob just set, and blobs not in the update are unchanged |
| `MagnesiumDboard.Magnesium.GetMasterClockRate` | mpm/python/usrp_mpm/dboard_manager/magnesium.py:393-395 | returns the stored master clock rate, which once set is one of the three accepted rates |
| `MagnesiumDboard.Magnesium.UpdateRefClockFreq` | mpm/python/usrp_mpm/dboard_manager/magnesium.py:397-405 | accepts exactly 10, 20 and 25 MHz and stores the accepted value; it may change only the reference clock field |
| `Sensors.LoLockedSensor` | mpm/python/usrp_mpm/dboard_manager/magnesium.py:446-451 | the record has the given name and type `BOOLEAN`; its unit is `locked` iff locked, `unlocked` iff not; its value reads back as the lock status |
| `Sensors.LowbandTxLoLockedSensor` | mpm/python/usrp_mpm/dboard_manager/magnesium.py:441-451 | named `lowband_lo_locked`, type `BOOLEAN`; unit `locked` iff the lowband TX LO is locked and `unlocked` iff not; the value reads back as that lock |
| `Sensors.LowbandRxLoLockedSensor` | mpm/python/usrp_mpm/dboard_manager/magnesium.py:453-463 | named `lowband_lo_locked`, type `BOOLEAN`; unit `locked` iff the lowband RX LO is locked and `unlocked` iff not; the value reads back as that lock |
| `Sensors.Ad9371TxLoLockedSensor` | mpm/python/usrp_mpm/dboard_manager/magnesium.py:465-474 | named `ad9371_lo_locked`, type `BOOLEAN`; unit `locked` iff the AD9371 TX LO is locked and `unlocked` iff not; the value reads back as that lock |
| `Sensors.Ad9371RxLoLockedSensorAsWritten` | mpm/python/usrp_mpm/dboard_manager/magnesium.py:476-485 | as written, the RX AD9371 sensor is named `ad9371_lo_locked`, has type `BOOLEAN`, and its unit and value report the TX LO lock |
| `Sensors.Ad9371RxSensorReadsTxLo` | mpm/python/usrp_mpm/dboard_manager/magnesium.py:476-485 | the RX sensor as written always equals the TX sensor, and reports `locked` when only the TX LO is locked |
| `Sensors.Ad9371RxLoLockedSensor` | mpm/python/usrp_mpm/dboard_manager/magnesium.py:476-485 | named `ad9371_lo_locked`, type `BOOLEAN`; unit `locked` iff the AD9371 RX LO is locked and `unlocked` iff not; the value reads back as that lock |
| `Sensors.Ad9371SensorsIndependent` | mpm/python/usrp_mpm/dboard_manager/magnesium.py:465-485 | the corrected RX and TX AD9371 records differ whenever the two LO locks differ |
| `Sensors.DeserializerLaneXbar` | mpm/python/usrp_mpm/dboard_manager/magnesium.py:157-161 | slot 0 gets crossbar 0xD2 and every other slot 0x72 |
| `Sensors.ChannelLoSensorAsWritten` | mpm/python/usrp_mpm/dboard_manager/magnesium.py:81-88 | as written, through the crossed callback maps, each channel's lowband sensor reports the other direction's LO and both channels' AD9371 sensors report the TX LO |
| `Sensors.ChannelAd9371SensorsReadTxLo` | mpm/python/usrp_mpm/dboard_manager/magnesium.py:81-88 | with the TX AD9371 LO locked and the RX one unlocked, both channels' AD9371 sensors report `locked`, and so would the RX channel's after correcting only line 479 |
| `Sensors.ChannelLoSensor` | mpm/python/usrp_mpm/dboard_manager/magnesium.py:441-485 | with uncrossed maps and the corrected RX builder, each channel's sensor has the sensor's name and type `BOOLEAN` and reports the lock of its own direction's LO |
| `Sensors.ChannelSensorsTrackOwnLo` | mpm/python/usrp_mpm/dboard_manager/magnesium.py:441-485 | with the corrected dispatch, the RX and TX channels' readings of one sensor agree exactly when their two LOs agree |
| `Sensors.LaneXbarDiffersBySlot` | mpm/python/usrp_mpm/dboard_manager/magnesium.py:157-161 | the two slots, 0 and 1, get different lane crossbars |

## Left out

- SPI interface factories (magnesium.py:26-66, :183-186): they only pass constants to the C++ SPI library.
- Power-rail toggling, I2C/udev device lookup, loading the C++ `magnesium_manager` driver and forwarding the AD9371 API onto the object (magnesium.py:153-178, :191-235): these are hardware and foreign calls. Their success is the constructor's `driverUp` flag.
- MagnesiumDboard.Magnesium.constructor: builds the object for every revision. In the source, `__init__` evaluates `chr(65 + self.rev)` at magnesium.py:123, outside the `try`. That raises `ValueError` when `65 + rev` is negative or above 0x10FFFF, so no object exists for such revisions.
- Reading the EEPROM file and constructing `BufferFS` (magnesium.py:256-271) can also raise. The model has no separate input for that failure. `driverUp = false` stands for it as well, because it leaves the same state: no store, and peripherals not initialized.
- The SPI/CPLD steps after the EEPROM load (magnesium.py:182-189): external, reduced to the constructor's `laterStepsUp` flag.
- Reading the EEPROM file and decoding it into a `BufferFS` (magnesium.py:251-271): file I/O and an unseen serialisation. The decoded blobs are the constructor's `storedBlobs` parameter.
- `BufferFS` internals: its encoding, alignment and `max_size` handling are not part of this model. This file never checks the size limit itself, so no store-full failure is modelled.
- The background EEPROM writer (magnesium.py:356-387): file I/O plus a detached thread, and the thread-name check that only warns about a concurrent writer.
- MagnesiumDboard.Magnesium.SetUserEepromData: reports success even when `rev` has no exact table entry. In that case magnesium.py:357 raises `KeyError` after the blobs are already merged in memory, and the merged store is what the model keeps.
- The write task seeks to the closure's `eeprom_offset`, not its own `offset` parameter (magnesium.py:368). Both hold the same value, so this has no effect here.
- MagnesiumDboard.Magnesium.Init: models the init manager only through its boolean verdict. An exception from it propagates in the source, leaving the updated clocks and the old committed arguments. The model has no exception path for it.
- Parsing of argument strings with `float(...)` (magnesium.py:289, :296-298): the arguments arrive already parsed as whole hertz.
- Running Python with assertions disabled would skip the clock validation. The model treats every `assert` as active.
- The LMK, CPLD and AD9371 lock queries and the debug peek/poke/JESD dump (magnesium.py:411-439, :491-537): these are register access. Lock readings are the `LoLocks` input of the sensor builders, and the sensors' `chan` argument, used only for logging, is dropped.
- The base class's lookup of sensors by name through `rx_sensor_callback_map` and `tx_sensor_callback_map` (magnesium.py:81-88) is not part of this model. The two maps themselves are modelled by `ChannelLoSensorAsWritten`. They are crossed: the RX channel's sensors call the `*_tx_*` builders and the TX channel's call the `*_rx_*` builders.
- Logging throughout.

## Findings

| source | as written | input that shows it | evidently intended | confidence | as-written member | corrected member |
|---|---|---|---|---|---|---|
| mpm/python/usrp_mpm/dboard_manager/magnesium.py:476-485 | the RX AD9371 LO lock builder queries `get_ad9371_lo_lock('tx')`, so it always equals the TX builder | AD9371 TX LO locked, RX LO unlocked: the RX builder reports `locked` / `true` | query `'rx'`, as the lowband RX builder does. Because the callback maps are crossed (next row), correcting this line alone would make each channel report the other channel's LO; the maps must be uncrossed as well | medium, not executed | `Sensors.Ad9371RxLoLockedSensorAsWritten` (shown by `Sensors.Ad9371RxSensorReadsTxLo`) | `Sensors.Ad9371RxLoLockedSensor` (with `Sensors.Ad9371SensorsIndependent`) |
| mpm/python/usrp_mpm/dboard_manager/magnesium.py:81-88 | `rx_sensor_callback_map` names the `*_tx_*` builders and `tx_sensor_callback_map` the `*_rx_*` builders; with line 479, both channels' `ad9371_lo_locked` report the TX LO | AD9371 TX LO locked, RX LO unlocked: the RX channel's and the TX channel's `ad9371_lo_locked` both report `locked` | each channel's sensor reports its own direction's LO: RX map to the `*_rx_*` builders, TX map to the `*_tx_*` builders | low, not executed (the lowband crossing could follow a CPLD naming convention not visible here) | `Sensors.ChannelLoSensorAsWritten` (shown by `Sensors.ChannelAd9371SensorsReadTxLo`) | `Sensors.ChannelLoSensor` (with `Sensors.ChannelSensorsTrackOwnLo`) |
