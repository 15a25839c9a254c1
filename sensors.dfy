/** Sensor records built from LO lock readings, and the per-slot lane
    crossbar setting handed to the transceiver driver. */
module Sensors {
  import opened Wrappers

  /** The `{name, type, unit, value}` record a sensor query returns. */
  datatype SensorRecord = SensorRecord(name: string, sensorType: string, unit: string, value: string)

  /** The four LO lock readings the board can report. */
  datatype LoLocks = LoLocks(lowbandTx: bool, lowbandRx: bool, ad9371Tx: bool, ad9371Rx: bool)

  /** Python's `str(b).lower()` for a boolean. */
  function BoolText(b: bool): string {
    if b then "true" else "false"
  }

  /** Reads a sensor value back as a boolean. */
  function ParseBool(s: string): Option<bool> {
    if s == "true" then Some(true)
    else if s == "false" then Some(false)
    else None
  }

  /** The record every LO lock sensor returns for one reading. */
  function LoLockedSensor(name: string, locked: bool): (r: SensorRecord)
    ensures r.name == name && r.sensorType == "BOOLEAN"
    ensures r.unit == "locked" <==> locked
    ensures r.unit == "unlocked" <==> !locked
    ensures ParseBool(r.value) == Some(locked)
  {
    SensorRecord(name, "BOOLEAN", if locked then "locked" else "unlocked", BoolText(locked))
  }

  function LowbandTxLoLockedSensor(locks: LoLocks): (r: SensorRecord)
    ensures r.name == "lowband_lo_locked"
    ensures r.sensorType == "BOOLEAN"
    ensures r.unit == "locked" <==> locks.lowbandTx
    ensures r.unit == "unlocked" <==> !locks.lowbandTx
    ensures ParseBool(r.value) == Some(locks.lowbandTx)
  {
    LoLockedSensor("lowband_lo_locked", locks.lowbandTx)
  }

  function LowbandRxLoLockedSensor(locks: LoLocks): (r: SensorRecord)
    ensures r.name == "lowband_lo_locked"
    ensures r.sensorType == "BOOLEAN"
    ensures r.unit == "locked" <==> locks.lowbandRx
    ensures r.unit == "unlocked" <==> !locks.lowbandRx
    ensures ParseBool(r.value) == Some(locks.lowbandRx)
  {
    LoLockedSensor("lowband_lo_locked", locks.lowbandRx)
  }

  function Ad9371TxLoLockedSensor(locks: LoLocks): (r: SensorRecord)
    ensures r.name == "ad9371_lo_locked"
    ensures r.sensorType == "BOOLEAN"
    ensures r.unit == "locked" <==> locks.ad9371Tx
    ensures r.unit == "unlocked" <==> !locks.ad9371Tx
    ensures ParseBool(r.value) == Some(locks.ad9371Tx)
  {
    LoLockedSensor("ad9371_lo_locked", locks.ad9371Tx)
  }

  /** The RX AD9371 sensor as the source has it: it reads the TX LO. */
  function Ad9371RxLoLockedSensorAsWritten(locks: LoLocks): (r: SensorRecord)
    ensures r.name == "ad9371_lo_locked"
    ensures r.sensorType == "BOOLEAN"
    ensures r.unit == "locked" <==> locks.ad9371Tx
    ensures r.unit == "unlocked" <==> !locks.ad9371Tx
    ensures ParseBool(r.value) == Some(locks.ad9371Tx)
  {
    LoLockedSensor("ad9371_lo_locked", locks.ad9371Tx)
  }

  /** With the TX LO locked and the RX LO unlocked, the RX sensor as written
      reports a lock, and it always agrees with the TX sensor. */
  lemma Ad9371RxSensorReadsTxLo(locks: LoLocks)
    ensures Ad9371RxLoLockedSensorAsWritten(locks) == Ad9371TxLoLockedSensor(locks)
    ensures var unlockedRx := LoLocks(false, false, true, false);
      Ad9371RxLoLockedSensorAsWritten(unlockedRx).unit == "locked" && !unlockedRx.ad9371Rx
  {
  }

  /** The RX AD9371 sensor reading the RX LO. */
  function Ad9371RxLoLockedSensor(locks: LoLocks): (r: SensorRecord)
    ensures r.name == "ad9371_lo_locked"
    ensures r.sensorType == "BOOLEAN"
    ensures r.unit == "locked" <==> locks.ad9371Rx
    ensures r.unit == "unlocked" <==> !locks.ad9371Rx
    ensures ParseBool(r.value) == Some(locks.ad9371Rx)
  {
    LoLockedSensor("ad9371_lo_locked", locks.ad9371Rx)
  }

  /** Each AD9371 sensor reports its own LO: they differ whenever the two LOs do. */
  lemma Ad9371SensorsIndependent(locks: LoLocks)
    requires locks.ad9371Tx != locks.ad9371Rx
    ensures Ad9371RxLoLockedSensor(locks) != Ad9371TxLoLockedSensor(locks)
  {
  }

  /** The direction of the channel a sensor is queried for. */
  datatype Direction = Rx | Tx

  /** The LO lock sensors a channel offers, by their names
      `lowband_lo_locked` and `ad9371_lo_locked`. */
  datatype LoSensor = LowbandLo | Ad9371Lo

  /** The sensor a channel's query reaches through the class constants
      `rx_sensor_callback_map` and `tx_sensor_callback_map` as written: RX
      channels reach the TX builders and TX channels the RX builders. */
  function ChannelLoSensorAsWritten(dir: Direction, sensor: LoSensor, locks: LoLocks): (r: SensorRecord)
    ensures r.sensorType == "BOOLEAN"
    // the lowband sensor of each channel reports the other direction's LO
    ensures sensor == LowbandLo ==>
      (r.unit == "locked" <==> (if dir == Rx then locks.lowbandTx else locks.lowbandRx))
    // the AD9371 sensor of both channels reports the TX LO
    ensures sensor == Ad9371Lo ==> (r.unit == "locked" <==> locks.ad9371Tx)
  {
    match (dir, sensor)
    case (Rx, LowbandLo) => LowbandTxLoLockedSensor(locks)
    case (Rx, Ad9371Lo) => Ad9371TxLoLockedSensor(locks)
    case (Tx, LowbandLo) => LowbandRxLoLockedSensor(locks)
    case (Tx, Ad9371Lo) => Ad9371RxLoLockedSensorAsWritten(locks)
  }

  /** The lock reading of the LO that belongs to a channel's direction. */
  function OwnLock(dir: Direction, sensor: LoSensor, locks: LoLocks): bool {
    match (dir, sensor)
    case (Rx, LowbandLo) => locks.lowbandRx
    case (Rx, Ad9371Lo) => locks.ad9371Rx
    case (Tx, LowbandLo) => locks.lowbandTx
    case (Tx, Ad9371Lo) => locks.ad9371Tx
  }

  /** With the RX AD9371 LO unlocked and the TX one locked, both channels'
      AD9371 sensors report a lock; the RX channel's does so even with the
      RX builder corrected, because its callback map leads to the TX builder. */
  lemma ChannelAd9371SensorsReadTxLo()
    ensures var locks := LoLocks(false, false, true, false);
      && !OwnLock(Rx, Ad9371Lo, locks)
      && ChannelLoSensorAsWritten(Rx, Ad9371Lo, locks).unit == "locked"
      && ChannelLoSensorAsWritten(Tx, Ad9371Lo, locks).unit == "locked"
      && Ad9371TxLoLockedSensor(locks).unit == "locked"
  {
  }

  /** The sensor a channel's query reaches when each direction's map leads
      to that direction's builders, with the RX AD9371 builder reading the RX LO. */
  function ChannelLoSensor(dir: Direction, sensor: LoSensor, locks: LoLocks): (r: SensorRecord)
    ensures r.sensorType == "BOOLEAN"
    ensures r.name == (if sensor == LowbandLo then "lowband_lo_locked" else "ad9371_lo_locked")
    ensures r.unit == "locked" <==> OwnLock(dir, sensor, locks)
    ensures ParseBool(r.value) == Some(OwnLock(dir, sensor, locks))
  {
    match (dir, sensor)
    case (Rx, LowbandLo) => LowbandRxLoLockedSensor(locks)
    case (Rx, Ad9371Lo) => Ad9371RxLoLockedSensor(locks)
    case (Tx, LowbandLo) => LowbandTxLoLockedSensor(locks)
    case (Tx, Ad9371Lo) => Ad9371TxLoLockedSensor(locks)
  }

  /** With the corrected dispatch, the two channels of one sensor disagree
      exactly when their LOs do. */
  lemma ChannelSensorsTrackOwnLo(sensor: LoSensor, locks: LoLocks)
    ensures ChannelLoSensor(Rx, sensor, locks).unit == ChannelLoSensor(Tx, sensor, locks).unit
      <==> OwnLock(Rx, sensor, locks) == OwnLock(Tx, sensor, locks)
  {
  }

  /** The TX deframer lane crossbar: the board's two slots have their
      serial lanes swapped differently on the motherboard. */
  function DeserializerLaneXbar(slotIdx: int): (x: bv8)
    ensures x == 0xD2 <==> slotIdx == 0
    ensures x == 0x72 <==> slotIdx != 0
  {
    if slotIdx == 0 then 0xD2 else 0x72
  }

  /** The two slots the board can sit in (0 and 1) get different crossbars. */
  lemma LaneXbarDiffersBySlot()
    ensures DeserializerLaneXbar(0) != DeserializerLaneXbar(1)
  {
  }
}
