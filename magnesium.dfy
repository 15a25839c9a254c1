/** The Magnesium daughterboard manager: its clock and init-argument
    bookkeeping, the bring-up outcome it remembers, and the in-memory view of
    the EEPROM user-data store. */
module MagnesiumDboard {
  import opened Wrappers
  import opened EepromLayout
  import opened UserData
  import opened InitDecision

  datatype StoreError = StoreUnavailable

  class Magnesium {
    const slotIdx: int
    const rev: int
    var refClockFreq: Option<int>
    var masterClockRate: Option<int>
    /** The arguments of the last init the manager reported as successful. */
    var initArgs: Args
    /** False exactly when peripheral bring-up failed during construction. */
    var periphsInitialized: bool
    /** The user-data blob store, present once bring-up got as far as loading it. */
    var eepromFs: Option<BlobMap>

    function Clock(): ClockState
      reads this
    {
      ClockState(refClockFreq, masterClockRate)
    }

    ghost predicate Valid()
      reads this
    {
      && ClockValid(Clock())
      && (periphsInitialized ==> eepromFs.Some?)
    }

    /** Construction and peripheral bring-up. The driver and power-up steps
        before the EEPROM load and the SPI/CPLD steps after it are external:
        `driverUp` and `laterStepsUp` say whether they succeeded, and
        `storedBlobs` is what the store decodes from the EEPROM image. The
        layout lookup for `rev` is the bring-up step modelled here. A failed
        step leaves the object in place but not initialized. */
    constructor (slotIdx: int, rev: int, driverUp: bool, storedBlobs: BlobMap, laterStepsUp: bool)
      ensures Valid()
      ensures this.slotIdx == slotIdx && this.rev == rev
      ensures Clock() == ClockState(None, None) && initArgs == NoArgs
      ensures eepromFs == if driverUp && FallbackRev(UserEeprom, rev).Some? then Some(storedBlobs) else None
      ensures periphsInitialized <==> driverUp && FallbackRev(UserEeprom, rev).Some? && laterStepsUp
    {
      this.slotIdx := slotIdx;
      this.rev := rev;
      refClockFreq := None;
      masterClockRate := None;
      initArgs := NoArgs;
      eepromFs := None;
      periphsInitialized := false;
      new;
      if driverUp {
        var info := GetUserEepromInfo(UserEeprom, rev);
        if info.Success? {
          eepromFs := Some(storedBlobs);
          periphsInitialized := laterStepsUp;
        }
      }
    }

    /** `init`: validate the request, update the clocks, compute the
        fast-reinit hint and hand over to the init manager, whose verdict is
        `initManager(args, previous committed args, hint)`. The arguments are
        committed only when the manager succeeds; the clocks stay updated
        either way. */
    method Init(args: Args, initManager: (Args, Args, bool) -> bool) returns (result: Result<bool, InitError>)
      requires Valid()
      modifies this`refClockFreq, this`masterClockRate, this`initArgs
      ensures Valid()
      ensures var p := InitPrelude(old(periphsInitialized), old(Clock()), args);
        && Clock() == p.clock
        && result == (if p.hint.Success? then Success(initManager(args, old(initArgs), p.hint.value))
                      else Failure(p.hint.error))
        && initArgs == (if result == Success(true) then args else old(initArgs))
    {
      if !periphsInitialized {
        return Failure(NotReady);
      }
      var refClkFreqChanged := false;
      if args.refClkFreq.Some? {
        var newRefClockFreq := args.refClkFreq.value;
        if newRefClockFreq !in RefClockFreqs {
          return Failure(InvalidRefClockFreq(newRefClockFreq));
        }
        if Some(newRefClockFreq) != refClockFreq {
          refClockFreq := Some(newRefClockFreq);
          refClkFreqChanged := true;
        }
      }
      if refClockFreq.None? {
        return Failure(NoRefClockFreq);
      }
      var rate := args.masterClockRate.GetOr(DefaultMasterClockRate);
      if rate !in MasterClockRates {
        return Failure(InvalidMasterClockRate(rate));
      }
      var rateChanged := Some(rate) != masterClockRate;
      if rateChanged {
        masterClockRate := Some(rate);
      }
      var fastReinit := !args.forceReinit && !rateChanged && !refClkFreqChanged;
      var ok := initManager(args, initArgs, fastReinit);
      if ok {
        initArgs := args;
      }
      result := Success(ok);
    }

    /** `get_user_eeprom_data`: a copy of every stored blob. */
    function GetUserEepromData(): (r: Result<BlobMap, StoreError>)
      reads this
      requires Valid()
      ensures periphsInitialized ==> r.Success?
      ensures r.Success? <==> eepromFs.Some?
      ensures r.Success? ==> r.value == eepromFs.value
    {
      if eepromFs.Some? then Success(eepromFs.value) else Failure(StoreUnavailable)
    }

    /** The blob-merge part of `set_user_eeprom_data`: set each blob of
        `eepromData` in the store, in whatever order the map yields them.
        The write back to the EEPROM is not part of this model. */
    method SetUserEepromData(eepromData: BlobMap) returns (r: Outcome<StoreError>)
      requires Valid()
      modifies this`eepromFs
      ensures Valid()
      ensures r == if old(eepromFs).Some? then Pass else Fail(StoreUnavailable)
      ensures eepromFs == if old(eepromFs).Some? then Some(Overlay(old(eepromFs).value, eepromData)) else old(eepromFs)
      // a read issued after this returns sees every blob just set
      ensures r.Pass? ==> GetUserEepromData().Success?
      ensures r.Pass? ==> forall id :: id in eepromData ==>
        id in GetUserEepromData().value && GetUserEepromData().value[id] == eepromData[id]
    {
      if eepromFs.None? {
        return Fail(StoreUnavailable);
      }
      ghost var before := eepromFs.value;
      var pending := eepromData.Keys;
      while pending != {}
        invariant eepromFs.Some?
        invariant pending <= eepromData.Keys
        invariant eepromFs.value == Overlay(before, eepromData - pending)
        decreases pending
      {
        var blobId :| blobId in pending;
        eepromFs := Some(eepromFs.value[blobId := eepromData[blobId]]);
        pending := pending - {blobId};
      }
      assert eepromData - {} == eepromData;
      r := Pass;
    }

    /** `get_master_clock_rate`: the sample rate, once an init has set it. */
    function GetMasterClockRate(): (rate: Option<int>)
      reads this
      requires Valid()
      ensures rate.Some? ==> rate.value in MasterClockRates
      ensures rate == masterClockRate
    {
      masterClockRate
    }

    /** `update_ref_clock_freq`: record a new reference clock without
        re-running any settings. */
    method UpdateRefClockFreq(freq: int) returns (r: Outcome<InitError>)
      requires Valid()
      modifies this`refClockFreq
      ensures Valid()
      ensures r == if freq in RefClockFreqs then Pass else Fail(InvalidRefClockFreq(freq))
      ensures refClockFreq == if freq in RefClockFreqs then Some(freq) else old(refClockFreq)
    {
      if freq !in RefClockFreqs {
        return Fail(InvalidRefClockFreq(freq));
      }
      refClockFreq := Some(freq);
      r := Pass;
    }
  }
}
