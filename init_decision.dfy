/** The decision part of `Magnesium.init`: validating the requested clocks,
    the clock state left behind, and the fast-reinit hint handed to the init
    manager. Frequencies are whole hertz. */
module InitDecision {
  import opened Wrappers

  /** Reference clock frequencies the board accepts: 10, 20 and 25 MHz. */
  const RefClockFreqs: set<int> := {10_000_000, 20_000_000, 25_000_000}

  /** Master clock rates the board accepts: 122.88, 125 and 153.6 MHz. */
  const MasterClockRates: set<int> := {122_880_000, 125_000_000, 153_600_000}

  /** The master clock rate used when a request does not name one. */
  const DefaultMasterClockRate: int := 125_000_000

  /** The arguments of an init request. `forceReinit` is the truthiness of
      the `force_reinit` entry (false when absent); `extra` holds every other
      key, which only the init manager interprets. */
  datatype Args = Args(
    refClkFreq: Option<int>,
    masterClockRate: Option<int>,
    forceReinit: bool,
    extra: map<string, string>)

  /** The empty argument set the manager starts with as its committed arguments. */
  const NoArgs: Args := Args(None, None, false, map[])

  /** The two clock fields of the manager; `None` until first set. */
  datatype ClockState = ClockState(refClockFreq: Option<int>, masterClockRate: Option<int>)

  datatype InitError =
    | NotReady
    | InvalidRefClockFreq(freq: int)
    | NoRefClockFreq
    | InvalidMasterClockRate(rate: int)

  /** Once set, each clock holds an accepted value. */
  ghost predicate ClockValid(clock: ClockState) {
    && (clock.refClockFreq.Some? ==> clock.refClockFreq.value in RefClockFreqs)
    && (clock.masterClockRate.Some? ==> clock.masterClockRate.value in MasterClockRates)
  }

  /** The master clock rate a request asks for. */
  function RequestedMasterClockRate(args: Args): int {
    args.masterClockRate.GetOr(DefaultMasterClockRate)
  }

  /** A request may take the fast path when it does not force a full
      reinit, asks for the master clock rate already in place, and either
      names no reference clock or names the one already in place. */
  predicate FastReinit(clock: ClockState, args: Args) {
    && !args.forceReinit
    && clock.masterClockRate == Some(RequestedMasterClockRate(args))
    && (args.refClkFreq.None? || args.refClkFreq == clock.refClockFreq)
  }

  /** A request `init` accepts when the peripherals came up. */
  predicate Acceptable(clock: ClockState, args: Args) {
    && (args.refClkFreq.None? || args.refClkFreq.value in RefClockFreqs)
    && (args.refClkFreq.Some? || clock.refClockFreq.Some?)
    && RequestedMasterClockRate(args) in MasterClockRates
  }

  /** What `init` does before it calls the init manager: the clock state it
      leaves and either the error it raises or the fast-reinit hint. */
  datatype Prelude = Prelude(clock: ClockState, hint: Result<bool, InitError>)

  function InitPrelude(periphsInitialized: bool, clock: ClockState, args: Args): (p: Prelude)
    // init goes ahead exactly for a ready board and an acceptable request
    ensures p.hint.Success? <==> periphsInitialized && Acceptable(clock, args)
    ensures p.hint.Success? ==> p.hint.value == FastReinit(clock, args)
    // after validation the clocks hold the requested values
    ensures p.hint.Success? ==> p.clock == ClockState(
      if args.refClkFreq.Some? then args.refClkFreq else clock.refClockFreq,
      Some(RequestedMasterClockRate(args)))
    // nothing is written when the board is not ready or no valid reference clock is known
    ensures !periphsInitialized ==> p == Prelude(clock, Failure(NotReady))
    ensures periphsInitialized && args.refClkFreq.Some? && args.refClkFreq.value !in RefClockFreqs ==>
      p == Prelude(clock, Failure(InvalidRefClockFreq(args.refClkFreq.value)))
    ensures p.hint == Failure(NoRefClockFreq) ==> p.clock == clock
    // a rejected request keeps the stored reference clock, except that a
    // rejected master clock rate leaves a newly requested one in place
    ensures p.hint.Failure? ==>
      p.clock.refClockFreq ==
        (if p.hint.error.InvalidMasterClockRate? && args.refClkFreq.Some? then args.refClkFreq
         else clock.refClockFreq)
    // a rejected master clock rate is never stored
    ensures p.hint.Failure? ==> p.clock.masterClockRate == clock.masterClockRate
    ensures ClockValid(clock) ==> ClockValid(p.clock)
  {
    if !periphsInitialized then
      Prelude(clock, Failure(NotReady))
    else if args.refClkFreq.Some? && args.refClkFreq.value !in RefClockFreqs then
      Prelude(clock, Failure(InvalidRefClockFreq(args.refClkFreq.value)))
    else
      var refClockFreq := if args.refClkFreq.Some? then args.refClkFreq else clock.refClockFreq;
      if refClockFreq.None? then
        Prelude(clock, Failure(NoRefClockFreq))
      else
        var rate := RequestedMasterClockRate(args);
        if rate !in MasterClockRates then
          Prelude(ClockState(refClockFreq, clock.masterClockRate), Failure(InvalidMasterClockRate(rate)))
        else
          Prelude(ClockState(refClockFreq, Some(rate)), Success(FastReinit(clock, args)))
  }

  /** The first request on a fresh board never takes the fast path. */
  lemma FirstInitIsFull(args: Args)
    ensures InitPrelude(true, ClockState(None, None), args).hint != Success(true)
  {
  }

  /** A forced request never takes the fast path. */
  lemma ForcedInitIsFull(periphsInitialized: bool, clock: ClockState, args: Args)
    requires args.forceReinit
    ensures InitPrelude(periphsInitialized, clock, args).hint != Success(true)
  {
  }

  /** Repeating an accepted, unforced request takes the fast path and
      changes no clock. */
  lemma RepeatedInitIsFast(periphsInitialized: bool, clock: ClockState, args: Args)
    requires InitPrelude(periphsInitialized, clock, args).hint.Success?
    requires !args.forceReinit
    ensures var after := InitPrelude(periphsInitialized, clock, args).clock;
      InitPrelude(periphsInitialized, after, args) == Prelude(after, Success(true))
  {
  }

  /** A request rejected for its master clock rate still leaves a newly
      requested reference clock in place. */
  lemma RejectedRateKeepsNewRefClock(clock: ClockState, args: Args)
    requires args.refClkFreq.Some? && args.refClkFreq.value in RefClockFreqs
    requires RequestedMasterClockRate(args) !in MasterClockRates
    ensures InitPrelude(true, clock, args) ==
      Prelude(ClockState(args.refClkFreq, clock.masterClockRate),
              Failure(InvalidMasterClockRate(RequestedMasterClockRate(args))))
  {
  }

  /** A reference clock changed out of band does not by itself make the next
      init that names no reference clock a full one. */
  lemma OutOfBandRefClockKeepsFastPath(clock: ClockState, freq: int, args: Args)
    requires freq in RefClockFreqs
    requires args.refClkFreq.None? && !args.forceReinit
    requires clock.masterClockRate == Some(RequestedMasterClockRate(args))
    requires RequestedMasterClockRate(args) in MasterClockRates
    ensures var changed := ClockState(Some(freq), clock.masterClockRate);
      InitPrelude(true, changed, args) == Prelude(changed, Success(true))
  {
  }
}
