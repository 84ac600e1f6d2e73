/** The window selector inside `filter_df`: a slider ordinal picks a
    resolution and a lookback, and the time filter is called (or not) on the
    chosen table. */
module Window {

  import opened Errors
  import opened Prices

  datatype Resolution = Intraday | Daily

  /** A trailing span of whole days, or the whole history. */
  datatype Lookback = Days(n: nat) | All

  datatype Setting = Setting(resolution: Resolution, lookback: Lookback)

  /** What each slider position means. The lookbacks are read off the labels
      ("1 day" is 1 day, ..., "5 year" is 1825 days, "Max" is the whole
      history); the resolution column restates the selector's `<= 2` test, so
      only the lookbacks are an independent reference for the selector. */
  const Settings: seq<Setting> := [
    Setting(Intraday, Days(1)),
    Setting(Intraday, Days(7)),
    Setting(Intraday, Days(30)),
    Setting(Daily, Days(90)),
    Setting(Daily, Days(365)),
    Setting(Daily, Days(1825)),
    Setting(Daily, All)
  ]

  /** How `filter_df` produces its table: either it hands back one of the
      stored tables as it is, or it calls the time filter on it with a day
      count. The time filter itself is not part of this model. */
  datatype Plan = Keep(table: Table) | CallFilterTime(table: Table, days: nat)

  function TableOf(frames: Frames, res: Resolution): Table
  {
    match res
    case Intraday => frames.intraday
    case Daily => frames.daily
  }

  /** The plan a setting calls for. */
  function Intended(frames: Frames, s: Setting): Plan
  {
    var t := TableOf(frames, s.resolution);
    match s.lookback
    case All => Keep(t)
    case Days(n) => CallFilterTime(t, n)
  }

  /** Carries a plan out with a given time filter. */
  function Run(plan: Plan, filterTime: (Table, nat) -> Table): Table
  {
    match plan
    case Keep(t) => t
    case CallFilterTime(t, n) => filterTime(t, n)
  }

  /** The resolution test of the source: every ordinal up to 2 reads the
      intraday table, every other one the daily table. */
  function ResolutionFor(timeIndex: int): Resolution
  {
    if timeIndex <= 2 then Intraday else Daily
  }

  /** Day counts of the source's `days` dictionary, in ordinal order. */
  const DayCounts: seq<nat> := [1, 7, 30, 90, 365, 365 * 5]

  /** The `days` dictionary: ordinal `i` maps to `DayCounts[i]`. */
  function DaysMap(): map<int, nat>
  {
    map i | 0 <= i < |DayCounts| :: DayCounts[i]
  }

  /** The selector as the source writes it: pick the table, then either keep
      it (ordinal 6) or look the ordinal up in `days`, which fails for every
      ordinal it does not hold. Its outcome agrees with the reference table
      on every ordinal and fails on every other. */
  function PlanFor(frames: Frames, timeIndex: int): (r: Result<Plan>)
    ensures r.Ok? <==> 0 <= timeIndex < |Settings|
    ensures r.Ok? ==> r.value == Intended(frames, Settings[timeIndex])
    ensures r.Err? ==> r.error == UnknownWindow(timeIndex)
  {
    var dff := TableOf(frames, ResolutionFor(timeIndex));
    if timeIndex == 6 then Ok(Keep(dff))
    else if timeIndex in DaysMap() then Ok(CallFilterTime(dff, DaysMap()[timeIndex]))
    else Err(UnknownWindow(timeIndex))
  }

  /** `filter_df` once the instrument's tables are known: the table it
      returns is the one the reference setting describes, whatever the time
      filter does. */
  function FilterFrames(frames: Frames, timeIndex: int, filterTime: (Table, nat) -> Table): (r: Result<Table>)
    ensures r.Ok? <==> 0 <= timeIndex < |Settings|
    ensures r.Ok? ==> r.value == Run(Intended(frames, Settings[timeIndex]), filterTime)
    ensures r.Err? ==> r.error == UnknownWindow(timeIndex)
  {
    var plan :- PlanFor(frames, timeIndex);
    Ok(Run(plan, filterTime))
  }

  /** Ordinals 0, 1 and 2 read the intraday table, ordinals 3 to 6 the daily
      one. */
  lemma ResolutionSplit(frames: Frames, timeIndex: int)
    requires 0 <= timeIndex < 7
    ensures PlanFor(frames, timeIndex).Ok?
    ensures timeIndex <= 2 ==> PlanFor(frames, timeIndex).value.table == frames.intraday
    ensures 3 <= timeIndex ==> PlanFor(frames, timeIndex).value.table == frames.daily
  {
  }

  /** Ordinals 0 to 5 call the time filter with 1, 7, 30, 90, 365 and 1825
      days. */
  lemma LookbackDays(frames: Frames, timeIndex: int)
    requires 0 <= timeIndex < 6
    ensures PlanFor(frames, timeIndex).Ok?
    ensures PlanFor(frames, timeIndex).value.CallFilterTime?
    ensures PlanFor(frames, timeIndex).value.days == [1, 7, 30, 90, 365, 1825][timeIndex]
  {
  }

  /** Only ordinal 6 skips the time filter, and it returns the daily table
      unchanged whatever filter is supplied. */
  lemma MaxKeepsDaily(frames: Frames, timeIndex: int, filterTime: (Table, nat) -> Table)
    ensures (PlanFor(frames, timeIndex).Ok? && PlanFor(frames, timeIndex).value.Keep?) <==> timeIndex == 6
    ensures FilterFrames(frames, 6, filterTime) == Ok(frames.daily)
  {
  }

  /** The `days` dictionary holds exactly the ordinals 0 to 5. */
  lemma DaysMapDomain()
    ensures forall i :: i in DaysMap() <==> 0 <= i < 6
  {
  }

  /** Every ordinal outside 0..6, negative or from 7 up, fails with a
      missing-key error and produces no table. */
  lemma OutOfRangeFails(frames: Frames, timeIndex: int, filterTime: (Table, nat) -> Table)
    requires timeIndex < 0 || 7 <= timeIndex
    ensures FilterFrames(frames, timeIndex, filterTime) == Err(UnknownWindow(timeIndex))
  {
  }
}
