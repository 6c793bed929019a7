// The results store: simulation reports, and the analysis of one report against the phase
// duration targets and the screen-time thresholds, with the bottlenecks and recommendations
// drawn from it.

module Results {
  import opened Common

  /** The parts of a simulation report the analysis reads. The energy flows are absent
      (`None`) when the report has none. */
  datatype Report = Report(
    id: string,
    phaseDurations: Obj<real>,
    screenTime: Obj<real>,
    energyWasted: Option<real>,
    energyGenerated: Option<real>)

  // ---------------------------------------------------------------- phases

  /** A phase's duration target, in hours or in days. */
  datatype Target = Target(min: real, max: real, inHours: bool)

  function TargetOf(phase: string): Option<Target>
  {
    if phase == "tutorial" then Some(Target(1.0, 4.0, true))
    else if phase == "early" then Some(Target(1.0, 5.0, false))
    else if phase == "mid" then Some(Target(3.0, 8.0, false))
    else if phase == "late" then Some(Target(5.0, 12.0, false))
    else if phase == "endgame" then Some(Target(10.0, 25.0, false))
    else None
  }

  predicate WellFormed(t: Target)
  {
    0.0 < t.min <= t.max
  }

  lemma TargetsWellFormed(phase: string)
    ensures TargetOf(phase).Some? ==> WellFormed(TargetOf(phase).value)
  {
  }

  datatype PhaseStatus = Normal | TooFast | TooSlow

  datatype PhaseAnalysis = PhaseAnalysis(phase: string, actual: real, target: Target, status: PhaseStatus, deviation: Option<real>)

  /** A phase's duration (in minutes) against its target. */
  function AnalysePhase(phase: string, duration: real, t: Target): PhaseAnalysis
    requires WellFormed(t)
  {
    var actual := if t.inHours then duration / 60.0 else duration / 1440.0;
    if actual < t.min then PhaseAnalysis(phase, actual, t, TooFast, Some((t.min - actual) / t.min * 100.0))
    else if actual > t.max then PhaseAnalysis(phase, actual, t, TooSlow, Some((actual - t.max) / t.max * 100.0))
    else PhaseAnalysis(phase, actual, t, Normal, None)
  }

  /** The duration is read in hours for a target in hours and in days otherwise; the phase
      is too fast exactly when below the minimum, too slow exactly when above the maximum,
      and otherwise normal with no deviation; a deviation is the positive percentage beyond
      the bound it violates. */
  lemma AnalysePhaseSpec(phase: string, duration: real, t: Target)
    requires WellFormed(t)
    ensures var a := AnalysePhase(phase, duration, t);
      && a.phase == phase && a.target == t
      && a.actual == (if t.inHours then duration / 60.0 else duration / 1440.0)
      && (a.status == TooFast <==> a.actual < t.min)
      && (a.status == TooSlow <==> a.actual > t.max)
      && (a.status == Normal <==> a.deviation.None?)
      && (a.status == TooFast ==> a.deviation == Some((t.min - a.actual) / t.min * 100.0))
      && (a.status == TooSlow ==> a.deviation == Some((a.actual - t.max) / t.max * 100.0))
      && (a.deviation.Some? ==> a.deviation.value > 0.0)
  {
    var actual := if t.inHours then duration / 60.0 else duration / 1440.0;
    if actual < t.min {
      assert (t.min - actual) / t.min > 0.0;
    } else if actual > t.max {
      assert (actual - t.max) / t.max > 0.0;
    }
  }

  /** The analysis of a phase, when the phase has a target. */
  function PhaseAnalysisOf(phase: string, duration: real): Option<PhaseAnalysis>
  {
    var t := TargetOf(phase);
    if t.Some? then
      TargetsWellFormed(phase);
      Some(AnalysePhase(phase, duration, t.value))
    else None
  }

  /** Adds the analysis of each phase that has a target to `acc`, in the order given. */
  function PhaseEntries(acc: Obj<PhaseAnalysis>, phases: Obj<real>): Obj<PhaseAnalysis>
  {
    if phases == [] then acc
    else
      var prev := PhaseEntries(acc, phases[..|phases| - 1]);
      var (phase, duration) := phases[|phases| - 1];
      var a := PhaseAnalysisOf(phase, duration);
      if a.Some? then Put(prev, phase, a.value) else prev
  }

  /** Starting from an empty analysis, exactly the phases with a target are analysed, each
      from its own duration. */
  lemma {:induction false} PhaseEntriesSpec(phases: Obj<real>)
    requires DistinctKeys(phases)
    ensures var r := PhaseEntries([], phases);
      && DistinctKeys(r)
      && (forall p :: Get(r, p).Some? <==> Get(phases, p).Some? && TargetOf(p).Some?)
      && (forall p :: Get(r, p).Some? ==> Get(r, p) == PhaseAnalysisOf(p, Get(phases, p).value))
  {
    if phases != [] {
      var n := |phases| - 1;
      var init := phases[..n];
      DistinctInit(phases);
      PhaseEntriesSpec(init);
      var prev := PhaseEntries([], init);
      var (phase, duration) := phases[n];
      var a := PhaseAnalysisOf(phase, duration);
      if a.Some? {
        PutKeepsDistinct(prev, phase, a.value);
      }
      forall p ensures Get(phases, p) == (if Get(init, p).Some? then Get(init, p) else if phase == p then Some(duration) else None) {
        GetAppend(init, phase, duration, p);
      }
    }
  }

  // ---------------------------------------------------------------- screen time

  datatype Threshold = Threshold(min: real, max: real, name: string)

  function ThresholdOf(screen: string): Option<Threshold>
  {
    if screen == "home" then Some(Threshold(25.0, 45.0, "Home/Farm"))
    else if screen == "adventure" then Some(Threshold(20.0, 45.0, "Adventures"))
    else if screen == "mine" then Some(Threshold(5.0, 20.0, "Mining"))
    else if screen == "forge" then Some(Threshold(3.0, 15.0, "Forge"))
    else if screen == "tower" then Some(Threshold(3.0, 15.0, "Tower"))
    else if screen == "town" then Some(Threshold(5.0, 20.0, "Town"))
    else None
  }

  datatype ScreenStatus = Balanced | Underutilized | Overutilized

  datatype ScreenAnalysis = ScreenAnalysis(screen: string, name: string, percentage: real, absolute: real, status: ScreenStatus)

  /** The sum of the times. */
  function TotalTime(times: Obj<real>): real
  {
    if times == [] then 0.0 else TotalTime(times[..|times| - 1]) + times[|times| - 1].1
  }

  /** `time / total * 100`, or 0 when the total is not positive. */
  function Percentage(time: real, total: real): real
  {
    if total > 0.0 then time / total * 100.0 else 0.0
  }

  function AnalyseScreen(screen: string, time: real, total: real, th: Threshold): ScreenAnalysis
  {
    var p := Percentage(time, total);
    var status := if p < th.min then Underutilized else if p > th.max then Overutilized else Balanced;
    ScreenAnalysis(screen, th.name, p, time, status)
  }

  /** A screen is under-utilised exactly below its minimum share, over-utilised exactly above
      its maximum, and balanced otherwise; with no time at all every share is 0. */
  lemma AnalyseScreenSpec(screen: string, time: real, total: real, th: Threshold)
    requires th.min <= th.max
    ensures var a := AnalyseScreen(screen, time, total, th);
      && a.screen == screen && a.name == th.name && a.absolute == time
      && (total > 0.0 ==> a.percentage * total == time * 100.0)
      && (total <= 0.0 ==> a.percentage == 0.0)
      && (a.status == Underutilized <==> a.percentage < th.min)
      && (a.status == Overutilized <==> a.percentage > th.max)
      && (a.status == Balanced <==> th.min <= a.percentage <= th.max)
  {
  }

  function ScreenEntries(acc: Obj<ScreenAnalysis>, times: Obj<real>, total: real): Obj<ScreenAnalysis>
  {
    if times == [] then acc
    else
      var prev := ScreenEntries(acc, times[..|times| - 1], total);
      var (screen, time) := times[|times| - 1];
      var th := ThresholdOf(screen);
      if th.Some? then Put(prev, screen, AnalyseScreen(screen, time, total, th.value)) else prev
  }

  /** Starting from an empty analysis, exactly the screens with a threshold are analysed,
      each from its own time. */
  lemma {:induction false} ScreenEntriesSpec(times: Obj<real>, total: real, screen: string)
    requires DistinctKeys(times)
    ensures Get(ScreenEntries([], times, total), screen) ==
      if Get(times, screen).Some? && ThresholdOf(screen).Some?
      then Some(AnalyseScreen(screen, Get(times, screen).value, total, ThresholdOf(screen).value))
      else None
  {
    if times != [] {
      DistinctInit(times);
      ScreenEntriesSpec(times[..|times| - 1], total, screen);
      GetAppend(times[..|times| - 1], times[|times| - 1].0, times[|times| - 1].1, screen);
    }
  }

  function SumShares(times: Obj<real>, total: real): real
  {
    if times == [] then 0.0 else SumShares(times[..|times| - 1], total) + Percentage(times[|times| - 1].1, total)
  }

  lemma {:induction false} SumSharesScaled(times: Obj<real>, total: real)
    requires total > 0.0
    ensures SumShares(times, total) == TotalTime(times) / total * 100.0
  {
    if times != [] {
      SumSharesScaled(times[..|times| - 1], total);
    }
  }

  /** The shares of all screens add up to 100 when there is any time at all. */
  lemma SharesAddUp(times: Obj<real>)
    requires TotalTime(times) > 0.0
    ensures SumShares(times, TotalTime(times)) == 100.0
  {
    var t := TotalTime(times);
    SumSharesScaled(times, t);
    assert t / t == 1.0;
  }

  /** A screen's time and its share of the total. */
  datatype Share = Share(absolute: real, percentage: real)

  function Distribution(times: Obj<real>, total: real): Obj<Share>
  {
    if times == [] then []
    else
      var (screen, time) := times[|times| - 1];
      Put(Distribution(times[..|times| - 1], total), screen, Share(time, Percentage(time, total)))
  }

  /** `screenTimeDistribution`: every screen of the current report, with its time and its
      share of the total. */
  function ScreenTimeDistribution(current: Option<Report>): Obj<Share>
  {
    if current.None? then [] else Distribution(current.value.screenTime, TotalTime(current.value.screenTime))
  }

  /** Every screen appears in the distribution with its own time and share, and no other key. */
  lemma {:induction false} DistributionSpec(times: Obj<real>, total: real, screen: string)
    requires DistinctKeys(times)
    ensures Get(Distribution(times, total), screen) ==
      if Get(times, screen).Some? then Some(Share(Get(times, screen).value, Percentage(Get(times, screen).value, total))) else None
  {
    if times != [] {
      DistinctInit(times);
      DistributionSpec(times[..|times| - 1], total, screen);
      GetAppend(times[..|times| - 1], times[|times| - 1].0, times[|times| - 1].1, screen);
    }
  }

  // ---------------------------------------------------------------- bottlenecks

  datatype BottleneckKind = EnergyWaste | PhaseProgression | ScreenOveruse

  datatype Severity = High | Medium

  /** A bottleneck; the impact text, which formats a number, is not kept. */
  datatype Bottleneck = Bottleneck(kind: BottleneckKind, severity: Severity, description: string, suggestion: string)

  /** Energy waste is a bottleneck when more than a tenth of the generated energy is wasted. */
  predicate WastesEnergy(r: Report)
  {
    r.energyWasted.Some? && r.energyGenerated.Some? && r.energyWasted.value > r.energyGenerated.value * 0.1
  }

  function EnergyBottlenecks(r: Report): seq<Bottleneck>
  {
    if WastesEnergy(r) then
      [Bottleneck(EnergyWaste, High, "Energy storage hitting cap frequently", "Increase storage capacity or energy consumption")]
    else []
  }

  function SlowText(phase: string): string { phase + " phase taking too long" }

  function ReviewText(phase: string): string { "Review " + phase + " phase requirements and costs" }

  function OveruseText(name: string): string { name + " consuming excessive time" }

  function RebalanceText(name: string): string { "Consider reducing rewards or increasing costs for " + Lower(name) }

  predicate SlowBeyondHalf(a: PhaseAnalysis)
  {
    a.status == TooSlow && a.deviation.Some? && a.deviation.value > 50.0
  }

  /** A phase is a bottleneck when it is too slow by more than 50 percent; by more than 100 it
      is a high-severity one. */
  function PhaseBottleneck(e: (string, PhaseAnalysis)): Option<Bottleneck>
  {
    var (phase, a) := e;
    if SlowBeyondHalf(a) then
      Some(Bottleneck(PhaseProgression, if a.deviation.value > 100.0 then High else Medium, SlowText(phase), ReviewText(phase)))
    else None
  }

  /** A screen is a bottleneck when it is over-utilised and takes more than half of the time. */
  function ScreenBottleneck(e: (string, ScreenAnalysis)): Option<Bottleneck>
  {
    var a := e.1;
    if a.status == Overutilized && a.percentage > 50.0 then
      Some(Bottleneck(ScreenOveruse, Medium, OveruseText(a.name), RebalanceText(a.name)))
    else None
  }

  /** The bottlenecks of a report, given its phase and screen analyses. */
  function BottlenecksOf(r: Report, phases: Obj<PhaseAnalysis>, screens: Obj<ScreenAnalysis>): seq<Bottleneck>
  {
    EnergyBottlenecks(r) + Collect(phases, PhaseBottleneck) + Collect(screens, ScreenBottleneck)
  }

  lemma PhaseBottleneckSpec(e: (string, PhaseAnalysis))
    ensures PhaseBottleneck(e).Some? <==> e.1.status == TooSlow && e.1.deviation.Some? && e.1.deviation.value > 50.0
    ensures PhaseBottleneck(e).Some? ==>
      && PhaseBottleneck(e).value.kind == PhaseProgression
      && (PhaseBottleneck(e).value.severity == High <==> e.1.deviation.value > 100.0)
  {
  }

  /** Energy waste is reported exactly when more than a tenth of the generated energy is
      wasted, and then first and of high severity. */
  lemma EnergyReported(r: Report, phases: Obj<PhaseAnalysis>, screens: Obj<ScreenAnalysis>)
    ensures var bs := BottlenecksOf(r, phases, screens);
      && ((exists b :: b in bs && b.kind == EnergyWaste) <==> WastesEnergy(r))
      && (WastesEnergy(r) ==> bs[0].kind == EnergyWaste && bs[0].severity == High)
  {
    var bs := BottlenecksOf(r, phases, screens);
    if WastesEnergy(r) {
      assert bs[0] == EnergyBottlenecks(r)[0];
    }
    forall b | b in bs && b.kind == EnergyWaste ensures WastesEnergy(r) {
      if b in Collect(phases, PhaseBottleneck) {
        var i := CollectFrom(phases, PhaseBottleneck, b);
      } else if b in Collect(screens, ScreenBottleneck) {
        var i := CollectFrom(screens, ScreenBottleneck, b);
      }
    }
  }

  /** Every phase too slow by more than 50 percent is reported, and every phase report comes
      from such a phase, high exactly when it is too slow by more than 100 percent. */
  lemma PhasesReported(r: Report, phases: Obj<PhaseAnalysis>, screens: Obj<ScreenAnalysis>)
    ensures forall i :: 0 <= i < |phases| && SlowBeyondHalf(phases[i].1) ==> PhaseBottleneck(phases[i]).value in BottlenecksOf(r, phases, screens)
    ensures forall b :: b in BottlenecksOf(r, phases, screens) && b.kind == PhaseProgression ==>
      exists i :: 0 <= i < |phases| && SlowBeyondHalf(phases[i].1) && (b.severity == High <==> phases[i].1.deviation.value > 100.0)
  {
    forall i | 0 <= i < |phases| && SlowBeyondHalf(phases[i].1)
      ensures PhaseBottleneck(phases[i]).value in BottlenecksOf(r, phases, screens)
    {
      CollectHas(phases, PhaseBottleneck, i);
    }
    forall b | b in BottlenecksOf(r, phases, screens) && b.kind == PhaseProgression
      ensures exists i :: 0 <= i < |phases| && SlowBeyondHalf(phases[i].1) && (b.severity == High <==> phases[i].1.deviation.value > 100.0)
    {
      PhaseReportFrom(r, phases, screens, b);
    }
  }

  /** A phase report among the bottlenecks comes from a phase too slow by more than half. */
  lemma PhaseReportFrom(r: Report, phases: Obj<PhaseAnalysis>, screens: Obj<ScreenAnalysis>, b: Bottleneck)
    requires b in BottlenecksOf(r, phases, screens) && b.kind == PhaseProgression
    ensures exists i :: 0 <= i < |phases| && SlowBeyondHalf(phases[i].1) && (b.severity == High <==> phases[i].1.deviation.value > 100.0)
  {
    if b in Collect(phases, PhaseBottleneck) {
      var i := CollectFrom(phases, PhaseBottleneck, b);
      PhaseBottleneckSpec(phases[i]);
    } else if b in Collect(screens, ScreenBottleneck) {
      var i := CollectFrom(screens, ScreenBottleneck, b);
    }
  }

  /** Every screen report comes from an over-utilised screen with more than half of the time,
      and every such screen is reported. */
  lemma ScreensReported(r: Report, phases: Obj<PhaseAnalysis>, screens: Obj<ScreenAnalysis>)
    ensures forall i :: 0 <= i < |screens| && screens[i].1.status == Overutilized && screens[i].1.percentage > 50.0 ==>
      ScreenBottleneck(screens[i]).value in BottlenecksOf(r, phases, screens)
    ensures forall b :: b in BottlenecksOf(r, phases, screens) && b.kind == ScreenOveruse ==>
      exists i :: 0 <= i < |screens| && screens[i].1.status == Overutilized && screens[i].1.percentage > 50.0
  {
    forall i | 0 <= i < |screens| && screens[i].1.status == Overutilized && screens[i].1.percentage > 50.0
      ensures ScreenBottleneck(screens[i]).value in BottlenecksOf(r, phases, screens)
    {
      CollectHas(screens, ScreenBottleneck, i);
    }
    forall b | b in BottlenecksOf(r, phases, screens) && b.kind == ScreenOveruse
      ensures exists i :: 0 <= i < |screens| && screens[i].1.status == Overutilized && screens[i].1.percentage > 50.0
    {
      if b in Collect(phases, PhaseBottleneck) {
        var i := CollectFrom(phases, PhaseBottleneck, b);
      } else if b in Collect(screens, ScreenBottleneck) {
        var i := CollectFrom(screens, ScreenBottleneck, b);
      }
    }
  }

  // ---------------------------------------------------------------- recommendations

  datatype Category = FromBottleneck(kind: BottleneckKind) | PhaseTiming

  datatype Priority = Critical | Important | NormalPriority

  /** A recommendation; the impact text, which formats a number, is not kept. */
  datatype Recommendation = Recommendation(category: Category, priority: Priority, title: string, description: string)

  function ForBottleneck(b: Bottleneck): Recommendation
  {
    Recommendation(FromBottleneck(b.kind), if b.severity == High then Critical else Important, b.description, b.suggestion)
  }

  function StatusText(s: PhaseStatus): string
  {
    match s
    case Normal => "normal"
    case TooFast => "too fast"
    case TooSlow => "too slow"
  }

  function PhaseTitle(phase: string, s: PhaseStatus): string
  {
    phase + " phase " + StatusText(s)
  }

  function PhaseAdvice(phase: string, tooFast: bool): string
  {
    if tooFast then "Consider increasing requirements or adding content to " + phase + " phase"
    else "Consider reducing costs or improving rewards in " + phase + " phase"
  }

  function ForPhase(e: (string, PhaseAnalysis)): Option<Recommendation>
  {
    var (phase, a) := e;
    if a.status == Normal then None
    else
      Some(Recommendation(PhaseTiming,
        if FarOff(a) then Critical else NormalPriority,
        PhaseTitle(phase, a.status), PhaseAdvice(phase, a.status == TooFast)))
  }

  /** Off the target by more than 100 percent. */
  predicate FarOff(a: PhaseAnalysis)
  {
    a.deviation.Some? && a.deviation.value > 100.0
  }

  predicate OffTarget(e: (string, PhaseAnalysis))
  {
    e.1.status != Normal
  }

  /** The recommendations: one per bottleneck, in order, then one per phase off its target. */
  function RecommendationsOf(bs: seq<Bottleneck>, phases: Obj<PhaseAnalysis>): seq<Recommendation>
  {
    seq(|bs|, i requires 0 <= i < |bs| => ForBottleneck(bs[i])) + Collect(phases, ForPhase)
  }

  /** There is one recommendation per bottleneck, first and in order, critical exactly for a
      high-severity one, and one per phase off its target after them. */
  lemma RecommendationsSpec(bs: seq<Bottleneck>, phases: Obj<PhaseAnalysis>)
    ensures var r := RecommendationsOf(bs, phases);
      && |r| == |bs| + CountSome(phases, ForPhase)
      && (forall i :: 0 <= i < |bs| ==>
           r[i].category == FromBottleneck(bs[i].kind) && (r[i].priority == Critical <==> bs[i].severity == High))
  {
    CollectSpec(phases, ForPhase);
  }

  /** Every phase off its target gets a phase-timing recommendation, and every recommendation
      after those for the bottlenecks is one, critical exactly when its phase is off by more
      than 100 percent. */
  lemma PhaseRecommendationsSpec(bs: seq<Bottleneck>, phases: Obj<PhaseAnalysis>)
    ensures var r := RecommendationsOf(bs, phases);
      && (forall i :: 0 <= i < |phases| && OffTarget(phases[i]) ==> ForPhase(phases[i]).value in r[|bs|..])
      && (forall k :: |bs| <= k < |r| ==>
           r[k].category == PhaseTiming
           && exists i :: 0 <= i < |phases| && OffTarget(phases[i]) && (r[k].priority == Critical <==> FarOff(phases[i].1)))
  {
    var r := RecommendationsOf(bs, phases);
    var tail := Collect(phases, ForPhase);
    assert r[|bs|..] == tail;
    forall i | 0 <= i < |phases| && OffTarget(phases[i]) ensures ForPhase(phases[i]).value in r[|bs|..] {
      CollectHas(phases, ForPhase, i);
    }
    forall k | |bs| <= k < |r|
      ensures r[k].category == PhaseTiming
      ensures exists i :: 0 <= i < |phases| && OffTarget(phases[i]) && (r[k].priority == Critical <==> FarOff(phases[i].1))
    {
      assert r[k] == tail[k - |bs|];
      var i := CollectFrom(phases, ForPhase, r[k]);
    }
  }

  // ---------------------------------------------------------------- averages

  /** The total of phase `p`'s durations over the reports that have it. */
  function PhaseTotal(reports: seq<Report>, p: string): real
  {
    if reports == [] then 0.0
    else
      var d := Get(reports[|reports| - 1].phaseDurations, p);
      PhaseTotal(reports[..|reports| - 1], p) + (if d.Some? then d.value else 0.0)
  }

  /** The number of reports that have phase `p`. */
  function PhaseCount(reports: seq<Report>, p: string): nat
  {
    if reports == [] then 0
    else PhaseCount(reports[..|reports| - 1], p) + (if Get(reports[|reports| - 1].phaseDurations, p).Some? then 1 else 0)
  }

  /** The total and the number of durations seen for a phase. */
  datatype Tally = Tally(total: real, count: nat)

  /** Running (total, count) per phase, in the order the phases are first met. */
  function AddDurations(acc: Obj<Tally>, entries: Obj<real>): Obj<Tally>
  {
    if entries == [] then acc
    else
      var prev := AddDurations(acc, entries[..|entries| - 1]);
      var (phase, d) := entries[|entries| - 1];
      var seen := Get(prev, phase);
      Put(prev, phase, if seen.Some? then Tally(seen.value.total + d, seen.value.count + 1) else Tally(d, 1))
  }

  function Totals(reports: seq<Report>): Obj<Tally>
  {
    if reports == [] then [] else AddDurations(Totals(reports[..|reports| - 1]), reports[|reports| - 1].phaseDurations)
  }

  function Averages(totals: Obj<Tally>): (r: Obj<real>)
    ensures |r| == |totals|
    ensures forall i :: 0 <= i < |totals| ==> r[i].0 == totals[i].0
  {
    if totals == [] then []
    else [(totals[0].0, if totals[0].1.count == 0 then 0.0 else totals[0].1.total / totals[0].1.count as real)] + Averages(totals[1..])
  }

  /** `avgPhaseTime`: the mean duration of each phase. */
  function AvgPhaseTime(reports: seq<Report>): Obj<real>
  {
    Averages(Totals(reports))
  }

  lemma {:induction false} AddDurationsSpec(acc: Obj<Tally>, entries: Obj<real>, p: string)
    requires DistinctKeys(entries)
    ensures var r := AddDurations(acc, entries);
      var d := Get(entries, p);
      Get(r, p) == if d.None? then Get(acc, p)
                   else if Get(acc, p).Some? then Some(Tally(Get(acc, p).value.total + d.value, Get(acc, p).value.count + 1))
                   else Some(Tally(d.value, 1))
    ensures DistinctKeys(acc) ==> DistinctKeys(AddDurations(acc, entries))
  {
    if entries != [] {
      var n := |entries| - 1;
      var init := entries[..n];
      DistinctInit(entries);
      AddDurationsSpec(acc, init, p);
      AddDurationsSpec(acc, init, entries[n].0);
      var (phase, d) := entries[n];
      GetAppend(init, phase, d, p);
      var prev := AddDurations(acc, init);
      var seen := Get(prev, phase);
      assert seen == Get(acc, phase);
      var v := if seen.Some? then Tally(seen.value.total + d, seen.value.count + 1) else Tally(d, 1);
      assert AddDurations(acc, entries) == Put(prev, phase, v);
      if DistinctKeys(acc) {
        PutKeepsDistinct(prev, phase, v);
      }
    }
  }

  lemma {:induction false} TotalsSpec(reports: seq<Report>, p: string)
    requires forall i :: 0 <= i < |reports| ==> DistinctKeys(reports[i].phaseDurations)
    ensures DistinctKeys(Totals(reports))
    ensures Get(Totals(reports), p) == if PhaseCount(reports, p) == 0 then None else Some(Tally(PhaseTotal(reports, p), PhaseCount(reports, p)))
  {
    if reports != [] {
      var n := |reports| - 1;
      TotalsSpec(reports[..n], p);
      AddDurationsSpec(Totals(reports[..n]), reports[n].phaseDurations, p);
      if PhaseCount(reports[..n], p) == 0 {
        ZeroCountZeroTotal(reports[..n], p);
      }
    }
  }

  lemma {:induction false} ZeroCountZeroTotal(reports: seq<Report>, p: string)
    requires PhaseCount(reports, p) == 0
    ensures PhaseTotal(reports, p) == 0.0
  {
    if reports != [] { ZeroCountZeroTotal(reports[..|reports| - 1], p); }
  }

  lemma {:induction false} AveragesGet(totals: Obj<Tally>, p: string)
    ensures Get(Averages(totals), p) ==
      if Get(totals, p).None? then None
      else Some(if Get(totals, p).value.count == 0 then 0.0 else Get(totals, p).value.total / Get(totals, p).value.count as real)
  {
    if totals != [] { AveragesGet(totals[1..], p); }
  }

  /** A phase has an average exactly when some report has it, and the average is the mean of
      its durations over those reports. */
  lemma AvgPhaseTimeSpec(reports: seq<Report>, p: string)
    requires forall i :: 0 <= i < |reports| ==> DistinctKeys(reports[i].phaseDurations)
    ensures Get(AvgPhaseTime(reports), p).Some? <==> PhaseCount(reports, p) > 0
    ensures PhaseCount(reports, p) > 0 ==>
      Get(AvgPhaseTime(reports), p) == Some(PhaseTotal(reports, p) / PhaseCount(reports, p) as real)
  {
    TotalsSpec(reports, p);
    AveragesGet(Totals(reports), p);
  }

  // ---------------------------------------------------------------- the store

  /** The first report with the given id, if any. */
  function FindReport(reports: seq<Report>, id: string): (r: Option<nat>)
    ensures r.Some? ==>
      r.value < |reports| && reports[r.value].id == id && forall j :: 0 <= j < r.value ==> reports[j].id != id
    ensures r.None? ==> forall j :: 0 <= j < |reports| ==> reports[j].id != id
  {
    if reports == [] then None
    else if reports[0].id == id then Some(0)
    else match FindReport(reports[1..], id)
      case Some(i) => Some(i + 1)
      case None => None
  }

  class ResultsStore {
    var simulationReports: seq<Report>
    var currentReport: Option<Report>
    var bottlenecks: seq<Bottleneck>
    var recommendations: seq<Recommendation>
    var phaseAnalysis: Obj<PhaseAnalysis>
    var screenTimeAnalysis: Obj<ScreenAnalysis>

    constructor ()
      ensures simulationReports == [] && currentReport == None
      ensures bottlenecks == [] && recommendations == [] && phaseAnalysis == [] && screenTimeAnalysis == []
    {
      simulationReports := [];
      currentReport := None;
      bottlenecks := [];
      recommendations := [];
      phaseAnalysis := [];
      screenTimeAnalysis := [];
    }

    /** `latestReport` */
    function LatestReport(): Option<Report>
      reads this
    {
      if simulationReports == [] then None else Some(simulationReports[|simulationReports| - 1])
    }

    /** Analyses each phase of the report that has a target. */
    method AnalyzePhases(report: Report)
      modifies this
      ensures phaseAnalysis == PhaseEntries(old(phaseAnalysis), report.phaseDurations)
      ensures simulationReports == old(simulationReports) && currentReport == old(currentReport)
      ensures bottlenecks == old(bottlenecks) && recommendations == old(recommendations)
      ensures screenTimeAnalysis == old(screenTimeAnalysis)
    {
      var phases := report.phaseDurations;
      for i := 0 to |phases|
        invariant phaseAnalysis == PhaseEntries(old(phaseAnalysis), phases[..i])
        invariant simulationReports == old(simulationReports) && currentReport == old(currentReport)
        invariant bottlenecks == old(bottlenecks) && recommendations == old(recommendations)
        invariant screenTimeAnalysis == old(screenTimeAnalysis)
      {
        assert phases[..i + 1][..i] == phases[..i];
        var (phase, duration) := phases[i];
        var a := PhaseAnalysisOf(phase, duration);
        if a.Some? {
          phaseAnalysis := Put(phaseAnalysis, phase, a.value);
        }
      }
      assert phases[..|phases|] == phases;
    }

    /** Analyses each screen of the report that has a threshold, against the total time. */
    method AnalyzeScreenTime(report: Report)
      modifies this
      ensures screenTimeAnalysis == ScreenEntries(old(screenTimeAnalysis), report.screenTime, TotalTime(report.screenTime))
      ensures simulationReports == old(simulationReports) && currentReport == old(currentReport)
      ensures bottlenecks == old(bottlenecks) && recommendations == old(recommendations)
      ensures phaseAnalysis == old(phaseAnalysis)
    {
      var times := report.screenTime;
      var total := TotalTime(times);
      for i := 0 to |times|
        invariant screenTimeAnalysis == ScreenEntries(old(screenTimeAnalysis), times[..i], total)
        invariant simulationReports == old(simulationReports) && currentReport == old(currentReport)
        invariant bottlenecks == old(bottlenecks) && recommendations == old(recommendations)
        invariant phaseAnalysis == old(phaseAnalysis)
      {
        assert times[..i + 1][..i] == times[..i];
        var (screen, time) := times[i];
        var th := ThresholdOf(screen);
        if th.Some? {
          screenTimeAnalysis := Put(screenTimeAnalysis, screen, AnalyseScreen(screen, time, total, th.value));
        }
      }
      assert times[..|times|] == times;
    }

    /** Collects the bottlenecks from the energy flows and the current analyses. */
    method DetectBottlenecks(report: Report)
      modifies this
      ensures bottlenecks == BottlenecksOf(report, phaseAnalysis, screenTimeAnalysis)
      ensures simulationReports == old(simulationReports) && currentReport == old(currentReport)
      ensures recommendations == old(recommendations)
      ensures phaseAnalysis == old(phaseAnalysis) && screenTimeAnalysis == old(screenTimeAnalysis)
    {
      bottlenecks := EnergyBottlenecks(report);
      bottlenecks := AppendCollected(bottlenecks, phaseAnalysis, PhaseBottleneck);
      bottlenecks := AppendCollected(bottlenecks, screenTimeAnalysis, ScreenBottleneck);
    }

    /** One recommendation per bottleneck, then one per phase off its target; the other
        fields are outside the frame. */
    method GenerateAnalysisRecommendations()
      modifies this`recommendations
      ensures recommendations == RecommendationsOf(bottlenecks, phaseAnalysis)
    {
      BottleneckRecommendations();
      var bs := bottlenecks;
      assert recommendations == seq(|bs|, i requires 0 <= i < |bs| => ForBottleneck(bs[i]));
      AppendPhaseRecommendations();
    }

    /** `bottlenecks.value.forEach(...)` from an empty list. */
    method BottleneckRecommendations()
      modifies this`recommendations
      ensures |recommendations| == |bottlenecks|
      ensures forall j :: 0 <= j < |bottlenecks| ==> recommendations[j] == ForBottleneck(bottlenecks[j])
    {
      recommendations := [];
      var bs := bottlenecks;
      for i := 0 to |bs|
        invariant |recommendations| == i
        invariant forall j :: 0 <= j < i ==> recommendations[j] == ForBottleneck(bs[j])
      {
        recommendations := recommendations + [ForBottleneck(bs[i])];
      }
    }

    /** `Object.entries(phaseAnalysis.value).forEach(...)`: a recommendation for each phase off
        its target, after the ones already there. */
    method AppendPhaseRecommendations()
      modifies this`recommendations
      ensures recommendations == old(recommendations) + Collect(phaseAnalysis, ForPhase)
    {
      recommendations := AppendCollected(recommendations, phaseAnalysis, ForPhase);
    }

    /** Resets the analysis and analyses the report afresh. */
    method AnalyzeReport(report: Report)
      modifies this
      ensures phaseAnalysis == PhaseEntries([], report.phaseDurations)
      ensures screenTimeAnalysis == ScreenEntries([], report.screenTime, TotalTime(report.screenTime))
      ensures bottlenecks == BottlenecksOf(report, phaseAnalysis, screenTimeAnalysis)
      ensures recommendations == RecommendationsOf(bottlenecks, phaseAnalysis)
      ensures simulationReports == old(simulationReports) && currentReport == old(currentReport)
    {
      bottlenecks := [];
      recommendations := [];
      phaseAnalysis := [];
      screenTimeAnalysis := [];
      AnalyzePhases(report);
      AnalyzeScreenTime(report);
      DetectBottlenecks(report);
      GenerateAnalysisRecommendations();
    }

    /** Stores a finished report, makes it current and analyses it. */
    method SaveSimulationReport(report: Report) returns (id: string)
      modifies this
      ensures simulationReports == old(simulationReports) + [report]
      ensures currentReport == Some(report) && id == report.id
      ensures phaseAnalysis == PhaseEntries([], report.phaseDurations)
      ensures screenTimeAnalysis == ScreenEntries([], report.screenTime, TotalTime(report.screenTime))
      ensures bottlenecks == BottlenecksOf(report, phaseAnalysis, screenTimeAnalysis)
      ensures recommendations == RecommendationsOf(bottlenecks, phaseAnalysis)
    {
      simulationReports := simulationReports + [report];
      currentReport := Some(report);
      AnalyzeReport(report);
      id := report.id;
    }

    /** Makes the first report with the id current and analyses it; none when there is none,
        and then nothing changes. */
    method LoadReport(reportId: string) returns (found: Option<Report>)
      modifies this
      ensures var i := FindReport(old(simulationReports), reportId);
        found == (if i.Some? then Some(old(simulationReports)[i.value]) else None)
      ensures simulationReports == old(simulationReports)
      ensures found.Some? ==>
        && currentReport == found && phaseAnalysis == PhaseEntries([], found.value.phaseDurations)
        && screenTimeAnalysis == ScreenEntries([], found.value.screenTime, TotalTime(found.value.screenTime))
        && bottlenecks == BottlenecksOf(found.value, phaseAnalysis, screenTimeAnalysis)
        && recommendations == RecommendationsOf(bottlenecks, phaseAnalysis)
      ensures found.None? ==>
        && currentReport == old(currentReport) && phaseAnalysis == old(phaseAnalysis)
        && bottlenecks == old(bottlenecks) && recommendations == old(recommendations)
        && screenTimeAnalysis == old(screenTimeAnalysis)
    {
      var i := FindReport(simulationReports, reportId);
      if i.None? {
        return None;
      }
      found := Some(simulationReports[i.value]);
      currentReport := found;
      AnalyzeReport(found.value);
    }

    /** Removes the first report with the id, and clears the current report when it has that
        id; with no such report nothing changes. */
    method DeleteReport(reportId: string)
      modifies this
      ensures var i := FindReport(old(simulationReports), reportId);
        && (i.None? ==> simulationReports == old(simulationReports) && currentReport == old(currentReport))
        && (i.Some? ==> simulationReports == old(simulationReports)[..i.value] + old(simulationReports)[i.value + 1..])
        && (i.Some? ==> currentReport == if old(currentReport).Some? && old(currentReport).value.id == reportId then None else old(currentReport))
      ensures bottlenecks == old(bottlenecks) && recommendations == old(recommendations)
      ensures phaseAnalysis == old(phaseAnalysis) && screenTimeAnalysis == old(screenTimeAnalysis)
    {
      var i := FindReport(simulationReports, reportId);
      if i.Some? {
        simulationReports := simulationReports[..i.value] + simulationReports[i.value + 1..];
        if currentReport.Some? && currentReport.value.id == reportId {
          currentReport := None;
        }
      }
    }
  }

  /** Deleting removes exactly one report, the first with the id, keeping the others in
      order. */
  lemma DeleteRemovesOne(reports: seq<Report>, id: string)
    ensures var i := FindReport(reports, id);
      i.Some? ==>
        var rest := reports[..i.value] + reports[i.value + 1..];
        && |rest| == |reports| - 1
        && multiset(rest) + multiset{reports[i.value]} == multiset(reports)
  {
    var i := FindReport(reports, id);
    if i.Some? {
      assert reports == reports[..i.value] + [reports[i.value]] + reports[i.value + 1..];
    }
  }
}
