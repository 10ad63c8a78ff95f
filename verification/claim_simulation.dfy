/** The claim-simulation engine: a four-stage run over a parameter record,
    advanced by an interval timer (an `armed` flag plus `Tick`) or by hand in
    debug mode, ending in one evaluation against a fixed rule table. */
module ClaimSimulation {
  import opened Wrappers

  // ---------------------------------------------------------------------------
  // Parameters and rules
  // ---------------------------------------------------------------------------

  /** `typhoonLevel`; `OtherLevel` is any string outside the four listed. */
  datatype Level = NoLevel | Level5to6 | Level7to8 | Level9to10 | OtherLevel

  /** `predictTime`; `OtherTime` is any string outside the three listed. */
  datatype Horizon = NoTime | OneWeek | TwoWeeks | OtherTime

  datatype Params = Params(
    lat: Option<real>, lon: Option<real>,
    level: Level, impactRegion: bool, predictTime: Horizon)

  const DefaultParams := Params(None, None, NoLevel, false, NoTime)

  /** All four inputs a run needs are present. */
  predicate IsComplete(p: Params) {
    p.lat.Some? && p.lon.Some? && p.level != NoLevel && p.predictTime != NoTime
  }

  /** A rule of the payout table; `payout` is the percentage string. */
  datatype Rule = Rule(level: Level, impact: bool, time: Horizon, payout: string)

  const ClaimRules: seq<Rule> := [
    Rule(Level7to8, true, TwoWeeks, "30%"),
    Rule(Level9to10, true, OneWeek, "50%"),
    Rule(Level9to10, true, TwoWeeks, "40%"),
    Rule(Level5to6, true, TwoWeeks, "10%"),
    Rule(Level5to6, true, OneWeek, "0%")
  ]

  const NoPayout: string := "0%"

  predicate Matches(r: Rule, p: Params) {
    p.level == r.level && p.impactRegion == r.impact && p.predictTime == r.time
  }

  /** The first rule, in table order, whose triple equals the parameters'. */
  function FirstMatch(rules: seq<Rule>, p: Params): (r: Option<Rule>)
    ensures r.None? <==> forall k :: 0 <= k < |rules| ==> !Matches(rules[k], p)
    ensures r.Some? ==> exists k :: 0 <= k < |rules| && rules[k] == r.value && Matches(r.value, p) &&
                          forall k' :: 0 <= k' < k ==> !Matches(rules[k'], p)
  {
    if |rules| == 0 then None
    else if Matches(rules[0], p) then Some(rules[0])
    else
      var r := FirstMatch(rules[1..], p);
      assert forall k :: 1 <= k < |rules| ==> rules[k] == rules[1..][k - 1];
      if r.Some? then
        var k :| 0 <= k < |rules[1..]| && rules[1..][k] == r.value && Matches(r.value, p) &&
                  forall k' :: 0 <= k' < k ==> !Matches(rules[1..][k'], p);
        assert rules[k + 1] == r.value;
        r
      else r
  }

  // ---------------------------------------------------------------------------
  // Premium
  // ---------------------------------------------------------------------------

  /** `estimatedPremium`: the pending placeholder, the two sentinel strings, or
      an amount (its two-decimal currency formatting is not modelled). */
  datatype Premium = Pending | NotApplicable | OutOfCoverage | Amount(value: real)

  const BasePremium: real := 1000.0

  /** The level multiplier; a level outside the three priced ones keeps the base. */
  function LevelFactor(l: Level): (f: real)
    ensures 1.0 <= f <= 2.0
  {
    match l
    case Level5to6 => 1.0
    case Level7to8 => 1.5
    case Level9to10 => 2.0
    case _ => 1.0
  }

  /** The insured box, bounds included. */
  predicate InsuredBox(lat: real, lon: real) {
    27.0 <= lat <= 30.0 && 120.0 <= lon <= 123.0
  }

  function Abs(x: real): real {
    if x < 0.0 then -x else x
  }

  /** The risk loading: one plus a tenth of the distance from the box centre
      (28.5, 121.5) measured along each axis. */
  function RiskFactor(lat: real, lon: real): real {
    1.0 + (Abs(lat - 28.5) + Abs(lon - 121.5)) / 10.0
  }

  /** `calculatePremium`. */
  function CalculatePremium(p: Params): (r: Premium)
    ensures r != Pending
    ensures r == NotApplicable <==> p.lat.None? || p.lon.None? || p.level == NoLevel
    ensures r == OutOfCoverage <==>
              p.lat.Some? && p.lon.Some? && p.level != NoLevel && !InsuredBox(p.lat.value, p.lon.value)
    ensures r.Amount? ==>
              BasePremium * LevelFactor(p.level) <= r.value <= 1.3 * BasePremium * LevelFactor(p.level)
  {
    if p.lat.None? || p.lon.None? || p.level == NoLevel then NotApplicable
    else
      var lat, lon := p.lat.value, p.lon.value;
      var base := BasePremium * LevelFactor(p.level);
      if InsuredBox(lat, lon) then
        var risk := RiskFactor(lat, lon);
        assert 1.0 <= risk <= 1.3;
        assert base * 1.0 <= base * risk <= base * 1.3;
        Amount(base * risk)
      else OutOfCoverage
  }

  // ---------------------------------------------------------------------------
  // Run state
  // ---------------------------------------------------------------------------

  /** `resultMessage`, by which text it holds. */
  datatype Message =
    | NoMessage
    | IncompleteAtStart
    | IncompleteAtEvaluation
    | Congratulations(rule: Rule)
    | MissedRegion
    | BelowTrigger

  /** The composable's state; `armed` says the interval handle is non-null. */
  datatype Sim = Sim(
    step: nat, complete: bool, message: Message, premium: Premium,
    hasPayout: bool, debug: bool, armed: bool, params: Params)

  /** Index of the last of the four narrative stages. */
  const LastStep: nat := 3

  const Initial := Sim(0, false, NoMessage, Pending, false, false, false, DefaultParams)

  predicate StepInRange(s: Sim) {
    s.step <= LastStep
  }

  /** `stopSimulation`: cancels the interval if there is one. */
  function Stop(s: Sim): (r: Sim)
    ensures !r.armed
    ensures r.(armed := s.armed) == s
  {
    s.(armed := false)
  }

  /** `resetSimulationDisplayState`: the display back to its initial look. */
  function ResetDisplay(s: Sim): (r: Sim)
    ensures r == Initial.(debug := s.debug, params := s.params)
  {
    Stop(s).(step := 0, complete := false, message := NoMessage, premium := Pending, hasPayout := false)
  }

  /** `resetAllSimulationData`: the display reset, then default parameters. */
  function ResetAll(s: Sim): (r: Sim)
    ensures r == Initial.(debug := s.debug)
  {
    ResetDisplay(s).(params := DefaultParams)
  }

  /** `determinePayoutAndPremium`: the terminal evaluation. */
  function Evaluate(s: Sim): (r: Sim)
    ensures r.complete
    ensures r.step == s.step && r.armed == s.armed && r.debug == s.debug && r.params == s.params
    ensures r.hasPayout <==>
              IsComplete(s.params) &&
              exists k :: 0 <= k < |ClaimRules| && Matches(ClaimRules[k], s.params) &&
                          ClaimRules[k].payout != NoPayout
    ensures !IsComplete(s.params) ==> r.premium == NotApplicable && r.message == IncompleteAtEvaluation
    ensures IsComplete(s.params) ==> r.premium == CalculatePremium(s.params)
  {
    var p := s.params;
    if !IsComplete(p) then
      s.(message := IncompleteAtEvaluation, premium := NotApplicable, hasPayout := false, complete := true)
    else
      var premium := CalculatePremium(p);
      var matched := FirstMatch(ClaimRules, p);
      if matched.Some? && matched.value.payout != NoPayout then
        s.(premium := premium, message := Congratulations(matched.value), hasPayout := true, complete := true)
      else
        FirstMatchIsOnlyMatch(p);
        var message := if !p.impactRegion then MissedRegion else BelowTrigger;
        s.(premium := premium, message := message, hasPayout := false, complete := true)
  }

  /** No two rules share a (level, impact, time) triple. */
  lemma RuleTriplesDistinct()
    ensures forall i, j :: 0 <= i < j < |ClaimRules| ==>
              (ClaimRules[i].level, ClaimRules[i].impact, ClaimRules[i].time) !=
              (ClaimRules[j].level, ClaimRules[j].impact, ClaimRules[j].time)
  {
  }

  /** So a rule that matches is the first match: first-match and any-match agree. */
  lemma FirstMatchIsOnlyMatch(p: Params)
    ensures forall k :: 0 <= k < |ClaimRules| && Matches(ClaimRules[k], p) ==>
              FirstMatch(ClaimRules, p) == Some(ClaimRules[k])
  {
    RuleTriplesDistinct();
  }

  /** `startSimulation`: reset the display, then either report missing inputs
      or arm the interval. The reset leaves the step at 0, so the timer guard
      holds in debug mode too. */
  function Start(s: Sim): (r: Sim)
    ensures r.step == 0 && !r.hasPayout && r.params == s.params && r.debug == s.debug
    ensures !IsComplete(s.params) ==>
              r.complete && r.premium == NotApplicable && !r.armed && r.message == IncompleteAtStart
    ensures IsComplete(s.params) ==>
              r.armed && !r.complete && r.premium == Pending && r.message == NoMessage
  {
    var r := ResetDisplay(s);
    if !IsComplete(r.params) then
      r.(message := IncompleteAtStart, complete := true, premium := NotApplicable)
    else if !r.debug || (r.debug && r.step == 0) then
      r.(armed := true)
    else
      r
  }

  /** One firing of the interval: advance a stage, or at the last stage cancel
      the interval and evaluate. Without an armed interval nothing fires. */
  function Tick(s: Sim): (r: Sim)
    ensures StepInRange(s) ==> StepInRange(r)
    ensures !s.armed ==> r == s
    ensures s.armed && s.step < LastStep ==> r == s.(step := s.step + 1)
    ensures s.armed && s.step >= LastStep ==> r == Evaluate(s).(armed := false)
  {
    if !s.armed then s
    else if s.step < LastStep then s.(step := s.step + 1)
    else Evaluate(s).(armed := false)
  }

  /** `nextDebugStep`: cancel the interval, then advance or evaluate. */
  function NextDebugStep(s: Sim): (r: Sim)
    ensures !r.armed
    ensures StepInRange(s) ==> StepInRange(r)
    ensures s.step < LastStep ==> r == s.(step := s.step + 1, armed := false)
    ensures s.step >= LastStep ==> r == Evaluate(Stop(s))
  {
    var t := Stop(s);
    if t.step < LastStep then t.(step := t.step + 1) else Evaluate(t)
  }

  /** The fields a caller supplies to `setSimulationParams`; None leaves the
      field alone, and `Some(None)` writes `null`. */
  datatype Patch = Patch(
    lat: Option<Option<real>>, lon: Option<Option<real>>,
    level: Option<Level>, impactRegion: Option<bool>, predictTime: Option<Horizon>)

  const EmptyPatch := Patch(None, None, None, None, None)

  /** `Object.assign`: supplied fields overwrite, the rest stay. */
  function Merge(p: Params, patch: Patch): (r: Params)
    ensures r.lat == patch.lat.GetOr(p.lat) && r.lon == patch.lon.GetOr(p.lon)
    ensures r.level == patch.level.GetOr(p.level)
    ensures r.impactRegion == patch.impactRegion.GetOr(p.impactRegion)
    ensures r.predictTime == patch.predictTime.GetOr(p.predictTime)
  {
    Params(
      patch.lat.GetOr(p.lat), patch.lon.GetOr(p.lon), patch.level.GetOr(p.level),
      patch.impactRegion.GetOr(p.impactRegion), patch.predictTime.GetOr(p.predictTime))
  }

  /** `setSimulationParams`: merges into the parameters, touching nothing else. */
  function SetParams(s: Sim, patch: Patch): (r: Sim)
    ensures r.(params := s.params) == s
    ensures r.params == Merge(s.params, patch)
  {
    s.(params := Merge(s.params, patch))
  }

  /** `setDebugMode`: set the flag, then reset everything. */
  function SetDebugMode(s: Sim, mode: bool): (r: Sim)
    ensures r == Initial.(debug := mode)
  {
    ResetAll(s.(debug := mode))
  }
}
