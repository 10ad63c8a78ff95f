/** What the claim-simulation engine promises: the premium's sentinels, bounds
    and shape, the rule table's exclusivity, the outcome of an evaluation, and
    the run as a sequence of timer ticks or manual steps. */
module ClaimSimulationProperties {
  import opened Wrappers
  import opened ClaimSimulation

  // ---------------------------------------------------------------------------
  // Premium
  // ---------------------------------------------------------------------------

  /** The premium is cheapest exactly at the box centre, where it is the
      level-adjusted base. */
  lemma PremiumMinimalAtCentre(p: Params)
    requires p.lat.Some? && p.lon.Some? && p.level != NoLevel
    requires InsuredBox(p.lat.value, p.lon.value)
    ensures CalculatePremium(p).Amount?
    ensures CalculatePremium(p).value == BasePremium * LevelFactor(p.level) <==>
              p.lat.value == 28.5 && p.lon.value == 121.5
  {
    var f := BasePremium * LevelFactor(p.level);
    var risk := RiskFactor(p.lat.value, p.lon.value);
    assert CalculatePremium(p).value == f * risk;
    if f * risk == f {
      assert f * (risk - 1.0) == 0.0;
    }
  }

  /** The loading depends only on the distance from the centre along each
      axis: mirroring a point through the centre keeps its premium. */
  lemma PremiumSymmetric(p: Params, q: Params)
    requires p.lat.Some? && p.lon.Some? && q.lat.Some? && q.lon.Some? && p.level == q.level
    requires q.lat.value - 28.5 == 28.5 - p.lat.value
    requires q.lon.value - 121.5 == 121.5 - p.lon.value
    ensures CalculatePremium(q) == CalculatePremium(p)
  {
  }

  /** The worked examples: the centre at level 7-8 costs 1500; a point far
      outside the box is out of coverage at every level. */
  lemma PremiumExamples(level: Level)
    requires level != NoLevel
    ensures CalculatePremium(Params(Some(28.5), Some(121.5), Level7to8, true, OneWeek)) == Amount(1500.0)
    ensures CalculatePremium(Params(Some(10.0), Some(10.0), level, true, OneWeek)) == OutOfCoverage
    ensures CalculatePremium(Params(Some(30.0), Some(123.0), Level9to10, false, NoTime)) == Amount(2600.0)
  {
  }

  // ---------------------------------------------------------------------------
  // Rules and evaluation
  // ---------------------------------------------------------------------------

  /** Every rule demands a hit on the insured region, so parameters that miss
      it never match. */
  lemma MissedRegionNeverMatches(p: Params)
    requires !p.impactRegion
    ensures FirstMatch(ClaimRules, p).None?
    ensures IsComplete(p) ==> Evaluate(Initial.(params := p)).message == MissedRegion
    ensures !Evaluate(Initial.(params := p)).hasPayout
  {
  }

  /** A payout is granted exactly when the matched rule is the first match and
      its percentage is not `0%`; otherwise the message says why not. */
  lemma EvaluationOutcome(s: Sim)
    requires IsComplete(s.params)
    ensures var r := Evaluate(s);
      var m := FirstMatch(ClaimRules, s.params);
      && (r.hasPayout <==> m.Some? && m.value.payout != NoPayout)
      && (r.hasPayout ==> r.message == Congratulations(m.value))
      && (!r.hasPayout ==> r.message == (if s.params.impactRegion then BelowTrigger else MissedRegion))
      && r.premium != NotApplicable && r.premium != Pending
  {
  }

  /** Level 9-10, hit, one week: the 50% rule pays. */
  lemma SevereOneWeekPays(s: Sim, lat: real, lon: real)
    requires s.params == Params(Some(lat), Some(lon), Level9to10, true, OneWeek)
    ensures Evaluate(s).hasPayout
    ensures Evaluate(s).message == Congratulations(Rule(Level9to10, true, OneWeek, "50%"))
  {
    assert Matches(ClaimRules[1], s.params);
    FirstMatchIsOnlyMatch(s.params);
  }

  /** Level 5-6, hit, one week: a rule matches, but its payout is `0%`. */
  lemma MildOneWeekMatchesWithoutPayout(s: Sim, lat: real, lon: real)
    requires s.params == Params(Some(lat), Some(lon), Level5to6, true, OneWeek)
    ensures FirstMatch(ClaimRules, s.params) == Some(Rule(Level5to6, true, OneWeek, "0%"))
    ensures !Evaluate(s).hasPayout && Evaluate(s).message == BelowTrigger
  {
    assert Matches(ClaimRules[4], s.params);
    FirstMatchIsOnlyMatch(s.params);
  }

  // ---------------------------------------------------------------------------
  // Runs
  // ---------------------------------------------------------------------------

  /** Every transition keeps the step within the four stages. */
  lemma TransitionsKeepStepInRange(s: Sim, patch: Patch, mode: bool)
    requires StepInRange(s)
    ensures StepInRange(Tick(s)) && StepInRange(NextDebugStep(s)) && StepInRange(Start(s))
    ensures StepInRange(Stop(s)) && StepInRange(Evaluate(s)) && StepInRange(ResetDisplay(s))
    ensures StepInRange(ResetAll(s)) && StepInRange(SetParams(s, patch)) && StepInRange(SetDebugMode(s, mode))
  {
  }

  /** Only `setSimulationParams`, the full reset and the mode switch write
      the parameters. */
  lemma RunsNeverWriteParams(s: Sim)
    ensures Tick(s).params == s.params && NextDebugStep(s).params == s.params
    ensures Start(s).params == s.params && Stop(s).params == s.params
    ensures Evaluate(s).params == s.params && ResetDisplay(s).params == s.params
  {
  }

  /** Stopping twice is stopping once; so is resetting. */
  lemma StopAndResetIdempotent(s: Sim)
    ensures Stop(Stop(s)) == Stop(s)
    ensures ResetDisplay(ResetDisplay(s)) == ResetDisplay(s)
    ensures ResetAll(ResetAll(s)) == ResetAll(s)
  {
  }

  /** Switching debug mode forgets every earlier run and input. */
  lemma DebugSwitchForgetsHistory(s: Sim, t: Sim, mode: bool)
    ensures SetDebugMode(s, mode) == SetDebugMode(t, mode)
    ensures SetDebugMode(s, mode).params == DefaultParams && !SetDebugMode(s, mode).armed
  {
  }

  /** An automatic run with complete inputs: three ticks walk the stages, the
      fourth evaluates and disarms, and later ticks change nothing. */
  lemma AutomaticRun(s: Sim)
    requires IsComplete(s.params)
    ensures var r3 := Tick(Tick(Tick(Start(s))));
      r3.step == LastStep && r3.armed && !r3.complete
    ensures var r4 := Tick(Tick(Tick(Tick(Start(s)))));
      && r4 == Evaluate(Start(s).(step := LastStep)).(armed := false)
      && r4.complete && !r4.armed
      && Tick(r4) == r4
  {
  }

  /** Starting in debug mode also arms the interval. */
  lemma DebugStartArmsTimer(s: Sim)
    requires s.debug && IsComplete(s.params)
    ensures Start(s).armed
    ensures Tick(Start(s)).step == 1
  {
  }

  /** A manual run: three steps walk the stages, the fourth evaluates; the
      interval is cancelled throughout. */
  lemma ManualRun(s: Sim)
    requires IsComplete(s.params)
    ensures var d3 := NextDebugStep(NextDebugStep(NextDebugStep(Start(s))));
      d3.step == LastStep && !d3.armed && !d3.complete
    ensures var d4 := NextDebugStep(NextDebugStep(NextDebugStep(NextDebugStep(Start(s)))));
      d4 == Evaluate(Start(s).(step := LastStep, armed := false)) && d4.complete
  {
  }

  /** Starting with missing inputs finishes at once: no timer, no payout, no
      premium, step 0. */
  lemma IncompleteStartFinishes(s: Sim)
    requires s.params.predictTime == NoTime
    ensures var r := Start(s);
      r.step == 0 && r.complete && !r.armed && !r.hasPayout && r.premium == NotApplicable
    ensures Tick(Start(s)) == Start(s)
  {
  }

  // ---------------------------------------------------------------------------
  // Parameter merging
  // ---------------------------------------------------------------------------

  /** Later patch fields win over earlier ones. */
  function Then(a: Patch, b: Patch): Patch {
    Patch(
      if b.lat.Some? then b.lat else a.lat,
      if b.lon.Some? then b.lon else a.lon,
      if b.level.Some? then b.level else a.level,
      if b.impactRegion.Some? then b.impactRegion else a.impactRegion,
      if b.predictTime.Some? then b.predictTime else a.predictTime)
  }

  /** Merging nothing changes nothing; two merges are one merge of the
      combined patch; a full patch decides every field. */
  lemma MergeLaws(p: Params, a: Patch, b: Patch, q: Params)
    ensures Merge(p, EmptyPatch) == p
    ensures Merge(Merge(p, a), b) == Merge(p, Then(a, b))
    ensures Merge(p, Patch(Some(q.lat), Some(q.lon), Some(q.level), Some(q.impactRegion), Some(q.predictTime))) == q
  {
  }
}
