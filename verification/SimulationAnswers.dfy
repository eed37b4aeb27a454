/** When a request to simulate a rate is answered and when it is refused, by the stores and over runs. */
module SimulationAnswers {
  import opened Pricing
  import opened Rates
  import opened Shared
  import opened Simulation
  import opened Sourcing
  import opened SourcingInvariants
  import opened SourcingModel

  // ---------------------------------------------------------------- refusals

  /** Some condition has no segments, or a quantity that is not positive. */
  ghost predicate HasBadCondition(conditions: seq<RouteCondition>) {
    exists i :: 0 <= i < |conditions| && (|conditions[i].route| == 0 || conditions[i].quantity <= 0.0)
  }

  ghost predicate BadInput(rateId: Id, conditions: seq<RouteCondition>) {
    rateId == NIL || |conditions| == 0 || HasBadCondition(conditions)
  }

  /** Each refusal comes exactly under its own condition, and an active rate is simulated. */
  lemma AnswersIff(
    r: Result<seq<RouteResult>, SimulationRefusal>, s: State, rateId: Id, conditions: seq<RouteCondition>, eng: Engine)
    requires IsAnswerOf(r, s, rateId, conditions, eng)
    ensures r == Err(InvalidSimulation) <==> BadInput(rateId, conditions)
    ensures r == Err(UnknownRate) <==> !BadInput(rateId, conditions) && rateId !in s.rates
    ensures r == Err(InactiveRate) <==>
      !BadInput(rateId, conditions) && rateId in s.rates && s.rates[rateId].status in {Draft, Expired}
    ensures r.Ok? || r.error.RouteFailed? <==>
      !BadInput(rateId, conditions) && rateId in s.rates && s.rates[rateId].status == Active
  {
    if HasBadCondition(conditions) {
      var i :| 0 <= i < |conditions| && (|conditions[i].route| == 0 || conditions[i].quantity <= 0.0);
      assert !IsAsked(rateId, conditions);
    } else {
      forall i | 0 <= i < |conditions|
        ensures conditions[i].route != [] && conditions[i].quantity > 0.0
      {
      }
    }
  }

  /** `r` is a simulation of the rate with the cargo and the route of the condition. */
  ghost predicate Simulates(
    r: Result<RouteResult, SimulationError>, s: State, rateId: Id, c: RouteCondition, eng: Engine)
    requires rateId in s.rates
  {
    IsSimulationOf(r, s.rates[rateId].entries, c.route,
      PricerOf(Job(s.tariffs, c.route, c.quantity, c.weight, c.volume), eng))
  }

  /**
   An answer has one simulation for each condition, in order, with that condition's cargo; a failure
   is that of some condition, all conditions before which can be simulated.
   */
  lemma AnswersSimulate(
    r: Result<seq<RouteResult>, SimulationRefusal>, s: State, rateId: Id, conditions: seq<RouteCondition>, eng: Engine)
    requires IsAnswerOf(r, s, rateId, conditions, eng) && (r.Ok? || r.error.RouteFailed?)
    ensures rateId in s.rates
    ensures r.Ok? ==>
      && |r.value| == |conditions|
      && forall i :: 0 <= i < |conditions| ==> Simulates(Ok(r.value[i]), s, rateId, conditions[i], eng)
    ensures r.Err? ==> exists k ::
      && 0 <= k < |conditions| && Simulates(Err(r.error.cause), s, rateId, conditions[k], eng)
      && forall i :: 0 <= i < k ==> exists res :: Simulates(Ok(res), s, rateId, conditions[i], eng)
  {
    var entries := s.rates[rateId].entries;
    if r.Ok? {
      forall i | 0 <= i < |conditions|
        ensures Simulates(Ok(r.value[i]), s, rateId, conditions[i], eng)
      {
        assert Answers(Ok(r.value[i]), entries, s.tariffs, conditions[i], eng);
      }
    } else {
      var results :| AllAnswer(results, entries, s.tariffs, conditions, eng) && |results| < |conditions|
        && Answers(Err(r.error.cause), entries, s.tariffs, conditions[|results|], eng);
      forall i | 0 <= i < |results|
        ensures Simulates(Ok(results[i]), s, rateId, conditions[i], eng)
      {
        assert Answers(Ok(results[i]), entries, s.tariffs, conditions[i], eng);
      }
      assert Simulates(Err(r.error.cause), s, rateId, conditions[|results|], eng);
    }
  }

  // ---------------------------------------------------------------- over runs

  ghost predicate IsActive(s: State, id: Id) {
    id in s.rates && s.rates[id].status == Active
  }

  ghost predicate Activates(s: State, c: Command, id: Id) {
    c == ActivateRate(id) && Exec(s, c).Ok?
  }

  lemma OtherStepsLeaveRates(s: State, c: Command)
    requires !c.CreateRate? && !c.ApplyContract? && !c.ReplaceEntry? && !c.ActivateRate?
    ensures After(s, c).rates == s.rates
  {
    match c
    case RegisterFile(_, _, _, _, _, _, _) =>
    case _ =>
  }

  lemma EditStepsKeepStatus(s: State, c: Command, id: Id)
    requires Inv(s) && (c.ApplyContract? || c.ReplaceEntry?)
    ensures IsActive(After(s, c), id) <==> IsActive(s, id)
  {
    if c.ApplyContract? && Exec(s, c).Ok? {
      ApplyAdds(s, c);
    } else if c.ReplaceEntry? && Exec(s, c).Ok? {
      var i, e := ReplacePuts(s, c);
    }
  }

  lemma ActiveStep(s: State, c: Command, id: Id)
    requires Inv(s)
    ensures IsActive(After(s, c), id) <==> IsActive(s, id) || Activates(s, c, id)
  {
    if c.ApplyContract? || c.ReplaceEntry? {
      EditStepsKeepStatus(s, c, id);
    } else if c.ActivateRate? {
      if Exec(s, c).Ok? {
        ActivateOnlyActivates(s, c);
      }
    } else if !c.CreateRate? {
      OtherStepsLeaveRates(s, c);
    }
  }

  ghost function Activation(id: Id): (State, Command) -> bool {
    (s, c) => Activates(s, c, id)
  }

  /** Some step of the run is a successful activation of the rate. */
  ghost predicate WasActivated(cs: seq<Command>, id: Id) {
    Happened(cs, Activation(id))
  }

  /** In every run, the active rates are exactly those that some step has activated. */
  lemma {:induction false} ActiveIffActivated(cs: seq<Command>, id: Id)
    ensures IsActive(Run(INITIAL, cs), id) <==> WasActivated(cs, id)
  {
    if cs != [] {
      var front := cs[..|cs| - 1];
      ActiveIffActivated(front, id);
      ReachableStatesAreSound(front);
      ActiveStep(Run(INITIAL, front), cs[|cs| - 1], id);
      HappenedStep(cs, Activation(id));
    }
  }

  /**
   In every run: after a successful activation of a rate, requests for it are refused for bad input
   only; before one, they are never simulated.
   */
  lemma {:induction false} SimulatedIffActivated(
    cs: seq<Command>, r: Result<seq<RouteResult>, SimulationRefusal>, rateId: Id, conditions: seq<RouteCondition>,
    eng: Engine)
    requires IsAnswerOf(r, Run(INITIAL, cs), rateId, conditions, eng)
    ensures WasActivated(cs, rateId) && !BadInput(rateId, conditions) <==> r.Ok? || r.error.RouteFailed?
    ensures WasActivated(cs, rateId) ==> r != Err(InactiveRate) && r != Err(UnknownRate)
  {
    ActiveIffActivated(cs, rateId);
    AnswersIff(r, Run(INITIAL, cs), rateId, conditions, eng);
  }
}
