/** Stages, transition validation, gate resolution and the milestone templates. */
module StageRules {
  import opened Common
  import opened Progress

  // Stage values: 0 pre-stage, 1 thesis, 2 direction, 3 MVP, 4 feedback, 5 scale (locked).
  const PRE_STAGE := 0
  const THESIS_DEFINED := 1
  const LOCKED_STAGE := 5

  /** Deleted is stored by the project routes; the journey's own enumeration does not know it. */
  datatype ProjectStatus = Active | Parked | Deleted

  datatype GateDecision = Proceed | Narrow | Pivot | Park

  datatype RuleError =
    | NotAStage | WhileParked | StageLocked | BackToPreStage | SameStage | NeedsProceed | UnknownDecision | NotAStatus

  predicate IsStage(n: int) {
    0 <= n <= 5
  }

  function ParseDecision(text: string): Result<GateDecision, RuleError> {
    if text == "proceed" then Ok(Proceed)
    else if text == "narrow" then Ok(Narrow)
    else if text == "pivot" then Ok(Pivot)
    else if text == "park" then Ok(Park)
    else Err(UnknownDecision)
  }

  function ValidateTransition(current: int, target: int, status: ProjectStatus, decisions: seq<string>)
    : Result<int, RuleError>
  {
    if status == Parked then Err(WhileParked)
    else if target == LOCKED_STAGE then Err(StageLocked)
    else if target == PRE_STAGE then Err(BackToPreStage)
    else if target == current then Err(SameStage)
    else if target > current && "proceed" !in decisions then Err(NeedsProceed)
    else Ok(target)
  }

  /** A transition needs an active project and another stage of 1 to 4, and forward a decision to proceed. */
  lemma TransitionAllowedIff(current: int, target: int, status: ProjectStatus, decisions: seq<string>)
    requires IsStage(target) && status != Deleted
    ensures ValidateTransition(current, target, status, decisions).Ok?
            <==> status == Active && 1 <= target <= 4 && target != current
                 && (target < current || "proceed" in decisions)
  {
  }

  /** The stage a decided gate asks for, when it asks for one. */
  function ResolveTarget(decision: GateDecision, current: int, gateStage: int): Result<Option<int>, RuleError> {
    match decision
    case Proceed =>
      if gateStage + 1 == LOCKED_STAGE then Ok(None)
      else if IsStage(gateStage + 1) then Ok(Some(gateStage + 1))
      else Err(NotAStage)
    case Narrow => Ok(Some(current))
    case Pivot => Ok(Some(THESIS_DEFINED))
    case Park => Ok(None)
  }

  function Open(key: string, weight: nat): Milestone {
    Milestone(key, weight, false)
  }

  /** The milestones a stage starts with. */
  function Template(stage: int): seq<Milestone>
    requires 1 <= stage <= 5
  {
    if stage == 1 then
      [Open("brief_generated", 40), Open("gate_proceed", 30), Open("risks_identified", 30)]
    else if stage == 2 then
      [Open("direction_chosen", 25), Open("validation_complete", 35), Open("scope_narrowed", 20),
       Open("gate_proceed", 20)]
    else if stage == 3 then
      [Open("build_started", 15), Open("build_complete", 35), Open("tests_passing", 20), Open("preview_live", 30)]
    else if stage == 4 then
      [Open("feedback_collected", 30), Open("iteration_planned", 25), Open("iteration_shipped", 25),
       Open("gate_proceed", 20)]
    else []
  }
}
