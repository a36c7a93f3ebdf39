/** The approval-gated pipeline (app/orchestrator/orchestrator.py).
    `RunOrchestration` runs requirements, database design, validation and
    review, then either pauses with a fresh approval token or finalises;
    `RunContinue` resumes a paused run from the store once a decision has been
    recorded. The four language-model stages and the branch-creation call are
    supplied as functions in `Stages`, so both entry points are pure functions
    from a store and their inputs to a result and the next store. */
module Orchestrator {
  import opened Wrappers
  import opened Schemas
  import opened Serialization
  import opened Validation
  import opened ApprovalStore

  /** The dictionary `_run_git_and_finish` hands to the git agent. */
  datatype ProjectContext = ProjectContext(kind: string, framework: string, language: string, description: string)

  /** The external capabilities: each agent either returns its record or
      raises with a message; `createBranch(repo, branch, base)` returns an
      execution record. */
  datatype Stages = Stages(
    interpretRequirements: string -> Result<Requirements, string>,
    designDatabase: Requirements -> Result<DatabaseDesign, string>,
    reviewDesign: DatabaseDesign -> Result<Review, string>,
    proposeGitStrategy: ProjectContext -> Result<GitStrategy, string>,
    createBranch: (string, string, string) -> Value)

  const RepoName: string := "agentic-dev-platform"

  // ---------------------------------------------------------------------------
  // Language and framework
  // ---------------------------------------------------------------------------

  /** Python truthiness of an optional string: present and not empty. */
  predicate Given(o: Option<string>) {
    o.Some? && o.value != ""
  }

  function LowerChar(c: char): char {
    if 'A' <= c <= 'Z' then (c as int + 32) as char else c
  }

  /** `str.lower()` on ASCII letters. */
  function Lower(s: string): (r: string)
    ensures |r| == |s|
    ensures forall i :: 0 <= i < |s| ==> r[i] == LowerChar(s[i])
  {
    if s == [] then [] else [LowerChar(s[0])] + Lower(s[1..])
  }

  /** `(language or "python").lower()`. */
  function EffectiveLanguage(language: Option<string>): string {
    Lower(if Given(language) then language.value else "python")
  }

  const FrameworkMap: map<string, string> :=
    map["python" := "fastapi", "node" := "express", "nodejs" := "express", "java" := "spring-boot", "go" := "gin"]

  /** `framework_map.get(lang, "fastapi" if lang == "python" else lang)`. */
  function Framework(lang: string): string {
    if lang in FrameworkMap then FrameworkMap[lang] else if lang == "python" then "fastapi" else lang
  }

  function Join(xs: seq<string>, sep: string): string {
    if xs == [] then "" else if |xs| == 1 then xs[0] else xs[0] + sep + Join(xs[1..], sep)
  }

  function EntityNames(es: seq<Entity>): (names: seq<string>)
    ensures |names| == |es|
    ensures forall i :: 0 <= i < |es| ==> names[i] == es[i].name
  {
    if es == [] then [] else [es[0].name] + EntityNames(es[1..])
  }

  function ContextFor(req: Requirements, language: Option<string>): ProjectContext {
    var lang := EffectiveLanguage(language);
    ProjectContext("backend", Framework(lang), lang, "Backend with entities: " + Join(EntityNames(req.entities), ", "))
  }

  /** The language `run_orchestration_continue` hands on:
      `language or state.language or "python"`. */
  function ContinueLanguage(override: Option<string>, stored: Option<string>): string {
    if Given(override) then override.value else if Given(stored) then stored.value else "python"
  }

  // ---------------------------------------------------------------------------
  // Results
  // ---------------------------------------------------------------------------

  function StageFailure(stage: Stage, issue: Issue): OrchestrationResult {
    WithStatus(Failed).(stage := Some(stage), issues := Some([issue]))
  }

  /** The artifacts a result carries match its stage tag: a run keeps what
      the stages before the failing one produced, and nothing later. */
  ghost predicate StageArtifacts(r: OrchestrationResult) {
    && (r.stage == Some(RequirementsStage) ==>
          r.requirements.None? && r.databaseDesign.None? && r.review.None?)
    && (r.stage == Some(DatabaseDesignStage) ==>
          r.requirements.Some? && r.databaseDesign.None? && r.review.None?)
    && (r.stage == Some(ValidationStage) || r.stage == Some(ReviewStage) ==>
          r.requirements.Some? && r.databaseDesign.Some? && r.review.None?)
    && (r.stage == Some(GitStrategyStage) || r.stage == Some(ApprovalStage) || r.status == Succeeded ==>
          r.status == Failed || (r.requirements.Some? && r.databaseDesign.Some? && r.review.Some?))
    && (r.status == Failed ==> r.stage.Some? && r.issues.Some? && r.issues.value != [] && r.git.None?)
    && (r.status == Succeeded ==> r.stage.None? && r.issues.None? && r.git.Some?)
  }

  // ---------------------------------------------------------------------------
  // _run_git_and_finish
  // ---------------------------------------------------------------------------

  /** Proposes the repository strategy for the mapped framework and creates
      the branch. A failing proposal fails the run at "git_strategy" with every
      artifact kept; otherwise the run succeeds and carries the dumped strategy
      and the execution record. */
  function RunGitAndFinish(
    req: Requirements, design: DatabaseDesign, review: Review,
    approval: Option<ApprovalResponse>, language: Option<string>, st: Stages): (r: OrchestrationResult)
    ensures r.status == Succeeded || r.status == Failed
    ensures r.requirements == Some(req) && r.databaseDesign == Some(design) && r.review == Some(review)
    ensures r.approval == approval && r.approvalToken.None?
    ensures StageArtifacts(r)
    ensures r.status == Succeeded <==> st.proposeGitStrategy(ContextFor(req, language)).Success?
    ensures r.status == Failed ==>
      && r.stage == Some(GitStrategyStage)
      && r.issues == Some([GitStrategyFailed(st.proposeGitStrategy(ContextFor(req, language)).error)])
    ensures r.status == Succeeded ==>
      var g := st.proposeGitStrategy(ContextFor(req, language)).value;
      && LoadGitStrategy(r.git.value.strategy) == Success(g)
      && r.git.value.execution == st.createBranch(RepoName, g.branchName, g.baseBranch)
  {
    var base := WithStatus(Failed).(requirements := Some(req), databaseDesign := Some(design),
                                    review := Some(review), approval := approval);
    match st.proposeGitStrategy(ContextFor(req, language))
    case Failure(e) =>
      base.(stage := Some(GitStrategyStage), issues := Some([GitStrategyFailed(e)]))
    case Success(g) =>
      GitStrategyRoundTrip(g);
      var execution := st.createBranch(RepoName, g.branchName, g.baseBranch);
      base.(status := Succeeded, git := Some(GitBundle(DumpGitStrategy(g), execution)))
  }

  // ---------------------------------------------------------------------------
  // run_orchestration
  // ---------------------------------------------------------------------------

  /** The snapshot filed when a run pauses. */
  function Snapshot(token: Token, prompt: string, req: Requirements, design: DatabaseDesign, review: Review,
                    language: Option<string>): PendingState {
    PendingState(token, prompt, DumpRequirements(req), DumpDesign(design), DumpReview(review), language, None)
  }

  /** Runs the stages in order. A pause files exactly one new snapshot under
      the fresh token, holding the artifacts it returns; every other outcome
      leaves the store as it was. A run never halts: that needs a decision. */
  function RunOrchestration(s: Store, prompt: string, language: Option<string>, st: Stages, token: Token)
    : (out: (OrchestrationResult, Store))
    requires Fresh(s, token)
    ensures out.0.status != Halted
    ensures StageArtifacts(out.0)
    ensures Inv(s) ==> Inv(out.1)
    ensures out.0.status != PendingApproval ==> out.1 == s && out.0.approvalToken.None?
    ensures out.0.status == PendingApproval ==>
      && out.0.stage == Some(ApprovalStage) && out.0.approvalToken == Some(token)
      && out.0.approval.None? && out.0.git.None? && out.0.issues.None?
      && out.1.pending.Keys == s.pending.Keys + {token}
      && out.1.pending[token] == Snapshot(token, prompt, out.0.requirements.value, out.0.databaseDesign.value,
                                          out.0.review.value, language)
      && out.1.decisions == s.decisions
      && (forall k :: k != token ==> SameEntries(s, out.1, k))
  {
    match st.interpretRequirements(prompt)
    case Failure(e) => (StageFailure(RequirementsStage, InterpretFailed(e)), s)
    case Success(req) =>
      match st.designDatabase(req)
      case Failure(e) => (StageFailure(DatabaseDesignStage, DesignFailed(e)).(requirements := Some(req)), s)
      case Success(design) =>
        var validation := Validate(RecordOf(design));
        if !validation.isValid then
          (WithStatus(Failed).(stage := Some(ValidationStage), requirements := Some(req),
                               databaseDesign := Some(design), issues := Some(validation.issues)), s)
        else
          match st.reviewDesign(design)
          case Failure(e) =>
            (StageFailure(ReviewStage, ReviewFailed(e)).(requirements := Some(req), databaseDesign := Some(design)), s)
          case Success(review) =>
            if review.approvalRequired then
              var s' := CreatePendingApproval(s, token, prompt, DumpRequirements(req), DumpDesign(design),
                                              DumpReview(review), language);
              (WithStatus(PendingApproval).(stage := Some(ApprovalStage), approvalToken := Some(token),
                                            requirements := Some(req), databaseDesign := Some(design),
                                            review := Some(review)), s')
            else
              (RunGitAndFinish(req, design, review, None, language, st), s)
  }

  // ---------------------------------------------------------------------------
  // run_orchestration_continue
  // ---------------------------------------------------------------------------

  /** The stored dictionaries of a snapshot load back into records. */
  ghost predicate Rehydrates(p: PendingState) {
    LoadRequirements(p.requirements).Success? && LoadDesign(p.databaseDesign).Success? && LoadReview(p.review).Success?
  }

  ghost predicate Rehydratable(s: Store) {
    forall t :: t in s.pending ==> Rehydrates(s.pending[t])
  }

  /** The store invariant together with loadable snapshots. */
  ghost predicate Wellformed(s: Store) {
    Inv(s) && Rehydratable(s)
  }

  function ApprovalFailure(issue: Issue): OrchestrationResult {
    StageFailure(ApprovalStage, issue)
  }

  /** Resumes a paused run. An unknown token or a missing decision fails at
      "approval" and leaves the store alone; a decision is acted on and the
      snapshot consumed, whatever finalisation returns. */
  function RunContinue(s: Store, token: Token, language: Option<string>, st: Stages): (out: (OrchestrationResult, Store))
    requires Rehydratable(s)
    ensures out.0.status != PendingApproval && out.0.approvalToken.None?
    ensures StageArtifacts(out.0)
    ensures token !in s.pending ==> out == (ApprovalFailure(InvalidToken), s)
    ensures token in s.pending && GetApprovalDecision(s, token).None? ==> out == (ApprovalFailure(NoDecisionRecorded), s)
    ensures token in s.pending && GetApprovalDecision(s, token).Some? ==>
      && out.1 == ConsumePendingState(s, token).1
      && out.0.approval.Some?
      && out.0.approval.value.approved == GetApprovalDecision(s, token).value.approved
      && (out.0.status == Halted <==> !out.0.approval.value.approved)
  {
    match GetPendingState(s, token)
    case None => (ApprovalFailure(InvalidToken), s)
    case Some(state) =>
      match GetApprovalDecision(s, token)
      case None => (ApprovalFailure(NoDecisionRecorded), s)
      case Some(decision) =>
        var req := LoadRequirements(state.requirements).value;
        var design := LoadDesign(state.databaseDesign).value;
        var review := LoadReview(state.review).value;
        var approval := ApprovalResponse(decision.approved, decision.comments, decision.approvedBy);
        if !decision.approved then
          (WithStatus(Halted).(stage := Some(ApprovalStage), requirements := Some(req), databaseDesign := Some(design),
                               review := Some(review), approval := Some(approval), issues := Some([RejectedByReviewer])),
           ConsumePendingState(s, token).1)
        else
          var lang := ContinueLanguage(language, state.language);
          var result := RunGitAndFinish(req, design, review, Some(approval), Some(lang), st);
          (result, ConsumePendingState(s, token).1)
  }
}
