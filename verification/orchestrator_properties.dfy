/** Properties of the orchestration pipeline that relate several calls: which
    stage a run stops at, what the approval gate lets through, and the whole
    pause / decide / continue round trip through the approval store. */
module OrchestratorProperties {
  import opened Wrappers
  import opened Schemas
  import opened Serialization
  import opened Validation
  import opened ApprovalStore
  import opened Orchestrator

  // ---------------------------------------------------------------------------
  // Language and framework
  // ---------------------------------------------------------------------------

  /** The framework is one of the table's frameworks or the language itself,
      and it is the language itself exactly when the language is not listed:
      no listed language is its own framework, and the `"fastapi"` default
      for "python" is never reached because "python" is listed. */
  lemma FrameworkOutsideTable(lang: string)
    ensures Framework(lang) in FrameworkMap.Values || Framework(lang) == lang
    ensures Framework(lang) == lang <==> lang !in FrameworkMap
  {
    if lang in FrameworkMap {
      assert FrameworkMap[lang] in FrameworkMap.Values;
    }
  }

  lemma {:induction false} LowerIdempotent(s: string)
    ensures Lower(Lower(s)) == Lower(s)
  {
    if s != [] {
      LowerIdempotent(s[1..]);
    }
  }

  /** The context records the language it was built for; building it again
      from that recorded language gives the same context. */
  lemma RecordedLanguageIsStable(req: Requirements, language: Option<string>)
    ensures ContextFor(req, Some(ContextFor(req, language).language)) == ContextFor(req, language)
  {
    var raw := if Given(language) then language.value else "python";
    LowerIdempotent(raw);
  }

  /** An absent or empty language means Python, which the git agent is told
      to build with FastAPI. */
  lemma DefaultLanguageIsPython(req: Requirements, language: Option<string>)
    requires !Given(language)
    ensures ContextFor(req, language).language == "python"
    ensures ContextFor(req, language).framework == "fastapi"
    ensures ContextFor(req, language).kind == "backend"
  {
    assert Lower("python") == "python" by {
      assert Lower("python")[..] == "python";
    }
  }

  /** The language is lowercased before the lookup, so "Java" and "JAVA"
      select the same framework as "java". */
  lemma LanguageIsCaseInsensitive(req: Requirements, a: string, b: string)
    requires Lower(a) == Lower(b) && a != "" && b != ""
    ensures ContextFor(req, Some(a)) == ContextFor(req, Some(b))
  {
  }

  /** Continuing hands finalisation a non-empty language: the override when
      one is given, else the language of the paused run, else "python". */
  lemma ContinueLanguagePrecedence(override: Option<string>, stored: Option<string>)
    ensures ContinueLanguage(override, stored) != ""
    ensures Given(override) ==> ContinueLanguage(override, stored) == override.value
    ensures !Given(override) && Given(stored) ==> ContinueLanguage(override, stored) == stored.value
    ensures !Given(override) && !Given(stored) ==> ContinueLanguage(override, stored) == "python"
  {
  }

  // ---------------------------------------------------------------------------
  // Where a run stops
  // ---------------------------------------------------------------------------

  /** Requirements, design, validation and review all pass. */
  ghost predicate GatePasses(st: Stages, prompt: string) {
    && st.interpretRequirements(prompt).Success?
    && st.designDatabase(st.interpretRequirements(prompt).value).Success?
    && Validate(RecordOf(st.designDatabase(st.interpretRequirements(prompt).value).value)).isValid
    && st.reviewDesign(st.designDatabase(st.interpretRequirements(prompt).value).value).Success?
  }

  /** A run stops at the first failing stage, reports that stage's error as
      its only issue, and keeps exactly the artifacts produced before it. */
  lemma FirstFailingStageIsReported(s: Store, prompt: string, language: Option<string>, st: Stages, token: Token)
    requires Fresh(s, token)
    ensures var out := RunOrchestration(s, prompt, language, st, token);
      && (st.interpretRequirements(prompt).Failure? ==>
            out == (StageFailure(RequirementsStage, InterpretFailed(st.interpretRequirements(prompt).error)), s))
      && (st.interpretRequirements(prompt).Success? ==>
            var req := st.interpretRequirements(prompt).value;
            && (st.designDatabase(req).Failure? ==>
                  out == (StageFailure(DatabaseDesignStage, DesignFailed(st.designDatabase(req).error))
                            .(requirements := Some(req)), s))
            && (st.designDatabase(req).Success? ==>
                  var d := st.designDatabase(req).value;
                  && (!Validate(RecordOf(d)).isValid ==>
                        out == (WithStatus(Failed).(stage := Some(ValidationStage), issues := Some(Validate(RecordOf(d)).issues),
                                                    requirements := Some(req), databaseDesign := Some(d)), s))
                  && (Validate(RecordOf(d)).isValid && st.reviewDesign(d).Failure? ==>
                        out == (StageFailure(ReviewStage, ReviewFailed(st.reviewDesign(d).error))
                                  .(requirements := Some(req), databaseDesign := Some(d)), s))))
  {
  }

  /** A design the validator rejects never reaches the reviewer or the git
      stage: the outcome does not depend on them. */
  lemma RejectedDesignSkipsLaterStages(s: Store, prompt: string, language: Option<string>, st: Stages, token: Token,
                                       review: DatabaseDesign -> Result<Review, string>,
                                       git: ProjectContext -> Result<GitStrategy, string>,
                                       branch: (string, string, string) -> Value)
    requires Fresh(s, token)
    requires st.interpretRequirements(prompt).Success?
    requires st.designDatabase(st.interpretRequirements(prompt).value).Success?
    requires !Validate(RecordOf(st.designDatabase(st.interpretRequirements(prompt).value).value)).isValid
    ensures RunOrchestration(s, prompt, language, st, token)
         == RunOrchestration(s, prompt, language,
                             st.(reviewDesign := review, proposeGitStrategy := git, createBranch := branch), token)
  {
  }

  /** Every design that gets past validation satisfies the structural rules:
      a run that pauses, succeeds, or fails at review or git carries a
      well-formed design. */
  lemma PassedDesignsAreWellFormed(s: Store, prompt: string, language: Option<string>, st: Stages, token: Token)
    requires Fresh(s, token)
    ensures var r := RunOrchestration(s, prompt, language, st, token).0;
      r.stage !in {Some(RequirementsStage), Some(DatabaseDesignStage), Some(ValidationStage)} ==>
        r.databaseDesign.Some? && WellFormed(r.databaseDesign.value)
  {
    var r := RunOrchestration(s, prompt, language, st, token).0;
    if r.stage !in {Some(RequirementsStage), Some(DatabaseDesignStage), Some(ValidationStage)} {
      var d := st.designDatabase(st.interpretRequirements(prompt).value).value;
      assert r.databaseDesign == Some(d);
      ValidIffWellFormed(d);
    }
  }

  /** A run pauses exactly when every stage up to review passes and the
      reviewer asks for approval. */
  lemma PendingIffApprovalRequired(s: Store, prompt: string, language: Option<string>, st: Stages, token: Token)
    requires Fresh(s, token)
    ensures RunOrchestration(s, prompt, language, st, token).0.status == PendingApproval
        <==> GatePasses(st, prompt)
             && st.reviewDesign(st.designDatabase(st.interpretRequirements(prompt).value).value).value.approvalRequired
  {
  }

  /** A run whose review needs no approval goes straight to finalisation with
      no approval attached and leaves the store untouched. */
  lemma NoApprovalFinishes(s: Store, prompt: string, language: Option<string>, st: Stages, token: Token)
    requires Fresh(s, token)
    requires GatePasses(st, prompt)
    requires !st.reviewDesign(st.designDatabase(st.interpretRequirements(prompt).value).value).value.approvalRequired
    ensures var req := st.interpretRequirements(prompt).value;
            var d := st.designDatabase(req).value;
            var rv := st.reviewDesign(d).value;
      RunOrchestration(s, prompt, language, st, token) == (RunGitAndFinish(req, d, rv, None, language, st), s)
  {
  }

  /** A pause neither proposes a git strategy nor creates a branch. */
  lemma PauseSkipsGit(s: Store, prompt: string, language: Option<string>, st: Stages, token: Token,
                      git: ProjectContext -> Result<GitStrategy, string>,
                      branch: (string, string, string) -> Value)
    requires Fresh(s, token)
    requires RunOrchestration(s, prompt, language, st, token).0.status == PendingApproval
    ensures RunOrchestration(s, prompt, language, st, token)
         == RunOrchestration(s, prompt, language, st.(proposeGitStrategy := git, createBranch := branch), token)
  {
  }

  // ---------------------------------------------------------------------------
  // The store stays well formed
  // ---------------------------------------------------------------------------

  lemma EmptyStoreWellformed()
    ensures Wellformed(EmptyStore)
  {
    EmptyStoreInv();
  }

  /** A snapshot of records dumped by the pipeline loads back. */
  lemma SnapshotRehydrates(token: Token, prompt: string, req: Requirements, d: DatabaseDesign, rv: Review,
                           language: Option<string>)
    ensures Rehydrates(Snapshot(token, prompt, req, d, rv, language))
  {
    RequirementsRoundTrip(req);
    DesignRoundTrip(d);
    ReviewRoundTrip(rv);
  }

  lemma RunKeepsWellformed(s: Store, prompt: string, language: Option<string>, st: Stages, token: Token)
    requires Fresh(s, token) && Wellformed(s)
    ensures Wellformed(RunOrchestration(s, prompt, language, st, token).1)
  {
    var out := RunOrchestration(s, prompt, language, st, token);
    if out.0.status == PendingApproval {
      var r := out.0;
      SnapshotRehydrates(token, prompt, r.requirements.value, r.databaseDesign.value, r.review.value, language);
      forall k | k in out.1.pending
        ensures Rehydrates(out.1.pending[k])
      {
        if k != token {
          assert SameEntries(s, out.1, k);
        }
      }
    }
  }

  lemma SubmitKeepsWellformed(s: Store, t: Token, approved: bool, c: Option<string>, b: Option<string>)
    requires Wellformed(s)
    ensures Wellformed(SubmitApproval(s, t, approved, c, b).2)
  {
    var s' := SubmitApproval(s, t, approved, c, b).2;
    forall k | k in s'.pending
      ensures Rehydrates(s'.pending[k])
    {
      if k != t {
        assert SameEntries(s, s', k);
      }
    }
  }

  lemma ContinueKeepsWellformed(s: Store, t: Token, language: Option<string>, st: Stages)
    requires Wellformed(s)
    ensures Wellformed(RunContinue(s, t, language, st).1)
  {
    var s' := RunContinue(s, t, language, st).1;
    forall k | k in s'.pending
      ensures Rehydrates(s'.pending[k])
    {
      assert k != t || s' == s;
      assert SameEntries(s, s', k);
    }
  }

  // ---------------------------------------------------------------------------
  // Pause, decide, continue
  // ---------------------------------------------------------------------------

  /** A pause adds its snapshot to the pending map and nothing else. */
  lemma PauseFilesSnapshot(s: Store, prompt: string, language: Option<string>, st: Stages, token: Token)
    requires Fresh(s, token)
    requires RunOrchestration(s, prompt, language, st, token).0.status == PendingApproval
    ensures var out := RunOrchestration(s, prompt, language, st, token);
      && out.1.pending == s.pending[token := Snapshot(token, prompt, out.0.requirements.value,
                                                      out.0.databaseDesign.value, out.0.review.value, language)]
      && out.1.decisions == s.decisions
  {
    var out := RunOrchestration(s, prompt, language, st, token);
    forall k | k != token && k in s.pending
      ensures out.1.pending[k] == s.pending[k]
    {
      assert SameEntries(s, out.1, k);
    }
    AddedOneEntry(s.pending, out.1.pending, token);
  }

  /** A map that agrees with `m` except for one added key is `m` updated at that key. */
  lemma AddedOneEntry<K, V>(m: map<K, V>, m': map<K, V>, k: K)
    requires m'.Keys == m.Keys + {k}
    requires forall j :: j != k && j in m ==> m'[j] == m[j]
    ensures m' == m[k := m'[k]]
  {
  }

  /** Continuing a snapshot that carries a decision restores the dumped
      artifacts exactly and acts on the decision. */
  lemma ContinueRestoresSnapshot(s: Store, token: Token, language: Option<string>, st: Stages,
                                 prompt: string, req: Requirements, d: DatabaseDesign, rv: Review,
                                 stored: Option<string>, decision: ApprovalDecision)
    requires Rehydratable(s) && token in s.pending
    requires s.pending[token] == Snapshot(token, prompt, req, d, rv, stored).(decision := Some(decision))
    ensures var out := RunContinue(s, token, language, st);
            var approval := ApprovalResponse(decision.approved, decision.comments, decision.approvedBy);
      && out.1 == ConsumePendingState(s, token).1
      && (!decision.approved ==>
            out.0 == WithStatus(Halted).(stage := Some(ApprovalStage), requirements := Some(req),
                                         databaseDesign := Some(d), review := Some(rv),
                                         approval := Some(approval), issues := Some([RejectedByReviewer])))
      && (decision.approved ==>
            out.0 == RunGitAndFinish(req, d, rv, Some(approval), Some(ContinueLanguage(language, stored)), st))
  {
    RequirementsRoundTrip(req);
    DesignRoundTrip(d);
    ReviewRoundTrip(rv);
  }

  /** Continuing before any decision is recorded fails at "approval" and
      leaves the paused run where it was. */
  lemma ContinueBeforeDecision(s: Store, prompt: string, language: Option<string>, st: Stages, token: Token,
                               language2: Option<string>, st2: Stages)
    requires Fresh(s, token) && Wellformed(s)
    requires RunOrchestration(s, prompt, language, st, token).0.status == PendingApproval
    ensures var s1 := RunOrchestration(s, prompt, language, st, token).1;
      && Rehydratable(s1)
      && RunContinue(s1, token, language2, st2) == (ApprovalFailure(NoDecisionRecorded), s1)
  {
    RunKeepsWellformed(s, prompt, language, st, token);
  }

  /** Submitting on a snapshot just filed records the decision on it and in
      the side map, and the store still rehydrates. */
  lemma SubmitOnFreshSnapshot(s: Store, token: Token, snap: PendingState, approved: bool,
                              c: Option<string>, b: Option<string>)
    requires Rehydratable(s) && token !in s.pending && Rehydrates(snap)
    ensures var decision := ApprovalDecision(approved, c, b);
            var s2 := SubmitApproval(Store(s.pending[token := snap], s.decisions), token, approved, c, b).2;
      && s2 == Store(s.pending[token := snap.(decision := Some(decision))], s.decisions[token := decision])
      && Rehydratable(s2)
  {
  }

  lemma RemoveAfterAdd<K, V>(m: map<K, V>, k: K, v: V)
    requires k !in m
    ensures m[k := v] - {k} == m
  {
    assert (m[k := v] - {k}).Keys == m.Keys;
  }

  lemma FiledSnapshotRehydrates(s: Store, token: Token, snap: PendingState, decisions: map<Token, ApprovalDecision>)
    requires Rehydratable(s) && Rehydrates(snap)
    ensures Rehydratable(Store(s.pending[token := snap], decisions))
  {
  }

  /** Continuing once a decision is on a freshly filed snapshot: the
      snapshot is consumed, the decision stays in the side map, and the
      outcome is the one the decision selects. */
  lemma ContinueDecided(s: Store, token: Token, prompt: string, req: Requirements, d: DatabaseDesign, rv: Review,
                        language: Option<string>, decision: ApprovalDecision, language2: Option<string>, st2: Stages)
    requires Rehydratable(s) && token !in s.pending
    ensures var snap := Snapshot(token, prompt, req, d, rv, language).(decision := Some(decision));
            var s2 := Store(s.pending[token := snap], s.decisions[token := decision]);
            var approval := ApprovalResponse(decision.approved, decision.comments, decision.approvedBy);
      && Rehydratable(s2)
      && var out2 := RunContinue(s2, token, language2, st2);
      && out2.1 == Store(s.pending, s.decisions[token := decision])
      && (!decision.approved ==>
            out2.0 == WithStatus(Halted).(stage := Some(ApprovalStage), requirements := Some(req),
                                          databaseDesign := Some(d), review := Some(rv),
                                          approval := Some(approval), issues := Some([RejectedByReviewer])))
      && (decision.approved ==>
            out2.0 == RunGitAndFinish(req, d, rv, Some(approval), Some(ContinueLanguage(language2, language)), st2))
  {
    var snap := Snapshot(token, prompt, req, d, rv, language).(decision := Some(decision));
    var s2 := Store(s.pending[token := snap], s.decisions[token := decision]);
    SnapshotRehydrates(token, prompt, req, d, rv, language);
    FiledSnapshotRehydrates(s, token, snap, s.decisions[token := decision]);
    ContinueRestoresSnapshot(s2, token, language2, st2, prompt, req, d, rv, language, decision);
    RemoveAfterAdd(s.pending, token, snap);
  }

  /** A rejected pause halts at "approval" with the paused run's artifacts,
      restored from the snapshot, and the reviewer's decision; the snapshot is
      consumed and nothing is sent to git. */
  lemma PauseThenReject(s: Store, prompt: string, language: Option<string>, st: Stages, token: Token,
                        c: Option<string>, b: Option<string>, language2: Option<string>, st2: Stages)
    requires Fresh(s, token) && Wellformed(s)
    requires RunOrchestration(s, prompt, language, st, token).0.status == PendingApproval
    ensures var out1 := RunOrchestration(s, prompt, language, st, token);
            var s2 := SubmitApproval(out1.1, token, false, c, b).2;
      && Rehydratable(s2)
      && var out2 := RunContinue(s2, token, language2, st2);
      && out2.0 == WithStatus(Halted).(stage := Some(ApprovalStage), requirements := out1.0.requirements,
                                        databaseDesign := out1.0.databaseDesign, review := out1.0.review,
                                        approval := Some(ApprovalResponse(false, c, b)),
                                        issues := Some([RejectedByReviewer]))
      && out2.1.pending == s.pending
  {
    var r := RunOrchestration(s, prompt, language, st, token).0;
    var snap := Snapshot(token, prompt, r.requirements.value, r.databaseDesign.value, r.review.value, language);
    PauseFilesSnapshot(s, prompt, language, st, token);
    SnapshotRehydrates(token, prompt, r.requirements.value, r.databaseDesign.value, r.review.value, language);
    SubmitOnFreshSnapshot(s, token, snap, false, c, b);
    ContinueDecided(s, token, prompt, r.requirements.value, r.databaseDesign.value, r.review.value, language,
                    ApprovalDecision(false, c, b), language2, st2);
  }

  /** An approved pause finalises exactly as a run that needed no approval
      would, with the decision attached and the language chosen by
      `ContinueLanguage`; the snapshot is consumed, so a second continue
      fails and a late submission is refused, yet the decision is still
      reported for the token. */
  lemma PauseThenApprove(s: Store, prompt: string, language: Option<string>, st: Stages, token: Token,
                         c: Option<string>, b: Option<string>, language2: Option<string>, st2: Stages)
    requires Fresh(s, token) && Wellformed(s)
    requires RunOrchestration(s, prompt, language, st, token).0.status == PendingApproval
    ensures var out1 := RunOrchestration(s, prompt, language, st, token);
            var s2 := SubmitApproval(out1.1, token, true, c, b).2;
      && Rehydratable(s2)
      && var out2 := RunContinue(s2, token, language2, st2);
      && out2.0 == RunGitAndFinish(out1.0.requirements.value, out1.0.databaseDesign.value, out1.0.review.value,
                                   Some(ApprovalResponse(true, c, b)), Some(ContinueLanguage(language2, language)), st2)
      && out2.1.pending == s.pending
      && Rehydratable(out2.1)
      && RunContinue(out2.1, token, language2, st2) == (ApprovalFailure(InvalidToken), out2.1)
      && SubmitApproval(out2.1, token, true, c, b) == (false, InvalidTokenMessage, out2.1)
      && GetApprovalDecision(out2.1, token) == Some(ApprovalDecision(true, c, b))
  {
    var r := RunOrchestration(s, prompt, language, st, token).0;
    var snap := Snapshot(token, prompt, r.requirements.value, r.databaseDesign.value, r.review.value, language);
    PauseFilesSnapshot(s, prompt, language, st, token);
    SnapshotRehydrates(token, prompt, r.requirements.value, r.databaseDesign.value, r.review.value, language);
    SubmitOnFreshSnapshot(s, token, snap, true, c, b);
    ContinueDecided(s, token, prompt, r.requirements.value, r.databaseDesign.value, r.review.value, language,
                    ApprovalDecision(true, c, b), language2, st2);
  }

  /** A rejection never reaches git: the outcome does not depend on the
      stages supplied to the continuation. */
  lemma RejectionSkipsGit(s: Store, token: Token, language: Option<string>, st: Stages, st2: Stages)
    requires Rehydratable(s)
    requires GetApprovalDecision(s, token).Some? && !GetApprovalDecision(s, token).value.approved
    ensures RunContinue(s, token, language, st) == RunContinue(s, token, language, st2)
  {
  }
}
