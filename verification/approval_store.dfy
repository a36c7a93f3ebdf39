/** The in-memory store of paused orchestrations (app/utils/approval_store.py):
    one map from approval token to the frozen pipeline state, and a side map
    from token to the recorded human decision. Both maps are threaded through
    pure functions; the process-wide dictionaries of the source are the value
    of a `Store`. */
module ApprovalStore {
  import opened Wrappers
  import opened Schemas

  type Token = string

  /** The human's approval or rejection. */
  datatype ApprovalDecision = ApprovalDecision(
    approved: bool,
    comments: Option<string>,
    approvedBy: Option<string>)

  /** What is saved when orchestration pauses: the prompt, the requested
      language and the three artifacts, as dumped dictionaries. */
  datatype PendingState = PendingState(
    token: Token,
    userPrompt: string,
    requirements: Value,
    databaseDesign: Value,
    review: Value,
    language: Option<string>,
    decision: Option<ApprovalDecision>)

  /** `_pending_states` and `_approval_decisions`. */
  datatype Store = Store(pending: map<Token, PendingState>, decisions: map<Token, ApprovalDecision>)

  const EmptyStore: Store := Store(map[], map[])

  const InvalidTokenMessage: string := "Invalid or expired approval token"
  const RecordedMessage: string :=
    "Approval recorded. Call POST /orchestrate/continue with this token to continue."

  /** A token that has never been handed out: `uuid.uuid4()` is assumed never
      to repeat, so it is a key of neither map. */
  predicate Fresh(s: Store, t: Token) {
    t !in s.pending && t !in s.decisions
  }

  /** Every stored state is filed under its own token, and a decision recorded
      on a state is also the side map's entry for that token. */
  ghost predicate Inv(s: Store) {
    forall t :: t in s.pending ==>
      && s.pending[t].token == t
      && (s.pending[t].decision.Some? ==> t in s.decisions && s.decisions[t] == s.pending[t].decision.value)
  }

  /** Token `t` has the same entries, or the same absence, in both maps of `s` and `s'`. */
  ghost predicate SameEntries(s: Store, s': Store, t: Token) {
    && (t in s.pending <==> t in s'.pending)
    && (t in s.pending ==> s.pending[t] == s'.pending[t])
    && (t in s.decisions <==> t in s'.decisions)
    && (t in s.decisions ==> s.decisions[t] == s'.decisions[t])
  }

  /** `create_pending_approval`: files a new state with no decision under a
      fresh token. */
  function CreatePendingApproval(
    s: Store, token: Token, userPrompt: string,
    requirements: Value, databaseDesign: Value, review: Value, language: Option<string>): (s': Store)
    requires Fresh(s, token)
    ensures token in s'.pending
    ensures s'.pending[token] == PendingState(token, userPrompt, requirements, databaseDesign, review, language, None)
    ensures s'.pending.Keys == s.pending.Keys + {token}
    ensures s'.decisions == s.decisions
    ensures forall k :: k != token ==> SameEntries(s, s', k)
    ensures Inv(s) ==> Inv(s')
  {
    var state := PendingState(token, userPrompt, requirements, databaseDesign, review, language, None);
    Store(s.pending[token := state], s.decisions)
  }

  /** `get_pending_state`: the stored state, or None for an unknown token. */
  function GetPendingState(s: Store, t: Token): (r: Option<PendingState>)
    ensures r.Some? <==> t in s.pending
    ensures r.Some? ==> r.value == s.pending[t]
  {
    Get(s.pending, t)
  }

  /** `submit_approval`: fails on an unknown token and changes nothing;
      otherwise records the decision on the state and in the side map,
      overwriting any earlier decision. */
  function SubmitApproval(s: Store, t: Token, approved: bool, comments: Option<string>, approvedBy: Option<string>)
    : (out: (bool, string, Store))
    ensures t !in s.pending ==> out == (false, InvalidTokenMessage, s)
    ensures t in s.pending ==>
      var d := ApprovalDecision(approved, comments, approvedBy);
      && out.0 && out.1 == RecordedMessage
      && t in out.2.pending && out.2.pending[t] == s.pending[t].(decision := Some(d))
      && t in out.2.decisions && out.2.decisions[t] == d
    ensures forall k :: k != t ==> SameEntries(s, out.2, k)
    ensures Inv(s) ==> Inv(out.2)
  {
    match GetPendingState(s, t)
    case None => (false, InvalidTokenMessage, s)
    case Some(state) =>
      var d := ApprovalDecision(approved, comments, approvedBy);
      (true, RecordedMessage, Store(s.pending[t := state.(decision := Some(d))], s.decisions[t := d]))
  }

  /** `get_approval_decision`: the decision on the stored state if there is
      one, otherwise whatever the side map holds for the token. */
  function GetApprovalDecision(s: Store, t: Token): (r: Option<ApprovalDecision>)
    ensures r.Some? ==> (t in s.pending && s.pending[t].decision == r) || (t in s.decisions && s.decisions[t] == r.value)
    ensures t in s.pending && s.pending[t].decision.Some? ==> r == s.pending[t].decision
    ensures r.None? <==> (t !in s.pending || s.pending[t].decision.None?) && t !in s.decisions
  {
    match GetPendingState(s, t)
    case Some(state) =>
      if state.decision.Some? then state.decision else Get(s.decisions, t)
    case None => Get(s.decisions, t)
  }

  /** `consume_pending_state`: removes and returns the state; the side map
      keeps its entry. */
  function ConsumePendingState(s: Store, t: Token): (out: (Option<PendingState>, Store))
    ensures out.0 == GetPendingState(s, t)
    ensures out.1.pending.Keys == s.pending.Keys - {t}
    ensures out.1.decisions == s.decisions
    ensures forall k :: k != t ==> SameEntries(s, out.1, k)
    ensures Inv(s) ==> Inv(out.1)
  {
    (GetPendingState(s, t), Store(s.pending - {t}, s.decisions))
  }

  // ---------------------------------------------------------------------------
  // Properties of the store
  // ---------------------------------------------------------------------------

  lemma EmptyStoreInv()
    ensures Inv(EmptyStore)
  {
  }

  /** Under the invariant, the side map alone answers `get_approval_decision`. */
  lemma SideMapAnswersDecision(s: Store, t: Token)
    requires Inv(s)
    ensures GetApprovalDecision(s, t) == Get(s.decisions, t)
  {
  }

  /** Token uniqueness is the freshness assumption on `uuid4`; granted it, a
      second pause leaves the first run's state and decision untouched. */
  lemma SecondPauseKeepsFirst(
    s: Store, t1: Token, t2: Token, p1: string, p2: string,
    r1: Value, r2: Value, d1: Value, d2: Value, v1: Value, v2: Value, l1: Option<string>, l2: Option<string>)
    requires Fresh(s, t1)
    requires Fresh(CreatePendingApproval(s, t1, p1, r1, d1, v1, l1), t2)
    ensures var s1 := CreatePendingApproval(s, t1, p1, r1, d1, v1, l1);
            var s2 := CreatePendingApproval(s1, t2, p2, r2, d2, v2, l2);
            && GetPendingState(s2, t1) == Some(PendingState(t1, p1, r1, d1, v1, l1, None))
            && GetPendingState(s2, t2) == Some(PendingState(t2, p2, r2, d2, v2, l2, None))
            && GetApprovalDecision(s2, t1) == GetApprovalDecision(s1, t1) == None
  {
  }

  /** After a consume the state is gone: reading it, or consuming it again,
      finds nothing and changes nothing. */
  lemma ConsumeOnce(s: Store, t: Token)
    ensures var s1 := ConsumePendingState(s, t).1;
      && GetPendingState(s1, t).None?
      && ConsumePendingState(s1, t) == (None, s1)
  {
    var s1 := ConsumePendingState(s, t).1;
    assert s1.pending - {t} == s1.pending;
  }

  /** A second submission overwrites the first without any conflict signal. */
  lemma LastSubmissionWins(s: Store, t: Token, first: bool, second: bool, c1: Option<string>, c2: Option<string>,
                           b1: Option<string>, b2: Option<string>)
    requires t in s.pending
    ensures var s1 := SubmitApproval(s, t, first, c1, b1).2;
            var out := SubmitApproval(s1, t, second, c2, b2);
      && out.0
      && GetApprovalDecision(out.2, t) == Some(ApprovalDecision(second, c2, b2))
  {
  }

  /** Consuming does not clear the side map: the decision recorded before the
      consume is still returned afterwards, although the state is gone. */
  lemma DecisionOutlivesConsume(s: Store, t: Token, approved: bool, c: Option<string>, b: Option<string>)
    requires t in s.pending
    ensures var s1 := SubmitApproval(s, t, approved, c, b).2;
            var s2 := ConsumePendingState(s1, t).1;
      && GetPendingState(s2, t).None?
      && GetApprovalDecision(s2, t) == Some(ApprovalDecision(approved, c, b))
  {
  }
}
