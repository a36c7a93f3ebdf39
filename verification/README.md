# Approval-gated orchestration of the Agentic Developer Platform, in Dafny

This project models the core of the platform's backend pipeline, which works in these steps:

1. It turns a natural-language prompt into requirements.
2. It designs a relational schema.
3. It checks that schema deterministically.
4. It has the schema reviewed.
5. It either pauses for a human decision or goes on to propose a git strategy and create a branch.

A paused run is parked in an in-memory approval store under a fresh token. The run resumes once a decision has been submitted for that token.

Modules, one per source file:

| module | file | what it holds |
|---|---|---|
| `Schemas` | `schemas.dfy` | The records the stages exchange. There is one `Issue` constructor per message template. |
| `Serialization` | `serialization.dfy` | `model_dump` / `model_validate` over a JSON-shaped `Value`. The requirements, design, review and git-strategy outputs round-trip, together with the relationships, entities, tables, columns and repository files inside them. Each declared default has a lemma. `ApprovalResponse` is only loaded, and the core never dumps or loads `ValidationResult` or `OrchestrationResult`. |
| `Validation` | `validation.dfy` | `validate_db_design` over a dictionary view where every key is optional. It is paired with an independent declarative description of which issues are due, how often and in what order. |
| `ApprovalStore` | `approval_store.dfy` | The two process-wide dictionaries, as a `Store` value threaded through pure functions. |
| `Orchestrator` | `orchestrator.dfy` | `run_orchestration`, `run_orchestration_continue` and `_run_git_and_finish`. |
| `OrchestratorProperties` | `orchestrator_properties.dfy` | Properties spanning several calls: where a run stops, what the gate lets through, and the whole pause / submit / continue round trip. |

`wrappers.dfy` holds the generic `Option` and `Result` types.

How the model maps the Python code:

- **Agents and branch creation.** The four language-model agents and `create_branch` are fields of `Orchestrator.Stages`. Each agent either returns its record (`Success`) or raises with a message (`Failure`). `create_branch` is a total function returning the execution record.
- **Fresh tokens.** `uuid.uuid4()` becomes a token parameter. It must be `Fresh`, meaning a key of neither dictionary.
- **Two entry points.** Both are pure functions from a store and their inputs to a result and the next store.

## Model

| member | source | states |
|---|---|---|
| Schemas.WithStatus | app/models/schemas.py:179-197 | A result built from a status alone has that status, and every other field is None. |
| ApprovalStore.CreatePendingApproval | app/utils/approval_store.py:42-66 | Files a new state with no decision under the fresh token. It leaves every other entry of both dictionaries as it was and keeps the store invariant. |
| ApprovalStore.GetPendingState | app/utils/approval_store.py:69-71 | Finds a state exactly when the token is a key of the pending dictionary, and returns that state. |
| ApprovalStore.SubmitApproval | app/utils/approval_store.py:74-96 | An unknown token yields `(False, "Invalid or expired approval token")` and no change. Otherwise it succeeds with the fixed message, records the decision on the state and in the side dictionary, touches no other token and keeps the invariant. |
| ApprovalStore.GetApprovalDecision | app/utils/approval_store.py:99-104 | Prefers the decision on the stored state and falls back to the side dictionary. It returns None exactly when neither holds one. |
| ApprovalStore.ConsumePendingState | app/utils/approval_store.py:107-112 | Returns what `get_pending_state` would have returned and removes exactly that key. The side dictionary is kept. |
| ApprovalStore.EmptyStoreInv | app/utils/approval_store.py:37-39 | The empty store satisfies the invariant: each state is filed under its own token, and its decision mirrors the side dictionary. |
| ApprovalStore.SideMapAnswersDecision | app/utils/approval_store.py:95-104 | Under the invariant, the side dictionary alone answers `get_approval_decision`. |
| ApprovalStore.SecondPauseKeepsFirst | app/utils/approval_store.py:55-66 | Token uniqueness is the `uuid4` freshness assumption (`Fresh`), not a proved fact. Granted it, a second create keeps the first entry: both states are retrievable as filed, and the first token still has no decision. |
| ApprovalStore.ConsumeOnce | app/utils/approval_store.py:107-112 | After a consume the token finds no state. A second consume returns None and changes nothing. |
| ApprovalStore.LastSubmissionWins | app/utils/approval_store.py:86-96 | A second submission overwrites the first and succeeds. |
| ApprovalStore.DecisionOutlivesConsume | app/utils/approval_store.py:95-112 | After submit and consume the state is gone, but the decision is still returned for the token. |
| Serialization.RelationshipRoundTrip | app/models/schemas.py:20-33 | A dumped relationship validates back to itself, including the cardinality literal and the optional junction table. |
| Serialization.FromAliasLoads | app/models/schemas.py:18-31 | A relationship dictionary keyed by the alias "from" loads, with no junction table. |
| Serialization.FromAliasWins | app/models/schemas.py:20-31 | When both "from" and "from_entity" are present, the source entity is read from "from". |
| Serialization.RequirementsRoundTrip | app/models/schemas.py:36-41 | `RequirementsOutput.model_validate(model_dump())` is the identity. |
| Serialization.ColumnRoundTrip | app/models/schemas.py:48-55 | A column, with its constraints, round-trips. |
| Serialization.TableRoundTrip | app/models/schemas.py:58-61 | A table, with all its columns, round-trips. |
| Serialization.DesignRoundTrip | app/models/schemas.py:64-74 | `DatabaseDesignOutput` round-trips, including tables, columns and constraints. |
| Serialization.ReviewRoundTrip | app/models/schemas.py:81-93 | `ReviewOutput` round-trips, including the risk-level literal. |
| Serialization.GitStrategyRoundTrip | app/models/schemas.py:100-120 | `GitStrategyOutput` round-trips, including its repository files. |
| Serialization.NormalizationLevelDefault | app/models/schemas.py:67-70 | A design dictionary without `normalization_level` loads with "3NF". |
| Serialization.ConstraintsDefault | app/models/schemas.py:52-55 | A column dictionary without `constraints` loads with an empty list. |
| Serialization.ReviewIssuesDefault | app/models/schemas.py:84-87 | A review dictionary without `issues` loads with an empty list. |
| Serialization.GitStrategyDefaults | app/models/schemas.py:109-120 | A strategy dictionary without `base_branch` and `files` loads with "main" and no files. |
| Serialization.ThroughDefault | app/models/schemas.py:27-30 | A relationship dictionary without `through` loads with None. |
| Serialization.ApprovalDefaults | app/models/schemas.py:146-153 | An approval dictionary with only `approved` loads with no comments and no approver. |
| Serialization.DesignRequiresTables | app/models/schemas.py:64-66 | A design dictionary without `tables` is refused with that key named. |
| Validation.Validate | app/skills/validation_skill.py:75-78 | The design is valid exactly when the issue list is empty. |
| Validation.StripEmptyIffAllSpace | app/skills/validation_skill.py:71-73 | `strip()` leaves nothing exactly when every character satisfies `isspace()`. |
| Validation.MissingKeyIssuesExactly | app/skills/validation_skill.py:44-47 | A "Missing required key" issue is produced exactly for the checked keys that are not in the dictionary. A key bound to `None` is in the dictionary. |
| Validation.ColumnIssuesExactly | app/skills/validation_skill.py:64-69 | A column issue is produced exactly when some column among those scanned lacks a name or a type. The issue carries its 1-based position or label and the table's name. |
| Validation.TableIssuesExactly | app/skills/validation_skill.py:59-69 | One table yields exactly its own problems: no name, no columns, or, when it has columns, their problems. |
| Validation.TablesIssuesExactly | app/skills/validation_skill.py:58-69 | The table loop reports an issue exactly when some table at or after the start position has that problem. |
| Validation.ValidateReportsExactlyTheViolations | app/skills/validation_skill.py:12-78 | An issue is in the report if and only if the design breaks the rule that issue names. The rule set is the declarative `Flags`. |
| Validation.NoTablesMeansNoTableChecks | app/skills/validation_skill.py:53-56 | With no tables, "No tables defined" is reported and no per-table or per-column issue is. |
| Validation.BlankSqlReported | app/skills/validation_skill.py:71-73 | For a present `sql_schema`, "SQL schema is empty" is reported if and only if the text is all whitespace. |
| Validation.OneIssuePerNamelessColumn | app/skills/validation_skill.py:64-67 | Within a table, the nameless-column issue for position m occurs once if column m lacks a name, and never otherwise. |
| Validation.TableNameReportedOnce | app/skills/validation_skill.py:58-60 | "Table n is missing a name" occurs exactly once when table n is nameless, and never otherwise. |
| Validation.MissingKeyReportedOnce | app/skills/validation_skill.py:35-47 | Each absent key is reported exactly once. A present key is never reported. |
| Validation.NormalizationReportedOnce | app/skills/validation_skill.py:49-51 | The level issue occurs once exactly when the level is not "3NF". |
| Validation.NoTablesReportedOnce | app/skills/validation_skill.py:53-55 | "No tables defined" occurs once exactly when tables are absent or empty. |
| Validation.SqlReportedOnce | app/skills/validation_skill.py:71-73 | "SQL schema is empty" occurs once exactly when the SQL is absent, empty or blank. |
| Validation.ValidateCounts | app/skills/validation_skill.py:44-73 | The multiplicities above, together for one design. |
| Validation.ValidateReportsInOrder | app/skills/validation_skill.py:42-73 | Issues come out section by section: keys, level, tables, SQL. Missing keys appear in the order the validator checks them. |
| Validation.DumpedDesignHasAllKeys | app/skills/validation_skill.py:32-47 | A typed design converted by `model_dump()` has every checked key, so no missing-key issue is due under `Flags` and none is reported. |
| Validation.WellFormedHasNoFlag | app/skills/validation_skill.py:44-73 | A typed design meeting every structural rule breaks none of the validator's rules. |
| Validation.FlagOfIllFormed | app/skills/validation_skill.py:49-73 | A typed design breaking a structural rule has a concrete issue due. |
| Validation.ValidIffWellFormed | app/skills/validation_skill.py:31-78 | A typed design is valid if and only if it is 3NF and has tables, every table has a name and columns, every column has a name and a type, and the SQL text is non-blank. |
| Validation.SelfTestValidDesign | app/skills/validation_skill.py:93-112 | The module's own valid example passes with no issues. |
| Validation.SelfTestInvalidDesign | app/skills/validation_skill.py:114-123 | The module's own invalid example gives these five issues in this order: two missing keys, the level, the tables, the SQL. |
| Validation.WrongLevelAndNoTables | app/skills/validation_skill.py:49-73 | The same design with every key present and non-blank SQL gives exactly the level issue and the tables issue. |
| Validation.TablesBoundToNone | app/skills/validation_skill.py:44-56 | A dictionary whose "tables" key is bound to `None`, with the other keys valid, gives only "No tables defined": the key counts as present. |
| Validation.TablesAbsent | app/skills/validation_skill.py:44-56 | The same dictionary without the "tables" key gives the missing-key issue and then "No tables defined". |
| Orchestrator.RunGitAndFinish | app/orchestrator/orchestrator.py:206-264 | Succeeds exactly when the git agent succeeds on the framework-mapped context. A failure stops at "git_strategy" with every artifact kept. A success carries a strategy record that validates back to the proposal, and the execution for repository "agentic-dev-platform" with the proposed branches. |
| Orchestrator.RunOrchestration | app/orchestrator/orchestrator.py:39-134 | Never halts, and the artifacts always match the stage tag. Unless the run pauses, the store is unchanged. A pause returns the token at "approval" and files exactly one new snapshot under it, holding the returned artifacts. |
| Orchestrator.RunContinue | app/orchestrator/orchestrator.py:137-203 | An unknown token, or a token with no decision, fails at "approval" with no change. With a decision, the state is consumed and the run halts exactly when the decision is a rejection. |
| OrchestratorProperties.FrameworkOutsideTable | app/orchestrator/orchestrator.py:215-223 | The framework is one of the table's frameworks or the lowered language itself. It is the language itself exactly when the language is not in the table. |
| OrchestratorProperties.LowerIdempotent | app/orchestrator/orchestrator.py:222 | Lowercasing twice is lowercasing once. `RecordedLanguageIsStable` rests on it. |
| OrchestratorProperties.RecordedLanguageIsStable | app/orchestrator/orchestrator.py:222-228 | The project context records its effective language. Rebuilding the context from that recorded language gives the same context, whatever language was requested. |
| OrchestratorProperties.DefaultLanguageIsPython | app/orchestrator/orchestrator.py:222-228 | A missing or empty language gives a "backend" context for "python" with framework "fastapi". |
| OrchestratorProperties.LanguageIsCaseInsensitive | app/orchestrator/orchestrator.py:222-230 | Languages that lowercase to the same text give the same context. |
| OrchestratorProperties.ContinueLanguagePrecedence | app/orchestrator/orchestrator.py:194 | Continuing uses the override, else the stored language, else "python". The result is never empty. |
| OrchestratorProperties.FirstFailingStageIsReported | app/orchestrator/orchestrator.py:60-106 | A run stops at the first failing stage, with that stage's message as its only issue, the earlier artifacts, and the store unchanged. |
| OrchestratorProperties.RejectedDesignSkipsLaterStages | app/orchestrator/orchestrator.py:83-92 | An invalid design's outcome does not depend on the reviewer, the git agent or branch creation. |
| OrchestratorProperties.PassedDesignsAreWellFormed | app/orchestrator/orchestrator.py:83-93 | A run that gets past validation carries a design meeting every structural rule. |
| OrchestratorProperties.PendingIffApprovalRequired | app/orchestrator/orchestrator.py:108-125 | A run pauses if and only if every stage through review succeeds and the review requires approval. |
| OrchestratorProperties.NoApprovalFinishes | app/orchestrator/orchestrator.py:127-134 | Without a required approval, the run is finalisation with no approval, and the store is unchanged. |
| OrchestratorProperties.PauseSkipsGit | app/orchestrator/orchestrator.py:108-125 | A paused run does not depend on the git agent or branch creation. |
| OrchestratorProperties.EmptyStoreWellformed | app/utils/approval_store.py:37-39 | The empty store is well formed: it meets the invariant (by `ApprovalStore.EmptyStoreInv`), and it holds no snapshot that could fail to load. |
| OrchestratorProperties.SnapshotRehydrates | app/orchestrator/orchestrator.py:171-174 | The dictionaries filed at a pause validate back into records. |
| OrchestratorProperties.RunKeepsWellformed | app/orchestrator/orchestrator.py:108-125 | A run keeps the store well formed: the invariant holds and every snapshot loads. |
| OrchestratorProperties.SubmitKeepsWellformed | app/utils/approval_store.py:74-96 | Submitting keeps the store well formed. |
| OrchestratorProperties.ContinueKeepsWellformed | app/orchestrator/orchestrator.py:155-203 | Continuing keeps the store well formed. |
| OrchestratorProperties.PauseFilesSnapshot | app/orchestrator/orchestrator.py:109-116 | A pause adds exactly its snapshot to the pending dictionary and leaves decisions alone. |
| OrchestratorProperties.ContinueRestoresSnapshot | app/orchestrator/orchestrator.py:171-203 | Continuing a decided snapshot restores the very artifacts dumped into it. It halts with them on a rejection and finalises with them on an approval. |
| OrchestratorProperties.ContinueBeforeDecision | app/orchestrator/orchestrator.py:163-169 | Continuing a fresh pause before any submission fails at "approval" and leaves the paused run in place. |
| OrchestratorProperties.SubmitOnFreshSnapshot | app/utils/approval_store.py:86-96 | Submitting on a just-filed snapshot records the decision in both places, and the store still rehydrates. |
| OrchestratorProperties.ContinueDecided | app/orchestrator/orchestrator.py:171-203 | Continuing a filed, decided snapshot gives the decided outcome and removes the snapshot, leaving the earlier pending states. |
| OrchestratorProperties.PauseThenReject | app/orchestrator/orchestrator.py:181-191 | Pause, then reject, then continue: the run halts at "approval" with the paused artifacts, the approval and the rejection issue. The pending states are as before the run. |
| OrchestratorProperties.PauseThenApprove | app/orchestrator/orchestrator.py:193-203 | Pause, then approve, then continue gives finalisation of the paused artifacts with the approval and the chosen language. Afterwards the token is spent and a late submission is refused, yet the decision is still reported. |
| OrchestratorProperties.RejectionSkipsGit | app/orchestrator/orchestrator.py:181-191 | A rejected continuation does not depend on the stages supplied. |

## Left out

- The HTTP API, the Streamlit UI and the console `print` output are not part of this model. The prints are side effects with no bearing on the result.
- The language-model agents are function parameters in `Stages`. Their prompts, retries and parsing belong to the agents, which are not part of this model.
- `create_branch` is a function parameter returning an opaque `Value`, and the model assumes it never raises. The source's `create_branch` (app/skills/github_skill.py:17-53) only simulates the call: it builds a dictionary and cannot raise. That dictionary carries the current time, which is why the result is opaque.
- `uuid.uuid4()` is the token parameter. The model assumes it never repeats, as a `Fresh` precondition.
- Concurrency: the source's module-level dictionaries are mutated without locks. The model threads one store value through calls in sequence.
- Orchestrator.Lower: models `str.lower()` on ASCII letters only. Unicode case mapping has no counterpart here.
- Serialization: Pydantic's lax coercions (such as the strings "true" and "false" to booleans) are not modelled. Loading accepts the shapes `model_dump` produces, the declared defaults and the `from` alias. Extra keys are ignored, as under Pydantic's default.
- Validation: a table whose `name` key is bound to `None` is labelled by its position in "has no columns defined", and so is such a column in "is missing a type". The source prints `None` there, because `table.get('name', i+1)` only falls back when the key is absent. The design-level keys do keep the two cases apart (`DesignRecord.nullKeys`).
- Validation: values of other types than the record view's are not modelled.
  - A falsy `sql_schema` of another type (0, False, [], {}) is reported as empty and never stripped. It behaves like a key bound to `None` (`DesignRecord.nullKeys`).
  - A truthy non-string `sql_schema` makes the source raise AttributeError on `.strip()`.
  - Non-string names and types are only tested for truthiness and formatted into messages, so they do not raise.
- Validation: a truthy `tables` value that is not a list of dictionaries, or `columns` that are not a list of dictionaries, make the source raise on `.get` or `enumerate`. The HTTP validation endpoint passes its raw request dictionary to the validator, so such input is reachable. The record view excludes it, and the model has no raising path for the validator.
- `validate_db_design_strict` only wraps the same two fields into `ValidationResult`. `Validation.Validate` already returns that record, so there is no separate member.
- Orchestrator.RunContinue: requires every stored snapshot to load. The source lets `model_validate` raise on a corrupted snapshot, with no handler. `OrchestratorProperties.RunKeepsWellformed`, `SubmitKeepsWellformed` and `ContinueKeepsWellformed` show that the pipeline never files such a snapshot.
- Validation: multiplicities are stated for missing keys, the level, the tables, the SQL text, nameless tables, and nameless columns within one table. "Has no columns" and "missing a type" issues are stated by membership only, because two tables or columns with the same name produce equal issues.
- `ValidationResult.issues` defaulting to an empty list is not modelled. The core never loads a `ValidationResult` from a dictionary, and `Validation.Validate` always supplies the list.
- An issue is a structured `Issue` value rather than its formatted string. The message templates are recorded next to each constructor.

Two consequences of the code worth stating:

- The self-test's invalid design `{tables: [], normalization_level: "2NF"}` gives five issues: the two missing keys, the level, the tables and the SQL text (`Validation.SelfTestInvalidDesign`). With every key present and non-blank SQL it gives two (`Validation.WrongLevelAndNoTables`).
- Consuming a state leaves `_approval_decisions` intact, so `get_approval_decision` still answers for the token (`ApprovalStore.DecisionOutlivesConsume`, `OrchestratorProperties.PauseThenApprove`).
