/** The typed records exchanged between the pipeline stages (app/models/schemas.py).
    Python `Literal[...]` fields become enumerations, `Optional[...]` becomes
    `Option`, `List[...]` becomes `seq`. The issue strings that the validator and
    the orchestrator produce are represented by the `Issue` datatype, one
    constructor per message template, carrying the values interpolated into it. */
module Schemas {
  import opened Wrappers

  // ---------------------------------------------------------------------------
  // Requirements agent output
  // ---------------------------------------------------------------------------

  datatype Entity = Entity(name: string, description: string)

  /** `Relationship.type`: one of "one-to-one", "one-to-many", "many-to-many". */
  datatype Cardinality = OneToOne | OneToMany | ManyToMany

  /** `from_entity` is serialised under that name and read back under the alias
      "from" as well; `through` defaults to None. */
  datatype Relationship = Relationship(
    fromEntity: string,
    to: string,
    kind: Cardinality,
    through: Option<string>)

  datatype Requirements = Requirements(
    entities: seq<Entity>,
    relationships: seq<Relationship>,
    assumptions: seq<string>,
    outOfScope: seq<string>)

  // ---------------------------------------------------------------------------
  // Database architect output
  // ---------------------------------------------------------------------------

  /** `constraints` defaults to the empty list. */
  datatype Column = Column(name: string, colType: string, constraints: seq<string>)

  datatype Table = Table(name: string, columns: seq<Column>)

  /** `normalization_level` defaults to "3NF". */
  datatype DatabaseDesign = DatabaseDesign(
    tables: seq<Table>,
    normalizationLevel: string,
    designRationale: seq<string>,
    sqlSchema: string)

  const DefaultNormalizationLevel: string := "3NF"

  // ---------------------------------------------------------------------------
  // Review agent output
  // ---------------------------------------------------------------------------

  /** `ReviewOutput.risk_level`: one of "LOW", "MEDIUM", "HIGH". */
  datatype RiskLevel = Low | Medium | High

  /** `issues` defaults to the empty list. */
  datatype Review = Review(
    assessment: string,
    issues: seq<string>,
    riskLevel: RiskLevel,
    approvalRequired: bool)

  // ---------------------------------------------------------------------------
  // Git agent output
  // ---------------------------------------------------------------------------

  datatype RepoFile = RepoFile(path: string, content: string)

  /** `base_branch` defaults to "main" and `files` to the empty list. */
  datatype GitStrategy = GitStrategy(
    branchName: string,
    baseBranch: string,
    repositoryStructure: seq<string>,
    action: string,
    files: seq<RepoFile>)

  const DefaultBaseBranch: string := "main"

  // ---------------------------------------------------------------------------
  // Issues (the strings of `ValidationResult.issues` and `OrchestrationResult.issues`)
  // ---------------------------------------------------------------------------

  /** The four keys `validate_db_design` requires, in the order it checks them. */
  datatype Key = TablesKey | NormalizationLevelKey | DesignRationaleKey | SqlSchemaKey

  /** What a message prints for a table or column: its name when the key is
      present, otherwise its 1-based position. */
  datatype Label = Named(name: string) | Numbered(number: nat)

  datatype Issue =
      // validate_db_design
    | MissingKey(key: Key)                                        // "Missing required key: {key}"
    | NotMarked3NF                                                // "Schema is not explicitly marked as 3NF"
    | NoTables                                                    // "No tables defined"
    | TableMissingName(tableNumber: nat)                          // "Table {i+1} is missing a name"
    | TableWithoutColumns(table: Label)                           // "Table '{name or i+1}' has no columns defined"
    | ColumnMissingName(columnNumber: nat, tableName: Option<string>)  // "Column {j+1} in table '{name}' is missing a name"
    | ColumnMissingType(column: Label, tableName: Option<string>)     // "Column '{name or j+1}' in table '{name}' is missing a type"
    | EmptySqlSchema                                              // "SQL schema is empty"
      // run_orchestration / _run_git_and_finish: "Failed to ...: {error}"
    | InterpretFailed(error: string)
    | DesignFailed(error: string)
    | ReviewFailed(error: string)
    | GitStrategyFailed(error: string)
      // run_orchestration_continue
    | InvalidToken                                                // "Invalid or expired approval token"
    | NoDecisionRecorded                                          // "No approval decision recorded. ..."
    | RejectedByReviewer                                          // "Design rejected by reviewer"

  /** `issues` defaults to the empty list. */
  datatype ValidationResult = ValidationResult(isValid: bool, issues: seq<Issue>)

  // ---------------------------------------------------------------------------
  // Approval and orchestration result
  // ---------------------------------------------------------------------------

  /** `comments` and `approved_by` default to None. */
  datatype ApprovalResponse = ApprovalResponse(
    approved: bool,
    comments: Option<string>,
    approvedBy: Option<string>)

  /** `OrchestrationResult.status`: "SUCCESS", "FAILED", "HALTED", "PENDING_APPROVAL". */
  datatype Status = Succeeded | Failed | Halted | PendingApproval

  /** The stage tags the orchestrator writes into `OrchestrationResult.stage`. */
  datatype Stage =
    | RequirementsStage      // "requirements"
    | DatabaseDesignStage    // "database_design"
    | ValidationStage        // "validation"
    | ReviewStage            // "review"
    | ApprovalStage          // "approval"
    | GitStrategyStage       // "git_strategy"

  /** A JSON-shaped value: the dictionaries `model_dump` produces and `model_validate` reads. */
  datatype Value =
    | Null
    | Bool(b: bool)
    | Str(s: string)
    | Array(items: seq<Value>)
    | Object(fields: map<string, Value>)

  /** `OrchestrationResult.git`: the dumped strategy and the record returned by
      the branch-creation capability. */
  datatype GitBundle = GitBundle(strategy: Value, execution: Value)

  datatype OrchestrationResult = OrchestrationResult(
    status: Status,
    stage: Option<Stage>,
    approvalToken: Option<string>,
    requirements: Option<Requirements>,
    databaseDesign: Option<DatabaseDesign>,
    review: Option<Review>,
    approval: Option<ApprovalResponse>,
    git: Option<GitBundle>,
    issues: Option<seq<Issue>>)

  /** `OrchestrationResult(status=...)`: every field but the status takes its
      default, None. */
  function WithStatus(status: Status): (r: OrchestrationResult)
    ensures r.status == status
    ensures r.stage.None? && r.approvalToken.None? && r.issues.None?
    ensures r.requirements.None? && r.databaseDesign.None? && r.review.None?
    ensures r.approval.None? && r.git.None?
  {
    OrchestrationResult(status, None, None, None, None, None, None, None, None)
  }
}
