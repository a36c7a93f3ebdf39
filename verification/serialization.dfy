/** Pydantic's `model_dump` (record to dictionary) and `model_validate`
    (dictionary to record) for the pipeline's records (app/models/schemas.py).
    Dumping writes every field under its Python field name; loading ignores extra
    keys, fills in the declared defaults for missing optional fields, and fails
    on a missing required field or a value of the wrong shape. The round-trip
    lemmas are what makes the approval snapshot safe: a dumped artifact loads
    back to itself. */
module Serialization {
  import opened Wrappers
  import opened Schemas

  /** Why `model_validate` raised: a required field is absent, or a value has
      the wrong shape (named by the field or element kind it was read as). */
  datatype LoadError = Missing(field: string) | Mistyped(field: string)

  type Fields = map<string, Value>

  // ---------------------------------------------------------------------------
  // Generic pieces
  // ---------------------------------------------------------------------------

  function DumpSeq<T>(xs: seq<T>, dump: T -> Value): (r: seq<Value>)
    ensures |r| == |xs|
    ensures forall i :: 0 <= i < |xs| ==> r[i] == dump(xs[i])
  {
    if xs == [] then [] else [dump(xs[0])] + DumpSeq(xs[1..], dump)
  }

  /** Loads every element, failing with the first element that fails. */
  function LoadSeq<T>(items: seq<Value>, load: Value -> Result<T, LoadError>): (r: Result<seq<T>, LoadError>)
    ensures r.Success? ==> |r.value| == |items|
    ensures r.Success? <==> forall i :: 0 <= i < |items| ==> load(items[i]).Success?
    ensures r.Success? ==> forall i :: 0 <= i < |items| ==> load(items[i]) == Success(r.value[i])
  {
    if items == [] then Success([])
    else
      var head :- load(items[0]);
      var tail :- LoadSeq(items[1..], load);
      Success([head] + tail)
  }

  lemma {:induction false} SeqRoundTrip<T>(xs: seq<T>, dump: T -> Value, load: Value -> Result<T, LoadError>)
    requires forall i :: 0 <= i < |xs| ==> load(dump(xs[i])) == Success(xs[i])
    ensures LoadSeq(DumpSeq(xs, dump), load) == Success(xs)
  {
    if xs != [] {
      SeqRoundTrip(xs[1..], dump, load);
      assert DumpSeq(xs, dump)[1..] == DumpSeq(xs[1..], dump);
      assert [xs[0]] + xs[1..] == xs;
    }
  }

  function AsObject(v: Value, what: string): Result<Fields, LoadError> {
    if v.Object? then Success(v.fields) else Failure(Mistyped(what))
  }

  function AsArray(v: Value, what: string): Result<seq<Value>, LoadError> {
    if v.Array? then Success(v.items) else Failure(Mistyped(what))
  }

  function AsString(v: Value, what: string): Result<string, LoadError> {
    if v.Str? then Success(v.s) else Failure(Mistyped(what))
  }

  function LoadString(v: Value): Result<string, LoadError> {
    AsString(v, "list item")
  }

  function DumpString(s: string): Value {
    Str(s)
  }

  function DumpOptional(o: Option<string>): Value {
    match o
    case None => Null
    case Some(s) => Str(s)
  }

  function DumpStrings(xs: seq<string>): Value {
    Array(DumpSeq(xs, DumpString))
  }

  /** A field without a default. */
  function Required(f: Fields, key: string): Result<Value, LoadError> {
    if key in f then Success(f[key]) else Failure(Missing(key))
  }

  function RequiredStr(f: Fields, key: string): Result<string, LoadError> {
    var v :- Required(f, key);
    AsString(v, key)
  }

  function RequiredBool(f: Fields, key: string): Result<bool, LoadError> {
    var v :- Required(f, key);
    if v.Bool? then Success(v.b) else Failure(Mistyped(key))
  }

  /** A `str` field declared with a default. */
  function StrOr(f: Fields, key: string, default: string): Result<string, LoadError> {
    if key in f then AsString(f[key], key) else Success(default)
  }

  /** An `Optional[str]` field with default None: absent and null both read as None. */
  function OptionalStr(f: Fields, key: string): Result<Option<string>, LoadError> {
    if key !in f || f[key].Null? then Success(None)
    else
      var s :- AsString(f[key], key);
      Success(Some(s))
  }

  function ListOf<T>(v: Value, key: string, load: Value -> Result<T, LoadError>): Result<seq<T>, LoadError> {
    var items :- AsArray(v, key);
    LoadSeq(items, load)
  }

  /** A required `List[...]` field. */
  function RequiredList<T>(f: Fields, key: string, load: Value -> Result<T, LoadError>): Result<seq<T>, LoadError> {
    var v :- Required(f, key);
    ListOf(v, key, load)
  }

  /** A `List[...]` field declared with `default_factory=list`. */
  function ListOrEmpty<T>(f: Fields, key: string, load: Value -> Result<T, LoadError>): Result<seq<T>, LoadError> {
    if key in f then ListOf(f[key], key, load) else Success([])
  }

  lemma StringsRoundTrip(xs: seq<string>)
    ensures LoadSeq(DumpSeq(xs, DumpString), LoadString) == Success(xs)
  {
    SeqRoundTrip(xs, DumpString, LoadString);
  }

  /** A dumped list under `key` loads back, whether the field is required or defaulted. */
  lemma ListFieldRoundTrip<T>(f: Fields, key: string, xs: seq<T>, dump: T -> Value, load: Value -> Result<T, LoadError>)
    requires key in f && f[key] == Array(DumpSeq(xs, dump))
    requires forall i :: 0 <= i < |xs| ==> load(dump(xs[i])) == Success(xs[i])
    ensures RequiredList(f, key, load) == Success(xs)
    ensures ListOrEmpty(f, key, load) == Success(xs)
  {
    SeqRoundTrip(xs, dump, load);
  }

  // ---------------------------------------------------------------------------
  // RequirementsOutput
  // ---------------------------------------------------------------------------

  function DumpEntity(e: Entity): Value {
    Object(map["name" := Str(e.name), "description" := Str(e.description)])
  }

  function LoadEntity(v: Value): Result<Entity, LoadError> {
    var f :- AsObject(v, "entity");
    var name :- RequiredStr(f, "name");
    var description :- RequiredStr(f, "description");
    Success(Entity(name, description))
  }

  function CardinalityText(c: Cardinality): string {
    match c
    case OneToOne => "one-to-one"
    case OneToMany => "one-to-many"
    case ManyToMany => "many-to-many"
  }

  function ParseCardinality(s: string): Result<Cardinality, LoadError> {
    if s == "one-to-one" then Success(OneToOne)
    else if s == "one-to-many" then Success(OneToMany)
    else if s == "many-to-many" then Success(ManyToMany)
    else Failure(Mistyped("type"))
  }

  function DumpRelationship(r: Relationship): Value {
    Object(map[
      "from_entity" := Str(r.fromEntity),
      "to" := Str(r.to),
      "type" := Str(CardinalityText(r.kind)),
      "through" := DumpOptional(r.through)])
  }

  /** The source entity is read under its alias "from" when that key is present,
      otherwise under the field name "from_entity" (`populate_by_name`). */
  function LoadRelationship(v: Value): Result<Relationship, LoadError> {
    var f :- AsObject(v, "relationship");
    var from :- if "from" in f then RequiredStr(f, "from") else RequiredStr(f, "from_entity");
    var to :- RequiredStr(f, "to");
    var kindText :- RequiredStr(f, "type");
    var kind :- ParseCardinality(kindText);
    var through :- OptionalStr(f, "through");
    Success(Relationship(from, to, kind, through))
  }

  function DumpRequirements(r: Requirements): Value {
    Object(map[
      "entities" := Array(DumpSeq(r.entities, DumpEntity)),
      "relationships" := Array(DumpSeq(r.relationships, DumpRelationship)),
      "assumptions" := DumpStrings(r.assumptions),
      "out_of_scope" := DumpStrings(r.outOfScope)])
  }

  function LoadRequirements(v: Value): Result<Requirements, LoadError> {
    var f :- AsObject(v, "requirements");
    var entities :- RequiredList(f, "entities", LoadEntity);
    var relationships :- RequiredList(f, "relationships", LoadRelationship);
    var assumptions :- RequiredList(f, "assumptions", LoadString);
    var outOfScope :- RequiredList(f, "out_of_scope", LoadString);
    Success(Requirements(entities, relationships, assumptions, outOfScope))
  }

  lemma RelationshipRoundTrip(r: Relationship)
    ensures LoadRelationship(DumpRelationship(r)) == Success(r)
  {
    match r.kind
    case OneToOne =>
    case OneToMany =>
    case ManyToMany =>
  }

  /** A relationship written by the requirements agent under the alias "from"
      loads, with no junction table. */
  lemma FromAliasLoads(a: string, b: string, k: Cardinality)
    ensures LoadRelationship(Object(map["from" := Str(a), "to" := Str(b), "type" := Str(CardinalityText(k))]))
         == Success(Relationship(a, b, k, None))
  {
  }

  /** When both spellings are present the alias "from" is the one read. */
  lemma FromAliasWins(a: string, e: string, b: string, k: Cardinality)
    ensures LoadRelationship(Object(map["from" := Str(a), "from_entity" := Str(e), "to" := Str(b),
                                        "type" := Str(CardinalityText(k))])).value.fromEntity == a
  {
  }

  /** `RequirementsOutput.model_validate(requirements.model_dump())` gives back
      the same requirements. */
  lemma RequirementsRoundTrip(r: Requirements)
    ensures LoadRequirements(DumpRequirements(r)) == Success(r)
  {
    forall i | 0 <= i < |r.relationships|
      ensures LoadRelationship(DumpRelationship(r.relationships[i])) == Success(r.relationships[i])
    {
      RelationshipRoundTrip(r.relationships[i]);
    }
    var f := DumpRequirements(r).fields;
    ListFieldRoundTrip(f, "entities", r.entities, DumpEntity, LoadEntity);
    ListFieldRoundTrip(f, "relationships", r.relationships, DumpRelationship, LoadRelationship);
    ListFieldRoundTrip(f, "assumptions", r.assumptions, DumpString, LoadString);
    ListFieldRoundTrip(f, "out_of_scope", r.outOfScope, DumpString, LoadString);
  }

  // ---------------------------------------------------------------------------
  // DatabaseDesignOutput
  // ---------------------------------------------------------------------------

  function DumpColumn(c: Column): Value {
    Object(map["name" := Str(c.name), "type" := Str(c.colType), "constraints" := DumpStrings(c.constraints)])
  }

  function LoadColumn(v: Value): Result<Column, LoadError> {
    var f :- AsObject(v, "column");
    var name :- RequiredStr(f, "name");
    var colType :- RequiredStr(f, "type");
    var constraints :- ListOrEmpty(f, "constraints", LoadString);
    Success(Column(name, colType, constraints))
  }

  function DumpTable(t: Table): Value {
    Object(map["name" := Str(t.name), "columns" := Array(DumpSeq(t.columns, DumpColumn))])
  }

  function LoadTable(v: Value): Result<Table, LoadError> {
    var f :- AsObject(v, "table");
    var name :- RequiredStr(f, "name");
    var columns :- RequiredList(f, "columns", LoadColumn);
    Success(Table(name, columns))
  }

  function DumpDesign(d: DatabaseDesign): Value {
    Object(map[
      "tables" := Array(DumpSeq(d.tables, DumpTable)),
      "normalization_level" := Str(d.normalizationLevel),
      "design_rationale" := DumpStrings(d.designRationale),
      "sql_schema" := Str(d.sqlSchema)])
  }

  function LoadDesign(v: Value): Result<DatabaseDesign, LoadError> {
    var f :- AsObject(v, "database_design");
    var tables :- RequiredList(f, "tables", LoadTable);
    var level :- StrOr(f, "normalization_level", DefaultNormalizationLevel);
    var rationale :- RequiredList(f, "design_rationale", LoadString);
    var sql :- RequiredStr(f, "sql_schema");
    Success(DatabaseDesign(tables, level, rationale, sql))
  }

  lemma ColumnRoundTrip(c: Column)
    ensures LoadColumn(DumpColumn(c)) == Success(c)
  {
    StringsRoundTrip(c.constraints);
  }

  lemma TableRoundTrip(t: Table)
    ensures LoadTable(DumpTable(t)) == Success(t)
  {
    forall i | 0 <= i < |t.columns|
      ensures LoadColumn(DumpColumn(t.columns[i])) == Success(t.columns[i])
    {
      ColumnRoundTrip(t.columns[i]);
    }
    SeqRoundTrip(t.columns, DumpColumn, LoadColumn);
  }

  /** `DatabaseDesignOutput.model_validate(db_design.model_dump())` gives back
      the same design, tables, columns and constraints included. */
  lemma DesignRoundTrip(d: DatabaseDesign)
    ensures LoadDesign(DumpDesign(d)) == Success(d)
  {
    forall i | 0 <= i < |d.tables|
      ensures LoadTable(DumpTable(d.tables[i])) == Success(d.tables[i])
    {
      TableRoundTrip(d.tables[i]);
    }
    var f := DumpDesign(d).fields;
    ListFieldRoundTrip(f, "tables", d.tables, DumpTable, LoadTable);
    ListFieldRoundTrip(f, "design_rationale", d.designRationale, DumpString, LoadString);
  }

  // ---------------------------------------------------------------------------
  // ReviewOutput
  // ---------------------------------------------------------------------------

  function RiskText(r: RiskLevel): string {
    match r
    case Low => "LOW"
    case Medium => "MEDIUM"
    case High => "HIGH"
  }

  function ParseRisk(s: string): Result<RiskLevel, LoadError> {
    if s == "LOW" then Success(Low)
    else if s == "MEDIUM" then Success(Medium)
    else if s == "HIGH" then Success(High)
    else Failure(Mistyped("risk_level"))
  }

  function DumpReview(r: Review): Value {
    Object(map[
      "assessment" := Str(r.assessment),
      "issues" := DumpStrings(r.issues),
      "risk_level" := Str(RiskText(r.riskLevel)),
      "approval_required" := Bool(r.approvalRequired)])
  }

  function LoadReview(v: Value): Result<Review, LoadError> {
    var f :- AsObject(v, "review");
    var assessment :- RequiredStr(f, "assessment");
    var issues :- ListOrEmpty(f, "issues", LoadString);
    var riskText :- RequiredStr(f, "risk_level");
    var risk :- ParseRisk(riskText);
    var approvalRequired :- RequiredBool(f, "approval_required");
    Success(Review(assessment, issues, risk, approvalRequired))
  }

  /** `ReviewOutput.model_validate(review.model_dump())` gives back the same review. */
  lemma ReviewRoundTrip(r: Review)
    ensures LoadReview(DumpReview(r)) == Success(r)
  {
    StringsRoundTrip(r.issues);
    match r.riskLevel
    case Low =>
    case Medium =>
    case High =>
  }

  // ---------------------------------------------------------------------------
  // GitStrategyOutput
  // ---------------------------------------------------------------------------

  function DumpRepoFile(f: RepoFile): Value {
    Object(map["path" := Str(f.path), "content" := Str(f.content)])
  }

  function LoadRepoFile(v: Value): Result<RepoFile, LoadError> {
    var f :- AsObject(v, "file");
    var path :- RequiredStr(f, "path");
    var content :- RequiredStr(f, "content");
    Success(RepoFile(path, content))
  }

  function DumpGitStrategy(g: GitStrategy): Value {
    Object(map[
      "branch_name" := Str(g.branchName),
      "base_branch" := Str(g.baseBranch),
      "repository_structure" := DumpStrings(g.repositoryStructure),
      "action" := Str(g.action),
      "files" := Array(DumpSeq(g.files, DumpRepoFile))])
  }

  function LoadGitStrategy(v: Value): Result<GitStrategy, LoadError> {
    var f :- AsObject(v, "git_strategy");
    var branch :- RequiredStr(f, "branch_name");
    var base :- StrOr(f, "base_branch", DefaultBaseBranch);
    var structure :- RequiredList(f, "repository_structure", LoadString);
    var action :- RequiredStr(f, "action");
    var files :- ListOrEmpty(f, "files", LoadRepoFile);
    Success(GitStrategy(branch, base, structure, action, files))
  }

  /** The strategy dumped into `OrchestrationResult.git["strategy"]` loads back
      to the strategy the git agent proposed. */
  lemma GitStrategyRoundTrip(g: GitStrategy)
    ensures LoadGitStrategy(DumpGitStrategy(g)) == Success(g)
  {
    var f := DumpGitStrategy(g).fields;
    ListFieldRoundTrip(f, "repository_structure", g.repositoryStructure, DumpString, LoadString);
    ListFieldRoundTrip(f, "files", g.files, DumpRepoFile, LoadRepoFile);
  }

  // ---------------------------------------------------------------------------
  // ApprovalResponse
  // ---------------------------------------------------------------------------

  function LoadApproval(v: Value): Result<ApprovalResponse, LoadError> {
    var f :- AsObject(v, "approval");
    var approved :- RequiredBool(f, "approved");
    var comments :- OptionalStr(f, "comments");
    var approvedBy :- OptionalStr(f, "approved_by");
    Success(ApprovalResponse(approved, comments, approvedBy))
  }

  // ---------------------------------------------------------------------------
  // Field defaults
  // ---------------------------------------------------------------------------

  /** A design dictionary without "normalization_level" loads as "3NF". */
  lemma NormalizationLevelDefault(d: DatabaseDesign)
    ensures LoadDesign(Object(DumpDesign(d).fields - {"normalization_level"}))
         == Success(d.(normalizationLevel := "3NF"))
  {
    DesignRoundTrip(d);
  }

  /** A column dictionary without "constraints" loads with no constraints. */
  lemma ConstraintsDefault(name: string, colType: string)
    ensures LoadColumn(Object(map["name" := Str(name), "type" := Str(colType)]))
         == Success(Column(name, colType, []))
  {
  }

  /** A review dictionary without "issues" loads with no issues. */
  lemma ReviewIssuesDefault(r: Review)
    ensures LoadReview(Object(DumpReview(r).fields - {"issues"})) == Success(r.(issues := []))
  {
    ReviewRoundTrip(r);
  }

  /** A strategy dictionary without "base_branch" and "files" loads with base
      branch "main" and no files. */
  lemma GitStrategyDefaults(g: GitStrategy)
    ensures LoadGitStrategy(Object(DumpGitStrategy(g).fields - {"base_branch", "files"}))
         == Success(g.(baseBranch := "main", files := []))
  {
    GitStrategyRoundTrip(g);
  }

  /** A relationship dictionary without "through" loads with `through` None. */
  lemma ThroughDefault(r: Relationship)
    ensures LoadRelationship(Object(DumpRelationship(r).fields - {"through"}))
         == Success(r.(through := None))
  {
    RelationshipRoundTrip(r);
  }

  /** An approval dictionary holding only "approved" loads with no comments and no approver. */
  lemma ApprovalDefaults(approved: bool)
    ensures LoadApproval(Object(map["approved" := Bool(approved)])) == Success(ApprovalResponse(approved, None, None))
  {
  }

  /** Loading is strict about required fields: a design without "tables" is refused. */
  lemma DesignRequiresTables(d: DatabaseDesign)
    ensures LoadDesign(Object(DumpDesign(d).fields - {"tables"})) == Failure(Missing("tables"))
  {
  }
}
