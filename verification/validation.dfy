/** The deterministic structural validator of a database design
    (app/skills/validation_skill.py). It reads the design as a dictionary, so
    any key may be absent: the record view below gives every field an `Option`
    holding what `.get` returns, and keeps apart the keys bound to `None`.
    The validator never stops at the first problem; it reports every violated
    rule, in the order key checks, normalization, tables, SQL. */
module Validation {
  import opened Wrappers
  import opened Schemas

  // ---------------------------------------------------------------------------
  // The dictionary view of a design
  // ---------------------------------------------------------------------------

  datatype ColumnRecord = ColumnRecord(name: Option<string>, colType: Option<string>)

  datatype TableRecord = TableRecord(name: Option<string>, columns: Option<seq<ColumnRecord>>)

  /** A field is `None` when `.get` finds no value: the key is absent, or it is
      one of `nullKeys`, present in the dictionary but bound to `None`. */
  datatype DesignRecord = DesignRecord(
    tables: Option<seq<TableRecord>>,
    normalizationLevel: Option<string>,
    designRationale: Option<seq<string>>,
    sqlSchema: Option<string>,
    nullKeys: set<Key>)

  /** `db_design.model_dump()` seen through the record view: every key present. */
  function RecordOf(d: DatabaseDesign): DesignRecord {
    DesignRecord(
      Some(seq(|d.tables|, i requires 0 <= i < |d.tables| => TableRecordOf(d.tables[i]))),
      Some(d.normalizationLevel),
      Some(d.designRationale),
      Some(d.sqlSchema),
      {})
  }

  function TableRecordOf(t: Table): TableRecord {
    TableRecord(
      Some(t.name),
      Some(seq(|t.columns|, j requires 0 <= j < |t.columns| => ColumnRecord(Some(t.columns[j].name), Some(t.columns[j].colType)))))
  }

  /** The keys checked, in the order the validator checks them. */
  const RequiredKeys: seq<Key> := [TablesKey, NormalizationLevelKey, DesignRationaleKey, SqlSchemaKey]

  function KeyIndex(k: Key): nat {
    match k
    case TablesKey => 0
    case NormalizationLevelKey => 1
    case DesignRationaleKey => 2
    case SqlSchemaKey => 3
  }

  /** `key in db_design`: a value is there, or the key is bound to `None`. */
  predicate Present(d: DesignRecord, k: Key) {
    k in d.nullKeys ||
    match k
    case TablesKey => d.tables.Some?
    case NormalizationLevelKey => d.normalizationLevel.Some?
    case DesignRationaleKey => d.designRationale.Some?
    case SqlSchemaKey => d.sqlSchema.Some?
  }

  /** `not d.get(key)` for a string value: absent or the empty string. */
  predicate Blank(o: Option<string>) {
    o.None? || o.value == ""
  }

  /** `not db_design.get("tables")`: absent or the empty list. */
  predicate NoTablesDefined(d: DesignRecord) {
    d.tables.None? || d.tables.value == []
  }

  /** `not table.get("columns")`: absent or the empty list. */
  predicate NoColumns(t: TableRecord) {
    t.columns.None? || t.columns.value == []
  }

  function TablesOf(d: DesignRecord): seq<TableRecord> {
    if d.tables.Some? then d.tables.value else []
  }

  function ColumnsOf(t: TableRecord): seq<ColumnRecord> {
    if t.columns.Some? then t.columns.value else []
  }

  /** `x.get('name', n)` as printed in a message: the name if the key is present, else `n`. */
  function LabelOf(name: Option<string>, n: nat): Label {
    match name
    case Some(s) => Named(s)
    case None => Numbered(n)
  }

  // ---------------------------------------------------------------------------
  // Python's str.strip()
  // ---------------------------------------------------------------------------

  /** `str.isspace()` for one character: ASCII whitespace, the information
      separators U+001C..U+001F, and the Unicode space separators. */
  predicate IsSpace(c: char) {
    var n := c as int;
    (9 <= n <= 13) || (28 <= n <= 32) || n == 0x85 || n == 0xA0 || n == 0x1680
    || (0x2000 <= n <= 0x200A) || n == 0x2028 || n == 0x2029 || n == 0x202F
    || n == 0x205F || n == 0x3000
  }

  /** `lstrip()`: drops leading whitespace. */
  function StripLeading(s: string): string {
    if s == [] || !IsSpace(s[0]) then s else StripLeading(s[1..])
  }

  /** `rstrip()`: drops trailing whitespace. */
  function StripTrailing(s: string): string {
    if s == [] || !IsSpace(s[|s| - 1]) then s else StripTrailing(s[..|s| - 1])
  }

  function Strip(s: string): string {
    StripTrailing(StripLeading(s))
  }

  /** `lstrip()` leaves nothing exactly when every character is whitespace. */
  lemma {:induction false} StripLeadingEmpty(s: string)
    ensures StripLeading(s) == [] <==> forall i :: 0 <= i < |s| ==> IsSpace(s[i])
  {
    if s != [] && IsSpace(s[0]) {
      StripLeadingEmpty(s[1..]);
      assert forall i :: 1 <= i < |s| ==> s[i] == s[1..][i - 1];
    }
  }

  /** `rstrip()` leaves nothing only from an all-whitespace string, and
      leaves a string ending in a non-space character otherwise. */
  lemma {:induction false} StripTrailingEmpty(s: string)
    ensures StripTrailing(s) == [] <==> forall i :: 0 <= i < |s| ==> IsSpace(s[i])
  {
    if s != [] && IsSpace(s[|s| - 1]) {
      StripTrailingEmpty(s[..|s| - 1]);
      assert forall i :: 0 <= i < |s| - 1 ==> s[i] == s[..|s| - 1][i];
    }
  }

  /** A string strips to nothing exactly when every character is whitespace. */
  lemma StripEmptyIffAllSpace(s: string)
    ensures Strip(s) == "" <==> forall i :: 0 <= i < |s| ==> IsSpace(s[i])
  {
    var l := StripLeading(s);
    StripLeadingEmpty(s);
    StripTrailingEmpty(l);
    StripLeadingHead(s);
    if l != [] {
      assert !IsSpace(l[0]);
    }
  }

  /** What `lstrip()` leaves, if anything, starts with a non-space character. */
  lemma {:induction false} StripLeadingHead(s: string)
    ensures StripLeading(s) == [] || !IsSpace(StripLeading(s)[0])
  {
    if s != [] && IsSpace(s[0]) {
      StripLeadingHead(s[1..]);
    }
  }

  /** `not sql or sql.strip() == ""`. */
  predicate EmptySql(o: Option<string>) {
    o.None? || o.value == "" || Strip(o.value) == ""
  }

  lemma EmptySqlIffAllSpace(sql: string)
    ensures EmptySql(Some(sql)) <==> forall i :: 0 <= i < |sql| ==> IsSpace(sql[i])
  {
    StripEmptyIffAllSpace(sql);
  }

  // ---------------------------------------------------------------------------
  // validate_db_design
  // ---------------------------------------------------------------------------

  function MissingKeyIssues(d: DesignRecord, keys: seq<Key>): seq<Issue> {
    if keys == [] then []
    else IfAbsent(d, keys[0]) + MissingKeyIssues(d, keys[1..])
  }

  function IfAbsent(d: DesignRecord, k: Key): seq<Issue> {
    if Present(d, k) then [] else [MissingKey(k)]
  }

  /** The key checks unrolled over the four required keys. */
  lemma KeyChecksUnrolled(d: DesignRecord)
    ensures MissingKeyIssues(d, RequiredKeys)
         == IfAbsent(d, TablesKey) + IfAbsent(d, NormalizationLevelKey)
            + IfAbsent(d, DesignRationaleKey) + IfAbsent(d, SqlSchemaKey)
  {
    var k0 := RequiredKeys;
    var k1 := [NormalizationLevelKey, DesignRationaleKey, SqlSchemaKey];
    var k2 := [DesignRationaleKey, SqlSchemaKey];
    var k3 := [SqlSchemaKey];
    assert k0[1..] == k1 && k1[1..] == k2 && k2[1..] == k3 && k3[1..] == [];
    assert MissingKeyIssues(d, k3) == IfAbsent(d, SqlSchemaKey);
    assert MissingKeyIssues(d, k2) == IfAbsent(d, DesignRationaleKey) + MissingKeyIssues(d, k3);
    assert MissingKeyIssues(d, k1) == IfAbsent(d, NormalizationLevelKey) + MissingKeyIssues(d, k2);
    assert MissingKeyIssues(d, k0) == IfAbsent(d, TablesKey) + MissingKeyIssues(d, k1);
  }

  function NormalizationIssues(d: DesignRecord): seq<Issue> {
    if d.normalizationLevel != Some("3NF") then [NotMarked3NF] else []
  }

  /** The checks of the columns `cols[j..]` of the table named `tableName`. */
  function ColumnIssues(cols: seq<ColumnRecord>, tableName: Option<string>, j: nat): seq<Issue>
    requires j <= |cols|
    decreases |cols| - j
  {
    if j == |cols| then []
    else
      (if Blank(cols[j].name) then [ColumnMissingName(j + 1, tableName)] else [])
      + (if Blank(cols[j].colType) then [ColumnMissingType(LabelOf(cols[j].name, j + 1), tableName)] else [])
      + ColumnIssues(cols, tableName, j + 1)
  }

  /** The checks of one table at 0-based position `i`; columns are inspected
      only when the table has some. */
  function TableIssues(t: TableRecord, i: nat): seq<Issue> {
    (if Blank(t.name) then [TableMissingName(i + 1)] else [])
    + (if NoColumns(t) then [TableWithoutColumns(LabelOf(t.name, i + 1))]
       else ColumnIssues(t.columns.value, t.name, 0))
  }

  /** The checks of the tables `ts[i..]`. */
  function TablesIssues(ts: seq<TableRecord>, i: nat): seq<Issue>
    requires i <= |ts|
    decreases |ts| - i
  {
    if i == |ts| then [] else TableIssues(ts[i], i) + TablesIssues(ts, i + 1)
  }

  function TableSectionIssues(d: DesignRecord): seq<Issue> {
    if NoTablesDefined(d) then [NoTables] else TablesIssues(d.tables.value, 0)
  }

  function SqlIssues(d: DesignRecord): seq<Issue> {
    if EmptySql(d.sqlSchema) then [EmptySqlSchema] else []
  }

  /** `validate_db_design`: a design is valid exactly when no issue was found. */
  function Validate(d: DesignRecord): (r: ValidationResult)
    ensures r.isValid <==> r.issues == []
  {
    var issues := MissingKeyIssues(d, RequiredKeys) + NormalizationIssues(d)
                  + TableSectionIssues(d) + SqlIssues(d);
    ValidationResult(|issues| == 0, issues)
  }

  // ---------------------------------------------------------------------------
  // Which issues are reported: an independent, declarative description
  // ---------------------------------------------------------------------------

  /** The problems of the single column `c` at 0-based position `k` of the
      table named `tn`. */
  ghost predicate ColumnProblem(c: ColumnRecord, k: nat, tn: Option<string>, x: Issue) {
    match x
    case ColumnMissingName(m, t) => t == tn && m == k + 1 && Blank(c.name)
    case ColumnMissingType(l, t) => t == tn && Blank(c.colType) && l == LabelOf(c.name, k + 1)
    case _ => false
  }

  /** Some column among `cols[j..]` of the table named `tn` has problem `x`. */
  ghost predicate ColumnFlags(cols: seq<ColumnRecord>, tn: Option<string>, j: nat, x: Issue) {
    exists k :: j <= k < |cols| && ColumnProblem(cols[k], k, tn, x)
  }

  /** The problems of the single table `t` at 0-based position `i`, its
      columns included. */
  ghost predicate OwnFlags(t: TableRecord, i: nat, x: Issue) {
    match x
    case TableMissingName(n) => n == i + 1 && Blank(t.name)
    case TableWithoutColumns(l) => NoColumns(t) && l == LabelOf(t.name, i + 1)
    case ColumnMissingName(_, _) => ColumnFlags(ColumnsOf(t), t.name, 0, x)
    case ColumnMissingType(_, _) => ColumnFlags(ColumnsOf(t), t.name, 0, x)
    case _ => false
  }

  /** Some table among `ts[i..]` has problem `x`. */
  ghost predicate TableFlags(ts: seq<TableRecord>, i: nat, x: Issue) {
    exists k :: i <= k < |ts| && OwnFlags(ts[k], k, x)
  }

  /** Every problem the validator is meant to report about `d`. A table without
      columns has no column problems, and when there are no tables there are no
      table problems, because `TablesOf` and `ColumnsOf` are then empty. */
  ghost predicate Flags(d: DesignRecord, x: Issue) {
    match x
    case MissingKey(k) => !Present(d, k)
    case NotMarked3NF => d.normalizationLevel != Some("3NF")
    case NoTables => NoTablesDefined(d)
    case EmptySqlSchema => EmptySql(d.sqlSchema)
    case _ => TableFlags(TablesOf(d), 0, x)
  }

  /** A problem among `cols[j..]` is a problem of `cols[j]` or one among `cols[j + 1..]`. */
  lemma ColumnFlagsSplit(cols: seq<ColumnRecord>, tn: Option<string>, j: nat, x: Issue)
    requires j < |cols|
    ensures ColumnFlags(cols, tn, j, x) <==> ColumnProblem(cols[j], j, tn, x) || ColumnFlags(cols, tn, j + 1, x)
  {
    if ColumnFlags(cols, tn, j, x) {
      var k :| j <= k < |cols| && ColumnProblem(cols[k], k, tn, x);
      assert k == j || ColumnFlags(cols, tn, j + 1, x);
    }
    if ColumnFlags(cols, tn, j + 1, x) {
      var k :| j + 1 <= k < |cols| && ColumnProblem(cols[k], k, tn, x);
      assert j <= k;
    }
  }

  lemma ColumnIssuesStep(cols: seq<ColumnRecord>, tn: Option<string>, j: nat, x: Issue)
    requires j < |cols|
    ensures x in ColumnIssues(cols, tn, j) <==> ColumnProblem(cols[j], j, tn, x) || x in ColumnIssues(cols, tn, j + 1)
  {
  }

  /** `ColumnFlags` unrolled column by column, the shape `ColumnIssues` recurses in. */
  ghost predicate ColumnFlagsFrom(cols: seq<ColumnRecord>, tn: Option<string>, j: nat, x: Issue)
    requires j <= |cols|
    decreases |cols| - j
  {
    j < |cols| && (ColumnProblem(cols[j], j, tn, x) || ColumnFlagsFrom(cols, tn, j + 1, x))
  }

  lemma {:induction false} ColumnFlagsUnrolled(cols: seq<ColumnRecord>, tn: Option<string>, j: nat, x: Issue)
    requires j <= |cols|
    ensures ColumnFlagsFrom(cols, tn, j, x) <==> ColumnFlags(cols, tn, j, x)
    decreases |cols| - j
  {
    if j < |cols| {
      ColumnFlagsUnrolled(cols, tn, j + 1, x);
      ColumnFlagsSplit(cols, tn, j, x);
    }
  }

  lemma {:induction false} ReportedColumnIssuesFlagged(cols: seq<ColumnRecord>, tn: Option<string>, j: nat, x: Issue)
    requires j <= |cols|
    requires x in ColumnIssues(cols, tn, j)
    ensures ColumnFlagsFrom(cols, tn, j, x)
    decreases |cols| - j
  {
    ColumnIssuesStep(cols, tn, j, x);
    if !ColumnProblem(cols[j], j, tn, x) {
      ReportedColumnIssuesFlagged(cols, tn, j + 1, x);
    }
  }

  lemma {:induction false} FlaggedColumnIssuesReported(cols: seq<ColumnRecord>, tn: Option<string>, j: nat, x: Issue)
    requires j <= |cols|
    requires ColumnFlagsFrom(cols, tn, j, x)
    ensures x in ColumnIssues(cols, tn, j)
    decreases |cols| - j
  {
    ColumnIssuesStep(cols, tn, j, x);
    if !ColumnProblem(cols[j], j, tn, x) {
      FlaggedColumnIssuesReported(cols, tn, j + 1, x);
    }
  }

  lemma ColumnIssuesExactly(cols: seq<ColumnRecord>, tn: Option<string>, j: nat, x: Issue)
    requires j <= |cols|
    ensures x in ColumnIssues(cols, tn, j) <==> ColumnFlags(cols, tn, j, x)
  {
    if x in ColumnIssues(cols, tn, j) {
      ReportedColumnIssuesFlagged(cols, tn, j, x);
    }
    if ColumnFlagsFrom(cols, tn, j, x) {
      FlaggedColumnIssuesReported(cols, tn, j, x);
    }
    ColumnFlagsUnrolled(cols, tn, j, x);
  }

  lemma TableIssuesExactly(t: TableRecord, i: nat, x: Issue)
    ensures x in TableIssues(t, i) <==> OwnFlags(t, i, x)
  {
    if !NoColumns(t) {
      ColumnIssuesExactly(t.columns.value, t.name, 0, x);
    }
  }

  /** A problem among `ts[i..]` is a problem of `ts[i]` or one among `ts[i + 1..]`. */
  lemma TableFlagsSplit(ts: seq<TableRecord>, i: nat, x: Issue)
    requires i < |ts|
    ensures TableFlags(ts, i, x) <==> OwnFlags(ts[i], i, x) || TableFlags(ts, i + 1, x)
  {
    if TableFlags(ts, i, x) {
      var k :| i <= k < |ts| && OwnFlags(ts[k], k, x);
      assert k == i || TableFlags(ts, i + 1, x);
    }
    if TableFlags(ts, i + 1, x) {
      var k :| i + 1 <= k < |ts| && OwnFlags(ts[k], k, x);
      assert i <= k;
    }
  }

  lemma TablesIssuesStep(ts: seq<TableRecord>, i: nat, x: Issue)
    requires i < |ts|
    ensures x in TablesIssues(ts, i) <==> x in TableIssues(ts[i], i) || x in TablesIssues(ts, i + 1)
  {
  }

  lemma TablesIssuesHead(ts: seq<TableRecord>, i: nat, x: Issue)
    requires i < |ts|
    ensures x in TablesIssues(ts, i) <==> OwnFlags(ts[i], i, x) || x in TablesIssues(ts, i + 1)
  {
    TableIssuesExactly(ts[i], i, x);
    TablesIssuesStep(ts, i, x);
  }

  /** `TableFlags` unrolled table by table, the shape `TablesIssues` recurses in. */
  ghost predicate TableFlagsFrom(ts: seq<TableRecord>, i: nat, x: Issue)
    requires i <= |ts|
    decreases |ts| - i
  {
    i < |ts| && (OwnFlags(ts[i], i, x) || TableFlagsFrom(ts, i + 1, x))
  }

  lemma {:induction false} TableFlagsUnrolled(ts: seq<TableRecord>, i: nat, x: Issue)
    requires i <= |ts|
    ensures TableFlagsFrom(ts, i, x) <==> TableFlags(ts, i, x)
    decreases |ts| - i
  {
    if i < |ts| {
      TableFlagsUnrolled(ts, i + 1, x);
      TableFlagsSplit(ts, i, x);
    }
  }

  lemma {:induction false} ReportedTablesIssuesFlagged(ts: seq<TableRecord>, i: nat, x: Issue)
    requires i <= |ts|
    requires x in TablesIssues(ts, i)
    ensures TableFlagsFrom(ts, i, x)
    decreases |ts| - i
  {
    TablesIssuesHead(ts, i, x);
    if !OwnFlags(ts[i], i, x) {
      ReportedTablesIssuesFlagged(ts, i + 1, x);
    }
  }

  lemma {:induction false} FlaggedTablesIssuesReported(ts: seq<TableRecord>, i: nat, x: Issue)
    requires i <= |ts|
    requires TableFlagsFrom(ts, i, x)
    ensures x in TablesIssues(ts, i)
    decreases |ts| - i
  {
    TablesIssuesHead(ts, i, x);
    if !OwnFlags(ts[i], i, x) {
      FlaggedTablesIssuesReported(ts, i + 1, x);
    }
  }

  lemma TablesIssuesExactly(ts: seq<TableRecord>, i: nat, x: Issue)
    requires i <= |ts|
    ensures x in TablesIssues(ts, i) <==> TableFlags(ts, i, x)
  {
    if x in TablesIssues(ts, i) {
      ReportedTablesIssuesFlagged(ts, i, x);
    }
    if TableFlagsFrom(ts, i, x) {
      FlaggedTablesIssuesReported(ts, i, x);
    }
    TableFlagsUnrolled(ts, i, x);
  }

  lemma {:induction false} MissingKeyIssuesExactly(d: DesignRecord, keys: seq<Key>, x: Issue)
    ensures x in MissingKeyIssues(d, keys) <==> x.MissingKey? && x.key in keys && !Present(d, x.key)
  {
    if keys != [] {
      MissingKeyIssuesExactly(d, keys[1..], x);
      assert keys == [keys[0]] + keys[1..];
    }
  }

  /** The report is the concatenation of the four sections. */
  lemma IssueSections(d: DesignRecord, x: Issue)
    ensures x in Validate(d).issues
        <==> x in MissingKeyIssues(d, RequiredKeys) || x in NormalizationIssues(d)
             || x in TableSectionIssues(d) || x in SqlIssues(d)
  {
  }

  lemma KeySectionExactly(d: DesignRecord, x: Issue)
    ensures x in MissingKeyIssues(d, RequiredKeys) <==> x.MissingKey? && !Present(d, x.key)
  {
    MissingKeyIssuesExactly(d, RequiredKeys, x);
    if x.MissingKey? {
      assert x.key in RequiredKeys by {
        match x.key
        case TablesKey => assert RequiredKeys[0] == TablesKey;
        case NormalizationLevelKey => assert RequiredKeys[1] == NormalizationLevelKey;
        case DesignRationaleKey => assert RequiredKeys[2] == DesignRationaleKey;
        case SqlSchemaKey => assert RequiredKeys[3] == SqlSchemaKey;
      }
    }
  }

  lemma TableSectionExactly(d: DesignRecord, x: Issue)
    ensures x in TableSectionIssues(d) <==> (if x.NoTables? then NoTablesDefined(d) else TableFlags(TablesOf(d), 0, x))
  {
    if !NoTablesDefined(d) {
      TablesIssuesExactly(d.tables.value, 0, x);
    } else if x.NoTables? {
      assert TableSectionIssues(d) == [NoTables];
    } else {
      assert TableSectionIssues(d) == [NoTables];
      assert TablesOf(d) == [];
    }
  }

  /** An issue is reported exactly when the design violates the corresponding
      rule: the validator neither misses a violation nor invents one. */
  lemma ValidateReportsExactlyTheViolations(d: DesignRecord, x: Issue)
    ensures x in Validate(d).issues <==> Flags(d, x)
  {
    IssueSections(d, x);
    KeySectionExactly(d, x);
    TableSectionExactly(d, x);
    if x.NoTables? {
      assert TableFlags(TablesOf(d), 0, x) == false;
    }
  }

  /** When there are no tables, the only table-related issue is "No tables
      defined": no per-table and no per-column issue is reported. */
  lemma NoTablesMeansNoTableChecks(d: DesignRecord, x: Issue)
    requires NoTablesDefined(d)
    requires x.TableMissingName? || x.TableWithoutColumns? || x.ColumnMissingName? || x.ColumnMissingType?
    ensures x !in Validate(d).issues
    ensures NoTables in Validate(d).issues
  {
    ValidateReportsExactlyTheViolations(d, x);
    ValidateReportsExactlyTheViolations(d, NoTables);
  }

  /** An empty or whitespace-only SQL text is reported as "SQL schema is empty". */
  lemma BlankSqlReported(d: DesignRecord)
    requires d.sqlSchema.Some?
    ensures EmptySqlSchema in Validate(d).issues <==> forall i :: 0 <= i < |d.sqlSchema.value| ==> IsSpace(d.sqlSchema.value[i])
  {
    ValidateReportsExactlyTheViolations(d, EmptySqlSchema);
    assert Flags(d, EmptySqlSchema) == EmptySql(d.sqlSchema);
    StripEmptyIffAllSpace(d.sqlSchema.value);
  }

  // ---------------------------------------------------------------------------
  // How many times, and in which order
  // ---------------------------------------------------------------------------

  /** The first column contributes at most its own "missing a name" issue. */
  lemma ColumnNameIssueStep(cols: seq<ColumnRecord>, tn: Option<string>, j: nat, m: nat)
    requires j < |cols|
    ensures multiset(ColumnIssues(cols, tn, j))[ColumnMissingName(m, tn)]
         == (if m == j + 1 && Blank(cols[j].name) then 1 else 0)
            + multiset(ColumnIssues(cols, tn, j + 1))[ColumnMissingName(m, tn)]
  {
    var x := ColumnMissingName(m, tn);
    var named := if Blank(cols[j].name) then [ColumnMissingName(j + 1, tn)] else [];
    var typed := if Blank(cols[j].colType) then [ColumnMissingType(LabelOf(cols[j].name, j + 1), tn)] else [];
    var rest := ColumnIssues(cols, tn, j + 1);
    assert ColumnIssues(cols, tn, j) == named + typed + rest;
    assert multiset(named + typed + rest)[x] == multiset(named)[x] + multiset(typed)[x] + multiset(rest)[x];
  }

  lemma {:induction false} ColumnNameIssueCount(cols: seq<ColumnRecord>, tn: Option<string>, j: nat, m: nat)
    requires j <= |cols|
    ensures multiset(ColumnIssues(cols, tn, j))[ColumnMissingName(m, tn)]
         == if j + 1 <= m <= |cols| && Blank(cols[m - 1].name) then 1 else 0
    decreases |cols| - j
  {
    if j < |cols| {
      ColumnNameIssueCount(cols, tn, j + 1, m);
      ColumnNameIssueStep(cols, tn, j, m);
      if m == j + 1 {
        assert multiset(ColumnIssues(cols, tn, j + 1))[ColumnMissingName(m, tn)] == 0;
      } else {
        assert (j + 1 <= m <= |cols|) == (j + 2 <= m <= |cols|);
      }
    }
  }

  /** Within one table, each column without a name is reported once, and
      nothing is said about the columns of a table that has none. */
  lemma OneIssuePerNamelessColumn(t: TableRecord, i: nat, m: nat)
    ensures multiset(TableIssues(t, i))[ColumnMissingName(m, t.name)]
         == if 1 <= m <= |ColumnsOf(t)| && Blank(ColumnsOf(t)[m - 1].name) then 1 else 0
  {
    if !NoColumns(t) {
      ColumnNameIssueCount(t.columns.value, t.name, 0, m);
    }
  }

  lemma TableNameIssueCountOne(t: TableRecord, i: nat, n: nat)
    ensures multiset(TableIssues(t, i))[TableMissingName(n)] == if n == i + 1 && Blank(t.name) then 1 else 0
  {
    if !NoColumns(t) {
      ColumnIssuesExactly(t.columns.value, t.name, 0, TableMissingName(n));
    }
  }

  lemma {:induction false} TableNameIssueCount(ts: seq<TableRecord>, i: nat, n: nat)
    requires i <= |ts|
    ensures multiset(TablesIssues(ts, i))[TableMissingName(n)]
         == if i + 1 <= n <= |ts| && Blank(ts[n - 1].name) then 1 else 0
    decreases |ts| - i
  {
    if i < |ts| {
      TableNameIssueCount(ts, i + 1, n);
      TableNameIssueCountOne(ts[i], i, n);
      assert TablesIssues(ts, i) == TableIssues(ts[i], i) + TablesIssues(ts, i + 1);
    }
  }

  lemma {:induction false} MissingKeyCount(d: DesignRecord, keys: seq<Key>, k: Key)
    requires forall i, j :: 0 <= i < j < |keys| ==> keys[i] != keys[j]
    ensures multiset(MissingKeyIssues(d, keys))[MissingKey(k)] == if k in keys && !Present(d, k) then 1 else 0
  {
    if keys != [] {
      MissingKeyCount(d, keys[1..], k);
      assert keys == [keys[0]] + keys[1..];
    }
  }

  lemma CountBySection(d: DesignRecord, x: Issue)
    ensures multiset(Validate(d).issues)[x]
         == multiset(MissingKeyIssues(d, RequiredKeys))[x] + multiset(NormalizationIssues(d))[x]
            + multiset(TableSectionIssues(d))[x] + multiset(SqlIssues(d))[x]
  {
  }

  /** An issue that is not about tables or columns never comes from the table checks. */
  lemma NotFromTableSection(d: DesignRecord, x: Issue)
    requires x != NoTables
    requires !(x.TableMissingName? || x.TableWithoutColumns? || x.ColumnMissingName? || x.ColumnMissingType?)
    ensures multiset(TableSectionIssues(d))[x] == 0
  {
    if !NoTablesDefined(d) {
      TablesIssuesExactly(d.tables.value, 0, x);
    }
  }

  lemma NotFromKeyChecks(d: DesignRecord, x: Issue)
    requires !x.MissingKey?
    ensures multiset(MissingKeyIssues(d, RequiredKeys))[x] == 0
  {
    MissingKeyIssuesExactly(d, RequiredKeys, x);
  }

  lemma RequiredKeysDistinct()
    ensures forall i, j :: 0 <= i < j < |RequiredKeys| ==> RequiredKeys[i] != RequiredKeys[j]
  {
    forall i, j | 0 <= i < j < |RequiredKeys|
      ensures KeyIndex(RequiredKeys[i]) == i && KeyIndex(RequiredKeys[j]) == j
    {
    }
  }

  lemma MissingKeyReportedOnce(d: DesignRecord, k: Key)
    ensures multiset(Validate(d).issues)[MissingKey(k)] == if Present(d, k) then 0 else 1
  {
    CountBySection(d, MissingKey(k));
    RequiredKeysDistinct();
    MissingKeyCount(d, RequiredKeys, k);
    assert RequiredKeys[KeyIndex(k)] == k;
    NotFromTableSection(d, MissingKey(k));
  }

  lemma NormalizationReportedOnce(d: DesignRecord)
    ensures multiset(Validate(d).issues)[NotMarked3NF] == if d.normalizationLevel == Some("3NF") then 0 else 1
  {
    CountBySection(d, NotMarked3NF);
    NotFromKeyChecks(d, NotMarked3NF);
    NotFromTableSection(d, NotMarked3NF);
  }

  lemma NoTablesReportedOnce(d: DesignRecord)
    ensures multiset(Validate(d).issues)[NoTables] == if NoTablesDefined(d) then 1 else 0
  {
    CountBySection(d, NoTables);
    NotFromKeyChecks(d, NoTables);
    if !NoTablesDefined(d) {
      TablesIssuesExactly(d.tables.value, 0, NoTables);
    }
  }

  lemma SqlReportedOnce(d: DesignRecord)
    ensures multiset(Validate(d).issues)[EmptySqlSchema] == if EmptySql(d.sqlSchema) then 1 else 0
  {
    CountBySection(d, EmptySqlSchema);
    NotFromKeyChecks(d, EmptySqlSchema);
    NotFromTableSection(d, EmptySqlSchema);
  }

  lemma TableNameReportedOnce(d: DesignRecord, n: nat)
    ensures multiset(Validate(d).issues)[TableMissingName(n)]
         == if 1 <= n <= |TablesOf(d)| && Blank(TablesOf(d)[n - 1].name) then 1 else 0
  {
    CountBySection(d, TableMissingName(n));
    NotFromKeyChecks(d, TableMissingName(n));
    if !NoTablesDefined(d) {
      TableNameIssueCount(d.tables.value, 0, n);
    }
  }

  /** Each absent key is reported exactly once, and so are the wrong
      normalization level, the missing tables, each nameless table and the empty
      SQL text; a rule that holds produces no issue at all. */
  lemma ValidateCounts(d: DesignRecord, k: Key, n: nat)
    ensures multiset(Validate(d).issues)[MissingKey(k)] == if Present(d, k) then 0 else 1
    ensures multiset(Validate(d).issues)[NotMarked3NF] == if d.normalizationLevel == Some("3NF") then 0 else 1
    ensures multiset(Validate(d).issues)[NoTables] == if NoTablesDefined(d) then 1 else 0
    ensures multiset(Validate(d).issues)[EmptySqlSchema] == if EmptySql(d.sqlSchema) then 1 else 0
    ensures multiset(Validate(d).issues)[TableMissingName(n)]
         == if 1 <= n <= |TablesOf(d)| && Blank(TablesOf(d)[n - 1].name) then 1 else 0
  {
    MissingKeyReportedOnce(d, k);
    NormalizationReportedOnce(d);
    NoTablesReportedOnce(d);
    SqlReportedOnce(d);
    TableNameReportedOnce(d, n);
  }

  /** The report section an issue belongs to: key checks, normalization,
      tables and columns, SQL text. */
  function Section(x: Issue): nat {
    match x
    case MissingKey(_) => 0
    case NotMarked3NF => 1
    case NoTables => 2
    case TableMissingName(_) => 2
    case TableWithoutColumns(_) => 2
    case ColumnMissingName(_, _) => 2
    case ColumnMissingType(_, _) => 2
    case EmptySqlSchema => 3
    case _ => 4
  }

  /** Sections never interleave, and missing keys appear in the order
      tables, normalization_level, design_rationale, sql_schema. */
  ghost predicate InReportOrder(xs: seq<Issue>) {
    && (forall i, j :: 0 <= i < j < |xs| ==> Section(xs[i]) <= Section(xs[j]))
    && (forall i, j :: 0 <= i < j < |xs| && xs[i].MissingKey? && xs[j].MissingKey? ==>
          KeyIndex(xs[i].key) < KeyIndex(xs[j].key))
  }

  ghost predicate AllInSection(xs: seq<Issue>, c: nat) {
    forall i :: 0 <= i < |xs| ==> Section(xs[i]) == c
  }

  lemma {:induction false} MissingKeysInOrder(d: DesignRecord, keys: seq<Key>)
    requires forall i, j :: 0 <= i < j < |keys| ==> KeyIndex(keys[i]) < KeyIndex(keys[j])
    ensures AllInSection(MissingKeyIssues(d, keys), 0)
    ensures InReportOrder(MissingKeyIssues(d, keys))
  {
    if keys != [] {
      var tail := MissingKeyIssues(d, keys[1..]);
      MissingKeysInOrder(d, keys[1..]);
      forall j | 0 <= j < |tail|
        ensures tail[j].MissingKey? && KeyIndex(keys[0]) < KeyIndex(tail[j].key)
      {
        MissingKeyIssuesExactly(d, keys[1..], tail[j]);
        var k :| 0 <= k < |keys[1..]| && keys[1..][k] == tail[j].key;
        assert keys[k + 1] == tail[j].key;
      }
    }
  }

  lemma TableSectionInSection(d: DesignRecord)
    ensures AllInSection(TableSectionIssues(d), 2)
  {
    if !NoTablesDefined(d) {
      var xs := TablesIssues(d.tables.value, 0);
      forall i | 0 <= i < |xs|
        ensures Section(xs[i]) == 2
      {
        TablesIssuesExactly(d.tables.value, 0, xs[i]);
      }
    }
  }

  lemma AppendSection(a: seq<Issue>, b: seq<Issue>, c: nat)
    requires InReportOrder(a) && (forall i :: 0 <= i < |a| ==> Section(a[i]) <= c)
    requires AllInSection(b, c) && c > 0
    ensures InReportOrder(a + b) && (forall i :: 0 <= i < |a + b| ==> Section((a + b)[i]) <= c)
  {
  }

  /** The issues come out section by section, keys in their checking order. */
  lemma ValidateReportsInOrder(d: DesignRecord)
    ensures InReportOrder(Validate(d).issues)
  {
    var a := MissingKeyIssues(d, RequiredKeys);
    MissingKeysInOrder(d, RequiredKeys);
    TableSectionInSection(d);
    AppendSection(a, NormalizationIssues(d), 1);
    AppendSection(a + NormalizationIssues(d), TableSectionIssues(d), 2);
    AppendSection(a + NormalizationIssues(d) + TableSectionIssues(d), SqlIssues(d), 3);
  }

  // ---------------------------------------------------------------------------
  // Designs produced by the architect stage
  // ---------------------------------------------------------------------------

  /** The structural rules for a typed design: 3NF, at least one table, every
      table named and with columns, every column named and typed, some
      non-whitespace SQL text. */
  ghost predicate WellFormed(d: DatabaseDesign) {
    && d.normalizationLevel == "3NF"
    && |d.tables| > 0
    && TablesNamedWithColumns(d)
    && ColumnsNamedAndTyped(d)
    && (exists i :: 0 <= i < |d.sqlSchema| && !IsSpace(d.sqlSchema[i]))
  }

  ghost predicate TablesNamedWithColumns(d: DatabaseDesign) {
    forall i :: 0 <= i < |d.tables| ==> d.tables[i].name != "" && |d.tables[i].columns| > 0
  }

  ghost predicate ColumnsNamedAndTyped(d: DatabaseDesign) {
    forall i, j :: 0 <= i < |d.tables| && 0 <= j < |d.tables[i].columns| ==>
      d.tables[i].columns[j].name != "" && d.tables[i].columns[j].colType != ""
  }

  lemma RecordOfShape(d: DatabaseDesign)
    ensures |TablesOf(RecordOf(d))| == |d.tables|
    ensures forall i :: 0 <= i < |d.tables| ==> TablesOf(RecordOf(d))[i] == TableRecordOf(d.tables[i])
  {
  }

  lemma TableRecordOfShape(t: Table)
    ensures TableRecordOf(t).name == Some(t.name)
    ensures NoColumns(TableRecordOf(t)) <==> t.columns == []
    ensures |ColumnsOf(TableRecordOf(t))| == |t.columns|
    ensures forall j :: 0 <= j < |t.columns| ==>
      ColumnsOf(TableRecordOf(t))[j] == ColumnRecord(Some(t.columns[j].name), Some(t.columns[j].colType))
  {
  }

  lemma WellFormedHasNoTableFlag(d: DatabaseDesign, x: Issue)
    requires WellFormed(d)
    ensures !TableFlags(TablesOf(RecordOf(d)), 0, x)
  {
    var ts := TablesOf(RecordOf(d));
    RecordOfShape(d);
    forall i | 0 <= i < |d.tables|
      ensures ts[i].name == Some(d.tables[i].name) && !NoColumns(ts[i])
      ensures forall j :: 0 <= j < |ColumnsOf(ts[i])| ==> !Blank(ColumnsOf(ts[i])[j].name) && !Blank(ColumnsOf(ts[i])[j].colType)
    {
      TableRecordOfShape(d.tables[i]);
    }
  }

  /** A dumped design has every key, so no "Missing required key" issue is due
      or reported. */
  lemma DumpedDesignHasAllKeys(d: DatabaseDesign, k: Key)
    ensures !Flags(RecordOf(d), MissingKey(k))
    ensures MissingKey(k) !in Validate(RecordOf(d)).issues
  {
    ValidateReportsExactlyTheViolations(RecordOf(d), MissingKey(k));
  }

  lemma MarkedDesignHasLevel(d: DatabaseDesign)
    requires d.normalizationLevel == "3NF"
    ensures !Flags(RecordOf(d), NotMarked3NF)
  {
  }

  lemma DesignWithTablesHasTables(d: DatabaseDesign)
    requires |d.tables| > 0
    ensures !Flags(RecordOf(d), NoTables)
  {
  }

  lemma DesignWithSqlHasSql(d: DatabaseDesign)
    requires exists i :: 0 <= i < |d.sqlSchema| && !IsSpace(d.sqlSchema[i])
    ensures !Flags(RecordOf(d), EmptySqlSchema)
  {
    var i :| 0 <= i < |d.sqlSchema| && !IsSpace(d.sqlSchema[i]);
    EmptySqlIffAllSpace(d.sqlSchema);
    assert !EmptySql(Some(d.sqlSchema));
    assert RecordOf(d).sqlSchema == Some(d.sqlSchema);
  }

  lemma WellFormedHasNoFlag(d: DatabaseDesign, x: Issue)
    requires WellFormed(d)
    ensures !Flags(RecordOf(d), x)
  {
    match x
    case MissingKey(k) => DumpedDesignHasAllKeys(d, k);
    case NotMarked3NF => MarkedDesignHasLevel(d);
    case NoTables => DesignWithTablesHasTables(d);
    case EmptySqlSchema => DesignWithSqlHasSql(d);
    case _ => WellFormedHasNoTableFlag(d, x);
  }

  lemma FlagOfBadTable(d: DatabaseDesign, i: nat) returns (x: Issue)
    requires i < |d.tables| && (d.tables[i].name == "" || d.tables[i].columns == [])
    ensures TableFlags(TablesOf(RecordOf(d)), 0, x)
  {
    var ts := TablesOf(RecordOf(d));
    RecordOfShape(d);
    TableRecordOfShape(d.tables[i]);
    if d.tables[i].name == "" {
      x := TableMissingName(i + 1);
    } else {
      x := TableWithoutColumns(Named(d.tables[i].name));
      assert NoColumns(ts[i]) && LabelOf(ts[i].name, i + 1) == x.table;
    }
  }

  lemma FlagOfBadColumn(d: DatabaseDesign, i: nat, j: nat) returns (x: Issue)
    requires i < |d.tables| && j < |d.tables[i].columns|
    requires d.tables[i].columns[j].name == "" || d.tables[i].columns[j].colType == ""
    ensures TableFlags(TablesOf(RecordOf(d)), 0, x)
  {
    var ts := TablesOf(RecordOf(d));
    RecordOfShape(d);
    TableRecordOfShape(d.tables[i]);
    var t := ts[i];
    var c := ColumnsOf(t)[j];
    if d.tables[i].columns[j].name == "" {
      x := ColumnMissingName(j + 1, t.name);
      assert ColumnFlags(ColumnsOf(t), t.name, 0, x);
    } else {
      x := ColumnMissingType(LabelOf(c.name, j + 1), t.name);
      assert ColumnFlags(ColumnsOf(t), t.name, 0, x);
    }
  }

  lemma FlagOfIllFormed(d: DatabaseDesign) returns (x: Issue)
    requires !WellFormed(d)
    ensures Flags(RecordOf(d), x)
  {
    if d.normalizationLevel != "3NF" {
      x := NotMarked3NF;
    } else if |d.tables| == 0 {
      x := NoTables;
    } else if !TablesNamedWithColumns(d) {
      var i :| 0 <= i < |d.tables| && !(d.tables[i].name != "" && |d.tables[i].columns| > 0);
      x := FlagOfBadTable(d, i);
    } else if !ColumnsNamedAndTyped(d) {
      var i, j :| 0 <= i < |d.tables| && 0 <= j < |d.tables[i].columns|
                 && !(d.tables[i].columns[j].name != "" && d.tables[i].columns[j].colType != "");
      x := FlagOfBadColumn(d, i, j);
    } else {
      EmptySqlIffAllSpace(d.sqlSchema);
      x := EmptySqlSchema;
    }
  }

  /** The validator accepts a design produced by the architect stage exactly
      when the design satisfies every structural rule. */
  lemma ValidIffWellFormed(d: DatabaseDesign)
    ensures Validate(RecordOf(d)).isValid <==> WellFormed(d)
  {
    var issues := Validate(RecordOf(d)).issues;
    if WellFormed(d) {
      if issues != [] {
        ValidateReportsExactlyTheViolations(RecordOf(d), issues[0]);
        WellFormedHasNoFlag(d, issues[0]);
      }
    } else {
      var x := FlagOfIllFormed(d);
      ValidateReportsExactlyTheViolations(RecordOf(d), x);
    }
  }

  // ---------------------------------------------------------------------------
  // Worked examples (the module's own self-test designs)
  // ---------------------------------------------------------------------------

  /** The SQL text of the self-test's valid design. */
  const SelfTestSql: string :=
    "CREATE TABLE users " + "(id UUID PRIMARY KEY, " + "email VARCHAR(255) NOT NULL);"

  lemma StartsWithNonSpace(s: string)
    requires |s| > 0 && !IsSpace(s[0])
    ensures !EmptySql(Some(s))
  {
    EmptySqlIffAllSpace(s);
  }

  /** The self-test's valid design: one table with two typed columns. */
  lemma SelfTestValidDesign()
    ensures Validate(DesignRecord(
              Some([TableRecord(Some("users"), Some([
                ColumnRecord(Some("id"), Some("UUID")),
                ColumnRecord(Some("email"), Some("VARCHAR(255)"))]))]),
              Some("3NF"),
              Some(["Users table follows 3NF"]),
              Some(SelfTestSql),
              {}))
         == ValidationResult(true, [])
  {
    var cols := [ColumnRecord(Some("id"), Some("UUID")), ColumnRecord(Some("email"), Some("VARCHAR(255)"))];
    var t := TableRecord(Some("users"), Some(cols));
    var d := DesignRecord(Some([t]), Some("3NF"), Some(["Users table follows 3NF"]), Some(SelfTestSql), {});
    KeyChecksUnrolled(d);
    StartsWithNonSpace(SelfTestSql);
    assert ColumnIssues(cols, t.name, 2) == [];
    assert ColumnIssues(cols, t.name, 1) == [];
    assert TablesIssues([t], 1) == [];
  }

  /** The self-test's invalid design `{tables: [], normalization_level: "2NF"}`:
      two missing keys, the level, the tables and the SQL text. */
  lemma SelfTestInvalidDesign()
    ensures Validate(DesignRecord(Some([]), Some("2NF"), None, None, {}))
         == ValidationResult(false, [MissingKey(DesignRationaleKey), MissingKey(SqlSchemaKey),
                                     NotMarked3NF, NoTables, EmptySqlSchema])
  {
  }

  /** The same design with every key present and some SQL text: only the
      level and the empty table list are reported. */
  lemma WrongLevelAndNoTables(rationale: seq<string>, sql: string)
    requires exists i :: 0 <= i < |sql| && !IsSpace(sql[i])
    ensures Validate(DesignRecord(Some([]), Some("2NF"), Some(rationale), Some(sql), {}))
         == ValidationResult(false, [NotMarked3NF, NoTables])
  {
    var d := DesignRecord(Some([]), Some("2NF"), Some(rationale), Some(sql), {});
    assert SqlIssues(d) == [] by {
      EmptySqlIffAllSpace(sql);
    }
    KeyChecksUnrolled(d);
    assert MissingKeyIssues(d, RequiredKeys) == [];
    assert NormalizationIssues(d) == [NotMarked3NF];
    assert TableSectionIssues(d) == [NoTables];
  }

  /** A dictionary whose "tables" key is bound to `None`: the key counts as
      present, so only the missing table list is reported. */
  lemma TablesBoundToNone(sql: string)
    requires exists i :: 0 <= i < |sql| && !IsSpace(sql[i])
    ensures Validate(DesignRecord(None, Some("3NF"), Some([]), Some(sql), {TablesKey}))
         == ValidationResult(false, [NoTables])
  {
    var d := DesignRecord(None, Some("3NF"), Some([]), Some(sql), {TablesKey});
    assert SqlIssues(d) == [] by {
      EmptySqlIffAllSpace(sql);
    }
    KeyChecksUnrolled(d);
    assert MissingKeyIssues(d, RequiredKeys) == [];
  }

  /** The same dictionary with "tables" left out altogether also reports the key. */
  lemma TablesAbsent(sql: string)
    requires exists i :: 0 <= i < |sql| && !IsSpace(sql[i])
    ensures Validate(DesignRecord(None, Some("3NF"), Some([]), Some(sql), {}))
         == ValidationResult(false, [MissingKey(TablesKey), NoTables])
  {
    var d := DesignRecord(None, Some("3NF"), Some([]), Some(sql), {});
    assert SqlIssues(d) == [] by {
      EmptySqlIffAllSpace(sql);
    }
    KeyChecksUnrolled(d);
    assert MissingKeyIssues(d, RequiredKeys) == [MissingKey(TablesKey)];
  }
}
