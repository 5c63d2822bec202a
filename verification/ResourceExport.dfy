/** `export_bundle`: which rows of a reviewed source go into a bundle, and as what.

  A bundle made from a consistent source holds everything its rows refer to, and no
  model or voice that nothing in it refers to.
 */
module ResourceExport {
  import opened Wrappers
  import opened ResourceBundle

  // ---- Selection ----

  predicate OfRelease(rule: Row, revisions: map<string, int>) {
    At(rule, Id).Text? && At(rule, Id).text in revisions
  }

  function RuleIds(source: Tables, revisions: map<string, int>): set<Cell> {
    set r | r in RowsOf(source, Rules) && OfRelease(r, revisions) :: At(r, Id)
  }

  function CurrentIds(source: Tables, revisions: map<string, int>): set<Cell> {
    set r | r in RowsOf(source, Rules) && OfRelease(r, revisions) :: At(r, CurrentAudioGenerationId)
  }

  function StageIds(source: Tables, revisions: map<string, int>): set<Cell> {
    set r | r in RowsOf(source, RuleStages) && At(r, RuleId) in RuleIds(source, revisions) :: At(r, Id)
  }

  /** Every selected row but those of models and voices, which are selected by what these refer to. */
  predicate Keeps(source: Tables, revisions: map<string, int>, t: Table, row: Row) {
    match t
    case Rules => OfRelease(row, revisions)
    case RuleStages => At(row, RuleId) in RuleIds(source, revisions)
    case AgentProfiles => At(row, RuleId) in RuleIds(source, revisions)
    case RuleJudgeConfigs => At(row, RuleId) in RuleIds(source, revisions)
    case StageActions => At(row, StageId) in StageIds(source, revisions)
    case StagePromptTemplates => At(row, StageId) in StageIds(source, revisions)
    case AgentPromptOverrides => At(row, StageId) in StageIds(source, revisions)
    case RuleAudioGenerations => At(row, Id) in CurrentIds(source, revisions)
    case HostAudioAssets => At(row, GenerationId) in CurrentIds(source, revisions)
    case JudgeProfiles => At(row, Status) == ENABLED
    case ModelProfiles => At(row, Id) in ModelIds(source, revisions)
    case VoiceProfiles => At(row, Id) in VoiceIds(source, revisions)
  }

  function IdsNamed(rows: seq<Row>, ids: set<Cell>, on: Column, c: Column): set<Cell> {
    set r | r in rows && At(r, on) in ids :: At(r, c)
  }

  function ModelIds(source: Tables, revisions: map<string, int>): set<Cell> {
    IdsNamed(RowsOf(source, AgentProfiles), RuleIds(source, revisions), RuleId, ModelProfileId)
    + IdsNamed(RowsOf(source, RuleJudgeConfigs), RuleIds(source, revisions), RuleId, ModelProfileId)
    + IdsNamed(RowsOf(source, JudgeProfiles), {ENABLED}, Status, ModelProfileId)
    + (set r | r in RowsOf(source, Rules) && OfRelease(r, revisions) :: At(r, DefaultAgentModelProfileId))
  }

  function VoiceIds(source: Tables, revisions: map<string, int>): set<Cell> {
    IdsNamed(RowsOf(source, AgentProfiles), RuleIds(source, revisions), RuleId, VoiceProfileId)
    + IdsNamed(RowsOf(source, HostAudioAssets), CurrentIds(source, revisions), GenerationId, VoiceProfileId)
    + (set r | r in RowsOf(source, Rules) && OfRelease(r, revisions) :: At(r, HostVoiceProfileId))
  }

  // ---- Projection ----

  const DEFAULT_MODEL_KEY := Text("JX_LLM_API_KEY")

  /** The public columns of a row: actors become `@admin`, recordings get their place in the bundle. */
  function Projected(t: Table, row: Row, hostFiles: map<string, string>): Row {
    var public := map c | c in row && c in Fields(t) :: if c in ACTORS && row[c] != Null then ADMIN else row[c];
    if t == ModelProfiles then public[ModelEnvKey := if ModelEnvKey in row then row[ModelEnvKey] else DEFAULT_MODEL_KEY]
    else if t == HostAudioAssets && At(row, Id).Text? && At(row, Id).text in hostFiles
    then public[StoragePath := Text(hostFiles[At(row, Id).text])]
    else public
  }

  const UNEXPORTED: set<Column> := {CreatedAt, UpdatedAt, ActiveTaskId}

  predicate MayExport(t: Table, row: Row, hostFiles: map<string, string>) {
    && row.Keys <= Fields(t) + UNEXPORTED
    && (t == HostAudioAssets ==> At(row, Id).Text? && At(row, Id).text in hostFiles)
  }

  function Exported(source: Tables, revisions: map<string, int>, hostFiles: map<string, string>, t: Table, n: nat)
    : (rows: seq<Row>)
    requires n <= |RowsOf(source, t)|
  {
    if n == 0 then []
    else
      var rest, row := Exported(source, revisions, hostFiles, t, n - 1), RowsOf(source, t)[n - 1];
      if Keeps(source, revisions, t, row) then rest + [Projected(t, row, hostFiles)] else rest
  }

  // ---- The order of a table ----

  /** How Python compares strings. */
  predicate Less(a: string, b: string) {
    b != "" && (a == "" || a[0] < b[0] || (a[0] == b[0] && Less(a[1..], b[1..])))
  }

  predicate KeyLess(a: Row, b: Row) {
    KeyOf(a).Text? && KeyOf(b).Text? && Less(KeyOf(a).text, KeyOf(b).text)
  }

  function InsertRow(sorted: seq<Row>, row: Row): seq<Row> {
    if sorted == [] then [row]
    else if KeyLess(row, sorted[0]) then [row] + sorted
    else [sorted[0]] + InsertRow(sorted[1..], row)
  }

  /** `rows.sort(key=...)`. */
  function SortRows(rows: seq<Row>): seq<Row> {
    if rows == [] then [] else InsertRow(SortRows(rows[..|rows| - 1]), rows[|rows| - 1])
  }

  lemma {:induction false} LessIsTransitive(a: string, b: string, c: string)
    requires Less(a, b) && Less(b, c)
    ensures Less(a, c)
  {
    if a != "" && a[0] == b[0] && b[0] == c[0] {
      LessIsTransitive(a[1..], b[1..], c[1..]);
    }
  }

  lemma {:induction false} LessIsStrict(a: string)
    ensures !Less(a, a)
  {
    if a != "" {
      LessIsStrict(a[1..]);
    }
  }

  ghost predicate InKeyOrder(rows: seq<Row>) {
    forall i, j | 0 <= i < j < |rows| :: !KeyLess(rows[j], rows[i])
  }

  lemma KeyLessIsOrder(a: Row, b: Row, c: Row)
    ensures !KeyLess(a, a)
    ensures KeyLess(a, b) && KeyLess(b, c) ==> KeyLess(a, c)
  {
    if KeyOf(a).Text? {
      LessIsStrict(KeyOf(a).text);
    }
    if KeyLess(a, b) && KeyLess(b, c) {
      LessIsTransitive(KeyOf(a).text, KeyOf(b).text, KeyOf(c).text);
    }
  }

  lemma {:induction false} InsertAddsRow(sorted: seq<Row>, row: Row)
    ensures multiset(InsertRow(sorted, row)) == multiset(sorted) + multiset{row}
  {
    hide KeyLess;
    if sorted != [] && !KeyLess(row, sorted[0]) {
      assert sorted == [sorted[0]] + sorted[1..];
      InsertAddsRow(sorted[1..], row);
    }
  }

  lemma {:induction false} InsertKeepsKeyOrder(sorted: seq<Row>, row: Row)
    requires InKeyOrder(sorted)
    ensures InKeyOrder(InsertRow(sorted, row))
  {
    hide KeyLess;
    if sorted == [] {
    } else if KeyLess(row, sorted[0]) {
      forall j | 0 <= j < |sorted| ensures !KeyLess(sorted[j], row) {
        KeyLessIsOrder(sorted[j], row, sorted[0]);
      }
    } else {
      InsertKeepsKeyOrder(sorted[1..], row);
      var rest := InsertRow(sorted[1..], row);
      forall j | 0 <= j < |rest| ensures !KeyLess(rest[j], sorted[0]) {
        InsertedRow(sorted[1..], row, j);
      }
    }
  }

  lemma InsertedRow(sorted: seq<Row>, row: Row, j: nat)
    requires j < |InsertRow(sorted, row)|
    ensures InsertRow(sorted, row)[j] == row || exists i :: 0 <= i < |sorted| && sorted[i] == InsertRow(sorted, row)[j]
  {
    InsertAddsRow(sorted, row);
    hide InsertRow;
    assert InsertRow(sorted, row)[j] in multiset(InsertRow(sorted, row));
    if InsertRow(sorted, row)[j] != row {
      assert InsertRow(sorted, row)[j] in sorted;
    }
  }

  /** A sorted table has its rows in the order of their keys, and the same rows. */
  lemma {:induction false} SortOrdersRows(rows: seq<Row>)
    ensures InKeyOrder(SortRows(rows)) && multiset(SortRows(rows)) == multiset(rows)
  {
    if rows != [] {
      var init, last := rows[..|rows| - 1], rows[|rows| - 1];
      SortOrdersRows(init);
      InsertKeepsKeyOrder(SortRows(init), last);
      InsertAddsRow(SortRows(init), last);
      assert rows == init + [last];
    }
  }

  function ExportedTable(source: Tables, revisions: map<string, int>, hostFiles: map<string, string>, t: Table)
    : seq<Row> {
    SortRows(Exported(source, revisions, hostFiles, t, |RowsOf(source, t)|))
  }

  function Bundle(source: Tables, revisions: map<string, int>, hostFiles: map<string, string>): Tables {
    map t: Table | true :: ExportedTable(source, revisions, hostFiles, t)
  }

  /** `out` is what some selected row among the first `n` of table `t` becomes. */
  ghost predicate ComesFrom(source: Tables, revisions: map<string, int>, hostFiles: map<string, string>, t: Table,
                            n: nat, out: Row)
    requires n <= |RowsOf(source, t)|
  {
    exists i :: 0 <= i < n && Keeps(source, revisions, t, RowsOf(source, t)[i])
                && Projected(t, RowsOf(source, t)[i], hostFiles) == out
  }

  lemma ComesFromOneMore(source: Tables, revisions: map<string, int>, hostFiles: map<string, string>, t: Table,
                         n: nat, out: Row)
    requires n < |RowsOf(source, t)|
    ensures ComesFrom(source, revisions, hostFiles, t, n + 1, out)
       <==> ComesFrom(source, revisions, hostFiles, t, n, out)
            || (Keeps(source, revisions, t, RowsOf(source, t)[n])
                && Projected(t, RowsOf(source, t)[n], hostFiles) == out)
  {
    hide Keeps, Projected, RowsOf;
  }

  lemma {:induction false} ExportedRows(source: Tables, revisions: map<string, int>, hostFiles: map<string, string>,
                                        t: Table, n: nat, out: Row)
    requires n <= |RowsOf(source, t)|
    ensures out in Exported(source, revisions, hostFiles, t, n) <==> ComesFrom(source, revisions, hostFiles, t, n, out)
  {
    hide Keeps, Projected, RowsOf;
    if n > 0 {
      ComesFromOneMore(source, revisions, hostFiles, t, n - 1, out);
      hide ComesFrom;
      ExportedRows(source, revisions, hostFiles, t, n - 1, out);
    } else {
      assert !ComesFrom(source, revisions, hostFiles, t, 0, out);
    }
  }

  /** A row is in a table of the bundle exactly when some selected row becomes it. */
  lemma BundleRows(source: Tables, revisions: map<string, int>, hostFiles: map<string, string>, t: Table, out: Row)
    ensures out in RowsOf(Bundle(source, revisions, hostFiles), t)
       <==> ComesFrom(source, revisions, hostFiles, t, |RowsOf(source, t)|, out)
    ensures InKeyOrder(RowsOf(Bundle(source, revisions, hostFiles), t))
  {
    var rows := Exported(source, revisions, hostFiles, t, |RowsOf(source, t)|);
    ExportedRows(source, revisions, hostFiles, t, |RowsOf(source, t)|, out);
    SortOrdersRows(rows);
    hide Exported, ComesFrom, SortRows;
    assert out in rows <==> out in multiset(rows);
    assert out in SortRows(rows) <==> out in multiset(SortRows(rows));
  }

  // ---- Closure ----

  /** The row of a source that `key` names in table `t` is selected. */
  ghost predicate IsKept(source: Tables, revisions: map<string, int>, t: Table, key: Cell) {
    exists i :: 0 <= i < |RowsOf(source, t)| && KeyOf(RowsOf(source, t)[i]) == key
                && Keeps(source, revisions, t, RowsOf(source, t)[i])
  }

  ghost predicate Keyed(source: Tables) {
    forall t: Table, i | t != RuleJudgeConfigs && 0 <= i < |RowsOf(source, t)| :: Id in RowsOf(source, t)[i]
  }

  /** The selected rows of the source refer to rows of the source, and lack only what a disabled judge may lack. */
  ghost predicate SourceClosed(source: Tables, revisions: map<string, int>) {
    forall t: Table, i | 0 <= i < |RowsOf(source, t)| && Keeps(source, revisions, t, RowsOf(source, t)[i]) ::
      RowClosed(source, t, RowsOf(source, t)[i])
  }

  /** A row that refers to another of table `t` by `column` belongs to the same rule as that one. */
  ghost predicate SameRule(source: Tables, row: Row, column: Column, t: Table, rule: Cell) {
    forall i | 0 <= i < |RowsOf(source, t)| && KeyOf(RowsOf(source, t)[i]) == At(row, column) ::
      At(RowsOf(source, t)[i], RuleId) == rule
  }

  /** Overrides, current generations and their assets stay within one rule. */
  ghost predicate WithinRules(source: Tables) {
    && (forall i, j | 0 <= i < |RowsOf(source, AgentPromptOverrides)| && 0 <= j < |RowsOf(source, RuleStages)|
                      && At(RowsOf(source, AgentPromptOverrides)[i], StageId) == KeyOf(RowsOf(source, RuleStages)[j]) ::
          SameRule(source, RowsOf(source, AgentPromptOverrides)[i], AgentProfileId, AgentProfiles,
                   At(RowsOf(source, RuleStages)[j], RuleId)))
    && (forall i | 0 <= i < |RowsOf(source, Rules)| ::
          SameRule(source, RowsOf(source, Rules)[i], CurrentAudioGenerationId, RuleAudioGenerations,
                   KeyOf(RowsOf(source, Rules)[i])))
    && (forall i | 0 <= i < |RowsOf(source, HostAudioAssets)| ::
          SameRule(source, RowsOf(source, HostAudioAssets)[i], GenerationId, RuleAudioGenerations,
                   At(RowsOf(source, HostAudioAssets)[i], RuleId)))
  }

  ghost predicate Consistent(source: Tables, revisions: map<string, int>) {
    Keyed(source) && SourceClosed(source, revisions) && WithinRules(source)
  }

  /** `key` is among the ids that the selection goes by. */
  predicate IsSelected(source: Tables, revisions: map<string, int>, t: Table, key: Cell) {
    match t
    case Rules => key in RuleIds(source, revisions)
    case RuleStages => key in StageIds(source, revisions)
    case RuleAudioGenerations => key in CurrentIds(source, revisions)
    case ModelProfiles => key in ModelIds(source, revisions)
    case VoiceProfiles => key in VoiceIds(source, revisions)
    case _ => false
  }

  /** A row of the source whose key is among the selected ids is selected. */
  lemma NamedIsKept(source: Tables, revisions: map<string, int>, t: Table, key: Cell)
    requires Keyed(source) && HasKey(RowsOf(source, t), key) && t != RuleJudgeConfigs
    requires IsSelected(source, revisions, t, key)
    ensures IsKept(source, revisions, t, key)
  {
    var i :| 0 <= i < |RowsOf(source, t)| && KeyOf(RowsOf(source, t)[i]) == key;
    var row := RowsOf(source, t)[i];
    assert Id in row;
    if t == RuleStages {
      var r :| r in RowsOf(source, RuleStages) && At(r, RuleId) in RuleIds(source, revisions) && At(r, Id) == key;
      var j :| 0 <= j < |RowsOf(source, t)| && RowsOf(source, t)[j] == r;
      assert Keeps(source, revisions, t, RowsOf(source, t)[j]);
    } else {
      assert Keeps(source, revisions, t, row);
    }
  }

  /** The key of a row, and its references, are the same in the bundle. */
  lemma ProjectedKey(t: Table, row: Row, hostFiles: map<string, string>)
    requires t != RuleJudgeConfigs && Id in row
    ensures KeyOf(Projected(t, row, hostFiles)) == KeyOf(row)
  {
    assert Id in Fields(t);
  }

  lemma ProjectedRef(t: Table, row: Row, hostFiles: map<string, string>, k: nat)
    requires k < |Refs(t)|
    ensures At(Projected(t, row, hostFiles), Refs(t)[k].column) == At(row, Refs(t)[k].column)
    ensures MayBeNull(t, Projected(t, row, hostFiles)) == MayBeNull(t, row)
  {
  }

  lemma KeptIsExported(source: Tables, revisions: map<string, int>, hostFiles: map<string, string>, t: Table, key: Cell)
    requires Keyed(source) && t != RuleJudgeConfigs && IsKept(source, revisions, t, key)
    ensures HasKey(RowsOf(Bundle(source, revisions, hostFiles), t), key)
  {
    hide Keeps, Projected, Exported;
    var rows := RowsOf(source, t);
    var i :| 0 <= i < |rows| && KeyOf(rows[i]) == key && Keeps(source, revisions, t, rows[i]);
    var out, exported := Projected(t, rows[i], hostFiles), RowsOf(Bundle(source, revisions, hostFiles), t);
    assert ComesFrom(source, revisions, hostFiles, t, |rows|, out);
    BundleRows(source, revisions, hostFiles, t, out);
    ProjectedKey(t, rows[i], hostFiles);
    var j :| 0 <= j < |exported| && exported[j] == out;
  }

  /** The agent an override is for belongs to the rule of the override's stage, so it is selected with it. */
  lemma OverrideAgentIsKept(source: Tables, revisions: map<string, int>, i: nat)
    requires Keyed(source) && WithinRules(source) && i < |RowsOf(source, AgentPromptOverrides)|
    requires var row := RowsOf(source, AgentPromptOverrides)[i];
             At(row, StageId) in StageIds(source, revisions)
             && HasKey(RowsOf(source, AgentProfiles), At(row, AgentProfileId))
    ensures IsKept(source, revisions, AgentProfiles, At(RowsOf(source, AgentPromptOverrides)[i], AgentProfileId))
  {
    var row := RowsOf(source, AgentPromptOverrides)[i];
    var stages, agents := RowsOf(source, RuleStages), RowsOf(source, AgentProfiles);
    var stage :| stage in stages && At(stage, RuleId) in RuleIds(source, revisions)
        && At(stage, Id) == At(row, StageId);
    var j :| 0 <= j < |stages| && stages[j] == stage;
    assert Id in stages[j];
    assert SameRule(source, row, AgentProfileId, AgentProfiles, At(stages[j], RuleId));
    var a :| 0 <= a < |agents| && KeyOf(agents[a]) == At(row, AgentProfileId);
    assert Keeps(source, revisions, AgentProfiles, agents[a]);
  }

  /** The rule whose current generation is `key` owns it. */
  lemma CurrentRule(source: Tables, revisions: map<string, int>, key: Cell, g: nat)
    requires Keyed(source) && WithinRules(source) && key in CurrentIds(source, revisions)
    requires g < |RowsOf(source, RuleAudioGenerations)| && KeyOf(RowsOf(source, RuleAudioGenerations)[g]) == key
    ensures At(RowsOf(source, RuleAudioGenerations)[g], RuleId) in RuleIds(source, revisions)
  {
    var rules := RowsOf(source, Rules);
    var rule :| rule in rules && OfRelease(rule, revisions) && At(rule, CurrentAudioGenerationId) == key;
    var r :| 0 <= r < |rules| && rules[r] == rule;
    assert Id in rules[r];
    assert SameRule(source, rules[r], CurrentAudioGenerationId, RuleAudioGenerations, KeyOf(rules[r]));
  }

  lemma OwnRuleIsKept(source: Tables, revisions: map<string, int>, t: Table, i: nat)
    requires t == RuleAudioGenerations || t == HostAudioAssets
    requires Keyed(source) && WithinRules(source) && i < |RowsOf(source, t)|
    requires Keeps(source, revisions, t, RowsOf(source, t)[i]) && RowClosed(source, t, RowsOf(source, t)[i])
    ensures IsKept(source, revisions, Rules, At(RowsOf(source, t)[i], RuleId))
  {
    var row, generations := RowsOf(source, t)[i], RowsOf(source, RuleAudioGenerations);
    assert RefHolds(source, t, row, Refs(t)[0]);
    if t == RuleAudioGenerations {
      assert Id in row;
      CurrentRule(source, revisions, At(row, Id), i);
    } else {
      assert RefHolds(source, t, row, Refs(t)[1]);
      var g :| 0 <= g < |generations| && KeyOf(generations[g]) == At(row, GenerationId);
      CurrentRule(source, revisions, At(row, GenerationId), g);
      assert SameRule(source, row, GenerationId, RuleAudioGenerations, At(row, RuleId));
    }
    NamedIsKept(source, revisions, Rules, At(row, RuleId));
  }

  /** All other references are what the selection itself goes by. */
  lemma ReferenceIsSelected(source: Tables, revisions: map<string, int>, t: Table, row: Row, k: nat)
    requires row in RowsOf(source, t) && Keeps(source, revisions, t, row) && k < |Refs(t)|
    requires !(t == AgentPromptOverrides && Refs(t)[k].column == AgentProfileId)
    requires !(Refs(t)[k].column == RuleId && (t == RuleAudioGenerations || t == HostAudioAssets))
    ensures IsSelected(source, revisions, Refs(t)[k].target, At(row, Refs(t)[k].column))
  {
    hide At, OfRelease;
  }

  /** What a selected row of a consistent source refers to is selected too. */
  lemma ReferenceIsKept(source: Tables, revisions: map<string, int>, t: Table, i: nat, k: nat)
    requires Consistent(source, revisions) && i < |RowsOf(source, t)| && k < |Refs(t)|
    requires Keeps(source, revisions, t, RowsOf(source, t)[i])
    ensures var row, ref := RowsOf(source, t)[i], Refs(t)[k];
            || (At(row, ref.column) == Null && MayBeNull(t, row))
            || (At(row, ref.column) != Null && ref.target != RuleJudgeConfigs
                && IsKept(source, revisions, ref.target, At(row, ref.column)))
  {
    var row, ref := RowsOf(source, t)[i], Refs(t)[k];
    assert RowClosed(source, t, row);
    assert RefHolds(source, t, row, ref);
    hide IsSelected, IsKept, RowsOf;
    if At(row, ref.column) != Null {
      if t == AgentPromptOverrides && ref.column == AgentProfileId {
        OverrideAgentIsKept(source, revisions, i);
      } else if ref.column == RuleId && (t == RuleAudioGenerations || t == HostAudioAssets) {
        OwnRuleIsKept(source, revisions, t, i);
      } else {
        ReferenceIsSelected(source, revisions, t, row, k);
        NamedIsKept(source, revisions, ref.target, At(row, ref.column));
      }
    }
  }

  /** The bundle made from a consistent source is closed under every reference. */
  lemma ExportIsClosed(source: Tables, revisions: map<string, int>, hostFiles: map<string, string>)
    requires Consistent(source, revisions)
    ensures Closed(Bundle(source, revisions, hostFiles))
  {
    var bundle := Bundle(source, revisions, hostFiles);
    forall t: Table, j, k | 0 <= j < |RowsOf(bundle, t)| && 0 <= k < |Refs(t)|
      ensures RefHolds(bundle, t, RowsOf(bundle, t)[j], Refs(t)[k])
    {
      ExportedRefHolds(source, revisions, hostFiles, t, j, k);
    }
  }

  lemma ExportedRefHolds(source: Tables, revisions: map<string, int>, hostFiles: map<string, string>, t: Table, j: nat,
                         k: nat)
    requires Consistent(source, revisions)
    requires j < |RowsOf(Bundle(source, revisions, hostFiles), t)| && k < |Refs(t)|
    ensures var bundle := Bundle(source, revisions, hostFiles);
            RefHolds(bundle, t, RowsOf(bundle, t)[j], Refs(t)[k])
  {
    hide Keeps, Projected, Exported, Refs, MayBeNull, Consistent;
    var out, rows, ref := RowsOf(Bundle(source, revisions, hostFiles), t)[j], RowsOf(source, t), Refs(t)[k];
    BundleRows(source, revisions, hostFiles, t, out);
    var i :| 0 <= i < |rows| && Keeps(source, revisions, t, rows[i]) && Projected(t, rows[i], hostFiles) == out;
    ProjectedRef(t, rows[i], hostFiles, k);
    ReferenceIsKept(source, revisions, t, i, k);
    if At(out, ref.column) != Null {
      IsKeyed(source, revisions);
      KeptIsExported(source, revisions, hostFiles, ref.target, At(out, ref.column));
    }
  }

  lemma IsKeyed(source: Tables, revisions: map<string, int>)
    requires Consistent(source, revisions)
    ensures Keyed(source)
  {
  }

  // ---- Nothing beyond what is referred to ----

  /** Some row of the bundle names `key` in one of its references to table `t`. */
  ghost predicate IsNamed(bundle: Tables, t: Table, key: Cell) {
    exists u: Table, j, k :: 0 <= j < |RowsOf(bundle, u)| && 0 <= k < |Refs(u)|
      && Refs(u)[k].target == t && At(RowsOf(bundle, u)[j], Refs(u)[k].column) == key
  }

  lemma KeptRowNames(source: Tables, revisions: map<string, int>, hostFiles: map<string, string>, u: Table, row: Row,
                     k: nat)
    requires row in RowsOf(source, u) && Keeps(source, revisions, u, row) && k < |Refs(u)|
    ensures IsNamed(Bundle(source, revisions, hostFiles), Refs(u)[k].target, At(row, Refs(u)[k].column))
  {
    hide Keeps, Projected, Exported, Refs;
    var rows, bundle := RowsOf(source, u), Bundle(source, revisions, hostFiles);
    var i :| 0 <= i < |rows| && rows[i] == row;
    var out := Projected(u, row, hostFiles);
    assert ComesFrom(source, revisions, hostFiles, u, |rows|, out);
    BundleRows(source, revisions, hostFiles, u, out);
    var j :| 0 <= j < |RowsOf(bundle, u)| && RowsOf(bundle, u)[j] == out;
    ProjectedRef(u, row, hostFiles, k);
    assert At(RowsOf(bundle, u)[j], Refs(u)[k].column) == At(row, Refs(u)[k].column);
  }

  /** Every model and voice in a bundle is one that another row of the bundle refers to. */
  lemma ExportedModelsAndVoicesAreNamed(source: Tables, revisions: map<string, int>, hostFiles: map<string, string>,
                                        t: Table, j: nat)
    requires Keyed(source) && (t == ModelProfiles || t == VoiceProfiles)
    requires j < |RowsOf(Bundle(source, revisions, hostFiles), t)|
    ensures var bundle := Bundle(source, revisions, hostFiles);
            IsNamed(bundle, t, KeyOf(RowsOf(bundle, t)[j]))
  {
    var bundle, rows := Bundle(source, revisions, hostFiles), RowsOf(source, t);
    BundleRows(source, revisions, hostFiles, t, RowsOf(bundle, t)[j]);
    var i :| 0 <= i < |rows| && Keeps(source, revisions, t, rows[i])
             && Projected(t, rows[i], hostFiles) == RowsOf(bundle, t)[j];
    ProjectedKey(t, rows[i], hostFiles);
    SelectedIsNamed(source, revisions, hostFiles, t, At(rows[i], Id));
  }

  lemma SelectedIsNamed(source: Tables, revisions: map<string, int>, hostFiles: map<string, string>, t: Table,
                        key: Cell)
    requires (t == ModelProfiles && key in ModelIds(source, revisions))
             || (t == VoiceProfiles && key in VoiceIds(source, revisions))
    ensures IsNamed(Bundle(source, revisions, hostFiles), t, key)
  {
    hide IsNamed, Bundle;
    if t == ModelProfiles {
      SelectedModelIsNamed(source, revisions, hostFiles, key);
    } else {
      SelectedVoiceIsNamed(source, revisions, hostFiles, key);
    }
  }

  lemma SelectedModelIsNamed(source: Tables, revisions: map<string, int>, hostFiles: map<string, string>, key: Cell)
    requires key in ModelIds(source, revisions)
    ensures IsNamed(Bundle(source, revisions, hostFiles), ModelProfiles, key)
  {
    hide IsNamed, Bundle;
    if key in IdsNamed(RowsOf(source, AgentProfiles), RuleIds(source, revisions), RuleId, ModelProfileId) {
      NamingRow(source, revisions, hostFiles, AgentProfiles, 1, key);
    } else if key in IdsNamed(RowsOf(source, RuleJudgeConfigs), RuleIds(source, revisions), RuleId, ModelProfileId) {
      NamingRow(source, revisions, hostFiles, RuleJudgeConfigs, 1, key);
    } else if key in IdsNamed(RowsOf(source, JudgeProfiles), {ENABLED}, Status, ModelProfileId) {
      NamingRow(source, revisions, hostFiles, JudgeProfiles, 0, key);
    } else {
      NamingRow(source, revisions, hostFiles, Rules, 1, key);
    }
  }

  lemma SelectedVoiceIsNamed(source: Tables, revisions: map<string, int>, hostFiles: map<string, string>, key: Cell)
    requires key in VoiceIds(source, revisions)
    ensures IsNamed(Bundle(source, revisions, hostFiles), VoiceProfiles, key)
  {
    hide IsNamed, Bundle;
    if key in IdsNamed(RowsOf(source, AgentProfiles), RuleIds(source, revisions), RuleId, VoiceProfileId) {
      NamingRow(source, revisions, hostFiles, AgentProfiles, 2, key);
    } else if key in IdsNamed(RowsOf(source, HostAudioAssets), CurrentIds(source, revisions), GenerationId,
                              VoiceProfileId) {
      NamingRow(source, revisions, hostFiles, HostAudioAssets, 2, key);
    } else {
      NamingRow(source, revisions, hostFiles, Rules, 0, key);
    }
  }

  lemma NamingRow(source: Tables, revisions: map<string, int>, hostFiles: map<string, string>, u: Table, k: nat,
                  key: Cell)
    requires k < |Refs(u)|
    requires exists row ::
      row in RowsOf(source, u) && Keeps(source, revisions, u, row) && At(row, Refs(u)[k].column) == key
    ensures IsNamed(Bundle(source, revisions, hostFiles), Refs(u)[k].target, key)
  {
    var row :| row in RowsOf(source, u) && Keeps(source, revisions, u, row) && At(row, Refs(u)[k].column) == key;
    KeptRowNames(source, revisions, hostFiles, u, row, k);
  }

  // ---- The export itself ----

  datatype ExportRefusal = SourceTables | MissingColumn | UnknownFieldOrFile | Invalid(refusal: Refusal)

  /** The columns read of every row of a table; a row without one ends the export. */
  function ReadOfAll(t: Table): set<Column> {
    match t
    case RuleStages => {RuleId}
    case AgentProfiles => {RuleId}
    case RuleJudgeConfigs => {RuleId}
    case HostAudioAssets => {GenerationId}
    case JudgeProfiles => {Status}
    case StageActions => {StageId}
    case StagePromptTemplates => {StageId}
    case AgentPromptOverrides => {StageId}
    case _ => {Id}
  }

  /** The columns read of the selected rows only. */
  function ReadOfSelected(t: Table): set<Column> {
    match t
    case Rules => {HostVoiceProfileId, DefaultAgentModelProfileId, CurrentAudioGenerationId}
    case RuleStages => {Id}
    case AgentProfiles => {ModelProfileId, VoiceProfileId}
    case RuleJudgeConfigs => {ModelProfileId}
    case JudgeProfiles => {ModelProfileId}
    case HostAudioAssets => {VoiceProfileId, Id}
    case _ => {}
  }

  predicate MayExportRow(source: Tables, revisions: map<string, int>, hostFiles: map<string, string>, t: Table,
                         row: Row) {
    && ReadOfAll(t) <= row.Keys
    && (Keeps(source, revisions, t, row) ==> ReadOfSelected(t) <= row.Keys && MayExport(t, row, hostFiles))
  }

  ghost predicate MayExportTable(source: Tables, revisions: map<string, int>, hostFiles: map<string, string>, t: Table,
                                 n: nat)
    requires n <= |RowsOf(source, t)|
  {
    forall i | 0 <= i < n :: MayExportRow(source, revisions, hostFiles, t, RowsOf(source, t)[i])
  }

  ghost predicate MayExportWhole(source: Tables, revisions: map<string, int>, hostFiles: map<string, string>, t: Table)
  {
    t in source && MayExportTable(source, revisions, hostFiles, t, |RowsOf(source, t)|)
  }

  ghost predicate MayExportAll(source: Tables, revisions: map<string, int>, hostFiles: map<string, string>) {
    forall t: Table :: MayExportWhole(source, revisions, hostFiles, t)
  }

  lemma NextRow(source: Tables, revisions: map<string, int>, hostFiles: map<string, string>, t: Table, i: nat)
    requires i < |RowsOf(source, t)| && MayExportTable(source, revisions, hostFiles, t, i)
    ensures var row := RowsOf(source, t)[i];
            var rest := Exported(source, revisions, hostFiles, t, i);
            && Exported(source, revisions, hostFiles, t, i + 1)
               == (if Keeps(source, revisions, t, row) then rest + [Projected(t, row, hostFiles)] else rest)
            && (MayExportRow(source, revisions, hostFiles, t, row) <==>
                  MayExportTable(source, revisions, hostFiles, t, i + 1))
  {
    hide Keeps, Projected, MayExportRow, RowsOf;
  }

  method ExportTable(source: Tables, revisions: map<string, int>, hostFiles: map<string, string>, t: Table)
    returns (refusal: Option<ExportRefusal>, rows: seq<Row>)
    requires t in source
    ensures refusal.None? <==> MayExportWhole(source, revisions, hostFiles, t)
    ensures refusal.None? ==> rows == ExportedTable(source, revisions, hostFiles, t)
  {
    hide Keeps, Projected, MayExport, ReadOfAll, ReadOfSelected, RowsOf, SortRows, Exported;
    refusal, rows := None, [];
    var from := RowsOf(source, t);
    assert Exported(source, revisions, hostFiles, t, 0) == [] by {
      NothingExported(source, revisions, hostFiles, t);
    }
    for i := 0 to |from|
      invariant refusal.None? && MayExportTable(source, revisions, hostFiles, t, i)
      invariant rows == Exported(source, revisions, hostFiles, t, i)
    {
      NextRow(source, revisions, hostFiles, t, i);
      if !(ReadOfAll(t) <= from[i].Keys) {
        return Some(MissingColumn), [];
      }
      if Keeps(source, revisions, t, from[i]) {
        if !(ReadOfSelected(t) <= from[i].Keys) {
          return Some(MissingColumn), [];
        }
        if !MayExport(t, from[i], hostFiles) {
          return Some(UnknownFieldOrFile), [];
        }
        rows := rows + [Projected(t, from[i], hostFiles)];
      }
    }
    rows := SortRows(rows);
  }

  lemma NothingExported(source: Tables, revisions: map<string, int>, hostFiles: map<string, string>, t: Table)
    ensures Exported(source, revisions, hostFiles, t, 0) == []
  {
  }

  method ExportTables(source: Tables, revisions: map<string, int>, hostFiles: map<string, string>)
    returns (refusal: Option<ExportRefusal>, tables: Tables)
    requires forall t: Table :: t in source
    ensures refusal.None? <==> MayExportAll(source, revisions, hostFiles)
    ensures refusal.None? ==> tables == Bundle(source, revisions, hostFiles)
  {
    hide MayExportWhole, ExportedTable;
    refusal, tables := None, map[];
    for k := 0 to |ORDER|
      invariant refusal.None?
      invariant forall j | 0 <= j < k :: MayExportWhole(source, revisions, hostFiles, ORDER[j]) && ORDER[j] in tables
      invariant forall t | t in tables :: tables[t] == ExportedTable(source, revisions, hostFiles, t)
    {
      var rows;
      refusal, rows := ExportTable(source, revisions, hostFiles, ORDER[k]);
      if refusal.Some? {
        return;
      }
      tables := tables[ORDER[k] := rows];
    }
    forall t: Table ensures t in tables && MayExportWhole(source, revisions, hostFiles, t) {
      EveryTableIsOrdered(t);
    }
    assert tables == Bundle(source, revisions, hostFiles);
  }

  /** A source exports exactly when its selected rows are public and the bundle made of them is valid. */
  method ExportBundle(source: Tables, revisions: map<string, int>, hostFiles: map<string, string>)
    returns (result: Result<Tables, ExportRefusal>)
    ensures result.Success? <==> MayExportAll(source, revisions, hostFiles)
                                 && Valid(Bundle(source, revisions, hostFiles), revisions)
    ensures result.Success? ==> result.value == Bundle(source, revisions, hostFiles)
  {
    if exists t: Table :: t !in source {
      ghost var t: Table :| t !in source;
      assert !MayExportWhole(source, revisions, hostFiles, t);
      return Failure(SourceTables);
    }
    hide MayExportAll, Bundle, Valid;
    var refused, tables := ExportTables(source, revisions, hostFiles);
    if refused.Some? {
      return Failure(refused.value);
    }
    var refusal := Validate(tables, revisions);
    result := if refusal.Some? then Failure(Invalid(refusal.value)) else Success(tables);
  }
}
