/** What an exported bundle holds of its source, said of the rows of both.

  Rules are chosen by the release; everything else comes along because of a row that
  does. The theorem says so for every table, in both directions.
 */
module ResourceSelection {
  import opened Wrappers
  import opened ResourceBundle
  import opened ResourceExport

  /** Some row of table `u` of the bundle says `key` in column `c`. */
  ghost predicate Has(bundle: Tables, u: Table, c: Column, key: Cell) {
    exists j :: 0 <= j < |RowsOf(bundle, u)| && At(RowsOf(bundle, u)[j], c) == key
  }

  /** The row goes into a bundle because of the rows that are in it; a rule because of the release. */
  ghost predicate Belongs(bundle: Tables, revisions: map<string, int>, t: Table, row: Row) {
    match t
    case Rules => At(row, Id).Text? && At(row, Id).text in revisions
    case RuleStages => Has(bundle, Rules, Id, At(row, RuleId))
    case AgentProfiles => Has(bundle, Rules, Id, At(row, RuleId))
    case RuleJudgeConfigs => Has(bundle, Rules, Id, At(row, RuleId))
    case StageActions => Has(bundle, RuleStages, Id, At(row, StageId))
    case StagePromptTemplates => Has(bundle, RuleStages, Id, At(row, StageId))
    case AgentPromptOverrides => Has(bundle, RuleStages, Id, At(row, StageId))
    case RuleAudioGenerations => Has(bundle, Rules, CurrentAudioGenerationId, At(row, Id))
    case HostAudioAssets => Has(bundle, Rules, CurrentAudioGenerationId, At(row, GenerationId))
    case JudgeProfiles => At(row, Status) == Text("ENABLED")
    case ModelProfiles =>
      || Has(bundle, AgentProfiles, ModelProfileId, At(row, Id))
      || Has(bundle, RuleJudgeConfigs, ModelProfileId, At(row, Id))
      || Has(bundle, JudgeProfiles, ModelProfileId, At(row, Id))
      || Has(bundle, Rules, DefaultAgentModelProfileId, At(row, Id))
    case VoiceProfiles =>
      || Has(bundle, AgentProfiles, VoiceProfileId, At(row, Id))
      || Has(bundle, HostAudioAssets, VoiceProfileId, At(row, Id))
      || Has(bundle, Rules, HostVoiceProfileId, At(row, Id))
  }

  // ---- The public form of a row ----

  /** The public columns of a row: actors hidden, recordings at their place in the bundle, a key for each model. */
  ghost predicate IsPublicForm(t: Table, row: Row, hostFiles: map<string, string>, out: Row) {
    && (forall c | c in row && c in Fields(t) && c != StoragePath ::
          c in out
          && out[c] == if c in {CreatedBy, RequestedBy, ApprovedBy} && row[c] != Null then Text("@admin") else row[c])
    && (forall c | c in out :: (c in row && c in Fields(t)) || (c == ModelEnvKey && t == ModelProfiles)
                               || (c == StoragePath && t == HostAudioAssets))
    && (t == ModelProfiles && ModelEnvKey !in row ==> At(out, ModelEnvKey) == Text("JX_LLM_API_KEY"))
    && (t == HostAudioAssets && At(row, Id).Text? && At(row, Id).text in hostFiles ==>
          At(out, StoragePath) == Text(hostFiles[At(row, Id).text]))
  }

  lemma PublicCell(t: Table, row: Row, hostFiles: map<string, string>, c: Column)
    requires c in row && c in Fields(t) && c != StoragePath
    ensures var out := Projected(t, row, hostFiles);
            c in out
            && out[c] == if c in {CreatedBy, RequestedBy, ApprovedBy} && row[c] != Null then Text("@admin") else row[c]
  {
    hide Fields;
  }

  lemma OnlyPublicCells(t: Table, row: Row, hostFiles: map<string, string>, c: Column)
    requires c in Projected(t, row, hostFiles)
    ensures (c in row && c in Fields(t)) || (c == ModelEnvKey && t == ModelProfiles)
            || (c == StoragePath && t == HostAudioAssets)
  {
    hide Fields;
  }

  lemma AddedCells(t: Table, row: Row, hostFiles: map<string, string>)
    ensures var out := Projected(t, row, hostFiles);
            && (t == ModelProfiles && ModelEnvKey !in row ==> At(out, ModelEnvKey) == Text("JX_LLM_API_KEY"))
            && (t == HostAudioAssets && At(row, Id).Text? && At(row, Id).text in hostFiles ==>
                  At(out, StoragePath) == Text(hostFiles[At(row, Id).text]))
  {
    hide Fields;
  }

  lemma ProjectedIsPublicForm(t: Table, row: Row, hostFiles: map<string, string>)
    ensures IsPublicForm(t, row, hostFiles, Projected(t, row, hostFiles))
  {
    hide Fields, Projected;
    var out := Projected(t, row, hostFiles);
    forall c | c in row && c in Fields(t) && c != StoragePath
      ensures c in out
      ensures out[c] == if c in {CreatedBy, RequestedBy, ApprovedBy} && row[c] != Null then Text("@admin") else row[c]
    {
      PublicCell(t, row, hostFiles, c);
    }
    forall c | c in out
      ensures (c in row && c in Fields(t)) || (c == ModelEnvKey && t == ModelProfiles)
              || (c == StoragePath && t == HostAudioAssets)
    {
      OnlyPublicCells(t, row, hostFiles, c);
    }
    AddedCells(t, row, hostFiles);
  }

  // ---- The order of a table ----

  /** Where two strings first differ, the smaller character decides; a prefix comes first. */
  ghost predicate ComesBefore(a: string, b: string, k: nat) {
    k <= |a| && k < |b| && a[..k] == b[..k] && (k == |a| || a[k] < b[k])
  }

  lemma {:induction false} LessExactly(a: string, b: string)
    ensures Less(a, b) <==> exists k: nat :: ComesBefore(a, b, k)
  {
    if b == "" {
    } else if a == "" || a[0] < b[0] {
      assert ComesBefore(a, b, 0);
    } else if a[0] == b[0] {
      LessExactly(a[1..], b[1..]);
      if k: nat :| ComesBefore(a[1..], b[1..], k) {
        assert a[..k + 1] == [a[0]] + a[1..][..k] && b[..k + 1] == [b[0]] + b[1..][..k];
        assert ComesBefore(a, b, k + 1);
      }
      if k: nat :| ComesBefore(a, b, k) {
        assert k > 0;
        assert a[1..][..k - 1] == a[..k][1..] && b[1..][..k - 1] == b[..k][1..];
        assert ComesBefore(a[1..], b[1..], k - 1);
      }
    } else {
      forall k: nat ensures !ComesBefore(a, b, k) {
        if 0 < k <= |a| && k <= |b| {
          assert a[..k][0] == a[0] && b[..k][0] == b[0];
        }
      }
    }
  }

  // ---- Selection by what is selected ----

  /** The column that decides on a row of the table. */
  function Decides(t: Table): Column {
    match t
    case RuleStages => RuleId
    case AgentProfiles => RuleId
    case RuleJudgeConfigs => RuleId
    case StageActions => StageId
    case StagePromptTemplates => StageId
    case AgentPromptOverrides => StageId
    case HostAudioAssets => GenerationId
    case JudgeProfiles => Status
    case _ => Id
  }

  lemma DecidesAlone(source: Tables, revisions: map<string, int>, t: Table, a: Row, b: Row)
    requires At(a, Decides(t)) == At(b, Decides(t))
    ensures Keeps(source, revisions, t, a) == Keeps(source, revisions, t, b)
  {
    hide RuleIds, CurrentIds, StageIds, ModelIds, VoiceIds;
  }

  /** Columns by which rows refer to each other, or are chosen: they go into the bundle as they are. */
  predicate IsPlain(t: Table, c: Column) {
    c in Fields(t) && c !in ACTORS && c != ModelEnvKey && c != StoragePath
  }

  lemma DecidesIsPlain(t: Table)
    ensures IsPlain(t, Decides(t))
  {
  }

  lemma PlainCell(t: Table, row: Row, hostFiles: map<string, string>, c: Column)
    requires IsPlain(t, c)
    ensures At(Projected(t, row, hostFiles), c) == At(row, c)
  {
    hide Fields;
  }

  /** The public form of a source row is in the bundle exactly when the row is selected. */
  lemma InBundleExactly(source: Tables, revisions: map<string, int>, hostFiles: map<string, string>, t: Table, i: nat)
    requires i < |RowsOf(source, t)|
    ensures var row := RowsOf(source, t)[i];
            Projected(t, row, hostFiles) in RowsOf(Bundle(source, revisions, hostFiles), t)
            <==> Keeps(source, revisions, t, row)
  {
    hide Keeps, Projected, Bundle;
    var rows, out := RowsOf(source, t), Projected(t, RowsOf(source, t)[i], hostFiles);
    BundleRows(source, revisions, hostFiles, t, out);
    if ComesFrom(source, revisions, hostFiles, t, |rows|, out) {
      var j :| 0 <= j < |rows| && Keeps(source, revisions, t, rows[j]) && Projected(t, rows[j], hostFiles) == out;
      DecidesIsPlain(t);
      PlainCell(t, rows[i], hostFiles, Decides(t));
      PlainCell(t, rows[j], hostFiles, Decides(t));
      DecidesAlone(source, revisions, t, rows[i], rows[j]);
    }
  }

  /** Some selected row of table `u` says `key` in column `c`. */
  ghost predicate KeptHas(source: Tables, revisions: map<string, int>, u: Table, c: Column, key: Cell) {
    exists row :: row in RowsOf(source, u) && Keeps(source, revisions, u, row) && At(row, c) == key
  }

  lemma BundleRowIsKept(source: Tables, revisions: map<string, int>, hostFiles: map<string, string>, u: Table,
                        c: Column, out: Row)
    requires IsPlain(u, c) && out in RowsOf(Bundle(source, revisions, hostFiles), u)
    ensures KeptHas(source, revisions, u, c, At(out, c))
  {
    hide Keeps, Projected, Bundle, IsPlain, RowsOf;
    var rows := RowsOf(source, u);
    BundleRows(source, revisions, hostFiles, u, out);
    var i :| 0 <= i < |rows| && Keeps(source, revisions, u, rows[i]) && Projected(u, rows[i], hostFiles) == out;
    PlainCell(u, rows[i], hostFiles, c);
    assert rows[i] in rows;
  }

  lemma KeptRowIsInBundle(source: Tables, revisions: map<string, int>, hostFiles: map<string, string>, u: Table,
                          c: Column, i: nat)
    requires IsPlain(u, c) && i < |RowsOf(source, u)| && Keeps(source, revisions, u, RowsOf(source, u)[i])
    ensures Has(Bundle(source, revisions, hostFiles), u, c, At(RowsOf(source, u)[i], c))
  {
    hide Keeps, Projected, Bundle, IsPlain, RowsOf;
    var out := Projected(u, RowsOf(source, u)[i], hostFiles);
    InBundleExactly(source, revisions, hostFiles, u, i);
    PlainCell(u, RowsOf(source, u)[i], hostFiles, c);
    var rows := RowsOf(Bundle(source, revisions, hostFiles), u);
    var j :| 0 <= j < |rows| && rows[j] == out;
  }

  /** In a plain column the bundle says what the selected rows say. */
  lemma BundleHas(source: Tables, revisions: map<string, int>, hostFiles: map<string, string>, u: Table, c: Column,
                  key: Cell)
    requires IsPlain(u, c)
    ensures Has(Bundle(source, revisions, hostFiles), u, c, key) <==> KeptHas(source, revisions, u, c, key)
  {
    hide Keeps, Bundle, IsPlain, RowsOf;
    if Has(Bundle(source, revisions, hostFiles), u, c, key) {
      var rows := RowsOf(Bundle(source, revisions, hostFiles), u);
      var j :| 0 <= j < |rows| && At(rows[j], c) == key;
      BundleRowIsKept(source, revisions, hostFiles, u, c, rows[j]);
    }
    if KeptHas(source, revisions, u, c, key) {
      var rows := RowsOf(source, u);
      var row :| row in rows && Keeps(source, revisions, u, row) && At(row, c) == key;
      var i :| 0 <= i < |rows| && rows[i] == row;
      KeptRowIsInBundle(source, revisions, hostFiles, u, c, i);
    }
  }

  lemma RuleIdsAreKept(source: Tables, revisions: map<string, int>, key: Cell)
    ensures key in RuleIds(source, revisions) <==> KeptHas(source, revisions, Rules, Id, key)
    ensures key in CurrentIds(source, revisions) <==> KeptHas(source, revisions, Rules, CurrentAudioGenerationId, key)
  {
  }

  lemma StageIdsAreKept(source: Tables, revisions: map<string, int>, key: Cell)
    ensures key in StageIds(source, revisions) <==> KeptHas(source, revisions, RuleStages, Id, key)
  {
    hide RuleIds;
  }

  lemma ModelIdsAreKept(source: Tables, revisions: map<string, int>, key: Cell)
    ensures key in ModelIds(source, revisions) <==>
      || KeptHas(source, revisions, AgentProfiles, ModelProfileId, key)
      || KeptHas(source, revisions, RuleJudgeConfigs, ModelProfileId, key)
      || KeptHas(source, revisions, JudgeProfiles, ModelProfileId, key)
      || KeptHas(source, revisions, Rules, DefaultAgentModelProfileId, key)
  {
    hide RuleIds, OfRelease;
  }

  lemma VoiceIdsAreKept(source: Tables, revisions: map<string, int>, key: Cell)
    ensures key in VoiceIds(source, revisions) <==>
      || KeptHas(source, revisions, AgentProfiles, VoiceProfileId, key)
      || KeptHas(source, revisions, HostAudioAssets, VoiceProfileId, key)
      || KeptHas(source, revisions, Rules, HostVoiceProfileId, key)
  {
    hide RuleIds, CurrentIds, OfRelease;
  }

  lemma ReferenceColumnsArePlain()
    ensures IsPlain(Rules, Id) && IsPlain(Rules, CurrentAudioGenerationId) && IsPlain(RuleStages, Id)
    ensures IsPlain(Rules, DefaultAgentModelProfileId) && IsPlain(Rules, HostVoiceProfileId)
    ensures IsPlain(AgentProfiles, ModelProfileId) && IsPlain(AgentProfiles, VoiceProfileId)
    ensures IsPlain(RuleJudgeConfigs, ModelProfileId) && IsPlain(JudgeProfiles, ModelProfileId)
    ensures IsPlain(HostAudioAssets, VoiceProfileId)
  {
  }

  /** A row is selected exactly when it belongs to what the bundle holds. */
  lemma SelectedBelongs(source: Tables, revisions: map<string, int>, hostFiles: map<string, string>, t: Table, row: Row)
    ensures Keeps(source, revisions, t, row) <==> Belongs(Bundle(source, revisions, hostFiles), revisions, t, row)
  {
    hide IsPlain, Has, KeptHas, Bundle, RuleIds, CurrentIds, StageIds, ModelIds, VoiceIds;
    ReferenceColumnsArePlain();
    match t
    case RuleStages => RuleRow(source, revisions, hostFiles, At(row, RuleId));
    case AgentProfiles => RuleRow(source, revisions, hostFiles, At(row, RuleId));
    case RuleJudgeConfigs => RuleRow(source, revisions, hostFiles, At(row, RuleId));
    case StageActions => StageRow(source, revisions, hostFiles, At(row, StageId));
    case StagePromptTemplates => StageRow(source, revisions, hostFiles, At(row, StageId));
    case AgentPromptOverrides => StageRow(source, revisions, hostFiles, At(row, StageId));
    case RuleAudioGenerations => RuleRow(source, revisions, hostFiles, At(row, Id));
    case HostAudioAssets => RuleRow(source, revisions, hostFiles, At(row, GenerationId));
    case ModelProfiles =>
      ModelIdsAreKept(source, revisions, At(row, Id));
      BundleHas(source, revisions, hostFiles, AgentProfiles, ModelProfileId, At(row, Id));
      BundleHas(source, revisions, hostFiles, RuleJudgeConfigs, ModelProfileId, At(row, Id));
      BundleHas(source, revisions, hostFiles, JudgeProfiles, ModelProfileId, At(row, Id));
      BundleHas(source, revisions, hostFiles, Rules, DefaultAgentModelProfileId, At(row, Id));
    case VoiceProfiles =>
      VoiceIdsAreKept(source, revisions, At(row, Id));
      BundleHas(source, revisions, hostFiles, AgentProfiles, VoiceProfileId, At(row, Id));
      BundleHas(source, revisions, hostFiles, HostAudioAssets, VoiceProfileId, At(row, Id));
      BundleHas(source, revisions, hostFiles, Rules, HostVoiceProfileId, At(row, Id));
    case Rules =>
    case JudgeProfiles =>
  }

  lemma RuleRow(source: Tables, revisions: map<string, int>, hostFiles: map<string, string>, key: Cell)
    ensures key in RuleIds(source, revisions) <==> Has(Bundle(source, revisions, hostFiles), Rules, Id, key)
    ensures key in CurrentIds(source, revisions)
       <==> Has(Bundle(source, revisions, hostFiles), Rules, CurrentAudioGenerationId, key)
  {
    hide IsPlain, Has, KeptHas, Bundle, RuleIds, CurrentIds;
    ReferenceColumnsArePlain();
    RuleIdsAreKept(source, revisions, key);
    BundleHas(source, revisions, hostFiles, Rules, Id, key);
    BundleHas(source, revisions, hostFiles, Rules, CurrentAudioGenerationId, key);
  }

  lemma StageRow(source: Tables, revisions: map<string, int>, hostFiles: map<string, string>, key: Cell)
    ensures key in StageIds(source, revisions) <==> Has(Bundle(source, revisions, hostFiles), RuleStages, Id, key)
  {
    hide IsPlain, Has, KeptHas, Bundle, StageIds;
    ReferenceColumnsArePlain();
    StageIdsAreKept(source, revisions, key);
    BundleHas(source, revisions, hostFiles, RuleStages, Id, key);
  }

  /** The public form of a source row is in the bundle exactly when the row belongs to what the bundle holds. */
  lemma ExportedExactly(source: Tables, revisions: map<string, int>, hostFiles: map<string, string>, t: Table, i: nat)
    requires i < |RowsOf(source, t)|
    ensures var row, bundle := RowsOf(source, t)[i], Bundle(source, revisions, hostFiles);
            Projected(t, row, hostFiles) in RowsOf(bundle, t) <==> Belongs(bundle, revisions, t, row)
  {
    hide Keeps, Projected, Bundle, Belongs;
    InBundleExactly(source, revisions, hostFiles, t, i);
    SelectedBelongs(source, revisions, hostFiles, t, RowsOf(source, t)[i]);
  }

  /** And the bundle holds nothing else: every row of it is the public form of a source row that belongs to it. */
  lemma NothingElse(source: Tables, revisions: map<string, int>, hostFiles: map<string, string>, t: Table, out: Row)
    requires out in RowsOf(Bundle(source, revisions, hostFiles), t)
    ensures exists row :: row in RowsOf(source, t) && out == Projected(t, row, hostFiles)
                          && Belongs(Bundle(source, revisions, hostFiles), revisions, t, row)
  {
    hide Keeps, Projected, Bundle, Belongs;
    var rows := RowsOf(source, t);
    BundleRows(source, revisions, hostFiles, t, out);
    var i :| 0 <= i < |rows| && Keeps(source, revisions, t, rows[i]) && Projected(t, rows[i], hostFiles) == out;
    SelectedBelongs(source, revisions, hostFiles, t, rows[i]);
    assert rows[i] in rows;
  }
}
