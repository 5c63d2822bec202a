/** The public resource bundle, scripts/ops/v2_resources.py: its tables, its validation and its export.

  A row maps columns to cells. Templates, hashes, secret patterns and the asset list
  are not part of this model.
 */
module ResourceBundle {
  import opened Wrappers

  datatype Table =
    | ModelProfiles | VoiceProfiles | Rules | RuleStages | StageActions | AgentProfiles | StagePromptTemplates
    | AgentPromptOverrides | RuleJudgeConfigs | RuleAudioGenerations | HostAudioAssets | JudgeProfiles

  datatype Column =
    | Id | Name | ConfigRef | BaseUrl | ModelId | MaxConcurrency | TokenPerChar | GenerationParams | CapabilitySchema
    | Status | ModelEnvKey | Kind | ProviderVoice | Rate | CharsPerSecond | PlaybackGain | AvatarKey
    | CalibrationStatus | CalibratedAt | RuleKey | Version | Description | SideSize | EstimatedSeconds
    | LifecycleStatus | HostVoiceProfileId | DefaultAgentModelProfileId | TopicPolicy | ConfigRevision
    | PostmatchQuestionnaireEnabled | HistoricalReadOnly | CreatedBy | AudioReviewedAt | CurrentAudioGenerationId
    | RuleId | Position | StageKind | DurationSeconds | StartHostText | EndHostText | Parameters | StageId
    | ActionKind | Side | SeatNo | FormatVersionId | ModelProfileId | VoiceProfileId | SystemPrompt
    | DebaterPrompt | Purpose | TemplateText | Variables | OutputContract | AgentProfileId | Enabled
    | JudgePrompt | IncludeInLeaderboard | ManifestHash | Manifest | ReviewStatus | RequestedBy | RequestedAt
    | StartedAt | CompletedAt | ApprovedBy | ApprovedAt | TotalCount | ReadyCount | FailedCount | LastErrorCode
    | IsCurrent | GenerationId | SegmentKey | HostText | TextHash | StoragePath | ErrorCode | InputHash
    | InputSnapshot | ByteCount | Checksum | DurationMs
    | CreatedAt | UpdatedAt | ActiveTaskId | ApiKeyCiphertext | ApiKeyNonce | ApiKeyLast4

  datatype Json =
    | JNull | JBool(b: bool) | JInt(n: int) | JFloat(x: real) | JString(s: string) | JList(items: seq<Json>)
    | JObject(fields: map<string, Json>)

  datatype Cell = Null | Text(text: string) | Flag(flag: bool) | Number(number: int) | Structured(json: Json)

  type Row = map<Column, Cell>

  type Tables = map<Table, seq<Row>>

  type Index = map<Table, map<string, Row>>

  /** `FIELDS`: the tables in the order rows are validated and inserted, and their columns. */
  const ORDER: seq<Table> := [
    ModelProfiles, VoiceProfiles, Rules, RuleStages, StageActions, AgentProfiles, StagePromptTemplates,
    AgentPromptOverrides, RuleJudgeConfigs, RuleAudioGenerations, HostAudioAssets, JudgeProfiles]

  function Fields(t: Table): set<Column> {
    match t
    case ModelProfiles =>
      {Id, Name, ConfigRef, BaseUrl, ModelId, MaxConcurrency, TokenPerChar, GenerationParams, CapabilitySchema,
       Status, ModelEnvKey}
    case VoiceProfiles =>
      {Id, Name, Kind, ProviderVoice, Rate, CharsPerSecond, PlaybackGain, AvatarKey, CalibrationStatus,
       CalibratedAt, Status}
    case Rules =>
      {Id, RuleKey, Version, Name, Description, SideSize, EstimatedSeconds, Status, LifecycleStatus,
       HostVoiceProfileId, DefaultAgentModelProfileId, TopicPolicy, ConfigRevision, PostmatchQuestionnaireEnabled,
       HistoricalReadOnly, CreatedBy, AudioReviewedAt, CurrentAudioGenerationId}
    case RuleStages =>
      {Id, RuleId, Position, Name, StageKind, DurationSeconds, StartHostText, EndHostText, Parameters}
    case StageActions => {Id, StageId, Position, ActionKind, Side, SeatNo, DurationSeconds, Parameters}
    case AgentProfiles =>
      {Id, Name, FormatVersionId, RuleId, ModelProfileId, VoiceProfileId, SystemPrompt, DebaterPrompt,
       GenerationParams, Status}
    case StagePromptTemplates => {Id, StageId, Purpose, TemplateText, Variables, OutputContract}
    case AgentPromptOverrides => {Id, AgentProfileId, StageId, Purpose, TemplateText, Variables, OutputContract}
    case RuleJudgeConfigs => {RuleId, Enabled, ModelProfileId, JudgePrompt, IncludeInLeaderboard}
    case RuleAudioGenerations =>
      {Id, RuleId, ConfigRevision, ManifestHash, Manifest, Status, ReviewStatus, RequestedBy, RequestedAt, StartedAt,
       CompletedAt, ApprovedBy, ApprovedAt, TotalCount, ReadyCount, FailedCount, LastErrorCode, IsCurrent}
    case HostAudioAssets =>
      {Id, RuleId, GenerationId, SegmentKey, HostText, TextHash, VoiceProfileId, StoragePath, Status, ErrorCode,
       InputHash, InputSnapshot, ByteCount, Checksum, DurationMs}
    case JudgeProfiles => {Id, ModelProfileId, SystemPrompt, JudgePrompt, GenerationParams, Status}
  }

  const ACTORS: set<Column> := {CreatedBy, RequestedBy, ApprovedBy}

  /** The stand-in for whoever administers the target database. */
  const ADMIN := Text("@admin")

  const ENABLED := Text("ENABLED")

  const PROMPT_COUNT := 198

  datatype Ref = Ref(column: Column, target: Table)

  /** `refs`: the columns that name a row of another table of the bundle. */
  function Refs(t: Table): seq<Ref> {
    match t
    case Rules =>
      [Ref(HostVoiceProfileId, VoiceProfiles), Ref(DefaultAgentModelProfileId, ModelProfiles),
       Ref(CurrentAudioGenerationId, RuleAudioGenerations)]
    case RuleStages => [Ref(RuleId, Rules)]
    case StageActions => [Ref(StageId, RuleStages)]
    case AgentProfiles => [Ref(RuleId, Rules), Ref(ModelProfileId, ModelProfiles), Ref(VoiceProfileId, VoiceProfiles)]
    case StagePromptTemplates => [Ref(StageId, RuleStages)]
    case AgentPromptOverrides => [Ref(StageId, RuleStages), Ref(AgentProfileId, AgentProfiles)]
    case RuleJudgeConfigs => [Ref(RuleId, Rules), Ref(ModelProfileId, ModelProfiles)]
    case RuleAudioGenerations => [Ref(RuleId, Rules)]
    case HostAudioAssets =>
      [Ref(RuleId, Rules), Ref(GenerationId, RuleAudioGenerations), Ref(VoiceProfileId, VoiceProfiles)]
    case JudgeProfiles => [Ref(ModelProfileId, ModelProfiles)]
    case _ => []
  }

  /** A cell of a row; a missing column reads as `Null`. */
  function At(row: Row, c: Column): Cell {
    if c in row then row[c] else Null
  }

  /** `row.get("id", row.get("rule_id"))`. */
  function KeyOf(row: Row): Cell {
    if Id in row then row[Id] else At(row, RuleId)
  }

  function RowsOf(tables: Tables, t: Table): seq<Row> {
    if t in tables then tables[t] else []
  }

  /** Some row of `rows` goes by `key`. */
  ghost predicate HasKey(rows: seq<Row>, key: Cell) {
    exists i :: 0 <= i < |rows| && KeyOf(rows[i]) == key
  }

  predicate IsHex(c: char) {
    '0' <= c <= '9' || 'a' <= c <= 'f'
  }

  /** `str(UUID(key)) == key`: 32 lower-case hexadecimal digits in groups of 8, 4, 4, 4 and 12. */
  predicate IsCanonicalUuid(key: string) {
    |key| == 36 && forall i | 0 <= i < 36 :: if i in {8, 13, 18, 23} then key[i] == '-' else IsHex(key[i])
  }

  predicate IsIdentity(key: Cell) {
    key.Text? && IsCanonicalUuid(key.text)
  }

  // ---- What makes a bundle valid ----

  predicate HasFields(t: Table, row: Row) {
    row.Keys == Fields(t)
  }

  predicate ActorsHidden(row: Row) {
    forall c | c in ACTORS :: At(row, c) == Null || At(row, c) == ADMIN
  }

  ghost predicate RowsDistinct(rows: seq<Row>) {
    forall i, j | 0 <= i < j < |rows| :: KeyOf(rows[i]) != KeyOf(rows[j])
  }

  const GENERATION_FIELDS: set<string> := {"temperature", "top_p", "max_tokens"}
  const STAGE_PARAMETER_FIELDS: set<string> := {"max_speech_seconds", "starting_side"}

  predicate IsNumber(v: Json) {
    v.JInt? || v.JFloat?
  }

  function NumberOf(v: Json): real
    requires IsNumber(v)
  {
    if v.JInt? then v.n as real else v.x
  }

  function Ceiling(name: string): real {
    if name == "temperature" then 2.0 else 1.0
  }

  predicate IsGenerationValue(name: string, v: Json) {
    if name == "max_tokens" then v.JInt? && 1 <= v.n <= 32768
    else IsNumber(v) && 0.0 <= NumberOf(v) <= Ceiling(name)
  }

  predicate IsGeneration(v: Json) {
    v.JObject? && v.fields.Keys <= GENERATION_FIELDS
    && forall name | name in v.fields :: IsGenerationValue(name, v.fields[name])
  }

  predicate IsLimit(name: string, v: Json) {
    v == JNull
    || (v.JObject? && v.fields.Keys == {"minimum", "maximum"}
        && var low, high := v.fields["minimum"], v.fields["maximum"];
           if name == "max_tokens" then low.JInt? && high.JInt? && 1 <= low.n <= high.n <= 32768
           else IsNumber(low) && IsNumber(high) && 0.0 <= NumberOf(low) <= NumberOf(high) <= Ceiling(name))
  }

  predicate IsCapabilities(v: Json) {
    v.JObject? && v.fields.Keys <= GENERATION_FIELDS && forall name | name in v.fields :: IsLimit(name, v.fields[name])
  }

  predicate IsStageParameter(name: string, v: Json) {
    if name == "max_speech_seconds" then v.JInt? && 1 <= v.n <= 180
    else v == JString("AFFIRMATIVE") || v == JString("NEGATIVE")
  }

  predicate IsParameters(t: Table, v: Json) {
    v.JObject? && v.fields.Keys <= (if t == RuleStages then STAGE_PARAMETER_FIELDS else {})
    && forall name | name in v.fields :: IsStageParameter(name, v.fields[name])
  }

  /** `validate_public_json`: the JSON columns keep to a closed configuration schema. */
  predicate PublicJson(t: Table, row: Row) {
    && (GenerationParams in row ==> row[GenerationParams].Structured? && IsGeneration(row[GenerationParams].json))
    && (t == ModelProfiles ==> At(row, CapabilitySchema).Structured? && IsCapabilities(At(row, CapabilitySchema).json))
    && (Parameters in row ==> row[Parameters].Structured? && IsParameters(t, row[Parameters].json))
  }

  predicate RowOk(t: Table, row: Row) {
    HasFields(t, row) && PublicJson(t, row) && IsIdentity(KeyOf(row)) && ActorsHidden(row)
  }

  ghost predicate TableOk(t: Table, rows: seq<Row>) {
    (forall i | 0 <= i < |rows| :: RowOk(t, rows[i])) && RowsDistinct(rows)
  }

  /** What Python takes for false. */
  predicate Falsy(cell: Cell) {
    cell == Null || cell == Flag(false) || cell == Number(0) || cell == Text("")
  }

  /** Only a disabled judge may do without a reference. */
  predicate MayBeNull(t: Table, row: Row) {
    t == RuleJudgeConfigs && Falsy(At(row, Enabled))
  }

  ghost predicate RefHolds(tables: Tables, t: Table, row: Row, ref: Ref) {
    || (At(row, ref.column) == Null && MayBeNull(t, row))
    || (At(row, ref.column) != Null && HasKey(RowsOf(tables, ref.target), At(row, ref.column)))
  }

  /** The bundle is closed: what its rows refer to is in it. */
  ghost predicate RowClosed(tables: Tables, t: Table, row: Row) {
    forall k | 0 <= k < |Refs(t)| :: RefHolds(tables, t, row, Refs(t)[k])
  }

  ghost predicate TableClosed(tables: Tables, t: Table) {
    forall i | 0 <= i < |RowsOf(tables, t)| :: RowClosed(tables, t, RowsOf(tables, t)[i])
  }

  ghost predicate Closed(tables: Tables) {
    forall t: Table :: TableClosed(tables, t)
  }

  predicate RuleConfigured(row: Row, revision: int) {
    && At(row, SideSize) == Number(4) && At(row, Status) == ENABLED && At(row, LifecycleStatus) == ENABLED
    && At(row, HistoricalReadOnly) == Flag(false) && At(row, CreatedBy) == ADMIN
    && At(row, ConfigRevision) == Number(revision)
  }

  /** Exactly the rules of the release, each configured as it should be. */
  ghost predicate RulesOk(rules: seq<Row>, revisions: map<string, int>) {
    && (forall id | id in revisions :: HasKey(rules, Text(id)))
    && forall i | 0 <= i < |rules| ::
         && KeyOf(rules[i]).Text? && KeyOf(rules[i]).text in revisions
         && RuleConfigured(rules[i], revisions[KeyOf(rules[i]).text])
  }

  ghost predicate NoFormats(agents: seq<Row>) {
    forall i | 0 <= i < |agents| :: At(agents[i], FormatVersionId) == Null
  }

  predicate IsKeyChar(c: char) {
    'A' <= c <= 'Z' || '0' <= c <= '9' || c == '_'
  }

  /** `JX_[A-Z0-9_]{1,80}_API_KEY`, in full. */
  predicate IsEnvironmentKey(name: string) {
    && 12 <= |name| <= 91 && name[..3] == "JX_" && name[|name| - 8..] == "_API_KEY"
    && forall i | 3 <= i < |name| - 8 :: IsKeyChar(name[i])
  }

  predicate ModelOk(row: Row) {
    && At(row, ModelEnvKey).Text? && IsEnvironmentKey(At(row, ModelEnvKey).text)
    && (At(row, Status) == ENABLED || At(row, Status) == Text("DISABLED"))
  }

  ghost predicate ModelsOk(models: seq<Row>) {
    forall i | 0 <= i < |models| :: ModelOk(models[i])
  }

  ghost predicate Valid(tables: Tables, revisions: map<string, int>) {
    && (forall t: Table :: t in tables && TableOk(t, RowsOf(tables, t)))
    && RulesOk(RowsOf(tables, Rules), revisions)
    && |RowsOf(tables, StagePromptTemplates)| + |RowsOf(tables, AgentPromptOverrides)| == PROMPT_COUNT
    && Closed(tables)
    && NoFormats(RowsOf(tables, AgentProfiles))
    && ModelsOk(RowsOf(tables, ModelProfiles))
  }

  // ---- Validation ----

  datatype Refusal =
    | BundleTables | RowFields | PublicFields | RowIdentity | ProductionActor | RuleScope | RuleConfiguration
    | PromptCount | DanglingReference | HistoricalFormatReference | ModelEnvironmentKey

  /** `m` is `rows` by key. */
  ghost predicate Indexes(m: map<string, Row>, rows: seq<Row>) {
    && (forall key | key in m :: HasKey(rows, Text(key)))
    && (forall i | 0 <= i < |rows| :: KeyOf(rows[i]).Text? && KeyOf(rows[i]).text in m)
  }

  lemma EveryTableIsOrdered(t: Table)
    ensures exists k :: 0 <= k < |ORDER| && ORDER[k] == t
  {
    var k := match t
      case ModelProfiles => 0 case VoiceProfiles => 1 case Rules => 2 case RuleStages => 3 case StageActions => 4
      case AgentProfiles => 5 case StagePromptTemplates => 6 case AgentPromptOverrides => 7
      case RuleJudgeConfigs => 8 case RuleAudioGenerations => 9 case HostAudioAssets => 10 case JudgeProfiles => 11;
    assert ORDER[k] == t;
  }

  method CheckTable(t: Table, rows: seq<Row>) returns (refusal: Option<Refusal>, index: map<string, Row>)
    ensures refusal.None? <==> TableOk(t, rows)
    ensures refusal.None? ==> Indexes(index, rows)
    ensures refusal.Some? ==> refusal.value in {RowFields, PublicFields, RowIdentity, ProductionActor}
  {
    hide HasFields, PublicJson, ActorsHidden, IsCanonicalUuid;
    refusal, index := None, map[];
    for i := 0 to |rows|
      invariant refusal.None? && TableOk(t, rows[..i]) && Indexes(index, rows[..i])
    {
      var row, key := rows[i], KeyOf(rows[i]);
      if !HasFields(t, row) {
        assert !RowOk(t, row);
        return Some(RowFields), index;
      }
      if !PublicJson(t, row) {
        assert !RowOk(t, row);
        return Some(PublicFields), index;
      }
      if !IsIdentity(key) || key.text in index {
        RefuseRow(t, rows, i);
        return Some(RowIdentity), index;
      }
      if !ActorsHidden(row) {
        assert !RowOk(t, row);
        return Some(ProductionActor), index;
      }
      AcceptRow(t, rows, i, index);
      index := index[key.text := row];
    }
    assert rows[..|rows|] == rows;
  }

  lemma RefuseRow(t: Table, rows: seq<Row>, i: nat)
    requires i < |rows|
    requires !IsIdentity(KeyOf(rows[i])) || HasKey(rows[..i], KeyOf(rows[i]))
    ensures !TableOk(t, rows)
  {
    if IsIdentity(KeyOf(rows[i])) {
      var j :| 0 <= j < i && KeyOf(rows[..i][j]) == KeyOf(rows[i]);
      assert KeyOf(rows[j]) == KeyOf(rows[i]);
    } else {
      assert !RowOk(t, rows[i]);
    }
  }

  lemma IndexGrows(rows: seq<Row>, i: nat, index: map<string, Row>)
    requires i < |rows| && Indexes(index, rows[..i]) && KeyOf(rows[i]).Text?
    ensures Indexes(index[KeyOf(rows[i]).text := rows[i]], rows[..i + 1])
  {
    hide KeyOf;
    var before, after := rows[..i], rows[..i + 1];
    assert forall j | 0 <= j < i :: after[j] == before[j];
    assert after[i] == rows[i];
    forall key | key in index ensures HasKey(after, Text(key)) {
      assert HasKey(before, Text(key));
      var j :| 0 <= j < i && KeyOf(before[j]) == Text(key);
      assert KeyOf(after[j]) == Text(key);
    }
    assert HasKey(after, KeyOf(rows[i])) by {
      assert KeyOf(after[i]) == KeyOf(rows[i]);
    }
  }

  lemma AcceptRow(t: Table, rows: seq<Row>, i: nat, index: map<string, Row>)
    requires i < |rows| && TableOk(t, rows[..i]) && Indexes(index, rows[..i]) && RowOk(t, rows[i])
    requires KeyOf(rows[i]).text !in index
    ensures TableOk(t, rows[..i + 1]) && Indexes(index[KeyOf(rows[i]).text := rows[i]], rows[..i + 1])
  {
    hide KeyOf, HasFields, PublicJson, IsCanonicalUuid, ActorsHidden, HasKey;
    var before, after := rows[..i], rows[..i + 1];
    assert forall j | 0 <= j < i :: after[j] == before[j];
    IndexGrows(rows, i, index);
  }

  ghost predicate IsIndexOf(index: Index, tables: Tables) {
    forall t: Table :: t in index && Indexes(index[t], RowsOf(tables, t))
  }

  method IndexTables(tables: Tables) returns (refusal: Option<Refusal>, index: Index)
    requires forall t: Table :: t in tables
    ensures refusal.None? <==> forall t: Table :: TableOk(t, RowsOf(tables, t))
    ensures refusal.None? ==> IsIndexOf(index, tables)
  {
    refusal, index := None, map[];
    for k := 0 to |ORDER|
      invariant refusal.None?
      invariant forall j | 0 <= j < k :: TableOk(ORDER[j], tables[ORDER[j]])
      invariant forall j | 0 <= j < k :: ORDER[j] in index && Indexes(index[ORDER[j]], tables[ORDER[j]])
    {
      var found: map<string, Row>;
      refusal, found := CheckTable(ORDER[k], tables[ORDER[k]]);
      if refusal.Some? {
        assert !TableOk(ORDER[k], RowsOf(tables, ORDER[k]));
        return;
      }
      OrderIsDistinct();
      index := index[ORDER[k] := found];
    }
    forall t: Table ensures TableOk(t, RowsOf(tables, t)) && t in index && Indexes(index[t], RowsOf(tables, t)) {
      EveryTableIsOrdered(t);
    }
  }

  lemma OrderIsDistinct()
    ensures forall i, j | 0 <= i < j < |ORDER| :: ORDER[i] != ORDER[j]
  {
  }

  method CheckRules(rules: seq<Row>, index: map<string, Row>, revisions: map<string, int>)
    returns (refusal: Option<Refusal>)
    requires Indexes(index, rules)
    ensures refusal.None? <==> RulesOk(rules, revisions)
    ensures refusal.Some? ==> refusal.value in {RuleScope, RuleConfiguration}
  {
    RightScope(rules, index, revisions);
    if index.Keys != revisions.Keys {
      return Some(RuleScope);
    }
    for i := 0 to |rules|
      invariant forall j | 0 <= j < i :: RuleConfigured(rules[j], revisions[KeyOf(rules[j]).text])
    {
      if !RuleConfigured(rules[i], revisions[KeyOf(rules[i]).text]) {
        return Some(RuleConfiguration);
      }
    }
    return None;
  }

  lemma RightScope(rules: seq<Row>, index: map<string, Row>, revisions: map<string, int>)
    requires Indexes(index, rules)
    ensures RulesOk(rules, revisions) ==> index.Keys == revisions.Keys
    ensures index.Keys == revisions.Keys ==> forall id | id in revisions :: HasKey(rules, Text(id))
  {
    if RulesOk(rules, revisions) {
      forall id ensures id in index <==> id in revisions {
        if id in index || id in revisions {
          assert HasKey(rules, Text(id));
          var i :| 0 <= i < |rules| && KeyOf(rules[i]) == Text(id);
        }
      }
    }
  }

  lemma FoundInIndex(rows: seq<Row>, index: map<string, Row>, key: Cell)
    requires Indexes(index, rows)
    ensures HasKey(rows, key) <==> key.Text? && key.text in index
  {
    if HasKey(rows, key) {
      var i :| 0 <= i < |rows| && KeyOf(rows[i]) == key;
    }
  }

  predicate RefFound(index: Index, t: Table, row: Row, ref: Ref) {
    var value := At(row, ref.column);
    || (value == Null && MayBeNull(t, row))
    || (value.Text? && ref.target in index && value.text in index[ref.target])
  }

  lemma FoundRefHolds(tables: Tables, index: Index, t: Table, row: Row, ref: Ref)
    requires IsIndexOf(index, tables)
    ensures RefFound(index, t, row, ref) <==> RefHolds(tables, t, row, ref)
  {
    FoundInIndex(RowsOf(tables, ref.target), index[ref.target], At(row, ref.column));
  }

  method CheckRefs(tables: Tables, index: Index, t: Table, row: Row) returns (ok: bool)
    requires IsIndexOf(index, tables)
    ensures ok <==> RowClosed(tables, t, row)
  {
    hide IsIndexOf, RefHolds, RefFound, Refs;
    for k := 0 to |Refs(t)|
      invariant forall j | 0 <= j < k :: RefHolds(tables, t, row, Refs(t)[j])
    {
      FoundRefHolds(tables, index, t, row, Refs(t)[k]);
      if !RefFound(index, t, row, Refs(t)[k]) {
        return false;
      }
    }
    return true;
  }

  /** The reference part of `validate_bundle`: it refuses exactly the bundles that are not valid. */
  method Validate(tables: Tables, revisions: map<string, int>) returns (refusal: Option<Refusal>)
    ensures refusal.None? <==> Valid(tables, revisions)
  {
    if exists t: Table :: t !in tables {
      return Some(BundleTables);
    }
    hide TableOk, RulesOk, Closed, NoFormats, ModelsOk, IsIndexOf, RowsOf;
    var index: Index;
    refusal, index := IndexTables(tables);
    if refusal.Some? {
      return;
    }
    refusal := CheckRules(RowsOf(tables, Rules), index[Rules], revisions);
    if refusal.Some? {
      return;
    }
    if |RowsOf(tables, StagePromptTemplates)| + |RowsOf(tables, AgentPromptOverrides)| != PROMPT_COUNT {
      return Some(PromptCount);
    }
    var closed := CheckClosed(tables, index);
    if !closed {
      return Some(DanglingReference);
    }
    var plain := CheckFormats(RowsOf(tables, AgentProfiles));
    if !plain {
      return Some(HistoricalFormatReference);
    }
    var keyed := CheckModels(RowsOf(tables, ModelProfiles));
    refusal := if keyed then None else Some(ModelEnvironmentKey);
  }

  method CheckModels(models: seq<Row>) returns (ok: bool)
    ensures ok <==> ModelsOk(models)
  {
    hide ModelOk;
    for i := 0 to |models|
      invariant ModelsOk(models[..i])
    {
      if !ModelOk(models[i]) {
        return false;
      }
    }
    return true;
  }

  method CheckFormats(agents: seq<Row>) returns (ok: bool)
    ensures ok <==> NoFormats(agents)
  {
    for i := 0 to |agents|
      invariant NoFormats(agents[..i])
    {
      if At(agents[i], FormatVersionId) != Null {
        return false;
      }
    }
    return true;
  }

  method CheckTableClosed(tables: Tables, index: Index, t: Table) returns (ok: bool)
    requires IsIndexOf(index, tables)
    ensures ok <==> TableClosed(tables, t)
  {
    hide IsIndexOf, RowClosed;
    var rows := RowsOf(tables, t);
    for i := 0 to |rows|
      invariant forall j | 0 <= j < i :: RowClosed(tables, t, rows[j])
    {
      var closed := CheckRefs(tables, index, t, rows[i]);
      if !closed {
        assert !RowClosed(tables, t, RowsOf(tables, t)[i]);
        return false;
      }
    }
    return true;
  }

  method CheckClosed(tables: Tables, index: Index) returns (ok: bool)
    requires IsIndexOf(index, tables)
    ensures ok <==> Closed(tables)
  {
    hide IsIndexOf, TableClosed;
    for k := 0 to |ORDER|
      invariant forall j | 0 <= j < k :: TableClosed(tables, ORDER[j])
    {
      var closed := CheckTableClosed(tables, index, ORDER[k]);
      if !closed {
        return false;
      }
    }
    forall t: Table ensures TableClosed(tables, t) {
      EveryTableIsOrdered(t);
    }
    return true;
  }
}
