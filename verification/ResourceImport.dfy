/** `import_bundle`: the rows of a valid bundle go into a fresh database without breaking a foreign key.

  The database checks primary and foreign keys on every insert and update, as
  PostgreSQL does; its unique, check and not-null constraints are left out. A
  refusal or a violation rolls the transaction back.
 */
module ResourceImport {
  import opened Wrappers
  import opened ResourceBundle

  datatype Target = InTable(table: Table) | Users | FormatVersions

  datatype ForeignKey = ForeignKey(column: Column, target: Target)

  /** The foreign keys of the schema, migrations/versions/. */
  function ForeignKeys(t: Table): seq<ForeignKey> {
    match t
    case Rules =>
      [ForeignKey(CreatedBy, Users), ForeignKey(HostVoiceProfileId, InTable(VoiceProfiles)),
       ForeignKey(DefaultAgentModelProfileId, InTable(ModelProfiles)),
       ForeignKey(CurrentAudioGenerationId, InTable(RuleAudioGenerations))]
    case RuleStages => [ForeignKey(RuleId, InTable(Rules))]
    case StageActions => [ForeignKey(StageId, InTable(RuleStages))]
    case AgentProfiles =>
      [ForeignKey(ModelProfileId, InTable(ModelProfiles)), ForeignKey(VoiceProfileId, InTable(VoiceProfiles)),
       ForeignKey(FormatVersionId, FormatVersions), ForeignKey(RuleId, InTable(Rules))]
    case StagePromptTemplates => [ForeignKey(StageId, InTable(RuleStages))]
    case AgentPromptOverrides =>
      [ForeignKey(AgentProfileId, InTable(AgentProfiles)), ForeignKey(StageId, InTable(RuleStages))]
    case RuleJudgeConfigs => [ForeignKey(RuleId, InTable(Rules)), ForeignKey(ModelProfileId, InTable(ModelProfiles))]
    case RuleAudioGenerations =>
      [ForeignKey(RuleId, InTable(Rules)), ForeignKey(RequestedBy, Users), ForeignKey(ApprovedBy, Users)]
    case HostAudioAssets =>
      [ForeignKey(RuleId, InTable(Rules)), ForeignKey(VoiceProfileId, InTable(VoiceProfiles)),
       ForeignKey(GenerationId, InTable(RuleAudioGenerations))]
    case JudgeProfiles => [ForeignKey(ModelProfileId, InTable(ModelProfiles))]
    case _ => []
  }

  /** What a foreign key of a row asks of the database. */
  ghost predicate KeyHolds(stored: Tables, admin: string, row: Row, fk: ForeignKey) {
    At(row, fk.column) == Null
    || match fk.target
       case InTable(u) => HasKey(RowsOf(stored, u), At(row, fk.column))
       case Users => At(row, fk.column) == Text(admin)
       case FormatVersions => false
  }

  ghost predicate RowHolds(stored: Tables, admin: string, t: Table, row: Row) {
    forall k | 0 <= k < |ForeignKeys(t)| :: KeyHolds(stored, admin, row, ForeignKeys(t)[k])
  }

  // ---- Model keys ----

  /** What a database keeps of a model's key. */
  datatype Seal = Seal(ciphertext: Cell, nonce: Cell, last4: Cell)

  /** AES-GCM under a master key, with fresh randomness for each row: ciphertext and nonce, unless the key is bad. */
  type Encrypt = (string, string, nat) -> Option<(Cell, Cell)>

  /** The other direction: ciphertext, nonce and master key. */
  type Decrypt = (Cell, Cell, string) -> Option<string>

  ghost predicate Opens(encrypt: Encrypt, decrypt: Decrypt) {
    forall key, master, n :: encrypt(key, master, n).Some? ==>
      decrypt(encrypt(key, master, n).value.0, encrypt(key, master, n).value.1, master) == Some(key)
  }

  const MASTER := "LLM_KEY_ENCRYPTION_KEY"

  function Named(environment: map<string, string>, name: string): string {
    if name in environment then environment[name] else ""
  }

  /** The key of a model, under the name that its row gives. */
  function KeyFor(environment: map<string, string>, model: Row): string {
    if At(model, ModelEnvKey).Text? then Named(environment, At(model, ModelEnvKey).text) else ""
  }

  function Last4(key: string): string {
    if |key| <= 4 then key else key[|key| - 4..]
  }

  /** `encrypt_secret` for the `n`-th model. */
  function SealFor(environment: map<string, string>, encrypt: Encrypt, model: Row, n: nat): Option<Seal> {
    var key := KeyFor(environment, model);
    var sealed := encrypt(key, Named(environment, MASTER), n);
    if sealed.None? then None else Some(Seal(sealed.value.0, sealed.value.1, Text(Last4(key))))
  }

  const NO_SEAL := Seal(Null, Null, Null)

  function SealsOf(models: seq<Row>, environment: map<string, string>, encrypt: Encrypt): nat -> Seal {
    (n: nat) => if n < |models| && SealFor(environment, encrypt, models[n], n).Some?
                then SealFor(environment, encrypt, models[n], n).value else NO_SEAL
  }

  predicate CanSeal(models: seq<Row>, environment: map<string, string>, encrypt: Encrypt) {
    forall n | 0 <= n < |models| :: SealFor(environment, encrypt, models[n], n).Some?
  }

  // ---- Prepared rows ----

  /** `typed_row`: without the environment key, and with the administrator in place of `@admin`. */
  function Typed(row: Row, admin: string): Row {
    map c | c in row && c != ModelEnvKey :: if c in ACTORS && row[c] == ADMIN then Text(admin) else row[c]
  }

  function Sealed(row: Row, seal: Seal): Row {
    row[ApiKeyCiphertext := seal.ciphertext][ApiKeyNonce := seal.nonce][ApiKeyLast4 := seal.last4]
  }

  /** A row as it is to stand in the database; `seals` gives the encrypted key of each model. */
  function PreparedRow(t: Table, row: Row, admin: string, seal: Seal): Row {
    if t == ModelProfiles then Sealed(Typed(row, admin), seal) else Typed(row, admin)
  }

  function PreparedRows(t: Table, rows: seq<Row>, admin: string, seals: nat -> Seal): (prepared: seq<Row>)
    ensures |prepared| == |rows|
    ensures forall i | 0 <= i < |rows| :: prepared[i] == PreparedRow(t, rows[i], admin, seals(i))
  {
    seq(|rows|, i requires 0 <= i < |rows| => PreparedRow(t, rows[i], admin, seals(i)))
  }

  function Prepared(tables: Tables, admin: string, seals: nat -> Seal): Tables {
    map t: Table | true :: PreparedRows(t, RowsOf(tables, t), admin, seals)
  }

  /** A row as it is inserted: a rule gets its current generation only at the end. */
  function Inserted(t: Table, row: Row): Row {
    if t == Rules then row[CurrentAudioGenerationId := Null] else row
  }

  method CheckKeys(stored: Tables, admin: string, t: Table, row: Row) returns (holds: bool)
    ensures holds <==> RowHolds(stored, admin, t, row)
  {
    hide ForeignKeys;
    for k := 0 to |ForeignKeys(t)|
      invariant forall j | 0 <= j < k :: KeyHolds(stored, admin, row, ForeignKeys(t)[j])
    {
      var fk := ForeignKeys(t)[k];
      holds := At(row, fk.column) == Null;
      if !holds {
        match fk.target
        case InTable(u) => holds := Contains(RowsOf(stored, u), At(row, fk.column));
        case Users => holds := At(row, fk.column) == Text(admin);
        case FormatVersions =>
      }
      if !holds {
        return;
      }
    }
    holds := true;
  }

  // ---- The database ----

  class Database {
    const admin: string
    var stored: Tables
    var audits: nat

    constructor (admin: string)
      ensures this.admin == admin && stored == EMPTY && audits == 0
    {
      this.admin := admin;
      stored, audits := EMPTY, 0;
    }

    /** `INSERT`: refused when the primary key is taken or a foreign key names no row. */
    method Insert(t: Table, row: Row) returns (ok: bool)
      modifies `stored
      ensures ok <==> !HasKey(RowsOf(old(stored), t), KeyOf(row)) && RowHolds(old(stored), admin, t, row)
      ensures stored == if ok then old(stored)[t := RowsOf(old(stored), t) + [row]] else old(stored)
    {
      var taken := Contains(RowsOf(stored, t), KeyOf(row));
      var holds := CheckKeys(stored, admin, t, row);
      ok := !taken && holds;
      if ok {
        stored := stored[t := RowsOf(stored, t) + [row]];
      }
    }

    /** `UPDATE rules SET current_audio_generation_id = generation WHERE id = key`. */
    method SetCurrent(key: Cell, generation: Cell) returns (ok: bool)
      modifies `stored
      ensures ok <==> generation == Null || HasKey(RowsOf(old(stored), RuleAudioGenerations), generation)
      ensures stored == if ok then old(stored)[Rules := WithCurrent(RowsOf(old(stored), Rules), key, generation)]
                        else old(stored)
    {
      ok := Contains(RowsOf(stored, RuleAudioGenerations), generation);
      ok := ok || generation == Null;
      if ok {
        stored := stored[Rules := WithCurrent(RowsOf(stored, Rules), key, generation)];
      }
    }
  }

  function WithCurrent(rows: seq<Row>, key: Cell, generation: Cell): (after: seq<Row>)
    ensures |after| == |rows|
    ensures forall i | 0 <= i < |rows| ::
              after[i] == if At(rows[i], Id) == key then rows[i][CurrentAudioGenerationId := generation] else rows[i]
  {
    seq(|rows|, i requires 0 <= i < |rows| =>
      if At(rows[i], Id) == key then rows[i][CurrentAudioGenerationId := generation] else rows[i])
  }

  const EMPTY: Tables := map t: Table | true :: []

  method Contains(rows: seq<Row>, key: Cell) returns (found: bool)
    ensures found <==> HasKey(rows, key)
  {
    for i := 0 to |rows|
      invariant forall j | 0 <= j < i :: KeyOf(rows[j]) != key
    {
      if KeyOf(rows[i]) == key {
        return true;
      }
    }
    return false;
  }

  // ---- Every insert is allowed ----

  function Rank(t: Table): (k: nat)
    ensures k < |ORDER| && ORDER[k] == t
  {
    match t
    case ModelProfiles => 0 case VoiceProfiles => 1 case Rules => 2 case RuleStages => 3 case StageActions => 4
    case AgentProfiles => 5 case StagePromptTemplates => 6 case AgentPromptOverrides => 7
    case RuleJudgeConfigs => 8 case RuleAudioGenerations => 9 case HostAudioAssets => 10 case JudgeProfiles => 11
  }

  lemma RankOfOrder(k: nat)
    requires k < |ORDER|
    ensures Rank(ORDER[k]) == k
  {
    OrderIsDistinct();
  }

  function InsertedRows(t: Table, prepared: seq<Row>): (rows: seq<Row>)
    ensures |rows| == |prepared|
    ensures forall i | 0 <= i < |prepared| :: rows[i] == Inserted(t, prepared[i])
  {
    seq(|prepared|, i requires 0 <= i < |prepared| => Inserted(t, prepared[i]))
  }

  /** The tables when `i` rows of table number `k` are in, and those of all tables before it. */
  function Filled(prepared: Tables, k: nat, i: nat): Tables {
    map t: Table | true ::
      var rows := InsertedRows(t, RowsOf(prepared, t));
      if Rank(t) < k then rows else if Rank(t) == k && i <= |rows| then rows[..i] else []
  }

  /** Every foreign key of the schema is an actor, a format, or a reference the bundle was checked for. */
  lemma ForeignKeysAreChecked(t: Table, k: nat)
    requires k < |ForeignKeys(t)|
    ensures var fk := ForeignKeys(t)[k];
            match fk.target
            case Users => fk.column in ACTORS
            case FormatVersions => t == AgentProfiles && fk.column == FormatVersionId
            case InTable(u) =>
              && (exists j :: 0 <= j < |Refs(t)| && Refs(t)[j] == Ref(fk.column, u))
              && u != RuleJudgeConfigs && fk.column !in ACTORS && fk.column != ModelEnvKey
              && (Rank(u) < Rank(t) || (t == Rules && fk.column == CurrentAudioGenerationId))
  {
    var fk := ForeignKeys(t)[k];
    if fk.target.InTable? {
      var j := match t
        case Rules => k - 1
        case AgentProfiles => if k == 3 then 0 else k + 1
        case AgentPromptOverrides => 1 - k
        case HostAudioAssets => if k == 0 then 0 else 3 - k
        case _ => k;
      assert 0 <= j < |Refs(t)| && Refs(t)[j] == Ref(fk.column, fk.target.table);
    }
  }

  lemma TypedKey(row: Row, admin: string)
    ensures KeyOf(Typed(row, admin)) == KeyOf(row)
  {
    assert Id !in ACTORS && RuleId !in ACTORS;
    assert Id in Typed(row, admin) <==> Id in row;
    assert RuleId in Typed(row, admin) <==> RuleId in row;
  }

  lemma SealedKey(row: Row, seal: Seal)
    ensures KeyOf(Sealed(row, seal)) == KeyOf(row)
  {
  }

  lemma PreparedKey(t: Table, row: Row, admin: string, seal: Seal)
    ensures KeyOf(Inserted(t, PreparedRow(t, row, admin, seal))) == KeyOf(row)
    ensures KeyOf(PreparedRow(t, row, admin, seal)) == KeyOf(row)
  {
    TypedKey(row, admin);
    SealedKey(Typed(row, admin), seal);
    hide Typed, Sealed;
  }

  lemma KeyIsIn(tables: Tables, prepared: Tables, admin: string, seals: nat -> Seal, u: Table, key: Cell, k: nat,
                i: nat)
    requires prepared == Prepared(tables, admin, seals) && HasKey(RowsOf(tables, u), key) && Rank(u) < k
    ensures HasKey(RowsOf(Filled(prepared, k, i), u), key)
  {
    var rows := RowsOf(tables, u);
    var j :| 0 <= j < |rows| && KeyOf(rows[j]) == key;
    PreparedKey(u, rows[j], admin, seals(j));
    assert KeyOf(RowsOf(Filled(prepared, k, i), u)[j]) == key;
  }

  lemma TypedCell(row: Row, admin: string, c: Column)
    requires c != ModelEnvKey
    ensures At(Typed(row, admin), c) == if c in ACTORS && At(row, c) == ADMIN then Text(admin) else At(row, c)
  {
  }

  lemma SealedCell(row: Row, seal: Seal, c: Column)
    requires c !in {ApiKeyCiphertext, ApiKeyNonce, ApiKeyLast4}
    ensures At(Sealed(row, seal), c) == At(row, c)
  {
  }

  /** What the `i`-th row of table `t` holds in a foreign-key column when it is inserted. */
  lemma InsertedCell(t: Table, row: Row, admin: string, seal: Seal, c: Column)
    requires c !in {ModelEnvKey, ApiKeyCiphertext, ApiKeyNonce, ApiKeyLast4}
    ensures var cell := At(Inserted(t, PreparedRow(t, row, admin, seal)), c);
            cell == if t == Rules && c == CurrentAudioGenerationId then Null
                    else if c in ACTORS && At(row, c) == ADMIN then Text(admin) else At(row, c)
  {
    TypedCell(row, admin, c);
    SealedCell(Typed(row, admin), seal, c);
    hide Typed, Sealed;
  }

  lemma KeyHoldsOnInsert(tables: Tables, prepared: Tables, admin: string, seals: nat -> Seal, t: Table, i: nat, k: nat)
    requires prepared == Prepared(tables, admin, seals) && Closed(tables)
        && forall u: Table :: TableOk(u, RowsOf(tables, u))
    requires NoFormats(RowsOf(tables, AgentProfiles))
    requires i < |RowsOf(tables, t)| && k < |ForeignKeys(t)|
    ensures KeyHolds(Filled(prepared, Rank(t), i), admin,
                     Inserted(t, PreparedRow(t, RowsOf(tables, t)[i], admin, seals(i))),
                     ForeignKeys(t)[k])
  {
    hide Filled, Inserted, PreparedRow, Refs, ForeignKeys, Rank, TableOk;
    var row, fk := RowsOf(tables, t)[i], ForeignKeys(t)[k];
    ForeignKeysAreChecked(t, k);
    ColumnsAreTyped(t, k);
    InsertedCell(t, row, admin, seals(i), fk.column);
    match fk.target
    case Users => HiddenActors(t, RowsOf(tables, t), i);
    case FormatVersions =>
    case InTable(u) =>
      var j :| 0 <= j < |Refs(t)| && Refs(t)[j] == Ref(fk.column, u);
      assert TableClosed(tables, t) && RowClosed(tables, t, row);
      assert RefHolds(tables, t, row, Refs(t)[j]);
      if At(row, fk.column) != Null && Rank(u) < Rank(t) {
        KeyIsIn(tables, prepared, admin, seals, u, At(row, fk.column), Rank(t), i);
      }
  }

  lemma ColumnsAreTyped(t: Table, k: nat)
    requires k < |ForeignKeys(t)|
    ensures ForeignKeys(t)[k].column !in {ModelEnvKey, ApiKeyCiphertext, ApiKeyNonce, ApiKeyLast4}
    ensures ForeignKeys(t)[k].target.FormatVersions? ==> ForeignKeys(t)[k].column !in ACTORS && t == AgentProfiles
  {
  }

  lemma HiddenActors(t: Table, rows: seq<Row>, i: nat)
    requires TableOk(t, rows) && i < |rows|
    ensures forall c | c in ACTORS :: At(rows[i], c) == Null || At(rows[i], c) == ADMIN
  {
    assert RowOk(t, rows[i]);
  }

  lemma KeyIsFree(tables: Tables, prepared: Tables, admin: string, seals: nat -> Seal, t: Table, i: nat)
    requires prepared == Prepared(tables, admin, seals) && TableOk(t, RowsOf(tables, t)) && i < |RowsOf(tables, t)|
    ensures !HasKey(RowsOf(Filled(prepared, Rank(t), i), t),
                    KeyOf(Inserted(t, PreparedRow(t, RowsOf(tables, t)[i], admin, seals(i)))))
  {
    var rows, filled := RowsOf(tables, t), RowsOf(Filled(prepared, Rank(t), i), t);
    PreparedKey(t, rows[i], admin, seals(i));
    forall j | 0 <= j < |filled| ensures KeyOf(filled[j]) != KeyOf(rows[i]) {
      PreparedKey(t, rows[j], admin, seals(j));
      assert filled[j] == Inserted(t, PreparedRow(t, rows[j], admin, seals(j)));
    }
  }

  lemma FilledTable(prepared: Tables, k: nat, i: nat, u: Table)
    ensures u in Filled(prepared, k, i)
    ensures var rows := InsertedRows(u, RowsOf(prepared, u));
            Filled(prepared, k, i)[u]
            == if Rank(u) < k then rows else if Rank(u) == k && i <= |rows| then rows[..i] else []
  {
  }

  lemma FilledGrowsAt(prepared: Tables, t: Table, i: nat, u: Table)
    requires t in prepared && i < |prepared[t]|
    ensures u in Filled(prepared, Rank(t), i) && u in Filled(prepared, Rank(t), i + 1)
    ensures Filled(prepared, Rank(t), i + 1)[u]
         == if u == t then Filled(prepared, Rank(t), i)[t] + [Inserted(t, prepared[t][i])]
            else Filled(prepared, Rank(t), i)[u]
  {
    hide Rank, Inserted, Filled;
    RanksDiffer(t, u);
    FilledTable(prepared, Rank(t), i, u);
    FilledTable(prepared, Rank(t), i + 1, u);
    if u == t {
      var rows := InsertedRows(t, prepared[t]);
      assert rows[..i + 1] == rows[..i] + [rows[i]];
    }
  }

  lemma FilledGrows(prepared: Tables, t: Table, i: nat)
    requires t in prepared && i < |prepared[t]|
    ensures var filled := Filled(prepared, Rank(t), i);
            filled[t := RowsOf(filled, t) + [Inserted(t, prepared[t][i])]] == Filled(prepared, Rank(t), i + 1)
  {
    hide Rank, Inserted, Filled;
    var filled, after := Filled(prepared, Rank(t), i), Filled(prepared, Rank(t), i + 1);
    forall u: Table
      ensures u in filled && u in after
          && after[u] == if u == t then filled[t] + [Inserted(t, prepared[t][i])] else filled[u]
    {
      FilledGrowsAt(prepared, t, i, u);
    }
    assert filled[t := RowsOf(filled, t) + [Inserted(t, prepared[t][i])]] == after;
  }

  lemma RanksDiffer(t: Table, u: Table)
    ensures Rank(t) == Rank(u) ==> t == u
  {
  }

  lemma TableFilledAt(prepared: Tables, t: Table, u: Table)
    requires t in prepared
    ensures u in Filled(prepared, Rank(t), |prepared[t]|) && u in Filled(prepared, Rank(t) + 1, 0)
    ensures Filled(prepared, Rank(t), |prepared[t]|)[u] == Filled(prepared, Rank(t) + 1, 0)[u]
  {
    hide Rank, Inserted, Filled;
    RanksDiffer(t, u);
    FilledTable(prepared, Rank(t), |prepared[t]|, u);
    FilledTable(prepared, Rank(t) + 1, 0, u);
    var rows := InsertedRows(u, RowsOf(prepared, u));
    assert rows[..|rows|] == rows && rows[..0] == [];
  }

  lemma TableFilled(prepared: Tables, t: Table)
    requires t in prepared
    ensures Filled(prepared, Rank(t), |prepared[t]|) == Filled(prepared, Rank(t) + 1, 0)
  {
    hide Rank, Inserted, Filled;
    var a, b := Filled(prepared, Rank(t), |prepared[t]|), Filled(prepared, Rank(t) + 1, 0);
    forall u: Table ensures u in a && u in b && a[u] == b[u] {
      TableFilledAt(prepared, t, u);
    }
    assert a == b;
  }

  lemma RowHoldsOnInsert(tables: Tables, revisions: map<string, int>, prepared: Tables, admin: string,
                         seals: nat -> Seal,
                         t: Table, i: nat)
    requires Valid(tables, revisions) && prepared == Prepared(tables, admin, seals) && i < |prepared[t]|
    ensures var filled, row := Filled(prepared, Rank(t), i), Inserted(t, prepared[t][i]);
            !HasKey(RowsOf(filled, t), KeyOf(row)) && RowHolds(filled, admin, t, row)
  {
    hide ForeignKeys, Filled, Rank, PreparedRow, Inserted;
    KeyIsFree(tables, prepared, admin, seals, t, i);
    forall k | 0 <= k < |ForeignKeys(t)|
      ensures KeyHolds(Filled(prepared, Rank(t), i), admin, Inserted(t, prepared[t][i]), ForeignKeys(t)[k])
    {
      KeyHoldsOnInsert(tables, prepared, admin, seals, t, i, k);
    }
  }

  /** Without the deferral no rule of a valid bundle could be inserted: its generation is not there yet. */
  lemma RulesNeedDeferral(tables: Tables, revisions: map<string, int>, prepared: Tables, admin: string,
                          seals: nat -> Seal,
                          i: nat)
    requires Valid(tables, revisions) && prepared == Prepared(tables, admin, seals) && i < |RowsOf(tables, Rules)|
    ensures Rules in prepared && !RowHolds(Filled(prepared, Rank(Rules), i), admin, Rules, prepared[Rules][i])
  {
    HasTable(tables, prepared, admin, seals, Rules);
    GenerationRef(tables, revisions, i);
    RulesAreOk(tables, revisions);
    RulesAreKeyed(RowsOf(tables, Rules), i, i);
    hide Valid, TableOk, PreparedRow, Filled, RowHolds;
    RuleRow(RowsOf(tables, Rules)[i], admin, seals(i));
    NoGenerationYet(prepared, admin, i, prepared[Rules][i]);
  }

  lemma NoGenerationYet(prepared: Tables, admin: string, i: nat, row: Row)
    requires At(row, CurrentAudioGenerationId) != Null
    ensures !RowHolds(Filled(prepared, Rank(Rules), i), admin, Rules, row)
  {
    FilledTable(prepared, Rank(Rules), i, RuleAudioGenerations);
    hide Filled;
    assert ForeignKeys(Rules)[3] == ForeignKey(CurrentAudioGenerationId, InTable(RuleAudioGenerations));
    assert !KeyHolds(Filled(prepared, Rank(Rules), i), admin, row, ForeignKeys(Rules)[3]);
  }

  /** A prepared row says of every public column what the bundle says, with the administrator in place of `@admin`. */
  lemma PreparedKeepsCells(t: Table, row: Row, admin: string, seal: Seal, c: Column)
    requires c in row && c !in {ModelEnvKey, ApiKeyCiphertext, ApiKeyNonce, ApiKeyLast4}
    ensures c in PreparedRow(t, row, admin, seal)
    ensures PreparedRow(t, row, admin, seal)[c] == if c in ACTORS && row[c] == ADMIN then Text(admin) else row[c]
    ensures PreparedRow(t, row, admin, seal).Keys
         == row.Keys - {ModelEnvKey} + if t == ModelProfiles then {ApiKeyCiphertext, ApiKeyNonce, ApiKeyLast4} else {}
  {
  }

  // ---- The import ----

  /** Insert the rows of one table. No insert is refused. */
  method InsertTable(db: Database, ghost tables: Tables, ghost revisions: map<string, int>, prepared: Tables,
                     ghost seals: nat -> Seal, t: Table)
    requires Valid(tables, revisions) && prepared == Prepared(tables, db.admin, seals)
    requires db.stored == Filled(prepared, Rank(t), 0)
    modifies db`stored
    ensures db.stored == Filled(prepared, Rank(t) + 1, 0)
  {
    hide Valid, Filled, Prepared, Rank, Inserted, RowHolds;
    var rows := RowsOf(prepared, t);
    HasTable(tables, prepared, db.admin, seals, t);
    for i := 0 to |rows|
      invariant db.stored == Filled(prepared, Rank(t), i)
    {
      RowHoldsOnInsert(tables, revisions, prepared, db.admin, seals, t, i);
      var ok := db.Insert(t, Inserted(t, rows[i]));
      assert ok;
      FilledGrows(prepared, t, i);
    }
    TableFilled(prepared, t);
  }

  lemma HasTable(tables: Tables, prepared: Tables, admin: string, seals: nat -> Seal, t: Table)
    requires prepared == Prepared(tables, admin, seals)
    ensures t in prepared
  {
  }

  /** The rules when the first `m` of them have their current generation. */
  function WithGenerations(prepared: Tables, m: nat): Tables
    requires Rules in prepared && m <= |prepared[Rules]|
  {
    prepared[Rules := prepared[Rules][..m] + InsertedRows(Rules, prepared[Rules])[m..]]
  }

  lemma OnlyRulesAreDeferred(t: Table, prepared: seq<Row>)
    requires t != Rules
    ensures InsertedRows(t, prepared) == prepared
  {
  }

  lemma AllFilled(prepared: Tables)
    requires forall t: Table :: t in prepared
    ensures Filled(prepared, |ORDER|, 0) == WithGenerations(prepared, 0)
  {
    hide Filled, Rank, Inserted;
    var a, b := Filled(prepared, |ORDER|, 0), WithGenerations(prepared, 0);
    forall t: Table ensures t in a && a[t] == b[t] {
      FilledTable(prepared, |ORDER|, 0, t);
      if t != Rules {
        OnlyRulesAreDeferred(t, prepared[t]);
      }
    }
    assert a == b;
  }

  lemma RuleColumns(row: Row)
    requires HasFields(Rules, row)
    ensures Id in row && CurrentAudioGenerationId in row
  {
    assert {Id, CurrentAudioGenerationId} <= Fields(Rules);
  }

  lemma PutBack(row: Row, c: Column)
    requires c in row
    ensures row[c := Null][c := row[c]] == row
  {
  }

  lemma RuleRow(row: Row, admin: string, seal: Seal)
    requires Id in row && CurrentAudioGenerationId in row
    ensures var prepared := PreparedRow(Rules, row, admin, seal);
            && CurrentAudioGenerationId in prepared && At(prepared, Id) == KeyOf(row)
            && At(prepared, CurrentAudioGenerationId) == At(row, CurrentAudioGenerationId)
            && At(Inserted(Rules, prepared), Id) == KeyOf(row)
            && Inserted(Rules, prepared)[CurrentAudioGenerationId := At(prepared, CurrentAudioGenerationId)] == prepared
  {
    var prepared := Typed(row, admin);
    assert Id in prepared && CurrentAudioGenerationId in prepared;
    TypedKey(row, admin);
    TypedCell(row, admin, CurrentAudioGenerationId);
    PutBack(prepared, CurrentAudioGenerationId);
    hide Typed;
  }

  lemma RulesAreKeyed(rows: seq<Row>, i: nat, m: nat)
    requires TableOk(Rules, rows) && i < |rows| && m < |rows|
    ensures Id in rows[i] && CurrentAudioGenerationId in rows[i]
    ensures KeyOf(rows[i]) == KeyOf(rows[m]) ==> i == m
  {
    assert RowOk(Rules, rows[i]);
    RuleColumns(rows[i]);
  }

  lemma GenerationsSoFar(prepared: Tables, m: nat)
    requires Rules in prepared && m <= |prepared[Rules]|
    ensures Rules in WithGenerations(prepared, m)
    ensures var rows, so := prepared[Rules], WithGenerations(prepared, m)[Rules];
            |so| == |rows|
            && forall i | 0 <= i < |rows| :: so[i] == if i < m then rows[i] else Inserted(Rules, rows[i])
  {
  }

  lemma OnlyRulesChange(prepared: Tables, m: nat)
    requires Rules in prepared && m < |prepared[Rules]|
    ensures Rules in WithGenerations(prepared, m) && Rules in WithGenerations(prepared, m + 1)
    ensures WithGenerations(prepared, m + 1)
         == WithGenerations(prepared, m)[Rules := WithGenerations(prepared, m + 1)[Rules]]
  {
  }

  /** The update of rule `m` reaches that rule alone, and undoes what its insert left out. */
  lemma RulesAreSet(tables: Tables, prepared: Tables, admin: string, seals: nat -> Seal, m: nat)
    requires prepared == Prepared(tables, admin, seals) && TableOk(Rules, RowsOf(tables, Rules))
        && m < |prepared[Rules]|
    ensures Rules in WithGenerations(prepared, m) && Rules in WithGenerations(prepared, m + 1)
    ensures var row := prepared[Rules][m];
            WithCurrent(WithGenerations(prepared, m)[Rules], At(row, Id), At(row, CurrentAudioGenerationId))
            == WithGenerations(prepared, m + 1)[Rules]
  {
    HasTable(tables, prepared, admin, seals, Rules);
    GenerationsSoFar(prepared, m);
    GenerationsSoFar(prepared, m + 1);
    hide TableOk, Prepared, Inserted, WithCurrent, WithGenerations, At, RowsOf;
    var row := prepared[Rules][m];
    var before, after := WithGenerations(prepared, m)[Rules], WithGenerations(prepared, m + 1)[Rules];
    forall i | 0 <= i < |after|
      ensures WithCurrent(before, At(row, Id), At(row, CurrentAudioGenerationId))[i] == after[i]
    {
      RuleIsSet(tables, prepared, admin, seals, m, i);
    }
  }

  lemma GenerationIsSet(tables: Tables, prepared: Tables, admin: string, seals: nat -> Seal, m: nat)
    requires prepared == Prepared(tables, admin, seals) && TableOk(Rules, RowsOf(tables, Rules))
        && m < |prepared[Rules]|
    ensures var row, before := prepared[Rules][m], WithGenerations(prepared, m);
            && Rules in before
            && before[Rules := WithCurrent(before[Rules], At(row, Id), At(row, CurrentAudioGenerationId))]
               == WithGenerations(prepared, m + 1)
  {
    RulesAreSet(tables, prepared, admin, seals, m);
    OnlyRulesChange(prepared, m);
    hide WithGenerations, WithCurrent, TableOk;
  }

  lemma RuleIsSet(tables: Tables, prepared: Tables, admin: string, seals: nat -> Seal, m: nat, i: nat)
    requires prepared == Prepared(tables, admin, seals) && TableOk(Rules, RowsOf(tables, Rules))
    requires Rules in prepared && m < |prepared[Rules]| && i < |prepared[Rules]|
    ensures Rules in WithGenerations(prepared, m) && |WithGenerations(prepared, m)[Rules]| == |prepared[Rules]|
    ensures Rules in WithGenerations(prepared, m + 1) && |WithGenerations(prepared, m + 1)[Rules]| == |prepared[Rules]|
    ensures var row := prepared[Rules][m];
            WithCurrent(WithGenerations(prepared, m)[Rules], At(row, Id), At(row, CurrentAudioGenerationId))[i]
            == WithGenerations(prepared, m + 1)[Rules][i]
  {
    hide TableOk, PreparedRow;
    var from := RowsOf(tables, Rules);
    RulesAreKeyed(from, m, m);
    RuleRow(from[m], admin, seals(m));
    RulesAreKeyed(from, i, m);
    RuleRow(from[i], admin, seals(i));
    GenerationsSoFar(prepared, m);
    GenerationsSoFar(prepared, m + 1);
    hide WithGenerations, Inserted;
  }

  lemma GenerationRef(tables: Tables, revisions: map<string, int>, m: nat)
    requires Valid(tables, revisions) && m < |RowsOf(tables, Rules)|
    ensures At(RowsOf(tables, Rules)[m], CurrentAudioGenerationId) != Null
    ensures HasKey(RowsOf(tables, RuleAudioGenerations), At(RowsOf(tables, Rules)[m], CurrentAudioGenerationId))
  {
    var row := RowsOf(tables, Rules)[m];
    assert TableClosed(tables, Rules) && RowClosed(tables, Rules, row);
    assert RefHolds(tables, Rules, row, Refs(Rules)[2]);
  }

  lemma GenerationExists(tables: Tables, revisions: map<string, int>, prepared: Tables, admin: string,
                         seals: nat -> Seal, m: nat)
    requires Valid(tables, revisions) && prepared == Prepared(tables, admin, seals) && m < |prepared[Rules]|
    ensures HasKey(RowsOf(prepared, RuleAudioGenerations), At(prepared[Rules][m], CurrentAudioGenerationId))
  {
    GenerationRef(tables, revisions, m);
    RulesAreOk(tables, revisions);
    RulesAreKeyed(RowsOf(tables, Rules), m, m);
    hide Valid, TableOk, PreparedRow;
    RuleRow(RowsOf(tables, Rules)[m], admin, seals(m));
    KeyIsPrepared(tables, prepared, admin, seals, RuleAudioGenerations,
                  At(RowsOf(tables, Rules)[m], CurrentAudioGenerationId));
  }

  lemma KeyIsPrepared(tables: Tables, prepared: Tables, admin: string, seals: nat -> Seal, u: Table, key: Cell)
    requires prepared == Prepared(tables, admin, seals) && HasKey(RowsOf(tables, u), key)
    ensures HasKey(RowsOf(prepared, u), key)
  {
    hide PreparedRow;
    var rows := RowsOf(tables, u);
    var j :| 0 <= j < |rows| && KeyOf(rows[j]) == key;
    PreparedKey(u, rows[j], admin, seals(j));
    assert KeyOf(RowsOf(prepared, u)[j]) == key;
  }

  /** Give the rules their current generations. No update is refused. */
  method SetGenerations(db: Database, ghost tables: Tables, ghost revisions: map<string, int>, prepared: Tables,
                        ghost seals: nat -> Seal)
    requires Valid(tables, revisions) && prepared == Prepared(tables, db.admin, seals)
    requires db.stored == WithGenerations(prepared, 0)
    modifies db`stored
    ensures db.stored == prepared
  {
    hide Prepared, Valid;
    HasTable(tables, prepared, db.admin, seals, Rules);
    RulesAreOk(tables, revisions);
    var rules := RowsOf(prepared, Rules);
    for m := 0 to |rules|
      invariant db.stored == WithGenerations(prepared, m)
    {
      GenerationExists(tables, revisions, prepared, db.admin, seals, m);
      GenerationIsSet(tables, prepared, db.admin, seals, m);
      var ok := db.SetCurrent(At(rules[m], Id), At(rules[m], CurrentAudioGenerationId));
      assert ok;
    }
    AllSet(prepared);
  }

  lemma RulesAreOk(tables: Tables, revisions: map<string, int>)
    requires Valid(tables, revisions)
    ensures TableOk(Rules, RowsOf(tables, Rules))
  {
  }

  lemma AllSet(prepared: Tables)
    requires Rules in prepared
    ensures WithGenerations(prepared, |prepared[Rules]|) == prepared
  {
    var rules := prepared[Rules];
    assert rules[..|rules|] + InsertedRows(Rules, rules)[|rules|..] == rules;
  }

  // Postcheck.

  predicate Covers(row: Row, item: Row) {
    forall c | c in item :: c in row && row[c] == item[c]
  }

  /** As many rows as expected, and each expected row stands in the table. */
  predicate TableMatches(actual: seq<Row>, expected: seq<Row>) {
    |actual| == |expected| && forall item | item in expected :: exists row | row in actual :: Covers(row, item)
  }

  lemma SameRowsMatch(rows: seq<Row>)
    ensures TableMatches(rows, rows)
  {
    forall item | item in rows ensures exists row | row in rows :: Covers(row, item) {
      assert Covers(item, item);
    }
  }

  datatype Status = Refused | DryRun | Committed

  /** What `import_bundle` needs: the model keys and the master key, and a database with empty tables. */
  predicate KeysInjected(models: seq<Row>, environment: map<string, string>) {
    && (models != [] ==> Present(environment, MASTER))
    && forall row | row in models :: At(row, ModelEnvKey).Text? && Present(environment, At(row, ModelEnvKey).text)
  }

  predicate Present(environment: map<string, string>, name: string) {
    name in environment && environment[name] != ""
  }

  predicate IsFresh(stored: Tables) {
    forall t: Table :: t in stored && stored[t] == []
  }

  lemma FreshIsUnfilled(stored: Tables, prepared: Tables)
    requires IsFresh(stored)
    ensures stored == Filled(prepared, 0, 0)
  {
    forall t: Table ensures stored[t] == Filled(prepared, 0, 0)[t] {
      FilledTable(prepared, 0, 0, t);
    }
  }

  /** All inserts, all updates and the postcheck, none of which fails. */
  method ApplyRows(db: Database, ghost tables: Tables, ghost revisions: map<string, int>, prepared: Tables,
                   ghost seals: nat -> Seal)
    requires Valid(tables, revisions) && prepared == Prepared(tables, db.admin, seals) && IsFresh(db.stored)
    modifies db`stored
    ensures db.stored == prepared
  {
    hide Valid, Filled, Prepared, WithGenerations, TableMatches, IsFresh;
    FreshIsUnfilled(db.stored, prepared);
    for k := 0 to |ORDER|
      invariant db.stored == Filled(prepared, k, 0)
    {
      RankOfOrder(k);
      InsertTable(db, tables, revisions, prepared, seals, ORDER[k]);
    }
    forall t: Table ensures t in prepared {
      HasTable(tables, prepared, db.admin, seals, t);
    }
    AllFilled(prepared);
    SetGenerations(db, tables, revisions, prepared, seals);
    forall t: Table ensures TableMatches(RowsOf(db.stored, t), RowsOf(prepared, t)) {
      SameRowsMatch(RowsOf(prepared, t));
    }
    var matches := forall t: Table :: TableMatches(RowsOf(db.stored, t), RowsOf(prepared, t));
    assert matches;
  }

  // ---- What an import leaves ----

  /** A stored row says of every public column what the bundle says, with the administrator in place of `@admin`. */
  ghost predicate StoredAs(stored: Row, t: Table, row: Row, admin: string) {
    && (forall c | c in row && c != ModelEnvKey ::
          c in stored && stored[c] == if c in ACTORS && row[c] == Text("@admin") then Text(admin) else row[c])
    && ModelEnvKey !in stored
    && forall c | c in stored ::
         c in row || (t == ModelProfiles && (c == ApiKeyCiphertext || c == ApiKeyNonce || c == ApiKeyLast4))
  }

  ghost predicate StoresRows(stored: Tables, tables: Tables, admin: string) {
    forall t: Table ::
      && |RowsOf(stored, t)| == |RowsOf(tables, t)|
      && forall i | 0 <= i < |RowsOf(tables, t)| :: StoredAs(RowsOf(stored, t)[i], t, RowsOf(tables, t)[i], admin)
  }

  /** Each stored model has the ciphertext and the nonce of its own key, and the last four characters of that key. */
  ghost predicate StoresKeys(stored: Tables, tables: Tables, environment: map<string, string>, encrypt: Encrypt) {
    var models, rows := RowsOf(tables, ModelProfiles), RowsOf(stored, ModelProfiles);
    && |rows| == |models|
    && forall i | 0 <= i < |models| ::
         var key := KeyFor(environment, models[i]);
         var sealed := encrypt(key, Named(environment, MASTER), i);
         && sealed.Some?
         && ApiKeyCiphertext in rows[i] && rows[i][ApiKeyCiphertext] == sealed.value.0
         && ApiKeyNonce in rows[i] && rows[i][ApiKeyNonce] == sealed.value.1
         && ApiKeyLast4 in rows[i] && rows[i][ApiKeyLast4].Text?
         && var last := rows[i][ApiKeyLast4].text;
            |last| == (if |key| < 4 then |key| else 4) && last == key[|key| - |last|..]
  }

  lemma ModelKeysAreNotPublic(row: Row)
    requires HasFields(ModelProfiles, row)
    ensures ApiKeyCiphertext !in row && ApiKeyNonce !in row && ApiKeyLast4 !in row
  {
  }

  lemma TypedIsStoredAs(t: Table, row: Row, admin: string)
    ensures StoredAs(Typed(row, admin), t, row, admin)
  {
  }

  lemma SealedIsStoredAs(stored: Row, row: Row, admin: string, seal: Seal)
    requires StoredAs(stored, ModelProfiles, row, admin)
    requires ApiKeyCiphertext !in row && ApiKeyNonce !in row && ApiKeyLast4 !in row
    ensures StoredAs(Sealed(stored, seal), ModelProfiles, row, admin)
  {
    var sealed := Sealed(stored, seal);
    assert ModelEnvKey !in sealed;
    forall c | c in sealed && c != ApiKeyCiphertext && c != ApiKeyNonce && c != ApiKeyLast4
      ensures c in stored && sealed[c] == stored[c]
    {
    }
  }

  lemma PreparedIsStoredAs(t: Table, row: Row, admin: string, seal: Seal)
    requires HasFields(t, row)
    ensures StoredAs(PreparedRow(t, row, admin, seal), t, row, admin)
  {
    hide Fields, StoredAs, Typed, Sealed;
    TypedIsStoredAs(t, row, admin);
    if t == ModelProfiles {
      ModelKeysAreNotPublic(row);
      SealedIsStoredAs(Typed(row, admin), row, admin, seal);
    }
  }

  lemma PreparedHasSeal(row: Row, admin: string, seal: Seal)
    ensures var stored := PreparedRow(ModelProfiles, row, admin, seal);
            && ApiKeyCiphertext in stored && stored[ApiKeyCiphertext] == seal.ciphertext
            && ApiKeyNonce in stored && stored[ApiKeyNonce] == seal.nonce
            && ApiKeyLast4 in stored && stored[ApiKeyLast4] == seal.last4
  {
  }

  lemma PreparedStoresRows(tables: Tables, revisions: map<string, int>, admin: string, seals: nat -> Seal)
    requires Valid(tables, revisions)
    ensures StoresRows(Prepared(tables, admin, seals), tables, admin)
  {
    hide PreparedRow, StoredAs, RulesOk, Closed, NoFormats, ModelsOk, RowsDistinct;
    forall t: Table, i | 0 <= i < |RowsOf(tables, t)|
      ensures StoredAs(RowsOf(Prepared(tables, admin, seals), t)[i], t, RowsOf(tables, t)[i], admin)
    {
      assert TableOk(t, RowsOf(tables, t));
      assert RowOk(t, RowsOf(tables, t)[i]);
      PreparedIsStoredAs(t, RowsOf(tables, t)[i], admin, seals(i));
    }
  }

  lemma PreparedStoresKeys(tables: Tables, admin: string, environment: map<string, string>, encrypt: Encrypt)
    requires CanSeal(RowsOf(tables, ModelProfiles), environment, encrypt)
    ensures var seals := SealsOf(RowsOf(tables, ModelProfiles), environment, encrypt);
            StoresKeys(Prepared(tables, admin, seals), tables, environment, encrypt)
  {
    hide PreparedRow, KeyFor;
    var models := RowsOf(tables, ModelProfiles);
    var seals := SealsOf(models, environment, encrypt);
    forall i | 0 <= i < |models| ensures SealFor(environment, encrypt, models[i], i) == Some(seals(i)) {
      assert SealFor(environment, encrypt, models[i], i).Some?;
    }
    forall i | 0 <= i < |models| {
      PreparedHasSeal(models[i], admin, seals(i));
    }
  }

  /** Under the same master key, every stored model opens to the key that the environment gives for it. */
  lemma StoredKeysOpen(stored: Tables, tables: Tables, environment: map<string, string>, encrypt: Encrypt,
                       decrypt: Decrypt, i: nat)
    requires Opens(encrypt, decrypt) && StoresKeys(stored, tables, environment, encrypt)
    requires i < |RowsOf(tables, ModelProfiles)| && KeysInjected(RowsOf(tables, ModelProfiles), environment)
    ensures var model, row := RowsOf(tables, ModelProfiles)[i], RowsOf(stored, ModelProfiles)[i];
            && At(model, ModelEnvKey).Text? && At(model, ModelEnvKey).text in environment && MASTER in environment
            && decrypt(At(row, ApiKeyCiphertext), At(row, ApiKeyNonce), environment[MASTER])
               == Some(environment[At(model, ModelEnvKey).text])
  {
    var models := RowsOf(tables, ModelProfiles);
    assert models[i] in models;
    var key := KeyFor(environment, models[i]);
    assert encrypt(key, environment[MASTER], i).Some?;
  }

  /** A valid bundle goes in completely, with its keys; anything else changes nothing. */
  method ImportBundle(db: Database, tables: Tables, revisions: map<string, int>, apply: bool,
                      environment: map<string, string>, encrypt: Encrypt) returns (status: Status)
    modifies db
    ensures var models := RowsOf(tables, ModelProfiles);
            status == (if !Valid(tables, revisions) || !IsFresh(old(db.stored)) then Refused
                       else if !apply then DryRun
                       else if !KeysInjected(models, environment) || !CanSeal(models, environment, encrypt) then Refused
                       else Committed)
    ensures status == Committed ==> StoresRows(db.stored, tables, db.admin)
    ensures status == Committed ==> StoresKeys(db.stored, tables, environment, encrypt)
    ensures status == Committed ==> db.audits == old(db.audits) + 1
    ensures status != Committed ==> db.stored == old(db.stored) && db.audits == old(db.audits)
  {
    var refusal := Validate(tables, revisions);
    if refusal.Some? || !IsFresh(db.stored) {
      return Refused;
    }
    if !apply {
      return DryRun;
    }
    var models := RowsOf(tables, ModelProfiles);
    if !KeysInjected(models, environment) || !CanSeal(models, environment, encrypt) {
      return Refused;
    }
    PreparedStoresRows(tables, revisions, db.admin, SealsOf(models, environment, encrypt));
    PreparedStoresKeys(tables, db.admin, environment, encrypt);
    hide Valid, IsFresh, KeysInjected, CanSeal, SealsOf, StoresRows, StoresKeys;
    var seals := SealsOf(models, environment, encrypt);
    var prepared := Prepared(tables, db.admin, seals);
    ApplyRows(db, tables, revisions, prepared, seals);
    db.audits := db.audits + 1;
    return Committed;
  }
}
