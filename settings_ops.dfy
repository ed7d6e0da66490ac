/** api/services/settings_ops.py over in-memory copies of the settings and
  * categories tables. `SettingsService` reads the key/value table through
  * `GetAllSettings` and `GetSetting` and changes it through
  * `SettingsTable.UpdateSettings` (one upsert per given field, in one
  * transaction) and `SettingsTable.DeleteSetting`. `CategoryService` reads
  * through `GetCategory`, `CategoryExists` and `GetAllCategories` and
  * changes the table through the methods of `CategoryTable`. Timestamp
  * columns are not modelled. */
module SettingsOps {
  import opened Wrappers
  import opened Text
  import opened Uuids
  import opened SettingsSchemas
  import opened DatabaseOps

  // ---------------------------------------------------------------------
  // Settings.
  // ---------------------------------------------------------------------

  /** The keys whose rows are flagged `encrypted`. */
  const SENSITIVE_KEYS: set<string> :=
    {AWS_ACCESS_KEY_ID, AWS_SECRET_ACCESS_KEY, GOOGLE_API_KEY, OPENAI_API_KEY, ANTHROPIC_API_KEY}

  /** The `value` and `encrypted` columns of one settings row. */
  datatype SettingRow = SettingRow(value: string, encrypted: bool)

  /** `{row["key"]: row["value"] for row in rows}`. */
  function ValuesOf(rows: map<string, SettingRow>): (values: map<string, string>)
    ensures values.Keys == rows.Keys
    ensures forall k :: k in rows ==> values[k] == rows[k].value
  {
    map k | k in rows :: rows[k].value
  }

  /** `settings_dict.get(key, default)`. */
  function Lookup(values: map<string, string>, key: string, default: string): string
  {
    if key in values then values[key] else default
  }

  /** `bool(settings_dict.get(key))`. */
  predicate Configured(values: map<string, string>, key: string)
  {
    Truthy(if key in values then Some(values[key]) else None)
  }

  /** `get_all_settings`: the four plain settings as stored, or their
    * defaults when the key has no row; for each secret only whether a
    * non-empty value is stored. */
  function GetAllSettings(values: map<string, string>): (r: SettingsResponse)
    ensures LLM_PROVIDER in values ==> r.llmProvider == values[LLM_PROVIDER]
    ensures LLM_PROVIDER !in values ==> r.llmProvider == DEFAULT_LLM_PROVIDER
    ensures LLM_MODEL in values ==> r.llmModel == values[LLM_MODEL]
    ensures LLM_MODEL !in values ==> r.llmModel == DEFAULT_LLM_MODEL
    ensures THEME in values ==> r.theme == values[THEME]
    ensures THEME !in values ==> r.theme == DEFAULT_THEME
    ensures AWS_REGION in values ==> r.awsRegion == values[AWS_REGION]
    ensures AWS_REGION !in values ==> r.awsRegion == DEFAULT_AWS_REGION
    ensures r.awsAccessKeyConfigured <==> AWS_ACCESS_KEY_ID in values && values[AWS_ACCESS_KEY_ID] != ""
    ensures r.awsSecretKeyConfigured <==> AWS_SECRET_ACCESS_KEY in values && values[AWS_SECRET_ACCESS_KEY] != ""
    ensures r.googleApiKeyConfigured <==> GOOGLE_API_KEY in values && values[GOOGLE_API_KEY] != ""
    ensures r.openaiApiKeyConfigured <==> OPENAI_API_KEY in values && values[OPENAI_API_KEY] != ""
    ensures r.anthropicApiKeyConfigured <==> ANTHROPIC_API_KEY in values && values[ANTHROPIC_API_KEY] != ""
  {
    SettingsResponse(
      Lookup(values, LLM_PROVIDER, DEFAULT_LLM_PROVIDER),
      Lookup(values, LLM_MODEL, DEFAULT_LLM_MODEL),
      Lookup(values, THEME, DEFAULT_THEME),
      Lookup(values, AWS_REGION, DEFAULT_AWS_REGION),
      Configured(values, AWS_ACCESS_KEY_ID),
      Configured(values, AWS_SECRET_ACCESS_KEY),
      Configured(values, GOOGLE_API_KEY),
      Configured(values, OPENAI_API_KEY),
      Configured(values, ANTHROPIC_API_KEY))
  }

  /** An empty table reads as the response model's own defaults. */
  lemma EmptyTableGivesDefaults()
    ensures GetAllSettings(map[]) == DEFAULT_SETTINGS_RESPONSE
  {
  }

  /** The response never depends on a secret's value, only on whether one
    * is stored: two tables that agree on every other key and on which
    * secrets are set read the same. */
  lemma SecretsMasked(a: map<string, string>, b: map<string, string>)
    requires forall k :: k !in SENSITIVE_KEYS ==> (k in a <==> k in b)
    requires forall k :: k !in SENSITIVE_KEYS && k in a && k in b ==> a[k] == b[k]
    requires forall k :: k in SENSITIVE_KEYS ==> Configured(a, k) == Configured(b, k)
    ensures GetAllSettings(a) == GetAllSettings(b)
  {
    assert Configured(a, AWS_ACCESS_KEY_ID) == Configured(b, AWS_ACCESS_KEY_ID);
    assert Configured(a, AWS_SECRET_ACCESS_KEY) == Configured(b, AWS_SECRET_ACCESS_KEY);
    assert Configured(a, GOOGLE_API_KEY) == Configured(b, GOOGLE_API_KEY);
    assert Configured(a, OPENAI_API_KEY) == Configured(b, OPENAI_API_KEY);
    assert Configured(a, ANTHROPIC_API_KEY) == Configured(b, ANTHROPIC_API_KEY);
  }

  /** `get_setting`: the stored value, or `None` when the key has no row. */
  function GetSetting(rows: map<string, SettingRow>, key: string): (r: Option<string>)
    ensures r.Some? <==> key in rows
    ensures r.Some? ==> r.value == rows[key].value
  {
    if key in rows then Some(rows[key].value) else None
  }

  /** The row the upsert of `(key, value)` leaves. */
  function UpsertRow(key: string, value: string): SettingRow
  {
    SettingRow(value, key in SENSITIVE_KEYS)
  }

  /** The table after upserting `entries` in order. */
  function Upserted(rows: map<string, SettingRow>, entries: seq<(string, string)>): map<string, SettingRow>
    decreases |entries|
  {
    if entries == [] then rows
    else
      var last := entries[|entries| - 1];
      Upserted(rows, entries[..|entries| - 1])[last.0 := UpsertRow(last.0, last.1)]
  }

  /** The value the last entry for `key` carries, if any. */
  function LastValue(entries: seq<(string, string)>, key: string): Option<string>
    decreases |entries|
  {
    if entries == [] then None
    else if entries[|entries| - 1].0 == key then Some(entries[|entries| - 1].1)
    else LastValue(entries[..|entries| - 1], key)
  }

  /** After the upserts each written key holds the last value given for it,
    * flagged encrypted exactly when it is sensitive; every other row is
    * kept, and no row appears that was neither kept nor written. */
  lemma {:induction false} UpsertedLookup(rows: map<string, SettingRow>, entries: seq<(string, string)>, key: string)
    ensures var r := Upserted(rows, entries);
      && (LastValue(entries, key).Some? ==>
            key in r && r[key].value == LastValue(entries, key).value && (r[key].encrypted <==> key in SENSITIVE_KEYS))
      && (LastValue(entries, key).None? ==> (key in r <==> key in rows) && (key in rows ==> r[key] == rows[key]))
    decreases |entries|
  {
    if entries != [] {
      UpsertedLookup(rows, entries[..|entries| - 1], key);
    }
  }

  lemma {:induction false} LastValueAppend(x: seq<(string, string)>, y: seq<(string, string)>, key: string)
    ensures LastValue(x + y, key) == if LastValue(y, key).Some? then LastValue(y, key) else LastValue(x, key)
    decreases |y|
  {
    if y == [] {
      assert x + y == x;
    } else {
      assert (x + y)[..|x + y| - 1] == x + y[..|y| - 1];
      LastValueAppend(x, y[..|y| - 1], key);
    }
  }

  /** The field of `u` that names `key`, as `str(value)`, or `None` when it
    * is unset or no field has that name. */
  function FieldValue(u: SettingsUpdate, key: string): (r: Option<string>)
    ensures key !in SETTINGS_UPDATE_FIELDS ==> r.None?
  {
    if key == LLM_PROVIDER then NameOfProvider(u.llmProvider)
    else if key == LLM_MODEL then u.llmModel
    else if key == THEME then NameOfTheme(u.theme)
    else if key == AWS_REGION then u.awsRegion
    else if key == AWS_ACCESS_KEY_ID then u.awsAccessKeyId
    else if key == AWS_SECRET_ACCESS_KEY then u.awsSecretAccessKey
    else if key == GOOGLE_API_KEY then u.googleApiKey
    else if key == OPENAI_API_KEY then u.openaiApiKey
    else if key == ANTHROPIC_API_KEY then u.anthropicApiKey
    else None
  }

  /** Each settings key reads its own field. */
  lemma FieldValueOfKeys(u: SettingsUpdate)
    ensures FieldValue(u, LLM_MODEL) == u.llmModel
    ensures FieldValue(u, AWS_REGION) == u.awsRegion
    ensures FieldValue(u, AWS_ACCESS_KEY_ID) == u.awsAccessKeyId
    ensures FieldValue(u, AWS_SECRET_ACCESS_KEY) == u.awsSecretAccessKey
    ensures FieldValue(u, GOOGLE_API_KEY) == u.googleApiKey
    ensures FieldValue(u, OPENAI_API_KEY) == u.openaiApiKey
    ensures FieldValue(u, ANTHROPIC_API_KEY) == u.anthropicApiKey
  {
  }

  lemma LastValueOfEntry(k: string, v: Option<string>, key: string)
    ensures LastValue(Entry(k, v), key) == if k == key then v else None
  {
  }

  /** `model_dump(exclude_none=True)` gives each set field once, under its
    * own name. */
  lemma DumpedValue(u: SettingsUpdate, key: string)
    ensures LastValue(u.Dumped(), key) == FieldValue(u, key)
  {
    var e1, e2, e3 := Entry(LLM_PROVIDER, NameOfProvider(u.llmProvider)), Entry(LLM_MODEL, u.llmModel), Entry(THEME, NameOfTheme(u.theme));
    var e4, e5, e6 := Entry(AWS_REGION, u.awsRegion), Entry(AWS_ACCESS_KEY_ID, u.awsAccessKeyId), Entry(AWS_SECRET_ACCESS_KEY, u.awsSecretAccessKey);
    var e7, e8, e9 := Entry(GOOGLE_API_KEY, u.googleApiKey), Entry(OPENAI_API_KEY, u.openaiApiKey), Entry(ANTHROPIC_API_KEY, u.anthropicApiKey);
    LastValueAppend(e1 + e2 + e3 + e4 + e5 + e6 + e7 + e8, e9, key);
    LastValueAppend(e1 + e2 + e3 + e4 + e5 + e6 + e7, e8, key);
    LastValueAppend(e1 + e2 + e3 + e4 + e5 + e6, e7, key);
    LastValueAppend(e1 + e2 + e3 + e4 + e5, e6, key);
    LastValueAppend(e1 + e2 + e3 + e4, e5, key);
    LastValueAppend(e1 + e2 + e3, e4, key);
    LastValueAppend(e1 + e2, e3, key);
    LastValueAppend(e1, e2, key);
    LastValueOfEntry(LLM_PROVIDER, NameOfProvider(u.llmProvider), key);
    LastValueOfEntry(LLM_MODEL, u.llmModel, key);
    LastValueOfEntry(THEME, NameOfTheme(u.theme), key);
    LastValueOfEntry(AWS_REGION, u.awsRegion, key);
    LastValueOfEntry(AWS_ACCESS_KEY_ID, u.awsAccessKeyId, key);
    LastValueOfEntry(AWS_SECRET_ACCESS_KEY, u.awsSecretAccessKey, key);
    LastValueOfEntry(GOOGLE_API_KEY, u.googleApiKey, key);
    LastValueOfEntry(OPENAI_API_KEY, u.openaiApiKey, key);
    LastValueOfEntry(ANTHROPIC_API_KEY, u.anthropicApiKey, key);
  }

  /** `update_settings` writes exactly the fields that are not `None`: each
    * gets its value, flagged encrypted iff the key is sensitive, and every
    * other row, including keys that are not fields, is left as it was. */
  lemma UpdateSettingsEffect(rows: map<string, SettingRow>, u: SettingsUpdate, key: string)
    ensures var r := Upserted(rows, u.Dumped());
      && (FieldValue(u, key).Some? ==>
            key in r && r[key].value == FieldValue(u, key).value && (r[key].encrypted <==> key in SENSITIVE_KEYS))
      && (FieldValue(u, key).None? ==> (key in r <==> key in rows) && (key in rows ==> r[key] == rows[key]))
  {
    DumpedValue(u, key);
    UpsertedLookup(rows, u.Dumped(), key);
  }

  /** The settings table, keyed by `key`. */
  class SettingsTable {
    var rows: map<string, SettingRow>

    constructor (initial: map<string, SettingRow>)
      ensures rows == initial
    {
      rows := initial;
    }

    /** `update_settings`: one upsert per dumped field inside one
      * transaction. The `k`-th upsert raises when `fault` names statement
      * `k`; the transaction then rolls back and the error propagates. */
    method UpdateSettings(updates: SettingsUpdate, fault: Option<StatementFault>) returns (err: Option<string>)
      modifies this
      ensures fault.Some? && fault.value.statement < |updates.Dumped()| ==>
        err == Some(fault.value.message) && rows == old(rows)
      ensures !(fault.Some? && fault.value.statement < |updates.Dumped()|) ==>
        err.None? && rows == Upserted(old(rows), updates.Dumped())
    {
      var updateData := updates.Dumped();
      var snapshot := rows;
      var i := 0;
      while i < |updateData|
        invariant 0 <= i <= |updateData|
        invariant rows == Upserted(snapshot, updateData[..i])
        invariant fault.Some? ==> fault.value.statement >= i
      {
        var (key, value) := updateData[i];
        if fault.Some? && fault.value.statement == i {
          rows := snapshot;
          return Some(fault.value.message);
        }
        var encrypted := key in SENSITIVE_KEYS;
        rows := rows[key := SettingRow(value, encrypted)];
        assert updateData[..i + 1][..i] == updateData[..i];
        i := i + 1;
      }
      assert updateData[..i] == updateData;
      return None;
    }

    /** `delete_setting`: the row with that key, if any, goes. */
    method DeleteSetting(key: string)
      modifies this
      ensures rows == old(rows) - {key}
    {
      rows := rows - {key};
    }
  }

  // ---------------------------------------------------------------------
  // Categories.
  // ---------------------------------------------------------------------

  /** The `id`, `name` and `monthly_budget_limit` columns of a category. */
  datatype CategoryRow = CategoryRow(id: Uuid, name: string, monthlyBudgetLimit: Option<real>)

  /** No two categories share an id (the primary key). */
  predicate DistinctIds(rows: seq<CategoryRow>)
  {
    forall i, j :: 0 <= i < j < |rows| ==> rows[i].id != rows[j].id
  }

  /** `get_category`: the row with that id, if any. */
  function GetCategory(rows: seq<CategoryRow>, id: Uuid): (r: Option<CategoryRow>)
    ensures r.Some? <==> exists k :: 0 <= k < |rows| && rows[k].id == id
    ensures r.Some? ==> r.value in rows && r.value.id == id
  {
    if rows == [] then None
    else if rows[0].id == id then Some(rows[0])
    else
      var r := GetCategory(rows[1..], id);
      assert r.Some? ==> exists k :: 0 <= k < |rows| && rows[k].id == id by {
        if r.Some? {
          var k :| 0 <= k < |rows[1..]| && rows[1..][k].id == id;
          assert rows[k + 1].id == id;
        }
      }
      r
  }

  /** `category_exists`: some row has the name, other than the one whose id
    * is excluded (a UUID is always truthy, so `exclude_id` applies exactly
    * when it is given). */
  function CategoryExists(rows: seq<CategoryRow>, name: string, excludeId: Option<Uuid>): (r: bool)
    ensures r <==> exists k :: 0 <= k < |rows| && rows[k].name == name && (excludeId.Some? ==> rows[k].id != excludeId.value)
  {
    if rows == [] then false
    else if rows[0].name == name && (excludeId.Some? ==> rows[0].id != excludeId.value) then true
    else
      var r := CategoryExists(rows[1..], name, excludeId);
      assert r ==> exists k :: 0 <= k < |rows| && rows[k].name == name && (excludeId.Some? ==> rows[k].id != excludeId.value) by {
        if r {
          var k :| 0 <= k < |rows[1..]| && rows[1..][k].name == name && (excludeId.Some? ==> rows[1..][k].id != excludeId.value);
          assert rows[k + 1] == rows[1..][k];
        }
      }
      assert (exists k :: 0 <= k < |rows| && rows[k].name == name && (excludeId.Some? ==> rows[k].id != excludeId.value)) ==> r by {
        if exists k :: 0 <= k < |rows| && rows[k].name == name && (excludeId.Some? ==> rows[k].id != excludeId.value) {
          var k :| 0 <= k < |rows| && rows[k].name == name && (excludeId.Some? ==> rows[k].id != excludeId.value);
          assert k != 0;
          assert rows[1..][k - 1] == rows[k];
        }
      }
      r
  }

  /** `ORDER BY name`, compared code point by code point. */
  predicate NameLe(a: string, b: string)
    decreases |a|
  {
    if a == [] then true
    else if b == [] then false
    else if a[0] != b[0] then a[0] < b[0]
    else NameLe(a[1..], b[1..])
  }

  lemma {:induction false} NameLeTotal(a: string, b: string)
    ensures NameLe(a, b) || NameLe(b, a)
    decreases |a|
  {
    if a != [] && b != [] && a[0] == b[0] {
      NameLeTotal(a[1..], b[1..]);
    }
  }

  lemma {:induction false} NameLeTransitive(a: string, b: string, c: string)
    requires NameLe(a, b) && NameLe(b, c)
    ensures NameLe(a, c)
    decreases |a|
  {
    if a != [] && b != [] && c != [] && a[0] == b[0] && b[0] == c[0] {
      NameLeTransitive(a[1..], b[1..], c[1..]);
    }
  }

  predicate SortedByName(rows: seq<CategoryRow>)
  {
    forall i, j :: 0 <= i < j < |rows| ==> NameLe(rows[i].name, rows[j].name)
  }

  /** In a sorted list the first name precedes every later one. */
  lemma HeadPrecedesTail(rows: seq<CategoryRow>)
    requires rows != [] && SortedByName(rows)
    ensures forall y :: y in rows[1..] ==> NameLe(rows[0].name, y.name)
  {
    forall y | y in rows[1..] ensures NameLe(rows[0].name, y.name) {
      var m :| 0 <= m < |rows[1..]| && rows[1..][m] == y;
      assert rows[m + 1] == y;
    }
  }

  /** A row whose name precedes every name of a sorted list can head it. */
  lemma ConsSorted(h: CategoryRow, t: seq<CategoryRow>)
    requires SortedByName(t)
    requires forall j :: 0 <= j < |t| ==> NameLe(h.name, t[j].name)
    ensures SortedByName([h] + t)
  {
    forall i, j | 0 <= i < j < |[h] + t| ensures NameLe(([h] + t)[i].name, ([h] + t)[j].name) {
      assert ([h] + t)[j] == t[j - 1];
      if i > 0 {
        assert ([h] + t)[i] == t[i - 1];
      }
    }
  }

  /** `x` inserted into a sorted list before the first row it precedes. */
  function InsertByName(x: CategoryRow, rows: seq<CategoryRow>): (r: seq<CategoryRow>)
    requires SortedByName(rows)
    ensures SortedByName(r)
    ensures multiset(r) == multiset(rows) + multiset{x}
    decreases |rows|
  {
    if rows == [] then [x]
    else if NameLe(x.name, rows[0].name) then
      assert forall j :: 0 <= j < |rows| ==> NameLe(x.name, rows[j].name) by {
        forall j | 0 <= j < |rows| ensures NameLe(x.name, rows[j].name) {
          if j > 0 { NameLeTransitive(x.name, rows[0].name, rows[j].name); }
        }
      }
      ConsSorted(x, rows);
      [x] + rows
    else
      var rest := InsertByName(x, rows[1..]);
      assert rows == [rows[0]] + rows[1..];
      NameLeTotal(x.name, rows[0].name);
      HeadPrecedesTail(rows);
      assert forall j :: 0 <= j < |rest| ==> NameLe(rows[0].name, rest[j].name) by {
        forall j | 0 <= j < |rest| ensures NameLe(rows[0].name, rest[j].name) {
          assert rest[j] in multiset(rest);
          if rest[j] != x {
            assert rest[j] in multiset(rows[1..]);
          }
        }
      }
      ConsSorted(rows[0], rest);
      [rows[0]] + rest
  }

  /** `get_all_categories`: every row, ordered by name. */
  function GetAllCategories(rows: seq<CategoryRow>): (r: seq<CategoryRow>)
    ensures SortedByName(r)
    ensures multiset(r) == multiset(rows)
    decreases |rows|
  {
    if rows == [] then []
    else
      assert rows == [rows[0]] + rows[1..];
      InsertByName(rows[0], GetAllCategories(rows[1..]))
  }

  /** A parameter of a category statement. */
  datatype SqlValue = TextValue(text: string) | NumericValue(number: real) | UuidValue(uuid: Uuid)

  /** `model_dump(exclude_none=True)` of a `CategoryUpdate`, in field order. */
  function CategoryUpdateData(u: CategoryUpdate): (data: seq<(string, SqlValue)>)
    ensures data == [] <==> u.name.None? && u.monthlyBudgetLimit.None?
  {
    (if u.name.Some? then [("name", TextValue(u.name.value))] else [])
    + (if u.monthlyBudgetLimit.Some? then [("monthly_budget_limit", NumericValue(u.monthlyBudgetLimit.value))] else [])
  }

  /** One `"{key} = ${param_idx}"` entry of `set_clauses`. */
  datatype SetClause = SetClause(column: string, param: nat)
  {
    function Text(): string
    {
      column + " = $" + NatToString(param)
    }
  }

  /** The dynamic UPDATE: its SET clauses, the placeholder of the WHERE and
    * the values bound to `$1`, `$2`, …. */
  datatype UpdateQuery = UpdateQuery(setClauses: seq<SetClause>, whereParam: nat, values: seq<SqlValue>)
  {
    /** The statement text sent to the database. */
    function Sql(): string
    {
      "\n            UPDATE categories\n            SET "
      + Join(seq(|setClauses|, k requires 0 <= k < |setClauses| => setClauses[k].Text()), ", ")
      + ", updated_at = CURRENT_TIMESTAMP\n            WHERE id = $" + NatToString(whereParam)
      + "\n            RETURNING id, name, monthly_budget_limit, created_at, updated_at\n        "
    }

    /** The value bound to `$p`, if there is one. */
    function Bound(p: nat): Option<SqlValue>
    {
      if 1 <= p <= |values| then Some(values[p - 1]) else None
    }
  }

  /** The k-th SET clause assigns the k-th field through `$k`, the k-th
    * value is that field's, and the WHERE takes the id through `$(n+1)`,
    * the last of the n + 1 values. */
  predicate NumberedFor(q: UpdateQuery, data: seq<(string, SqlValue)>, id: Uuid)
  {
    && |q.setClauses| == |data|
    && (forall k :: 0 <= k < |data| ==> q.setClauses[k] == SetClause(data[k].0, k + 1))
    && |q.values| == |data| + 1
    && (forall k :: 0 <= k < |data| ==> q.values[k] == data[k].1)
    && q.values[|data|] == UuidValue(id)
    && q.whereParam == |data| + 1
  }

  /** One assignment `column = value`; a value of the wrong kind for the
    * column leaves it as it was. */
  function Assign(row: CategoryRow, column: string, value: Option<SqlValue>): CategoryRow
  {
    if column == "name" && value.Some? && value.value.TextValue? then row.(name := value.value.text)
    else if column == "monthly_budget_limit" && value.Some? && value.value.NumericValue? then
      row.(monthlyBudgetLimit := Some(value.value.number))
    else row
  }

  /** The SET list applied left to right. */
  function ApplyClauses(row: CategoryRow, clauses: seq<SetClause>, q: UpdateQuery): CategoryRow
    decreases |clauses|
  {
    if clauses == [] then row
    else
      var last := clauses[|clauses| - 1];
      Assign(ApplyClauses(row, clauses[..|clauses| - 1], q), last.column, q.Bound(last.param))
  }

  /** The fields applied left to right, without placeholders. */
  function ApplyData(row: CategoryRow, data: seq<(string, SqlValue)>): CategoryRow
    decreases |data|
  {
    if data == [] then row
    else
      var last := data[|data| - 1];
      Assign(ApplyData(row, data[..|data| - 1]), last.0, Some(last.1))
  }

  /** What the database does with the statement: the rows whose id is the
    * value bound to the WHERE placeholder get the SET list. */
  function ExecuteUpdate(rows: seq<CategoryRow>, q: UpdateQuery): (r: seq<CategoryRow>)
    ensures |r| == |rows|
  {
    seq(|rows|, k requires 0 <= k < |rows| =>
      if q.Bound(q.whereParam) == Some(UuidValue(rows[k].id)) then ApplyClauses(rows[k], q.setClauses, q) else rows[k])
  }

  /** The category as `updates` describes it: each given field replaced. */
  function UpdatedCategory(row: CategoryRow, u: CategoryUpdate): (r: CategoryRow)
    ensures r.id == row.id
    ensures r.name == (if u.name.Some? then u.name.value else row.name)
    ensures r.monthlyBudgetLimit == (if u.monthlyBudgetLimit.Some? then Some(u.monthlyBudgetLimit.value) else row.monthlyBudgetLimit)
  {
    row.(name := if u.name.Some? then u.name.value else row.name,
         monthlyBudgetLimit := if u.monthlyBudgetLimit.Some? then Some(u.monthlyBudgetLimit.value) else row.monthlyBudgetLimit)
  }

  /** Binding the clauses through their numbered placeholders assigns
    * exactly the fields, in order. */
  lemma {:induction false} NumberedClausesAssignData(row: CategoryRow, q: UpdateQuery, data: seq<(string, SqlValue)>, n: nat)
    requires n <= |data| && |q.setClauses| >= n && |q.values| >= n
    requires forall k :: 0 <= k < n ==> q.setClauses[k] == SetClause(data[k].0, k + 1)
    requires forall k :: 0 <= k < n ==> q.values[k] == data[k].1
    ensures ApplyClauses(row, q.setClauses[..n], q) == ApplyData(row, data[..n])
    decreases n
  {
    if n > 0 {
      assert q.setClauses[..n][..n - 1] == q.setClauses[..n - 1];
      assert data[..n][..n - 1] == data[..n - 1];
      NumberedClausesAssignData(row, q, data, n - 1);
      assert q.Bound(n) == Some(data[n - 1].1);
    }
  }

  lemma ApplyCategoryUpdateData(row: CategoryRow, u: CategoryUpdate)
    ensures ApplyData(row, CategoryUpdateData(u)) == UpdatedCategory(row, u)
  {
    var data := CategoryUpdateData(u);
    if |data| == 2 {
      assert data[..1] == [data[0]] && data[..1][..0] == [];
      var named := Assign(row, "name", Some(TextValue(u.name.value)));
      assert ApplyData(row, data[..1]) == named;
      assert ApplyData(row, data) == Assign(named, "monthly_budget_limit", Some(NumericValue(u.monthlyBudgetLimit.value)));
    } else if |data| == 1 {
      assert data[..0] == [];
      assert ApplyData(row, data) == Assign(row, data[0].0, Some(data[0].1));
    }
  }

  /** A statement numbered for `updates` changes the category with that id
    * to `UpdatedCategory` and leaves every other row alone. */
  lemma UpdateQueryMeaning(rows: seq<CategoryRow>, q: UpdateQuery, u: CategoryUpdate, id: Uuid)
    requires NumberedFor(q, CategoryUpdateData(u), id)
    ensures var r := ExecuteUpdate(rows, q);
      forall k :: 0 <= k < |rows| ==> r[k] == if rows[k].id == id then UpdatedCategory(rows[k], u) else rows[k]
  {
    var data := CategoryUpdateData(u);
    assert q.Bound(q.whereParam) == Some(UuidValue(id));
    assert q.setClauses[..|data|] == q.setClauses && data[..|data|] == data;
    forall k | 0 <= k < |rows| && rows[k].id == id
      ensures ApplyClauses(rows[k], q.setClauses, q) == UpdatedCategory(rows[k], u)
    {
      NumberedClausesAssignData(rows[k], q, data, |data|);
      ApplyCategoryUpdateData(rows[k], u);
    }
  }

  /** `update_category`'s query builder: the numbered SET clauses and
    * values for the dumped fields, then the id. */
  method BuildUpdateQuery(id: Uuid, updateData: seq<(string, SqlValue)>) returns (q: UpdateQuery)
    ensures NumberedFor(q, updateData, id)
  {
    var setClauses: seq<SetClause> := [];
    var values: seq<SqlValue> := [];
    var paramIdx := 1;
    var i := 0;
    while i < |updateData|
      invariant 0 <= i <= |updateData|
      invariant paramIdx == i + 1
      invariant |setClauses| == i && |values| == i
      invariant forall k :: 0 <= k < i ==> setClauses[k] == SetClause(updateData[k].0, k + 1)
      invariant forall k :: 0 <= k < i ==> values[k] == updateData[k].1
    {
      var (key, value) := updateData[i];
      setClauses := setClauses + [SetClause(key, paramIdx)];
      values := values + [value];
      paramIdx := paramIdx + 1;
      i := i + 1;
    }
    values := values + [UuidValue(id)];
    q := UpdateQuery(setClauses, paramIdx, values);
  }

  /** The rows without the one whose id is given (`DELETE … WHERE id = $1`). */
  function WithoutId(rows: seq<CategoryRow>, id: Uuid): (r: seq<CategoryRow>)
    ensures |r| <= |rows|
    ensures forall k :: 0 <= k < |r| ==> r[k].id != id && r[k] in rows
  {
    if rows == [] then []
    else (if rows[0].id == id then [] else [rows[0]]) + WithoutId(rows[1..], id)
  }

  /** With distinct ids a delete by id removes one row when the category
    * exists and none otherwise. */
  lemma {:induction false} WithoutIdRemovesOne(rows: seq<CategoryRow>, id: Uuid)
    requires DistinctIds(rows)
    ensures |rows| - |WithoutId(rows, id)| == if GetCategory(rows, id).Some? then 1 else 0
  {
    if rows != [] {
      assert DistinctIds(rows[1..]) by {
        forall i, j | 0 <= i < j < |rows[1..]| ensures rows[1..][i].id != rows[1..][j].id {
          assert rows[1..][i] == rows[i + 1] && rows[1..][j] == rows[j + 1];
        }
      }
      WithoutIdRemovesOne(rows[1..], id);
      if rows[0].id == id {
        forall k | 0 <= k < |rows[1..]|
          ensures rows[1..][k].id != id
        {
          assert rows[1..][k] == rows[k + 1];
        }
      }
    }
  }

  /** The rows after the first of a table with distinct ids keep them
    * distinct, and none shares the first row's id. */
  lemma DistinctTail(rows: seq<CategoryRow>)
    requires rows != [] && DistinctIds(rows)
    ensures DistinctIds(rows[1..])
    ensures forall x :: x in rows[1..] ==> x.id != rows[0].id
  {
    forall i, j | 0 <= i < j < |rows[1..]| ensures rows[1..][i].id != rows[1..][j].id {
      assert rows[1..][i] == rows[i + 1] && rows[1..][j] == rows[j + 1];
    }
    forall x | x in rows[1..] ensures x.id != rows[0].id {
      var m :| 0 <= m < |rows[1..]| && rows[1..][m] == x;
      assert rows[m + 1] == x;
    }
  }

  /** Deleting rows keeps the remaining ids distinct. */
  lemma {:induction false} WithoutIdKeepsDistinct(rows: seq<CategoryRow>, id: Uuid)
    requires DistinctIds(rows)
    ensures DistinctIds(WithoutId(rows, id))
  {
    if rows != [] {
      DistinctTail(rows);
      WithoutIdKeepsDistinct(rows[1..], id);
      var rest := WithoutId(rows[1..], id);
      if rows[0].id != id {
        assert WithoutId(rows, id) == [rows[0]] + rest;
        forall i, j | 0 <= i < j < |[rows[0]] + rest| ensures ([rows[0]] + rest)[i].id != ([rows[0]] + rest)[j].id {
          assert ([rows[0]] + rest)[j] == rest[j - 1];
          if i > 0 {
            assert ([rows[0]] + rest)[i] == rest[i - 1];
          } else {
            assert rest[j - 1] in rows[1..];
          }
        }
      } else {
        assert WithoutId(rows, id) == rest;
      }
    }
  }

  /** The status tag asyncpg returns for a DELETE of `n` rows. */
  function DeleteStatus(n: nat): (tag: string)
    ensures tag == "DELETE 1" <==> n == 1
  {
    var tag := "DELETE " + NatToString(n);
    NatToStringIsOne(n);
    assert tag == "DELETE 1" ==> NatToString(n) == "1" by {
      if tag == "DELETE 1" {
        assert tag[7..] == NatToString(n);
      }
    }
    tag
  }

  /** The categories table. */
  class CategoryTable {
    var rows: seq<CategoryRow>

    /** The table as loaded; its primary key keeps the ids distinct. */
    constructor (initial: seq<CategoryRow>)
      requires DistinctIds(initial)
      ensures rows == initial && Valid()
    {
      rows := initial;
    }

    predicate Valid()
      reads this
    {
      DistinctIds(rows)
    }

    /** `create_category` with `categoryId` as the generated `uuid4()`; an
      * id already in use violates the primary key. */
    method CreateCategory(categoryId: Uuid, category: CategoryCreate) returns (r: Result<CategoryRow, string>)
      modifies this
      ensures GetCategory(old(rows), categoryId).Some? ==> r == Failure(CATEGORY_KEY_ERROR) && rows == old(rows)
      ensures GetCategory(old(rows), categoryId).None? ==>
        && r == Success(CategoryRow(categoryId, category.name, category.monthlyBudgetLimit))
        && rows == old(rows) + [r.value]
      ensures old(Valid()) ==> Valid()
    {
      if GetCategory(rows, categoryId).Some? {
        return Failure(CATEGORY_KEY_ERROR);
      }
      var row := CategoryRow(categoryId, category.name, category.monthlyBudgetLimit);
      rows := rows + [row];
      return Success(row);
    }

    /** `update_category`: with nothing to update the current row; otherwise
      * the built statement runs and its RETURNING row comes back. */
    method UpdateCategory(categoryId: Uuid, updates: CategoryUpdate) returns (r: Option<CategoryRow>)
      modifies this
      ensures CategoryUpdateData(updates) == [] ==> rows == old(rows) && r == GetCategory(old(rows), categoryId)
      ensures CategoryUpdateData(updates) != [] ==>
        && |rows| == |old(rows)|
        && (forall k :: 0 <= k < |rows| ==>
              rows[k] == if old(rows)[k].id == categoryId then UpdatedCategory(old(rows)[k], updates) else old(rows)[k])
        && r == GetCategory(rows, categoryId)
      ensures old(Valid()) ==> Valid()
    {
      var updateData := CategoryUpdateData(updates);
      if updateData == [] {
        return GetCategory(rows, categoryId);
      }
      var q := BuildUpdateQuery(categoryId, updateData);
      UpdateQueryMeaning(rows, q, updates, categoryId);
      rows := ExecuteUpdate(rows, q);
      r := GetCategory(rows, categoryId);
    }

    /** `delete_category`: true iff the DELETE reports exactly one row. */
    method DeleteCategory(categoryId: Uuid) returns (deleted: bool)
      modifies this
      ensures rows == WithoutId(old(rows), categoryId)
      ensures deleted <==> |old(rows)| - |rows| == 1
      ensures old(Valid()) ==> (deleted <==> GetCategory(old(rows), categoryId).Some?)
      ensures old(Valid()) ==> Valid()
    {
      var remaining := WithoutId(rows, categoryId);
      var result := DeleteStatus(|rows| - |remaining|);
      if Valid() {
        WithoutIdRemovesOne(rows, categoryId);
        WithoutIdKeepsDistinct(rows, categoryId);
      }
      rows := remaining;
      deleted := result == "DELETE 1";
    }
  }

  /** The message PostgreSQL raises when a category id is already taken. */
  const CATEGORY_KEY_ERROR: string := "duplicate key value violates unique constraint \"categories_pkey\""
}
