/** The backend's settings schema, backend/schemas/settings.py: two record
    variants keyed by `database`, each holding a metric of its own database's
    enumeration and an LLM provider, and `parse_settings`, which picks the
    variant from the payload's `database` and lets the record validate the
    other fields. */
module SettingsSchema {
  import opened Results
  import opened SettingsTypes

  /** A decoded JSON value, as far as the settings code looks into it:
      numbers, booleans and arrays are all `JOther`. */
  datatype Json = JNull | JString(str: string) | JObject(fields: map<string, Json>) | JOther

  /** `PostgresSettings` and `MySQLSettings` (settings.py:21-29): the only
      fields are the database tag, the metric and the provider. */
  datatype Settings =
    | PostgresSettings(pgMetric: PostgresMetric, llmProvider: LLMProvider)
    | MySQLSettings(myMetric: MySQLMetric, llmProvider: LLMProvider)
  {
    function Database(): DatabaseType {
      if PostgresSettings? then Postgres else MySQL
    }

    function MetricOf(): Metric {
      match this
      case PostgresSettings(m, _) => PgMetric(m)
      case MySQLSettings(m, _) => MyMetric(m)
    }
  }

  /** `ValueError("Invalid database type")` from `parse_settings`, or the
      record's validation error. */
  datatype ParseError = InvalidDatabaseType | ValidationFailed

  /** The string member `name` of an object, if it has one. */
  function StringField(payload: map<string, Json>, name: string): Option<string> {
    if name in payload && payload[name].JString? then Some(payload[name].str) else None
  }

  /** The payload's `database` member is one of the two database strings. */
  predicate KnownDatabase(payload: map<string, Json>) {
    StringField(payload, "database") == Some("postgres") || StringField(payload, "database") == Some("mysql")
  }

  /** `parse_settings` (settings.py:33-40). A missing or unknown `database`
      raises `ValueError`; otherwise the chosen record accepts the payload
      exactly when `metric` is one of its enumeration's strings and
      `llmProvider` one of the provider strings, ignoring any other member.
      The record's fields carry the payload's strings. */
  function ParseSettings(payload: map<string, Json>): (r: Result<Settings, ParseError>)
    ensures r == Err(InvalidDatabaseType) <==> !KnownDatabase(payload)
    ensures r.Ok? <==> && KnownDatabase(payload)
                       && StringField(payload, "metric") in {Some("cosine"), Some("l2")}
                       && StringField(payload, "llmProvider") in {Some("ollama"), Some("openai")}
    ensures r.Ok? ==> && StringField(payload, "database") == Some(r.value.Database().Value())
                      && StringField(payload, "metric") == Some(r.value.MetricOf().Value())
                      && StringField(payload, "llmProvider") == Some(r.value.llmProvider.Value())
  {
    var db := StringField(payload, "database");
    if db == Some("postgres") || db == Some("mysql") then
      var database := if db == Some("postgres") then Postgres else MySQL;
      var metric := if StringField(payload, "metric").Some?
                    then ParseMetric(database, StringField(payload, "metric").value) else None;
      var provider := if StringField(payload, "llmProvider").Some?
                      then ParseLLMProvider(StringField(payload, "llmProvider").value) else None;
      if metric.None? || provider.None? then Err(ValidationFailed)
      else match metric.value
        case PgMetric(m) => Ok(Settings.PostgresSettings(m, provider.value))
        case MyMetric(m) => Ok(Settings.MySQLSettings(m, provider.value))
    else
      Err(InvalidDatabaseType)
  }

  /** The record as a JSON object (`model_dump()` as sent by `jsonify`). */
  function Dump(s: Settings): map<string, Json> {
    map["database" := JString(s.Database().Value()),
        "metric" := JString(s.MetricOf().Value()),
        "llmProvider" := JString(s.llmProvider.Value())]
  }

  /** Parsing a dumped record gives the record back. */
  lemma ParseDump(s: Settings)
    ensures ParseSettings(Dump(s)) == Ok(s)
  {
    var r := ParseSettings(Dump(s));
    assert StringField(Dump(s), "database") == Some(s.Database().Value());
    assert StringField(Dump(s), "metric") == Some(s.MetricOf().Value());
    assert StringField(Dump(s), "llmProvider") == Some(s.llmProvider.Value());
    assert r.Ok?;
    WireRoundTrip(s.Database(), s.MetricOf(), s.llmProvider);
  }

  /** Members other than the three fields do not affect parsing: an extra
      `textEncoder` or `openAiApiKey` is dropped without an error. */
  lemma ExtraMembersIgnored(payload: map<string, Json>, name: string, v: Json)
    requires name !in {"database", "metric", "llmProvider"}
    ensures ParseSettings(payload[name := v]) == ParseSettings(payload)
  {
    var p := payload[name := v];
    assert StringField(p, "database") == StringField(payload, "database");
    assert StringField(p, "metric") == StringField(payload, "metric");
    assert StringField(p, "llmProvider") == StringField(payload, "llmProvider");
  }
}
