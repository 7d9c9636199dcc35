/** The settings vocabulary of src/types/settings.ts and its compiled form
    src/types/settings.js: four string enumerations, the metric domain that
    belongs to each database, and the declared settings union keyed by
    `database`. The backend's enumerations carry the same members and the
    same strings and reuse these datatypes. */
module SettingsTypes {
  import opened Results

  datatype DatabaseType = Postgres | MySQL {
    /** The enum's string value, as sent over the wire. */
    function Value(): string {
      match this
      case Postgres => "postgres"
      case MySQL => "mysql"
    }
  }

  datatype PostgresMetric = Cosine | L2 {
    function Value(): string {
      match this
      case Cosine => "cosine"
      case L2 => "l2"
    }
  }

  datatype MySQLMetric = Cosine | L2 {
    function Value(): string {
      match this
      case Cosine => "cosine"
      case L2 => "l2"
    }
  }

  datatype LLMProvider = Ollama | OpenAI {
    function Value(): string {
      match this
      case Ollama => "ollama"
      case OpenAI => "openai"
    }
  }

  /** The enum member whose value is `s`, if any. */
  function ParseDatabaseType(s: string): (r: Option<DatabaseType>)
    ensures r.Some? <==> (s == "postgres" || s == "mysql")
    ensures r.Some? ==> r.value.Value() == s
  {
    if s == "postgres" then Some(Postgres)
    else if s == "mysql" then Some(MySQL)
    else None
  }

  function ParseLLMProvider(s: string): (r: Option<LLMProvider>)
    ensures r.Some? <==> (s == "ollama" || s == "openai")
    ensures r.Some? ==> r.value.Value() == s
  {
    if s == "ollama" then Some(Ollama)
    else if s == "openai" then Some(OpenAI)
    else None
  }

  /** A metric tagged with the database whose domain it belongs to: the
      two domains share their labels but are distinct enumerations. */
  datatype Metric = PgMetric(pg: PostgresMetric) | MyMetric(my: MySQLMetric) {
    /** The database whose metric enumeration this value comes from. */
    function Database(): DatabaseType {
      match this
      case PgMetric(_) => Postgres
      case MyMetric(_) => MySQL
    }

    function Value(): string {
      match this
      case PgMetric(m) => m.Value()
      case MyMetric(m) => m.Value()
    }
  }

  /** The `Cosine` member of the database's own metric enumeration. */
  function CosineOf(db: DatabaseType): (m: Metric)
    ensures m.Database() == db && m.Value() == "cosine"
  {
    match db
    case Postgres => PgMetric(PostgresMetric.Cosine)
    case MySQL => MyMetric(MySQLMetric.Cosine)
  }

  /** The `L2` member of the database's own metric enumeration. */
  function L2Of(db: DatabaseType): (m: Metric)
    ensures m.Database() == db && m.Value() == "l2"
  {
    match db
    case Postgres => PgMetric(PostgresMetric.L2)
    case MySQL => MyMetric(MySQLMetric.L2)
  }

  /** The member of the database's metric enumeration whose value is `s`. */
  function ParseMetric(db: DatabaseType, s: string): (r: Option<Metric>)
    ensures r.Some? <==> (s == "cosine" || s == "l2")
    ensures r.Some? ==> r.value.Database() == db && r.value.Value() == s
  {
    if s == "cosine" then Some(CosineOf(db))
    else if s == "l2" then Some(L2Of(db))
    else None
  }

  /** Each database's metric domain is exactly its Cosine and its L2. */
  lemma MetricDomain(db: DatabaseType, m: Metric)
    ensures m.Database() == db <==> (m == CosineOf(db) || m == L2Of(db))
    ensures CosineOf(db) != L2Of(db)
  {
  }

  /** Every enum value parses back to its member, so the value strings are
      injective within each enumeration. */
  lemma WireRoundTrip(db: DatabaseType, m: Metric, p: LLMProvider)
    ensures ParseDatabaseType(db.Value()) == Some(db)
    ensures ParseMetric(m.Database(), m.Value()) == Some(m)
    ensures ParseLLMProvider(p.Value()) == Some(p)
  {
  }

  /** The declared union `SettingsType`: both variants carry `llmProvider`
      and `textEncoder`; the variant is the `database` discriminant and
      fixes which metric enumeration `metric` is drawn from. No API-key
      field is declared. */
  datatype SettingsType =
    | PostgresSettings(pgMetric: PostgresMetric, llmProvider: LLMProvider, textEncoder: string)
    | MySQLSettings(myMetric: MySQLMetric, llmProvider: LLMProvider, textEncoder: string)
  {
    function Database(): DatabaseType {
      if PostgresSettings? then Postgres else MySQL
    }

    function MetricOf(): Metric {
      match this
      case PostgresSettings(m, _, _) => PgMetric(m)
      case MySQLSettings(m, _, _) => MyMetric(m)
    }
  }

  /** The declared value with the given fields, when the metric belongs to
      the database's domain; otherwise the union has no such value. */
  function MakeSettings(db: DatabaseType, m: Metric, p: LLMProvider, textEncoder: string)
    : (r: Option<SettingsType>)
    ensures r.Some? <==> m.Database() == db
    ensures r.Some? ==> && r.value.Database() == db && r.value.MetricOf() == m
                        && r.value.llmProvider == p && r.value.textEncoder == textEncoder
  {
    match m
    case PgMetric(pm) => if db == Postgres then Some(PostgresSettings(pm, p, textEncoder)) else None
    case MyMetric(mm) => if db == MySQL then Some(MySQLSettings(mm, p, textEncoder)) else None
  }
}
