/** The settings dialog of src/components/settings.tsx.

    The dialog keeps three pieces of state: whether it is open, whether a
    save is in flight, and the settings object being edited (`null` until a
    load succeeds). Each input replaces the whole object with a copy in which
    one field (two for the database) is changed; loading and saving update
    the state according to what the HTTP exchange returned, which is an
    input here. */
module SettingsDialog {
  import opened Results
  import opened SettingsTypes

  /** The value an LLM-provider radio item puts into the settings object.
      The third item names `LLMProvider.Domdata`, which the enumeration does
      not declare; at run time its value is `undefined`. */
  datatype ProviderChoice = Declared(provider: LLMProvider) | Domdata

  /** The settings object the dialog edits. Beside the declared fields it
      may hold `openAiApiKey`, written by the API-key input; `None` is an
      absent key. */
  datatype Draft = Draft(
    textEncoder: string,
    database: DatabaseType,
    metric: Metric,
    llmProvider: ProviderChoice,
    openAiApiKey: Option<string>)

  /** The union's discriminant rule: the metric comes from the enumeration
      of the object's own database. */
  predicate WellTagged(d: Draft) {
    d.metric.Database() == d.database
  }

  /** The object as a value of the declared `SettingsType`, which exists
      only for a declared provider and a well-tagged metric; the API key has
      no declared field and is not part of it. */
  function AsDeclared(d: Draft): (r: Option<SettingsType>)
    ensures r.Some? <==> (d.llmProvider.Declared? && WellTagged(d))
    ensures r.Some? ==> && r.value.Database() == d.database && r.value.MetricOf() == d.metric
                        && r.value.llmProvider == d.llmProvider.provider
                        && r.value.textEncoder == d.textEncoder
  {
    match d.llmProvider
    case Declared(p) => MakeSettings(d.database, d.metric, p, d.textEncoder)
    case Domdata => None
  }

  // ---------------------------------------------------------------- inputs

  /** The text-encoder input (settings.tsx:98-103). */
  function SetTextEncoder(d: Draft, text: string): (r: Draft)
    ensures r.textEncoder == text
    ensures r.(textEncoder := d.textEncoder) == d
  {
    d.(textEncoder := text)
  }

  /** The database radio group (settings.tsx:111-119): the new database, and
      always the `Cosine` of that database's metric enumeration, whatever the
      metric was before. */
  function SetDatabase(d: Draft, db: DatabaseType): (r: Draft)
    ensures r.database == db && r.metric == CosineOf(db)
    ensures r.(database := d.database, metric := d.metric) == d
    ensures WellTagged(r)
  {
    d.(database := db, metric := CosineOf(db))
  }

  /** The metric radio items offered for a database (settings.tsx:151-173). */
  function MetricOptions(db: DatabaseType): (r: seq<Metric>)
    ensures |r| == 2 && r[0].Value() == "cosine" && r[1].Value() == "l2"
    ensures forall m :: m in r <==> m.Database() == db
  {
    var r := [CosineOf(db), L2Of(db)];
    assert forall m :: m in r <==> m.Database() == db by {
      forall m ensures m in r <==> m.Database() == db {
        MetricDomain(db, m);
      }
    }
    r
  }

  /** The metric radio group (settings.tsx:137-149); both branches of the
      source store the chosen item unchanged. */
  function SetMetric(d: Draft, m: Metric): (r: Draft)
    ensures r.metric == m
    ensures r.(metric := d.metric) == d
  {
    d.(metric := m)
  }

  /** The provider radio items (settings.tsx:188-199). */
  const ProviderOptions: seq<ProviderChoice> := [Declared(Ollama), Declared(OpenAI), Domdata]

  /** The provider radio group (settings.tsx:181-186): the stored API key is
      kept whatever provider is chosen. */
  function SetProvider(d: Draft, p: ProviderChoice): (r: Draft)
    ensures r.llmProvider == p
    ensures r.(llmProvider := d.llmProvider) == d
  {
    d.(llmProvider := p)
  }

  /** The API-key input (settings.tsx:213-218): the text is stored as typed. */
  function SetApiKey(d: Draft, key: string): (r: Draft)
    ensures r.openAiApiKey == Some(key)
    ensures r.(openAiApiKey := d.openAiApiKey) == d
  {
    d.(openAiApiKey := Some(key))
  }

  /** The API-key input is rendered only while OpenAI is the provider
      (settings.tsx:203). */
  predicate KeyInputShown(d: Draft) {
    d.llmProvider == Declared(OpenAI)
  }

  /** The warning under the API-key input (settings.tsx:220): a present,
      non-empty key that does not start with `sk-`. */
  predicate KeyWarning(d: Draft) {
    d.openAiApiKey.Some? && d.openAiApiKey.value != "" && !("sk-" <= d.openAiApiKey.value)
  }

  /** The warning is on screen: the key input is rendered and its test
      holds (settings.tsx:203, 220). */
  predicate WarningShown(d: Draft) {
    KeyInputShown(d) && KeyWarning(d)
  }

  /** One user action on an input of the form. */
  datatype Edit =
    | EditTextEncoder(text: string)
    | EditDatabase(db: DatabaseType)
    | EditMetric(metric: Metric)
    | EditProvider(choice: ProviderChoice)
    | EditApiKey(key: string)

  /** Whether the form offers the edit for the object shown: a metric among
      the current database's items, a provider among the three items, and a
      key only while the key input is rendered. */
  predicate Offered(d: Draft, e: Edit) {
    match e
    case EditTextEncoder(_) => true
    case EditDatabase(_) => true
    case EditMetric(m) => m in MetricOptions(d.database)
    case EditProvider(p) => p in ProviderOptions
    case EditApiKey(_) => KeyInputShown(d)
  }

  function Apply(d: Draft, e: Edit): Draft {
    match e
    case EditTextEncoder(t) => SetTextEncoder(d, t)
    case EditDatabase(db) => SetDatabase(d, db)
    case EditMetric(m) => SetMetric(d, m)
    case EditProvider(p) => SetProvider(d, p)
    case EditApiKey(k) => SetApiKey(d, k)
  }

  // ---------------------------------------------------------------- properties of the inputs

  /** Every offered edit keeps the metric inside the database's domain. */
  lemma ApplyKeepsTagged(d: Draft, e: Edit)
    requires WellTagged(d) && Offered(d, e)
    ensures WellTagged(Apply(d, e))
  {
  }

  /** Choosing a database keeps the old metric exactly when the old metric
      was already the new database's Cosine: the reset is unconditional, so an
      L2 choice is lost even when the new domain also has L2. */
  lemma SetDatabaseKeepsMetricIff(d: Draft, db: DatabaseType)
    ensures SetDatabase(d, db).metric == d.metric <==> d.metric == CosineOf(db)
    ensures d.metric == L2Of(d.database) ==> SetDatabase(d, db).metric != L2Of(db)
  {
  }

  /** The same on the wire: the metric string sent survives a database
      choice exactly when it was already "cosine". */
  lemma SetDatabaseKeepsMetricValueIff(d: Draft, db: DatabaseType)
    ensures SetDatabase(d, db).metric.Value() == d.metric.Value() <==> d.metric.Value() == "cosine"
  {
  }

  /** Only the last database choice matters. */
  lemma SetDatabaseLastWins(d: Draft, a: DatabaseType, b: DatabaseType)
    ensures SetDatabase(SetDatabase(d, a), b) == SetDatabase(d, b)
  {
  }

  /** Switching provider away from OpenAI and back gives the same key input:
      the key survives. Meanwhile the warning is on screen exactly when the
      new provider is OpenAI and the kept key fails the `sk-` test: it
      disappears off OpenAI and comes back with it. */
  lemma ProviderSwitchKeepsKey(d: Draft, p: ProviderChoice)
    ensures SetProvider(SetProvider(d, p), d.llmProvider) == d
    ensures WarningShown(SetProvider(d, p)) <==> p == Declared(OpenAI) && KeyWarning(d)
  {
  }

  /** Any string is accepted as a key; the warning is on screen exactly
      while OpenAI is the provider and the key is non-empty without the
      `sk-` prefix. */
  lemma ApiKeyWarningIff(d: Draft, key: string)
    ensures SetApiKey(d, key).openAiApiKey == Some(key)
    ensures KeyWarning(SetApiKey(d, key)) <==> (key != "" && !("sk-" <= key))
    ensures WarningShown(SetApiKey(d, key)) <==> KeyInputShown(d) && key != "" && !("sk-" <= key)
  {
  }

  // ---------------------------------------------------------------- dialog state

  /** What `localSettings` holds: `null`, `undefined` (what a load stores when
      the response body has no `settings` member), or an object. */
  datatype Slot = Null | Undefined | Present(draft: Draft)

  /** What the dialog's content shows: the text "Loading" for `null`, the
      form otherwise; reading a field of `undefined` makes rendering throw. */
  datatype View = LoadingText | Form(draft: Draft, saveEnabled: bool) | RenderFailure

  /** The content of the open dialog; it is mounted only while the dialog
      is open (settings.tsx:74-85). */
  function Render(slot: Slot, isSaving: bool): (v: View)
    ensures v == LoadingText <==> slot == Null
    ensures v.Form? <==> slot.Present?
    ensures v.Form? ==> v.draft == slot.draft && (v.saveEnabled <==> !isSaving)
  {
    match slot
    case Null => LoadingText
    case Undefined => RenderFailure
    case Present(d) => Form(d, !isSaving)
  }

  /** How the load request ended: `response.json()` gave a body whose
      `settings` member is the slot given (for any status), or the request or
      the decoding threw. */
  datatype LoadOutcome = Decoded(settings: Slot) | LoadThrew

  /** How the save request ended: an ok status, another status, or a throw. */
  datatype SaveOutcome = SaveOk | SaveBadStatus | SaveThrew

  class Settings {
    var isOpen: bool
    var isSaving: bool
    var localSettings: Slot

    constructor ()
      ensures !isOpen && !isSaving && localSettings == Null
    {
      isOpen, isSaving, localSettings := false, false, Null;
    }

    function View(): View
      reads this
    {
      Render(localSettings, isSaving)
    }

    /** The dialog's `onOpenChange`. */
    method SetOpen(open: bool)
      modifies this
      ensures isOpen == open
      ensures isSaving == old(isSaving) && localSettings == old(localSettings)
    {
      isOpen := open;
    }

    /** `loadSettings` (settings.tsx:30-44): the decoded body's `settings`
        member replaces the object, unvalidated; a throw leaves it as it was;
        either way the saving flag is cleared. */
    method Load(outcome: LoadOutcome)
      modifies this
      ensures localSettings == (if outcome.Decoded? then outcome.settings else old(localSettings))
      ensures !isSaving && isOpen == old(isOpen)
    {
      match outcome {
        case Decoded(s) => localSettings := s;
        case LoadThrew =>
      }
      isSaving := false;
    }

    /** The start of `saveSettings` (settings.tsx:47): the button exists
        only in the rendered form and only while no save is running
        (settings.tsx:229-236); it is disabled until the request ends. */
    method BeginSave()
      requires localSettings.Present? && !isSaving
      modifies this
      ensures isSaving && (View().Form? ==> !View().saveEnabled)
      ensures isOpen == old(isOpen) && localSettings == old(localSettings)
    {
      isSaving := true;
    }

    /** The end of `saveSettings` (settings.tsx:55-66): an ok response makes
        the sent object the dialog's object and closes the dialog; any other
        ending changes neither; the saving flag is cleared in every case. */
    method EndSave(newSettings: Draft, outcome: SaveOutcome)
      modifies this
      ensures !isSaving
      ensures localSettings == (if outcome == SaveOk then Present(newSettings) else old(localSettings))
      ensures isOpen == (if outcome == SaveOk then false else old(isOpen))
    {
      if outcome == SaveOk {
        localSettings := Present(newSettings);
        isOpen := false;
      }
      isSaving := false;
    }

    /** `saveSettings` as one step, from the button: the dialog's whole
        object is sent. */
    method Save(newSettings: Draft, outcome: SaveOutcome)
      requires localSettings == Present(newSettings) && !isSaving
      modifies this
      ensures !isSaving
      ensures localSettings == (if outcome == SaveOk then Present(newSettings) else old(localSettings))
      ensures isOpen == (if outcome == SaveOk then false else old(isOpen))
    {
      BeginSave();
      EndSave(newSettings, outcome);
    }

    /** An input of the rendered form: the object is replaced by the edited
        copy; an offered edit never breaks the discriminant rule. */
    method Edit(e: Edit)
      requires localSettings.Present? && Offered(localSettings.draft, e)
      modifies this
      ensures localSettings == Present(Apply(old(localSettings).draft, e))
      ensures WellTagged(old(localSettings).draft) ==> WellTagged(localSettings.draft)
      ensures isOpen == old(isOpen) && isSaving == old(isSaving)
    {
      if WellTagged(localSettings.draft) {
        ApplyKeepsTagged(localSettings.draft, e);
      }
      localSettings := Present(Apply(localSettings.draft, e));
    }
  }
}
