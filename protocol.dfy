/** The exchange between the settings dialog (src/components/settings.tsx)
    and the backend (backend/server.py): what `saveSettings` sends to
    `/update-settings`, what the route makes of it, how the answer updates
    the dialog, and the dialog's load from `/load-settings`, a route the
    server does not define. */
module Protocol {
  import opened Results
  import opened SettingsTypes
  import opened SettingsSchema
  import Dialog = SettingsDialog
  import Server

  /** The paths the dialog requests (settings.tsx:33, 49). */
  const LOAD_PATH: string := "/load-settings"
  const UPDATE_PATH: string := "/update-settings"

  /** `JSON.stringify` of the dialog's object (settings.tsx:52): each field
      as a string member; a `Domdata` provider is `undefined` and its member
      is left out; the API key only when the object has one. */
  function DraftJson(d: Dialog.Draft): (r: map<string, Json>)
    ensures "llmProvider" in r <==> d.llmProvider.Declared?
    ensures d.llmProvider.Declared? ==> r["llmProvider"] == JString(d.llmProvider.provider.Value())
    ensures "openAiApiKey" in r <==> d.openAiApiKey.Some?
    ensures d.openAiApiKey.Some? ==> r["openAiApiKey"] == JString(d.openAiApiKey.value)
    ensures r.Keys <= {"textEncoder", "database", "metric", "llmProvider", "openAiApiKey"}
    ensures "database" in r && r["database"] == JString(d.database.Value())
    ensures "metric" in r && r["metric"] == JString(d.metric.Value())
    ensures "textEncoder" in r && r["textEncoder"] == JString(d.textEncoder)
  {
    var base := map["textEncoder" := JString(d.textEncoder),
                    "database" := JString(d.database.Value()),
                    "metric" := JString(d.metric.Value())];
    var withProvider := match d.llmProvider
      case Declared(p) => base["llmProvider" := JString(p.Value())]
      case Domdata => base;
    if d.openAiApiKey.Some? then withProvider["openAiApiKey" := JString(d.openAiApiKey.value)]
    else withProvider
  }

  /** The request body `{ settings: newSettings }` (settings.tsx:52). */
  function SaveBody(d: Dialog.Draft): Json {
    JObject(map["settings" := JObject(DraftJson(d))])
  }

  /** `response.ok` for the route's answer: a 2xx status. */
  function SaveOutcomeOf(r: Server.UpdateResponse): (o: Dialog.SaveOutcome)
    ensures o == Dialog.SaveOk <==> 200 <= r.Status() < 300
    ensures o != Dialog.SaveThrew
  {
    if 200 <= r.Status() < 300 then Dialog.SaveOk else Dialog.SaveBadStatus
  }

  /** The route accepts a saved object exactly when its provider is a
      declared one: a `Domdata` object arrives without `llmProvider` and
      fails validation. An accepted object is stored with its database, the
      string of its metric and its provider; text encoder and API key are
      dropped. */
  lemma SaveAcceptedIff(d: Dialog.Draft)
    ensures Server.UpdateOutcome(Server.Post, SaveBody(d)).Success? <==> d.llmProvider.Declared?
    ensures !d.llmProvider.Declared? ==> Server.UpdateOutcome(Server.Post, SaveBody(d)) == Server.BadRequest
    ensures var r := Server.UpdateOutcome(Server.Post, SaveBody(d));
      r.Success? ==> && r.settings.Database() == d.database
                     && r.settings.MetricOf().Value() == d.metric.Value()
                     && r.settings.llmProvider == d.llmProvider.provider
  {
    var f := DraftJson(d);
    assert Server.SettingsData(SaveBody(d)) == Some(JObject(f));
    assert StringField(f, "database") == Some(d.database.Value());
    assert StringField(f, "metric") == Some(d.metric.Value());
    if d.llmProvider.Declared? {
      assert StringField(f, "llmProvider") == Some(d.llmProvider.provider.Value());
      var r := Server.UpdateOutcome(Server.Post, SaveBody(d));
      assert r.Success?;
      var db := r.settings.Database();
      assert db.Value() == d.database.Value();
      DatabaseValueInjective(db, d.database);
      ProviderValueInjective(r.settings.llmProvider, d.llmProvider.provider);
    } else {
      assert StringField(f, "llmProvider") == None;
    }
  }

  lemma DatabaseValueInjective(a: DatabaseType, b: DatabaseType)
    requires a.Value() == b.Value()
    ensures a == b
  {
  }

  lemma ProviderValueInjective(a: LLMProvider, b: LLMProvider)
    requires a.Value() == b.Value()
    ensures a == b
  {
  }

  /** For an object the declared type admits, the stored record is that
      object without its text encoder. */
  lemma SaveStoresDeclared(d: Dialog.Draft)
    requires Dialog.AsDeclared(d).Some?
    ensures var r := Server.UpdateOutcome(Server.Post, SaveBody(d));
      var t := Dialog.AsDeclared(d).value;
      && r.Success?
      && r.settings.Database() == t.Database() && r.settings.MetricOf() == t.MetricOf()
      && r.settings.llmProvider == t.llmProvider
  {
    SaveAcceptedIff(d);
    var r := Server.UpdateOutcome(Server.Post, SaveBody(d));
    MetricValueInjective(r.settings.MetricOf(), d.metric);
  }

  /** Within one database, a metric is known by its string. */
  lemma MetricValueInjective(a: Metric, b: Metric)
    requires a.Database() == b.Database() && a.Value() == b.Value()
    ensures a == b
  {
  }

  /** `saveSettings` against the server, from the form's button, which
      sends the dialog's object: the store and the dialog change together,
      both exactly when the provider is a declared one. */
  method SaveThroughServer(dialog: Dialog.Settings, store: Server.SettingsStore, d: Dialog.Draft)
    returns (r: Server.UpdateResponse)
    requires dialog.localSettings == Dialog.Present(d) && !dialog.isSaving
    modifies dialog, store
    ensures r == Server.UpdateOutcome(Server.Post, SaveBody(d))
    ensures r.Success? <==> d.llmProvider.Declared?
    ensures store.settings == (if r.Success? then r.settings else old(store.settings))
    ensures dialog.localSettings == (if r.Success? then Dialog.Present(d) else old(dialog.localSettings))
    ensures dialog.isOpen == (if r.Success? then false else old(dialog.isOpen))
    ensures !dialog.isSaving
  {
    dialog.BeginSave();
    r := Server.UpdateSettings(store, Server.Post, SaveBody(d));
    SaveAcceptedIff(d);
    dialog.EndSave(d, SaveOutcomeOf(r));
  }

  /** The dialog loads from a path the server does not route (the routes
      are server.py:85, 103, 135, 161, 205), gets Flask's HTML 404 page, and
      `response.json()` throws on it. */
  lemma LoadRouteMissing()
    ensures LOAD_PATH !in Server.ROUTES && UPDATE_PATH in Server.ROUTES
  {
  }

  /** The dialog as mounted (settings.tsx:69-71): created, then loaded;
      the load throws, so the object stays `null` and the dialog shows
      "Loading". The load runs only on mount, and the form with its save
      button is rendered only for an object, so the dialog shows "Loading"
      for good. */
  method MountDialog() returns (dialog: Dialog.Settings)
    ensures fresh(dialog)
    ensures dialog.localSettings == Dialog.Null && dialog.View() == Dialog.LoadingText
    ensures !dialog.isOpen && !dialog.isSaving
  {
    dialog := new Dialog.Settings();
    LoadRouteMissing();
    dialog.Load(Dialog.LoadThrew);
  }
}
