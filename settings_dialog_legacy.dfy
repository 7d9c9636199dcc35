/** The older, compiled settings dialog of src/components/settings.js.

    It edits the same settings object with the same handlers as the current
    dialog, but has no open/closed state of its own, offers only the Ollama
    and OpenAI providers and has no API-key input. */
module LegacySettingsDialog {
  import opened SettingsTypes
  import opened SettingsDialog

  /** The inputs this dialog renders (settings.js:55-80): every field but the
      API key, and a provider among its two items only. */
  predicate LegacyOffered(d: Draft, e: Edit) {
    match e
    case EditTextEncoder(_) => true
    case EditDatabase(_) => true
    case EditMetric(m) => m in MetricOptions(d.database)
    case EditProvider(p) => p in [Declared(Ollama), Declared(OpenAI)]
    case EditApiKey(_) => false
  }

  /** What this dialog can do to an object is what the current dialog can;
      it never stores the undeclared provider nor writes a key. */
  lemma LegacyEditsAreOffered(d: Draft, e: Edit)
    requires LegacyOffered(d, e)
    ensures Offered(d, e)
    ensures Apply(d, e).llmProvider.Declared? || d.llmProvider == Domdata
    ensures Apply(d, e).openAiApiKey == d.openAiApiKey
  {
  }

  class LegacySettings {
    var isSaving: bool
    var localSettings: Slot

    constructor ()
      ensures !isSaving && localSettings == Null
    {
      isSaving, localSettings := false, Null;
    }

    function View(): View
      reads this
    {
      Render(localSettings, isSaving)
    }

    /** `loadSettings` (settings.js:12-28): the decoded body's `settings`
        member replaces the object; a throw leaves it as it was (`null` on the
        first load); the saving flag is cleared. */
    method Load(outcome: LoadOutcome)
      modifies this
      ensures localSettings == (if outcome.Decoded? then outcome.settings else old(localSettings))
      ensures !isSaving
    {
      if outcome.Decoded? {
        localSettings := outcome.settings;
      }
      isSaving := false;
    }

    /** The start of `saveSettings` (settings.js:30): the button exists only
        in the rendered form and only while no save is running
        (settings.js:80). */
    method BeginSave()
      requires localSettings.Present? && !isSaving
      modifies this
      ensures isSaving && (View().Form? ==> !View().saveEnabled)
      ensures localSettings == old(localSettings)
    {
      isSaving := true;
    }

    /** The end of `saveSettings` (settings.js:37-50): only an ok response
        stores the sent object; there is no dialog state to close. */
    method EndSave(newSettings: Draft, outcome: SaveOutcome)
      modifies this
      ensures !isSaving
      ensures localSettings == (if outcome == SaveOk then Present(newSettings) else old(localSettings))
    {
      if outcome == SaveOk {
        localSettings := Present(newSettings);
      }
      isSaving := false;
    }

    /** `saveSettings` as one step, from the button: the form's whole object
        is sent (settings.js:80). */
    method Save(newSettings: Draft, outcome: SaveOutcome)
      requires localSettings == Present(newSettings) && !isSaving
      modifies this
      ensures !isSaving
      ensures localSettings == (if outcome == SaveOk then Present(newSettings) else old(localSettings))
    {
      BeginSave();
      EndSave(newSettings, outcome);
    }

    /** An input of the rendered form (settings.js:55-79). */
    method Edit(e: Edit)
      requires localSettings.Present? && LegacyOffered(localSettings.draft, e)
      modifies this
      ensures localSettings == Present(Apply(old(localSettings).draft, e))
      ensures WellTagged(old(localSettings).draft) ==> WellTagged(localSettings.draft)
      ensures localSettings.draft.openAiApiKey == old(localSettings).draft.openAiApiKey
      ensures isSaving == old(isSaving)
    {
      LegacyEditsAreOffered(localSettings.draft, e);
      if WellTagged(localSettings.draft) {
        ApplyKeepsTagged(localSettings.draft, e);
      }
      localSettings := Present(Apply(localSettings.draft, e));
    }
  }
}
