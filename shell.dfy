/**
 * The application shell: the model and sampling preferences shared by the sidebar and the chat
 * page, which conversation the page shows, and the counters that remount the page and refresh the
 * sidebar. The preferences are restored from storage at startup and written back whenever one of
 * them changes.
 */
module Shell {
  import opened Options
  import opened Schema
  import opened Models
  import opened Storage

  /** The four preferences the shell keeps and writes as one record. */
  datatype Prefs = Prefs(selectedModel: string, temperature: Number, systemPrompt: string, presetId: string)

  /** The preferences before anything is restored. */
  function DefaultPrefs(): (p: Prefs)
    ensures ModelById(p.selectedModel).Some? && 0.0 <= p.temperature <= 2.0
    ensures p.systemPrompt == "" && p.presetId == ""
  {
    DefaultsValid();
    Prefs(DEFAULT_MODEL, DEFAULT_TEMPERATURE, "", "")
  }

  /** The record the save effect writes: all four preferences. */
  function RecordOf(p: Prefs): ChatSettings {
    ChatSettings(p.selectedModel, p.temperature, Some(p.systemPrompt), Some(p.presetId))
  }

  /**
   * The preferences after the restore effect: the stored record's, with a missing prompt or
   * preset read as "", or the defaults when nothing can be read.
   */
  function Restored(stored: Option<ChatSettings>): (p: Prefs)
    ensures stored.None? ==> p == DefaultPrefs()
    ensures stored.Some? ==> p.selectedModel == stored.value.selectedModel && p.temperature == stored.value.temperature
    ensures stored.Some? ==> p.systemPrompt == stored.value.systemPrompt.GetOr("")
                             && p.presetId == stored.value.presetId.GetOr("")
  {
    match stored
    case None => DefaultPrefs()
    case Some(s) => Prefs(s.selectedModel, s.temperature, s.systemPrompt.GetOr(""), s.presetId.GetOr(""))
  }

  /** What the shell writes, it restores: a restart brings back the same preferences. */
  lemma RestoreWritten(p: Prefs)
    ensures Restored(Some(RecordOf(p))) == p
  {
  }

  /** The preferences a loaded conversation brings: its model and temperature; no prompt, no preset. */
  function LoadedPrefs(c: Conversation): (p: Prefs)
    ensures p.selectedModel == c.model && p.temperature == c.temperature
    ensures p.systemPrompt == "" && p.presetId == ""
  {
    Prefs(c.model, c.temperature, "", "")
  }

  class App {
    const store: Store
    var selectedModel: string
    var temperature: Number
    var systemPrompt: string
    var presetId: string
    /** The chat page's key: a new value remounts it. */
    var chatKey: nat
    var loaded: Option<Conversation>
    /** Bumped to make the sidebar reload its history. */
    var refreshSidebar: nat

    function CurrentPrefs(): Prefs
      reads this
    {
      Prefs(selectedModel, temperature, systemPrompt, presetId)
    }

    /** The initial state, before any effect has run. */
    constructor (store: Store)
      ensures this.store == store && CurrentPrefs() == DefaultPrefs()
      ensures chatKey == 0 && loaded.None? && refreshSidebar == 0
    {
      this.store := store;
      var p := DefaultPrefs();
      selectedModel := p.selectedModel;
      temperature := p.temperature;
      systemPrompt := p.systemPrompt;
      presetId := p.presetId;
      chatKey := 0;
      loaded := None;
      refreshSidebar := 0;
    }

    /**
     * Set the preferences; when any of them changed, the save effect writes all four as one
     * record (`writeOk` is false when the browser refuses the write).
     */
    method SetPrefs(p: Prefs, writeOk: bool)
      modifies this`selectedModel, this`temperature, this`systemPrompt, this`presetId, store`settings
      ensures CurrentPrefs() == p
      ensures p != old(CurrentPrefs()) && writeOk ==> store.settings == Holds(RecordOf(p))
      ensures p == old(CurrentPrefs()) || !writeOk ==> store.settings == old(store.settings)
    {
      var changed := p != CurrentPrefs();
      selectedModel, temperature, systemPrompt, presetId := p.selectedModel, p.temperature, p.systemPrompt, p.presetId;
      if changed {
        store.SaveSettings(RecordOf(p), writeOk);
      }
    }

    /**
     * Startup: the restore effect reads the stored record, then the save effect runs once with
     * the initial preferences (overwriting the stored record with the defaults), then again with
     * the restored ones when they differ from the defaults.
     */
    method Startup(firstWriteOk: bool, secondWriteOk: bool)
      requires CurrentPrefs() == DefaultPrefs()
      modifies this`selectedModel, this`temperature, this`systemPrompt, this`presetId, store`settings
      ensures CurrentPrefs() == Restored(old(store.StoredSettings()))
      ensures CurrentPrefs() != DefaultPrefs() && secondWriteOk ==> store.settings == Holds(RecordOf(CurrentPrefs()))
      ensures CurrentPrefs() != DefaultPrefs() && !secondWriteOk && firstWriteOk
              ==> store.settings == Holds(RecordOf(DefaultPrefs()))
      ensures CurrentPrefs() != DefaultPrefs() && !secondWriteOk && !firstWriteOk
              ==> store.settings == old(store.settings)
      ensures CurrentPrefs() == DefaultPrefs()
              ==> store.settings == if firstWriteOk then Holds(RecordOf(DefaultPrefs())) else old(store.settings)
    {
      var stored := store.StoredSettings();
      store.SaveSettings(RecordOf(CurrentPrefs()), firstWriteOk);
      SetPrefs(Restored(stored), secondWriteOk);
    }

    /** `handleNewChat`: show a fresh conversation. */
    method HandleNewChat()
      modifies this`loaded, this`chatKey
      ensures loaded.None? && chatKey == old(chatKey) + 1
    {
      loaded := None;
      chatKey := chatKey + 1;
    }

    /** `handleLoadConversation`: show `c` with its model and temperature. */
    method HandleLoadConversation(c: Conversation, writeOk: bool)
      modifies this`loaded, this`chatKey, this`selectedModel, this`temperature, this`systemPrompt,
               this`presetId, store`settings
      ensures loaded == Some(c) && chatKey == old(chatKey) + 1
      ensures CurrentPrefs() == LoadedPrefs(c)
      ensures LoadedPrefs(c) != old(CurrentPrefs()) && writeOk ==> store.StoredSettings() == Some(RecordOf(LoadedPrefs(c)))
      ensures LoadedPrefs(c) == old(CurrentPrefs()) || !writeOk ==> store.settings == old(store.settings)
    {
      loaded := Some(c);
      SetPrefs(LoadedPrefs(c), writeOk);
      chatKey := chatKey + 1;
    }

    /** `handleModelSelect`: only the model changes. */
    method HandleModelSelect(id: string, writeOk: bool)
      modifies this`selectedModel, this`temperature, this`systemPrompt, this`presetId, store`settings
      ensures selectedModel == id
      ensures temperature == old(temperature) && systemPrompt == old(systemPrompt) && presetId == old(presetId)
      ensures id != old(selectedModel) && writeOk ==> store.StoredSettings() == Some(RecordOf(CurrentPrefs()))
      ensures id == old(selectedModel) || !writeOk ==> store.settings == old(store.settings)
    {
      SetPrefs(CurrentPrefs().(selectedModel := id), writeOk);
    }

    /** The sidebar's temperature slider. */
    method HandleTemperatureChange(t: Number, writeOk: bool)
      modifies this`selectedModel, this`temperature, this`systemPrompt, this`presetId, store`settings
      ensures temperature == t
      ensures selectedModel == old(selectedModel) && systemPrompt == old(systemPrompt) && presetId == old(presetId)
      ensures t != old(temperature) && writeOk ==> store.StoredSettings() == Some(RecordOf(CurrentPrefs()))
      ensures t == old(temperature) || !writeOk ==> store.settings == old(store.settings)
    {
      SetPrefs(CurrentPrefs().(temperature := t), writeOk);
    }

    /** `handleConversationUpdate`: make the sidebar reload. */
    method HandleConversationUpdate()
      modifies this`refreshSidebar
      ensures refreshSidebar == old(refreshSidebar) + 1
    {
      refreshSidebar := refreshSidebar + 1;
    }
  }
}
