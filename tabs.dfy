/**
 * The per-tab settings: a map from a replay session to the settings its
 * screenshot uses. A session gets a copy of the default template's
 * settings the first time it is asked for.
 */
module Tabs {
  import opened Wrappers
  import opened Types
  import opened Templates
  import opened Settings

  /** `Partial<ScreenshotSettings>`: each field is either given or left alone. */
  datatype SettingsUpdate = SettingsUpdate(
    headersToHide: Option<seq<string>>,
    disposition: Option<Disposition>,
    width: Option<WidthSetting>,
    highlights: Option<seq<HighlightRule>>,
    redactions: Option<seq<RedactionRule>>)

  const NoUpdates := SettingsUpdate(None, None, None, None, None)

  /** `{ ...current, ...updates }`: a given field wins, the others are kept. */
  function MergeSettings(current: ScreenshotSettings, updates: SettingsUpdate): (r: ScreenshotSettings)
    ensures updates == NoUpdates ==> r == current
  {
    ScreenshotSettings(
      updates.headersToHide.GetOr(current.headersToHide),
      updates.disposition.GetOr(current.disposition),
      updates.width.GetOr(current.width),
      updates.highlights.GetOr(current.highlights),
      updates.redactions.GetOr(current.redactions))
  }

  /** One update after another: the later one's given fields win. */
  function ThenUpdate(first: SettingsUpdate, second: SettingsUpdate): SettingsUpdate {
    SettingsUpdate(
      if second.headersToHide.Some? then second.headersToHide else first.headersToHide,
      if second.disposition.Some? then second.disposition else first.disposition,
      if second.width.Some? then second.width else first.width,
      if second.highlights.Some? then second.highlights else first.highlights,
      if second.redactions.Some? then second.redactions else first.redactions)
  }

  /** The settings a session reads: its own entry, or a copy of the fallback. */
  function SessionSettings(tabs: map<string, ScreenshotSettings>, fallback: ScreenshotSettings, sessionId: string): (s: ScreenshotSettings)
    ensures sessionId in tabs ==> s == tabs[sessionId]
    ensures sessionId !in tabs ==> s == fallback
  {
    if sessionId in tabs then tabs[sessionId] else CloneSettings(fallback)
  }

  /** The map after a session's settings are read: a missing entry is filled in. */
  function AfterRead(tabs: map<string, ScreenshotSettings>, fallback: ScreenshotSettings, sessionId: string): (m: map<string, ScreenshotSettings>)
    ensures sessionId in m && m[sessionId] == SessionSettings(tabs, fallback, sessionId)
    ensures forall other :: other != sessionId ==> (other in m <==> other in tabs)
    ensures forall other :: other != sessionId && other in tabs ==> m[other] == tabs[other]
  {
    tabs[sessionId := SessionSettings(tabs, fallback, sessionId)]
  }

  // ------------------------------------------------------------------ lemmas

  /** Two updates in a row are the one update that combines them. */
  lemma MergeTwice(s: ScreenshotSettings, first: SettingsUpdate, second: SettingsUpdate)
    ensures MergeSettings(MergeSettings(s, first), second) == MergeSettings(s, ThenUpdate(first, second))
  {
  }

  /** Repeating an update changes nothing more. */
  lemma MergeIdempotent(s: ScreenshotSettings, u: SettingsUpdate)
    ensures MergeSettings(MergeSettings(s, u), u) == MergeSettings(s, u)
  {
    MergeTwice(s, u, u);
    assert ThenUpdate(u, u) == u;
  }

  /** Reading a session twice leaves the map as the first read left it, and reads the same settings. */
  lemma ReadTwice(tabs: map<string, ScreenshotSettings>, fallback: ScreenshotSettings, other: ScreenshotSettings, sessionId: string)
    ensures AfterRead(AfterRead(tabs, fallback, sessionId), other, sessionId) == AfterRead(tabs, fallback, sessionId)
    ensures SessionSettings(AfterRead(tabs, fallback, sessionId), other, sessionId) == SessionSettings(tabs, fallback, sessionId)
  {
    var m := AfterRead(tabs, fallback, sessionId);
    assert m[sessionId := m[sessionId]] == m;
  }

  // ------------------------------------------------------------------- store

  class TabStore {
    var tabSettings: map<string, ScreenshotSettings>
    const templates: TemplateStore

    constructor(templates: TemplateStore)
      ensures this.templates == templates && tabSettings == map[]
    {
      this.templates := templates;
      tabSettings := map[];
    }

    /** `getTabSettings`: an unknown session gets a copy of the default template's settings. */
    method GetTabSettings(sessionId: string) returns (settings: ScreenshotSettings)
      modifies this
      ensures settings == SessionSettings(old(tabSettings), templates.DefaultTemplate().settings, sessionId)
      ensures tabSettings == AfterRead(old(tabSettings), templates.DefaultTemplate().settings, sessionId)
      ensures sessionId in old(tabSettings) ==> tabSettings == old(tabSettings)
    {
      if sessionId in tabSettings {
        settings := tabSettings[sessionId];
        assert tabSettings[sessionId := settings] == tabSettings;
        return;
      }
      var defaultTemplate := templates.DefaultTemplate();
      settings := CloneSettings(defaultTemplate.settings);
      tabSettings := tabSettings[sessionId := settings];
    }

    /** `updateTabSettings`: the session's settings, read as above, with the given fields replaced. */
    method UpdateTabSettings(sessionId: string, updates: SettingsUpdate) returns (updated: ScreenshotSettings)
      modifies this
      ensures updated == MergeSettings(SessionSettings(old(tabSettings), templates.DefaultTemplate().settings, sessionId), updates)
      ensures tabSettings == old(tabSettings)[sessionId := updated]
    {
      var current := GetTabSettings(sessionId);
      updated := MergeSettings(current, updates);
      tabSettings := tabSettings[sessionId := updated];
    }

    /** `setTabSettingsFromTemplate`: an unknown template is just a read. */
    method SetTabSettingsFromTemplate(sessionId: string, templateId: string) returns (settings: ScreenshotSettings)
      modifies this
      ensures templates.GetTemplateById(templateId).None? ==>
        && settings == SessionSettings(old(tabSettings), templates.DefaultTemplate().settings, sessionId)
        && tabSettings == AfterRead(old(tabSettings), templates.DefaultTemplate().settings, sessionId)
      ensures templates.GetTemplateById(templateId).Some? ==>
        && settings == templates.GetTemplateById(templateId).value.settings
        && tabSettings == old(tabSettings)[sessionId := settings]
    {
      var template := templates.GetTemplateById(templateId);
      if template.None? {
        settings := GetTabSettings(sessionId);
        return;
      }
      settings := CloneSettings(template.value.settings);
      tabSettings := tabSettings[sessionId := settings];
    }
  }

  /** Asking twice for a session's settings gives the same settings and leaves one entry. */
  method ReadSessionTwice(store: TabStore, sessionId: string) returns (first: ScreenshotSettings, second: ScreenshotSettings)
    modifies store
    ensures first == second
    ensures store.tabSettings == AfterRead(old(store.tabSettings), store.templates.DefaultTemplate().settings, sessionId)
  {
    first := store.GetTabSettings(sessionId);
    second := store.GetTabSettings(sessionId);
  }
}
