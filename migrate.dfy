/**
 * Bringing whatever storage holds to the current document shape: a stored
 * document is kept as it is, and anything else is read as the settings of
 * the single-settings era and wrapped into a one-template document.
 */
module Migrate {
  import opened JsValues
  import opened Types
  import opened Parse

  /** The version written into every migrated document. */
  const CurrentVersion := 1

  /** The name of the template a migration creates. */
  const MigratedTemplateName := "Default"

  /**
   * `isStoredData`: an object with a numeric version, an array of templates
   * and a string default id. Only a plain object can have all three.
   */
  function IsStoredData(stored: Json): (b: bool)
    ensures b ==> stored.Obj?
    ensures !IsObject(stored) ==> !b
  {
    && IsObject(stored)
    && Get(stored, "version").Num?
    && Get(stored, "templates").Arr?
    && Get(stored, "defaultTemplateId").Str?
  }

  /** A template as the object it is stored as. */
  function TemplateJson(id: string, name: string, settings: Json): Json {
    Obj(map["id" := Str(id), "name" := Str(name), "settings" := settings])
  }

  /** A document as the object it is stored as. */
  function DocumentJson(version: int, templates: seq<Json>, defaultTemplateId: string): Json {
    Obj(map[
      "version" := Num(version),
      "templates" := Arr(templates),
      "defaultTemplateId" := Str(defaultTemplateId)])
  }

  /** The one-template document that wraps settings read from an older store. */
  function WrapSettings(settings: ParsedSettings, freshId: string): Json {
    DocumentJson(
      CurrentVersion,
      [TemplateJson(freshId, MigratedTemplateName, SettingsJson(settings))],
      freshId)
  }

  /** A stored document whose default id is the id of one of its templates. */
  predicate DefaultNamesTemplate(doc: Json) {
    && doc.Obj?
    && Get(doc, "templates").Arr?
    && exists i :: 0 <= i < |Get(doc, "templates").items| &&
         Get(doc, "templates").items[i].Obj? &&
         Get(Get(doc, "templates").items[i], "id") == Get(doc, "defaultTemplateId")
  }

  /**
   * `migrateStorage`, with the fresh template id passed in. Reading the old
   * settings can throw, and the throw reaches the caller.
   */
  function MigrateStorage(stored: Json, freshId: string): (res: Result<Json>)
    ensures IsStoredData(stored) ==> res == Ok(stored)
    ensures res.Ok? ==> IsStoredData(res.value)
    ensures !IsStoredData(stored) ==> (res.Thrown? <==> ParseStoredSettings(stored).Thrown?)
  {
    if IsStoredData(stored) then Ok(stored)
    else
      match ParseStoredSettings(stored)
      case Thrown(message) => Thrown(message)
      case Ok(settings) => Ok(WrapSettings(settings, freshId))
  }

  /** A typed document as the object it is stored as. */
  function EncodeStoredData(d: StoredData): Json {
    DocumentJson(
      d.version,
      seq(|d.templates|, i requires 0 <= i < |d.templates| =>
        TemplateJson(d.templates[i].id, d.templates[i].name, SettingsJson(FromSettings(d.templates[i].settings)))),
      d.defaultTemplateId)
  }

  // ------------------------------------------------------------------ lemmas

  /** The fields of a wrapped document. */
  lemma WrapSettingsFields(settings: ParsedSettings, freshId: string)
    ensures var doc := WrapSettings(settings, freshId);
      && Get(doc, "version") == Num(1)
      && Get(doc, "templates") == Arr([TemplateJson(freshId, MigratedTemplateName, SettingsJson(settings))])
      && Get(doc, "defaultTemplateId") == Str(freshId)
  {
    var fields := WrapSettings(settings, freshId).fields;
    assert fields["version"] == Num(1);
    assert fields["templates"] == Arr([TemplateJson(freshId, MigratedTemplateName, SettingsJson(settings))]);
  }

  /** The fields of a template. */
  lemma TemplateJsonFields(id: string, name: string, settings: Json)
    ensures Get(TemplateJson(id, name, settings), "id") == Str(id)
    ensures Get(TemplateJson(id, name, settings), "name") == Str(name)
    ensures Get(TemplateJson(id, name, settings), "settings") == settings
  {
    assert TemplateJson(id, name, settings).fields["id"] == Str(id);
  }

  /** A migrated older store: version 1, one template named "Default", whose id is the default id and whose settings are the ones read. */
  lemma MigratedShape(stored: Json, freshId: string)
    requires !IsStoredData(stored) && ParseStoredSettings(stored).Ok?
    ensures MigrateStorage(stored, freshId).Ok?
    ensures var doc := MigrateStorage(stored, freshId).value;
      && Get(doc, "version") == Num(1)
      && Get(doc, "templates").Arr? && |Get(doc, "templates").items| == 1
      && Get(Get(doc, "templates").items[0], "name") == Str("Default")
      && Get(Get(doc, "templates").items[0], "id") == Get(doc, "defaultTemplateId") == Str(freshId)
      && Get(Get(doc, "templates").items[0], "settings") == SettingsJson(ParseStoredSettings(stored).value)
  {
    var settings := ParseStoredSettings(stored).value;
    assert MigrateStorage(stored, freshId) == Ok(WrapSettings(settings, freshId));
    WrapSettingsFields(settings, freshId);
    TemplateJsonFields(freshId, MigratedTemplateName, SettingsJson(settings));
  }

  /** A migrated older store always has a default id naming its template. */
  lemma MigratedDefaultNamesTemplate(stored: Json, freshId: string)
    requires !IsStoredData(stored) && MigrateStorage(stored, freshId).Ok?
    ensures DefaultNamesTemplate(MigrateStorage(stored, freshId).value)
  {
    var settings := ParseStoredSettings(stored).value;
    assert MigrateStorage(stored, freshId) == Ok(WrapSettings(settings, freshId));
    WrapSettingsFields(settings, freshId);
    TemplateJsonFields(freshId, MigratedTemplateName, SettingsJson(settings));
    var doc := MigrateStorage(stored, freshId).value;
    assert Get(Get(doc, "templates").items[0], "id") == Get(doc, "defaultTemplateId");
  }

  /** Migrating twice is migrating once, whatever id the second run would mint. */
  lemma MigrateIdempotent(stored: Json, freshId: string, otherId: string)
    requires MigrateStorage(stored, freshId).Ok?
    ensures MigrateStorage(MigrateStorage(stored, freshId).value, otherId) == MigrateStorage(stored, freshId)
  {
  }

  /** Reading a typed document's settings back gives the settings it was written with. */
  lemma MigratedTypedSettings(s: ScreenshotSettings, freshId: string)
    ensures MigrateStorage(SettingsJson(FromSettings(s)), freshId) ==
      Ok(WrapSettings(FromSettings(s), freshId))
  {
    TypedSettingsRoundTrip(s);
    assert !IsStoredData(SettingsJson(FromSettings(s)));
  }

  /** A typed document is recognised as one and passes through migration untouched. */
  lemma StoredDataPassesThrough(d: StoredData, freshId: string)
    ensures IsStoredData(EncodeStoredData(d))
    ensures MigrateStorage(EncodeStoredData(d), freshId) == Ok(EncodeStoredData(d))
  {
  }
}
