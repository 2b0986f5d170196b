/**
 * The template store: an ordered list of named settings templates and the
 * id of the one new tabs start from. Each operation reassigns the list or
 * the default id; the store keeps "the default id names a template" once
 * it holds.
 */
module Templates {
  import opened Wrappers
  import opened Types

  /** `findIndex(t => t.id === id)`: the first position holding the id, or -1. */
  function FindIndex(ts: seq<Template>, id: string): (i: int)
    ensures -1 <= i < |ts|
    ensures i == -1 <==> forall k :: 0 <= k < |ts| ==> ts[k].id != id
    ensures 0 <= i ==> ts[i].id == id && forall k :: 0 <= k < i ==> ts[k].id != id
  {
    if ts == [] then -1
    else if ts[0].id == id then 0
    else
      var j := FindIndex(ts[1..], id);
      assert forall k :: 1 <= k < |ts| ==> ts[k] == ts[1..][k - 1];
      if j == -1 then -1 else j + 1
  }

  /** `find(t => t.id === id)`: the first template holding the id. */
  function Find(ts: seq<Template>, id: string): (t: Option<Template>)
    ensures t.None? <==> FindIndex(ts, id) == -1
    ensures t.Some? ==> t.value == ts[FindIndex(ts, id)] && t.value in ts && t.value.id == id
  {
    var i := FindIndex(ts, id);
    if i == -1 then None else Some(ts[i])
  }

  /** The fields an update may replace; a missing field keeps its value. */
  datatype TemplateUpdate = TemplateUpdate(name: Option<string>, settings: Option<ScreenshotSettings>)

  /** `{ ...template, ...updates }` */
  function ApplyUpdate(t: Template, u: TemplateUpdate): (r: Template)
    ensures r.id == t.id
    ensures u.name.Some? ==> r.name == u.name.value
    ensures u.name.None? ==> r.name == t.name
    ensures u.settings.Some? ==> r.settings == u.settings.value
    ensures u.settings.None? ==> r.settings == t.settings
  {
    Template(t.id, u.name.GetOr(t.name), u.settings.GetOr(t.settings))
  }

  /** The list without position `i`, the others kept in order. */
  function RemoveAt(ts: seq<Template>, i: nat): (r: seq<Template>)
    requires i < |ts|
    ensures |r| == |ts| - 1
    ensures forall k :: 0 <= k < i ==> r[k] == ts[k]
    ensures forall k :: i <= k < |r| ==> r[k] == ts[k + 1]
  {
    ts[..i] + ts[i + 1..]
  }

  /** The template new tabs start from when the default id names none. */
  function FallbackTemplate(): Template {
    Template("", "Default", DefaultSettings)
  }

  /** `getDefaultTemplate` on a given list and default id. */
  function DefaultOf(ts: seq<Template>, defaultId: string): (t: Template)
    ensures FindIndex(ts, defaultId) != -1 ==> t == ts[FindIndex(ts, defaultId)]
    ensures FindIndex(ts, defaultId) == -1 && |ts| > 0 ==> t == ts[0]
    ensures ts == [] ==> t == FallbackTemplate()
  {
    match Find(ts, defaultId)
    case Some(t) => t
    case None => if |ts| > 0 then ts[0] else FallbackTemplate()
  }

  // ------------------------------------------------------------------ lemmas

  /** A template is found by its id exactly when some template has that id. */
  lemma FindIndexIff(ts: seq<Template>, id: string)
    ensures FindIndex(ts, id) != -1 <==> exists k :: 0 <= k < |ts| && ts[k].id == id
  {
    if FindIndex(ts, id) != -1 {
      assert ts[FindIndex(ts, id)].id == id;
    }
  }

  /** `[...ts.slice(0, i), t, ...ts.slice(i + 1)]` replaces position `i`. */
  lemma SpliceIsUpdate(ts: seq<Template>, i: nat, t: Template)
    requires i < |ts|
    ensures ts[..i] + [t] + ts[i + 1..] == ts[i := t]
  {
  }

  /** Appending keeps every id that was there. */
  lemma AppendKeepsIds(ts: seq<Template>, t: Template, id: string)
    requires FindIndex(ts, id) != -1
    ensures FindIndex(ts + [t], id) == FindIndex(ts, id)
  {
    var i := FindIndex(ts, id);
    assert (ts + [t])[i] == ts[i];
    assert forall k :: 0 <= k < i ==> (ts + [t])[k] == ts[k];
  }

  /** Replacing one template by an update of it keeps the position of every id. */
  lemma UpdateKeepsIds(ts: seq<Template>, i: nat, u: TemplateUpdate, id: string)
    requires i < |ts|
    ensures FindIndex(ts[i := ApplyUpdate(ts[i], u)], id) == FindIndex(ts, id)
  {
    var us := ts[i := ApplyUpdate(ts[i], u)];
    assert forall k :: 0 <= k < |ts| ==> us[k].id == ts[k].id;
    var j := FindIndex(ts, id);
    if j == -1 {
      assert forall k :: 0 <= k < |us| ==> us[k].id != id;
    } else {
      assert us[j].id == id;
    }
  }

  /** Removing a template with another id keeps the default's id present. */
  lemma RemoveKeepsOtherIds(ts: seq<Template>, i: nat, id: string)
    requires i < |ts| && ts[i].id != id
    requires FindIndex(ts, id) != -1
    ensures FindIndex(RemoveAt(ts, i), id) != -1
  {
    var j := FindIndex(ts, id);
    var r := RemoveAt(ts, i);
    if j < i {
      assert r[j].id == id;
    } else {
      assert r[j - 1] == ts[j];
    }
  }

  /** When the default id names a template, that is the default template. */
  lemma DefaultOfNamed(ts: seq<Template>, defaultId: string)
    requires exists k :: 0 <= k < |ts| && ts[k].id == defaultId
    ensures DefaultOf(ts, defaultId).id == defaultId
    ensures DefaultOf(ts, defaultId) in ts
  {
    FindIndexIff(ts, defaultId);
  }

  /** The default template is one of the list's, unless the list is empty. */
  lemma DefaultOfInList(ts: seq<Template>, defaultId: string)
    ensures ts != [] ==> DefaultOf(ts, defaultId) in ts
    ensures ts == [] ==> DefaultOf(ts, defaultId) == FallbackTemplate()
  {
  }

  // ------------------------------------------------------------------- store

  class TemplateStore {
    var templates: seq<Template>
    var defaultTemplateId: string

    /** `ref([])` and `ref("")`. */
    constructor()
      ensures templates == [] && defaultTemplateId == ""
    {
      templates := [];
      defaultTemplateId := "";
    }

    /** The store's invariant: the default id names one of its templates. */
    predicate DefaultExists()
      reads this
    {
      FindIndex(templates, defaultTemplateId) != -1
    }

    /** The state change of `initialize` and of a storage change: the migrated document replaces the state. */
    method Load(data: StoredData)
      modifies this
      ensures templates == data.templates && defaultTemplateId == data.defaultTemplateId
    {
      templates := data.templates;
      defaultTemplateId := data.defaultTemplateId;
    }

    /** `createTemplate`, with the fresh id passed in. */
    method CreateTemplate(name: string, settings: Option<ScreenshotSettings>, freshId: string)
      returns (created: Template)
      requires FindIndex(templates, freshId) == -1
      modifies this
      ensures created == Template(freshId, name, settings.GetOr(DefaultSettings))
      ensures templates == old(templates) + [created]
      ensures defaultTemplateId == old(defaultTemplateId)
      ensures old(DefaultExists()) ==> DefaultExists()
    {
      created := Template(freshId, name, if settings.Some? then settings.value else DefaultSettings);
      if DefaultExists() {
        AppendKeepsIds(templates, created, defaultTemplateId);
      }
      templates := templates + [created];
    }

    /** `updateTemplate`: the first template with the id is replaced by its update. */
    method UpdateTemplate(id: string, updates: TemplateUpdate) returns (updated: Option<Template>)
      modifies this
      ensures FindIndex(old(templates), id) == -1 ==> updated == None && templates == old(templates)
      ensures FindIndex(old(templates), id) != -1 ==>
        var i := FindIndex(old(templates), id);
        && updated == Some(ApplyUpdate(old(templates)[i], updates))
        && templates == old(templates)[i := updated.value]
      ensures defaultTemplateId == old(defaultTemplateId)
      ensures old(DefaultExists()) ==> DefaultExists()
    {
      var index := FindIndex(templates, id);
      if index == -1 {
        return None;
      }
      var t := ApplyUpdate(templates[index], updates);
      UpdateKeepsIds(templates, index, updates, defaultTemplateId);
      SpliceIsUpdate(templates, index, t);
      templates := templates[..index] + [t] + templates[index + 1..];
      updated := Some(t);
    }

    /** `deleteTemplate`: refuses the default id and an unknown id. */
    method DeleteTemplate(id: string) returns (deleted: bool)
      modifies this
      ensures deleted <==> id != old(defaultTemplateId) && FindIndex(old(templates), id) != -1
      ensures !deleted ==> templates == old(templates)
      ensures deleted ==> templates == RemoveAt(old(templates), FindIndex(old(templates), id))
      ensures defaultTemplateId == old(defaultTemplateId)
      ensures old(DefaultExists()) ==> DefaultExists()
    {
      if id == defaultTemplateId {
        return false;
      }
      var index := FindIndex(templates, id);
      if index == -1 {
        return false;
      }
      if DefaultExists() {
        RemoveKeepsOtherIds(templates, index, defaultTemplateId);
      }
      templates := RemoveAt(templates, index);
      deleted := true;
    }

    /** `setDefaultTemplate`: only an id some template holds becomes the default. */
    method SetDefaultTemplate(id: string) returns (ok: bool)
      modifies this
      ensures ok <==> FindIndex(old(templates), id) != -1
      ensures ok ==> defaultTemplateId == id
      ensures !ok ==> defaultTemplateId == old(defaultTemplateId)
      ensures templates == old(templates)
      ensures ok ==> DefaultExists()
      ensures old(DefaultExists()) ==> DefaultExists()
    {
      if Find(templates, id).None? {
        return false;
      }
      defaultTemplateId := id;
      ok := true;
    }

    /** `getDefaultTemplate`. */
    function DefaultTemplate(): (t: Template)
      reads this
      ensures DefaultExists() ==> t.id == defaultTemplateId && t in templates
      ensures !DefaultExists() && templates != [] ==> t == templates[0]
      ensures templates == [] ==> t == FallbackTemplate()
    {
      DefaultOf(templates, defaultTemplateId)
    }

    /** `getTemplateById`. */
    function GetTemplateById(id: string): (t: Option<Template>)
      reads this
      ensures t.Some? <==> exists k :: 0 <= k < |templates| && templates[k].id == id
      ensures t.Some? ==> t.value.id == id && t.value == templates[FindIndex(templates, id)]
    {
      FindIndexIff(templates, id);
      Find(templates, id)
    }
  }
}
