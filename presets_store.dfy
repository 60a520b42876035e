// The presets store of vite-project/src/stores/presetsStore.js: a list of
// generation presets with an active index. Importing a preset fills in the
// prompt and preset keys a file may lack; deleting one keeps the active index
// in range.
//
// JSON.parse and the local time string are inputs. Numbers are integers, so
// the default temperature and top_p are the integers 1. Alerts and console
// output are not modelled.

module PresetsStore {
  import opened Js
  import opened Strings
  import Seqs

  const NewPresetName: string := "新建预设"
  const ImportedPresetName: string := "导入的预设"

  /** The one prompt of the default preset. */
  const DefaultPrompt: Json := Obj(map[
    "name" := Str("主提示词"),
    "system_prompt" := Bool(true),
    "role" := Str("user"),
    "content" := Str("请在这里输入你的主提示词..."),
    "enabled" := Bool(true),
    "injection_position" := Num(0),
    "injection_depth" := Num(4),
    "forbid_overrides" := Bool(false)])

  /** The keys of the default preset, in declaration order (`Object.keys(defaultPreset)`). */
  const DefaultPresetKeys: seq<string> := [
    "name", "temperature", "frequency_penalty", "presence_penalty", "top_p", "top_k",
    "repetition_penalty", "max_context_tokens", "max_tokens", "n", "stream",
    "image_support", "request_chain_of_thought", "prompts"]

  function DefaultPresetValue(key: string): Json
  {
    match key
    case "name" => Str(NewPresetName)
    case "temperature" => Num(1)
    case "frequency_penalty" => Num(0)
    case "presence_penalty" => Num(0)
    case "top_p" => Num(1)
    case "top_k" => Num(40)
    case "repetition_penalty" => Num(1)
    case "max_context_tokens" => Num(4096)
    case "max_tokens" => Num(2048)
    case "n" => Num(1)
    case "stream" => Bool(true)
    case "image_support" => Bool(false)
    case "request_chain_of_thought" => Bool(false)
    case _ => Arr([DefaultPrompt])
  }

  /** `defaultPreset` */
  const DefaultPreset: map<string, Json> := map k | k in DefaultPresetKeys :: DefaultPresetValue(k)

  /** The values a prompt gets for each of these keys it lacks. */
  const PromptDefaults: map<string, Json> := map[
    "enabled" := Bool(true),
    "injection_position" := Num(0),
    "injection_depth" := Num(4),
    "forbid_overrides" := Bool(false),
    "system_prompt" := Bool(false)]

  /**
   * One prompt after the `forEach` of the import, or None when it throws:
   * reading a property of null throws, and so does assigning one on a
   * string, number or boolean (module code is strict). An object gets each
   * missing key; its present keys, null-valued ones included, stay.
   */
  function PromptWithDefaults(prompt: Json): (r: Option<Json>)
    ensures r.None? <==> !(prompt.Obj? || prompt.Arr?)
    ensures prompt.Obj? ==>
              && r.Some? && r.value.Obj?
              && r.value.fields.Keys == prompt.fields.Keys + PromptDefaults.Keys
              && (forall k :: k in prompt.fields ==> r.value.fields[k] == prompt.fields[k])
              && (forall k :: k in PromptDefaults && k !in prompt.fields ==> r.value.fields[k] == PromptDefaults[k])
  {
    match prompt
    case Obj(fields) => Some(Obj(PromptDefaults + fields))
    case Arr(_) => Some(prompt)
    case _ => None
  }

  /**
   * The `forEach` over the imported prompts: every prompt with its defaults,
   * or None when one of them throws.
   */
  method FillPromptDefaults(prompts: seq<Json>) returns (filled: Option<seq<Json>>)
    ensures filled.None? <==> exists k :: 0 <= k < |prompts| && PromptWithDefaults(prompts[k]).None?
    ensures filled.Some? ==>
              && |filled.value| == |prompts|
              && forall k :: 0 <= k < |prompts| ==> Some(filled.value[k]) == PromptWithDefaults(prompts[k])
  {
    var done: seq<Json> := [];
    var i := 0;
    while i < |prompts|
      invariant 0 <= i <= |prompts| && |done| == i
      invariant forall k :: 0 <= k < i ==> Some(done[k]) == PromptWithDefaults(prompts[k])
    {
      var prompt := PromptWithDefaults(prompts[i]);
      if prompt.None? {
        return None;
      }
      done := done + [prompt.value];
      i := i + 1;
    }
    return Some(done);
  }

  /**
   * `Object.keys(defaults).forEach(...)` as the import runs it: every key
   * in `keys` that `fields` lacks gets its value from `defaults`; present
   * keys stay as they are.
   */
  method FillMissing(fields: map<string, Json>, keys: seq<string>, defaults: map<string, Json>)
    returns (r: map<string, Json>)
    requires forall i :: 0 <= i < |keys| ==> keys[i] in defaults
    ensures r.Keys == fields.Keys + set k | k in keys
    ensures forall k :: k in fields ==> r[k] == fields[k]
    ensures forall k :: k in r && k !in fields ==> k in defaults && r[k] == defaults[k]
  {
    r := fields;
    var i := 0;
    while i < |keys|
      invariant 0 <= i <= |keys|
      invariant r.Keys == fields.Keys + set k | k in keys[..i]
      invariant forall k :: k in fields ==> r[k] == fields[k]
      invariant forall k :: k in r && k !in fields ==> k in defaults && r[k] == defaults[k]
    {
      var key := keys[i];
      if key !in r {
        r := r[key := defaults[key]];
      }
      assert keys[..i + 1] == keys[..i] + [key];
      i := i + 1;
    }
    assert keys[..i] == keys;
  }

  /** Filling the default preset's keys gives `DefaultPreset + fields`: defaults under the imported keys. */
  lemma FilledPresetIsMerge(fields: map<string, Json>, r: map<string, Json>)
    requires r.Keys == fields.Keys + set k | k in DefaultPresetKeys
    requires forall k :: k in fields ==> r[k] == fields[k]
    requires forall k :: k in r && k !in fields ==> k in DefaultPreset && r[k] == DefaultPreset[k]
    ensures r == DefaultPreset + fields
  {
    assert (set k | k in DefaultPresetKeys) == DefaultPreset.Keys;
  }

  /** The prompts of an import when none of them throws. */
  function AllPromptsWithDefaults(prompts: seq<Json>): (r: Option<seq<Json>>)
    ensures r.None? <==> exists k :: 0 <= k < |prompts| && PromptWithDefaults(prompts[k]).None?
    ensures r.Some? ==>
              && |r.value| == |prompts|
              && forall k :: 0 <= k < |prompts| ==> Some(r.value[k]) == PromptWithDefaults(prompts[k])
  {
    if exists k :: 0 <= k < |prompts| && PromptWithDefaults(prompts[k]).None? then None
    else Some(seq(|prompts|, k requires 0 <= k < |prompts| => PromptWithDefaults(prompts[k]).value))
  }

  /** The imported object's own `prompts` array, when it has a truthy array there. */
  predicate HasPromptArray(data: Json)
  {
    data.Obj? && "prompts" in data.fields && data.fields["prompts"].Arr?
  }

  /** The imported object over the defaults, its prompts replaced by the filled ones. */
  function MergedPreset(defaults: map<string, Json>, data: map<string, Json>, prompts: seq<Json>): map<string, Json>
  {
    defaults + data["prompts" := Arr(prompts)]
  }

  /** The name fallback: a falsy name becomes "导入的预设" and the import time. */
  function NamedPreset(preset: map<string, Json>, timeString: string): map<string, Json>
    requires "name" in preset
  {
    if Truthy(Defined(preset["name"])) then preset
    else preset["name" := Str(ImportedPresetName + " " + timeString)]
  }

  /**
   * The merge adds every default key the import lacks, with its default
   * value, keeps the imported properties and the filled prompts, and adds
   * no other key.
   */
  lemma MergedPresetContents(defaults: map<string, Json>, data: map<string, Json>, prompts: seq<Json>)
    ensures var r := MergedPreset(defaults, data, prompts);
            && r.Keys == defaults.Keys + data.Keys + {"prompts"}
            && r["prompts"] == Arr(prompts)
            && (forall k :: k in data && k != "prompts" ==> r[k] == data[k])
            && (forall k :: k in defaults && k !in data && k != "prompts" ==> r[k] == defaults[k])
  {
  }

  /** The fallback leaves a truthy name, changes nothing when the name already was, and touches no other key. */
  lemma NamedPresetFallback(preset: map<string, Json>, timeString: string)
    requires "name" in preset
    ensures var r := NamedPreset(preset, timeString);
            && r.Keys == preset.Keys
            && Truthy(Defined(r["name"]))
            && (Truthy(Defined(preset["name"])) ==> r == preset)
            && (!Truthy(Defined(preset["name"])) ==> r["name"] == Str(ImportedPresetName + " " + timeString))
            && (forall k :: k in preset && k != "name" ==> r[k] == preset[k])
  {
  }

  /**
   * `importPreset`: the preset that is pushed, or None when the import
   * throws. It throws when the text does not parse, when `prompts` is
   * missing or not an array, or when a prompt cannot take its defaults.
   */
  function ImportedPreset(parsed: Option<Json>, timeString: string): (r: Option<Json>)
    ensures r.Some? <==> parsed.Some? && HasPromptArray(parsed.value)
                         && AllPromptsWithDefaults(parsed.value.fields["prompts"].items).Some?
    ensures r.Some? ==> r.value.Obj?
  {
    if parsed.None? || !HasPromptArray(parsed.value) then None
    else
      var filled := AllPromptsWithDefaults(parsed.value.fields["prompts"].items);
      if filled.None? then None
      else
        DefaultPresetName();
        Some(Obj(NamedPreset(MergedPreset(DefaultPreset, parsed.value.fields, filled.value), timeString)))
  }

  /** The merge keeps every default key, the filled prompts and the imported properties, and names the preset. */
  lemma NamedMergeContents(defaults: map<string, Json>, data: map<string, Json>, prompts: seq<Json>, timeString: string)
    requires "name" in defaults
    ensures var fields := NamedPreset(MergedPreset(defaults, data, prompts), timeString);
            && defaults.Keys <= fields.Keys
            && fields["prompts"] == Arr(prompts)
            && Truthy(Defined(fields["name"]))
            && forall k :: k in data && k != "prompts" && k != "name" ==> k in fields && fields[k] == data[k]
  {
  }

  /** Which name the merge ends up with. */
  lemma NamedMergeName(defaults: map<string, Json>, data: map<string, Json>, prompts: seq<Json>, timeString: string)
    requires "name" in defaults
    ensures var name := NamedPreset(MergedPreset(defaults, data, prompts), timeString)["name"];
            && ("name" !in data && Truthy(Defined(defaults["name"])) ==> name == defaults["name"])
            && ("name" in data && Truthy(Defined(data["name"])) ==> name == data["name"])
            && ("name" in data && !Truthy(Defined(data["name"])) ==> name == Str(ImportedPresetName + " " + timeString))
  {
  }

  lemma DefaultPresetHasItsKeys()
    ensures forall i :: 0 <= i < |DefaultPresetKeys| ==> DefaultPresetKeys[i] in DefaultPreset
  {
  }

  lemma DefaultPresetName()
    ensures "name" in DefaultPreset && DefaultPreset["name"] == Str(NewPresetName)
  {
    assert "name" in DefaultPresetKeys;
  }

  /** An import whose prompts all take their defaults yields the named merge. */
  lemma ImportedPresetIsMerge(data: map<string, Json>, timeString: string)
    requires "prompts" in data && data["prompts"].Arr? && AllPromptsWithDefaults(data["prompts"].items).Some?
    ensures "name" in MergedPreset(DefaultPreset, data, AllPromptsWithDefaults(data["prompts"].items).value)
    ensures ImportedPreset(Some(Obj(data)), timeString)
            == Some(Obj(NamedPreset(MergedPreset(DefaultPreset, data, AllPromptsWithDefaults(data["prompts"].items).value), timeString)))
  {
    assert HasPromptArray(Obj(data));
    DefaultPresetName();
  }

  /**
   * The imported preset has every default key, the filled prompts, a truthy
   * name, and every other imported property unchanged.
   */
  lemma ImportedPresetContents(data: map<string, Json>, timeString: string)
    requires "prompts" in data && data["prompts"].Arr? && AllPromptsWithDefaults(data["prompts"].items).Some?
    ensures var fields := ImportedPreset(Some(Obj(data)), timeString).value.fields;
            && DefaultPreset.Keys <= fields.Keys
            && fields["prompts"] == Arr(AllPromptsWithDefaults(data["prompts"].items).value)
            && Truthy(Defined(fields["name"]))
            && forall k :: k in data && k != "prompts" && k != "name" ==> k in fields && fields[k] == data[k]
  {
    ImportedPresetIsMerge(data, timeString);
    DefaultPresetName();
    NamedMergeContents(DefaultPreset, data, AllPromptsWithDefaults(data["prompts"].items).value, timeString);
  }

  /**
   * The imported name: kept when truthy, "新建预设" from the defaults when
   * absent, and a time-stamped name only when present but falsy.
   */
  lemma ImportedPresetNaming(data: map<string, Json>, timeString: string)
    requires "prompts" in data && data["prompts"].Arr? && AllPromptsWithDefaults(data["prompts"].items).Some?
    ensures var name := ImportedPreset(Some(Obj(data)), timeString).value.fields["name"];
            && ("name" !in data ==> name == Str(NewPresetName))
            && ("name" in data && Truthy(Defined(data["name"])) ==> name == data["name"])
            && ("name" in data && !Truthy(Defined(data["name"])) ==> name == Str(ImportedPresetName + " " + timeString))
  {
    ImportedPresetIsMerge(data, timeString);
    DefaultPresetName();
    NamedMergeName(DefaultPreset, data, AllPromptsWithDefaults(data["prompts"].items).value, timeString);
  }

  /** The active index after `deletePreset(index)`: one less, but not below 0, when the index is at or before it. */
  function ActiveAfterDelete(active: int, index: int): (r: int)
    ensures active >= index ==> r == if active - 1 < 0 then 0 else active - 1
    ensures active < index ==> r == active
  {
    if active >= index then (if active - 1 < 0 then 0 else active - 1) else active
  }

  /**
   * Deleting another preset by an in-range index keeps the same preset
   * active; deleting the active one activates its predecessor, or the new
   * first preset when it was the first.
   */
  lemma DeleteKeepsActivePreset(presets: seq<Json>, active: int, index: int)
    requires |presets| > 1 && 0 <= active < |presets| && 0 <= index < |presets|
    ensures var after := Seqs.SpliceOne(presets, index);
            var newActive := ActiveAfterDelete(active, index);
            && 0 <= newActive < |after|
            && (index != active ==> after[newActive] == presets[active])
            && (index == active && active > 0 ==> after[newActive] == presets[active - 1])
            && (index == active && active == 0 ==> after[newActive] == presets[1])
  {
    assert Seqs.SpliceStart(|presets|, index) == index;
  }

  class PresetsStore {
    var presets: seq<Json>
    var active: int

    /** At least one preset, and the active index points at one. */
    ghost predicate Valid()
      reads this
    {
      |presets| >= 1 && 0 <= active < |presets|
    }

    constructor()
      ensures Valid()
      ensures presets == [Obj(DefaultPreset)] && active == 0
    {
      presets := [Obj(DefaultPreset)];
      active := 0;
    }

    /** `activePreset` */
    function ActivePreset(): (r: Json)
      requires Valid()
      reads this
      ensures r in presets
    {
      presets[active]
    }

    /** `addNewPreset`: a default preset named "新建预设 <count>" is appended and becomes active. */
    method AddNewPreset()
      requires Valid()
      modifies this
      ensures Valid()
      ensures presets == old(presets) + [Obj(DefaultPreset["name" := Str(NewPresetName + " " + NatToString(|old(presets)| + 1))])]
      ensures active == |old(presets)|
    {
      var preset := DefaultPreset["name" := Str(NewPresetName + " " + NatToString(|presets| + 1))];
      presets := presets + [Obj(preset)];
      active := |presets| - 1;
    }

    /**
     * `deletePreset(index)`: refused while one preset is left; otherwise
     * `splice(index, 1)`, which counts a negative index from the end and
     * removes nothing past the end, and the active index moves down when the
     * index is at or before it.
     */
    method DeletePreset(index: int)
      requires Valid()
      modifies this
      ensures Valid()
      ensures |old(presets)| <= 1 ==> presets == old(presets) && active == old(active)
      ensures |old(presets)| > 1 ==>
                presets == Seqs.SpliceOne(old(presets), index) && active == ActiveAfterDelete(old(active), index)
    {
      if |presets| <= 1 {
        return;
      }
      presets := Seqs.SpliceOne(presets, index);
      if active >= index {
        active := if active - 1 < 0 then 0 else active - 1;
      }
    }

    /** `importPreset(jsonData)`, with JSON.parse as `parse` and the local time as `timeString`. */
    method ImportPreset(jsonData: string, parse: string -> Option<Json>, timeString: string)
      requires Valid()
      modifies this
      ensures Valid()
      ensures ImportedPreset(parse(jsonData), timeString).None? ==> presets == old(presets) && active == old(active)
      ensures ImportedPreset(parse(jsonData), timeString).Some? ==>
                presets == old(presets) + [ImportedPreset(parse(jsonData), timeString).value]
                && active == |old(presets)|
    {
      var parsed := parse(jsonData);
      if parsed.None? || !HasPromptArray(parsed.value) {
        return;
      }
      var data := parsed.value.fields;
      var prompts := FillPromptDefaults(data["prompts"].items);
      if prompts.None? {
        return;
      }
      ghost var spec := AllPromptsWithDefaults(data["prompts"].items);
      assert prompts.value == spec.value;
      DefaultPresetHasItsKeys();
      var preset := FillMissing(data["prompts" := Arr(prompts.value)], DefaultPresetKeys, DefaultPreset);
      FilledPresetIsMerge(data["prompts" := Arr(prompts.value)], preset);
      assert preset == MergedPreset(DefaultPreset, data, spec.value);
      if !Truthy(Defined(preset["name"])) {
        preset := preset["name" := Str(ImportedPresetName + " " + timeString)];
      }
      presets := presets + [Obj(preset)];
      active := |presets| - 1;
    }
  }
}
