// The character store of vite-project/src/stores/characterStore.js: a list
// of characters with an active id. Deleting a character and importing a
// character card also call into the worldbook store. Those calls do not match
// the worldbook store's own interface, so they are recorded in a call log and
// their effect is left to the collaborator.
//
// Ids (`crypto.randomUUID`) and JSON.parse are inputs. Alerts and console
// output are not modelled.

module CharacterStore {
  import opened Js
  import opened Strings
  import Seqs

  /** A character: its id and its other properties as a JSON object. */
  datatype Character = Character(id: string, fields: map<string, Json>)

  /** A call the store makes on the worldbook store. */
  datatype WorldbookCall =
    | DeleteEntriesForCharacter(characterId: string)
    | ImportWorldbook(entries: Json, characterId: string)

  const DefaultCharacterName: string := "默认助手"
  const DefaultCharacterGreeting: string := "你好，我是你的默认助手！"
  const ImportedCharacterName: string := "导入的角色"
  const CardSpecVersion: string := "chara_card_v2"

  /** The text properties copied from a card; all but the name default to "". */
  const CardTextFields: seq<string> := ["description", "personality", "scenario", "first_mes", "mes_example"]

  /** The `findIndex` test `(c) => c.id === id`. */
  function HasId(id: string): Character -> bool
  {
    (c: Character) => c.id == id
  }

  /** The `filter(Boolean)` test on the lines of the world info. */
  predicate NonEmptyLine(line: string)
  {
    line != ""
  }

  /** The text handed to JSON.parse: the non-empty lines joined by commas, in brackets. */
  function WorldInfoArrayText(worldInfo: string): (r: string)
    ensures |r| >= 2 && r[0] == '[' && r[|r| - 1] == ']'
  {
    "[" + Join(Seqs.Filter(Split(worldInfo, "\n"), NonEmptyLine), ",") + "]"
  }

  /**
   * Every non-empty line, whitespace-only ones included, is kept, in order and
   * as often as it occurs, and only empty lines are dropped.
   */
  lemma {:induction false} WorldInfoLines(worldInfo: string)
    ensures var lines := Split(worldInfo, "\n");
            var kept := Seqs.Filter(lines, NonEmptyLine);
            && WorldInfoArrayText(worldInfo) == "[" + Join(kept, ",") + "]"
            && Seqs.IsSubsequence(kept, lines)
            && (forall k :: 0 <= k < |lines| && lines[k] != "" ==> lines[k] in kept)
            && (forall k :: 0 <= k < |kept| ==> kept[k] != "" && kept[k] in lines)
            && (forall l :: multiset(kept)[l] == if l != "" then multiset(lines)[l] else 0)
  {
    var lines := Split(worldInfo, "\n");
    Seqs.FilterIsSubsequence(lines, NonEmptyLine);
    Seqs.FilterMembers(lines, NonEmptyLine);
    Seqs.FilterCount(lines, NonEmptyLine);
  }

  /** Without empty lines, the transform turns every newline into a comma. */
  lemma WorldInfoWithoutEmptyLines(worldInfo: string)
    requires forall k :: 0 <= k < |Split(worldInfo, "\n")| ==> Split(worldInfo, "\n")[k] != ""
    ensures WorldInfoArrayText(worldInfo) == "[" + ReplaceChar(worldInfo, '\n', ',') + "]"
  {
    Seqs.FilterAllKept(Split(worldInfo, "\n"), NonEmptyLine);
    SplitJoinReplaces(worldInfo, '\n', ',');
  }

  /** What importing a card adds, or that it throws before changing anything. */
  datatype CardImport = ImportFailed | Imported(character: Character, worldInfo: Val)

  /** `data.spec === "chara_card_v2"`: the card nests its fields under `data`. */
  predicate IsV2Card(data: Json)
  {
    data.Obj? && "spec" in data.fields && data.fields["spec"] == Str(CardSpecVersion)
  }

  /** The card object: `data.data` when `data.spec === "chara_card_v2"`, else `data`; None when reading it throws. */
  function CardSpec(data: Json): (r: Option<Val>)
    ensures r.None? <==> data == Null || (IsV2Card(data) && !HasNonNull(data, "data"))
    ensures r.Some? && IsV2Card(data) ==> r.value == Defined(data.fields["data"])
    ensures r.Some? && !IsV2Card(data) ==> r.value == Defined(data)
  {
    if data == Null then None
    else
      var spec := if GetProp(Defined(data), "spec").value == Defined(Str(CardSpecVersion))
                  then GetProp(Defined(data), "data").value
                  else Defined(data);
      if Nullish(spec) then None else Some(spec)
  }

  /** The new character's properties: the name defaults to "导入的角色", the text fields to "". */
  function CardFields(spec: Json): (m: map<string, Json>)
    requires spec != Null
    ensures m.Keys == {"name"} + set k | k in CardTextFields
    ensures HasTruthy(spec, "name") ==> m["name"] == spec.fields["name"]
    ensures !HasTruthy(spec, "name") ==> m["name"] == Str(ImportedCharacterName)
    ensures forall k :: k in CardTextFields && HasTruthy(spec, k) ==> m[k] == spec.fields[k]
    ensures forall k :: k in CardTextFields && !HasTruthy(spec, k) ==> m[k] == Str("")
  {
    map k | k in ["name"] + CardTextFields ::
      if k == "name" then PropOr(spec, k, Str(ImportedCharacterName)) else PropOr(spec, k, Str(""))
  }

  /**
   * `importCharacterCard`: the character made from the card and its world
   * info `spec.world_info || spec.wi || ""`, or a failure when parsing or
   * reading the card throws.
   */
  function ImportCard(parsed: Option<Json>, newId: string): (r: CardImport)
    ensures r.ImportFailed? <==> parsed.None? || CardSpec(parsed.value).None?
    ensures r.Imported? ==> r.character == Character(newId, CardFields(CardSpec(parsed.value).value.json))
    ensures r.Imported? && HasTruthy(CardSpec(parsed.value).value.json, "world_info") ==>
              r.worldInfo == Defined(CardSpec(parsed.value).value.json.fields["world_info"])
    ensures r.Imported? && !HasTruthy(CardSpec(parsed.value).value.json, "world_info")
              && HasTruthy(CardSpec(parsed.value).value.json, "wi") ==>
              r.worldInfo == Defined(CardSpec(parsed.value).value.json.fields["wi"])
    ensures r.Imported? && !HasTruthy(CardSpec(parsed.value).value.json, "world_info")
              && !HasTruthy(CardSpec(parsed.value).value.json, "wi") ==>
              r.worldInfo == Defined(Str(""))
  {
    if parsed.None? then ImportFailed
    else
      var spec := CardSpec(parsed.value);
      if spec.None? then ImportFailed
      else
        var worldInfo := Or(Or(GetProp(spec.value, "world_info").value, GetProp(spec.value, "wi").value), Defined(Str("")));
        Imported(Character(newId, CardFields(spec.value.json)), worldInfo)
  }

  /**
   * The entries handed to the worldbook store for a card's world info, or
   * None when no call is made: the world info is falsy, is not a string (its
   * `split` throws) or the transformed text does not parse. Both failures
   * are caught inside the import.
   */
  function WorldbookEntries(worldInfo: Val, parse: string -> Option<Json>): (r: Option<Json>)
    ensures r.Some? <==> worldInfo.Defined? && worldInfo.json.Str? && worldInfo.json.s != ""
                         && parse(WorldInfoArrayText(worldInfo.json.s)).Some?
    ensures r.Some? ==> Some(r.value) == parse(WorldInfoArrayText(worldInfo.json.s))
  {
    if !Truthy(worldInfo) || !worldInfo.json.Str? then None
    else parse(WorldInfoArrayText(worldInfo.json.s))
  }

  class CharacterStore {
    var characters: seq<Character>
    var activeId: Option<string>
    var worldbookCalls: seq<WorldbookCall>

    /** At least one character, and a non-null active id names one of them. */
    ghost predicate Valid()
      reads this
    {
      |characters| >= 1 && (activeId.Some? ==> Seqs.FindIndex(characters, HasId(activeId.value)) >= 0)
    }

    constructor(initialId: string)
      ensures Valid()
      ensures characters == [Character(initialId, map["name" := Str(DefaultCharacterName),
                                                       "first_mes" := Str(DefaultCharacterGreeting)])]
      ensures activeId == Some(initialId) && worldbookCalls == []
    {
      characters := [Character(initialId, map["name" := Str(DefaultCharacterName),
                                              "first_mes" := Str(DefaultCharacterGreeting)])];
      activeId := Some(initialId);
      worldbookCalls := [];
    }

    /** `activeCharacter`: the first character carrying the active id, if any. */
    function ActiveCharacter(): (r: Option<Character>)
      reads this
      ensures r.Some? ==> r.value in characters && activeId == Some(r.value.id)
      ensures r.None? ==> activeId.None? || forall k :: 0 <= k < |characters| ==> characters[k].id != activeId.value
      ensures Valid() && activeId.Some? ==> r.Some?
    {
      if activeId.None? then None
      else
        var i := Seqs.FindIndex(characters, HasId(activeId.value));
        if i == -1 then None else Some(characters[i])
    }

    /** `addNewCharacter`: the default template is empty, so the new character carries only its id. */
    method AddNewCharacter(newId: string)
      requires Valid()
      modifies this
      ensures Valid()
      ensures characters == [Character(newId, map[])] + old(characters)
      ensures activeId == Some(newId) && worldbookCalls == old(worldbookCalls)
    {
      characters := [Character(newId, map[])] + characters;
      activeId := Some(newId);
    }

    /**
     * `deleteCharacter`: refused while only one character is left and a no-op
     * for an unknown id; otherwise the worldbook cascade is called for the id,
     * the character goes, and an active id that named it moves to the first
     * remaining character.
     */
    method DeleteCharacter(characterId: string)
      requires Valid()
      modifies this
      ensures Valid()
      ensures |old(characters)| <= 1 || Seqs.FindIndex(old(characters), HasId(characterId)) == -1 ==>
                characters == old(characters) && activeId == old(activeId) && worldbookCalls == old(worldbookCalls)
      ensures |old(characters)| > 1 && Seqs.FindIndex(old(characters), HasId(characterId)) >= 0 ==>
                && worldbookCalls == old(worldbookCalls) + [DeleteEntriesForCharacter(characterId)]
                && characters == Seqs.RemoveAt(old(characters), Seqs.FindIndex(old(characters), HasId(characterId)))
                && activeId == if old(activeId) == Some(characterId) then IdOrNull(characters[0].id) else old(activeId)
    {
      if |characters| <= 1 {
        return;
      }
      var index := Seqs.FindIndex(characters, HasId(characterId));
      if index == -1 {
        return;
      }
      worldbookCalls := worldbookCalls + [DeleteEntriesForCharacter(characterId)];
      if activeId.Some? && activeId != Some(characterId) {
        Seqs.RemoveKeepsMatch(characters, index, HasId(activeId.value));
      }
      characters := Seqs.RemoveAt(characters, index);
      if activeId == Some(characterId) {
        activeId := IdOrNull(characters[0].id);
        assert activeId.Some? ==> Seqs.FindIndex(characters, HasId(activeId.value)) == 0;
      }
    }

    /**
     * `importCharacterCard(jsonData)`, with JSON.parse as `parse`: the new
     * character goes to the front and becomes active, then its world info,
     * if any parses, is handed to the worldbook store.
     */
    method ImportCharacterCard(jsonData: string, parse: string -> Option<Json>, newId: string)
      requires Valid()
      modifies this
      ensures Valid()
      ensures ImportCard(parse(jsonData), newId).ImportFailed? ==>
                characters == old(characters) && activeId == old(activeId) && worldbookCalls == old(worldbookCalls)
      ensures ImportCard(parse(jsonData), newId).Imported? ==>
                && characters == [ImportCard(parse(jsonData), newId).character] + old(characters)
                && activeId == Some(newId)
                && worldbookCalls == old(worldbookCalls) +
                     match WorldbookEntries(ImportCard(parse(jsonData), newId).worldInfo, parse)
                     case None => []
                     case Some(entries) => [ImportWorldbook(entries, newId)]
    {
      var outcome := ImportCard(parse(jsonData), newId);
      if outcome.ImportFailed? {
        return;
      }
      characters := [outcome.character] + characters;
      activeId := Some(newId);
      if Truthy(outcome.worldInfo) && outcome.worldInfo.json.Str? {
        var parsed := parse(WorldInfoArrayText(outcome.worldInfo.json.s));
        if parsed.Some? {
          worldbookCalls := worldbookCalls + [ImportWorldbook(parsed.value, newId)];
        }
      }
    }
  }
}
