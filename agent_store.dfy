// The agent store of vite-project/src/stores/agentStore.js: a list of agents
// with an active id, and lorebook entries that are global or bound to one
// agent. Deleting an agent cascades to its entries; importing a character
// card adds an agent and its embedded `character_book` entries.
//
// Ids (`crypto.randomUUID`), lorebook uids (`Date.now() + Math.random()`) and
// JSON.parse are inputs. Pinia persistence and the alerts are not modelled.

module AgentStore {
  import opened Js
  import Seqs

  datatype Agent = Agent(id: string, name: Json, firstMes: Json)

  /** A lorebook entry; `characterId == None` is `null`, meaning global. */
  datatype LorebookEntry = LorebookEntry(
    uid: Json, characterId: Option<string>, keys: Json, comment: Json, content: Json, enabled: Json)

  const DefaultAgentName: string := "默认助手"
  const DefaultAgentGreeting: string := "你好，我是你的默认助手！"
  const NewAgentName: string := "新角色"
  const ImportedAgentName: string := "导入的角色"
  const NewEntryComment: string := "新的注释"
  const NewEntryContent: string := "关于关键词的描述..."

  /** `!e.characterId`: null and the empty string count as global. */
  predicate IsGlobal(e: LorebookEntry)
  {
    e.characterId.None? || e.characterId.value == ""
  }

  /** The filter predicate `e.characterId === agentId`. */
  function BoundTo(agentId: Option<string>): LorebookEntry -> bool
  {
    (e: LorebookEntry) => e.characterId == agentId
  }

  /** The filter predicate `e.characterId !== agentId` of the delete cascade. */
  function NotBoundTo(agentId: string): LorebookEntry -> bool
  {
    (e: LorebookEntry) => e.characterId != Some(agentId)
  }

  /** The `findIndex` test `(c) => c.id === id`. */
  function HasId(id: string): Agent -> bool
  {
    (a: Agent) => a.id == id
  }

  /** The `findIndex` test `(e) => e.uid === uid`, comparing uids as values. */
  function HasUid(uid: Json): LorebookEntry -> bool
  {
    (e: LorebookEntry) => e.uid == uid
  }

  /**
   * The deletion cascade removes exactly the entries bound to the agent: what
   * is kept and what `getLorebookEntriesForAgent` lists together make up the
   * old entries, none of the kept ones is bound to the agent, and the kept
   * ones stay in their order.
   */
  lemma CascadeRemovesExactlyAgentEntries(entries: seq<LorebookEntry>, agentId: string)
    ensures multiset(Seqs.Filter(entries, NotBoundTo(agentId))) + multiset(Seqs.Filter(entries, BoundTo(Some(agentId))))
            == multiset(entries)
    ensures Seqs.Filter(Seqs.Filter(entries, NotBoundTo(agentId)), BoundTo(Some(agentId))) == []
    ensures Seqs.IsSubsequence(Seqs.Filter(entries, NotBoundTo(agentId)), entries)
  {
    Seqs.FilterPartition(entries, NotBoundTo(agentId), BoundTo(Some(agentId)));
    Seqs.FilterIsSubsequence(entries, NotBoundTo(agentId));
  }

  /** What importing a character card adds, or that it throws before changing anything. */
  datatype CardImport = ImportFailed | Imported(agent: Agent, entries: seq<LorebookEntry>)

  /** The lorebook entry made from the card's entry number `k`; `??` keeps present falsy values. */
  function ImportedEntry(entry: Json, k: nat, agentId: string, freshUid: nat -> Json): (e: LorebookEntry)
    requires entry != Null
    ensures e.characterId == Some(agentId)
    ensures HasNonNull(entry, "id") ==> e.uid == entry.fields["id"]
    ensures !HasNonNull(entry, "id") ==> e.uid == freshUid(k)
    ensures HasNonNull(entry, "keys") ==> e.keys == entry.fields["keys"]
    ensures !HasNonNull(entry, "keys") ==> e.keys == Arr([])
    ensures HasNonNull(entry, "comment") ==> e.comment == entry.fields["comment"]
    ensures !HasNonNull(entry, "comment") ==> e.comment == Str("")
    ensures HasNonNull(entry, "content") ==> e.content == entry.fields["content"]
    ensures !HasNonNull(entry, "content") ==> e.content == Str("")
    ensures HasNonNull(entry, "enabled") ==> e.enabled == entry.fields["enabled"]
    ensures !HasNonNull(entry, "enabled") ==> e.enabled == Bool(true)
  {
    var v := Defined(entry);
    LorebookEntry(
      Coalesce(GetProp(v, "id").value, freshUid(k)),
      Some(agentId),
      Coalesce(GetProp(v, "keys").value, Arr([])),
      Coalesce(GetProp(v, "comment").value, Str("")),
      Coalesce(GetProp(v, "content").value, Str("")),
      Coalesce(GetProp(v, "enabled").value, Bool(true)))
  }

  /** The card `data.data || data`, read off the parsed object's fields. */
  function CardOf(data: Json): Json
  {
    if HasTruthy(data, "data") then data.fields["data"] else data
  }

  /**
   * `importCharacterCard`: `data.data || data` is the card, the name defaults
   * to "导入的角色" and the greeting to "". When `character_book.entries` is an
   * array, one entry per element, in order, bound to the new agent. A null
   * element makes the mapping throw after the agent was already added, so the
   * agent stays and no entry is added.
   */
  function ImportCard(parsed: Option<Json>, newId: string, freshUid: nat -> Json): (r: CardImport)
    ensures r.ImportFailed? <==> parsed.None? || parsed.value == Null
    ensures r.Imported? ==> r.agent.id == newId
    ensures r.Imported? && HasTruthy(CardOf(parsed.value), "name") ==> r.agent.name == CardOf(parsed.value).fields["name"]
    ensures r.Imported? && !HasTruthy(CardOf(parsed.value), "name") ==> r.agent.name == Str(ImportedAgentName)
    ensures r.Imported? && HasTruthy(CardOf(parsed.value), "first_mes") ==> r.agent.firstMes == CardOf(parsed.value).fields["first_mes"]
    ensures r.Imported? && !HasTruthy(CardOf(parsed.value), "first_mes") ==> r.agent.firstMes == Str("")
    ensures r.Imported? ==> forall k :: 0 <= k < |r.entries| ==> r.entries[k].characterId == Some(newId)
  {
    match parsed
    case None => ImportFailed
    case Some(data) =>
      if data == Null then ImportFailed
      else
        var card := Or(GetProp(Defined(data), "data").value, Defined(data));
        assert card == Defined(CardOf(data));
        var agent := Agent(newId, OrDefault(GetProp(card, "name").value, Str(ImportedAgentName)),
                           OrDefault(GetProp(card, "first_mes").value, Str("")));
        var book := GetProp(card, "character_book").value;
        if !Truthy(book) then Imported(agent, [])
        else
          var bookEntries := GetProp(book, "entries").value;
          if !IsArray(bookEntries) then Imported(agent, [])
          else
            var items := bookEntries.json.items;
            if Null in items then Imported(agent, [])
            else Imported(agent, seq(|items|, k requires 0 <= k < |items| => ImportedEntry(items[k], k, newId, freshUid)))
  }

  /** The card's `character_book.entries`, when the card holds a book object whose `entries` is an array. */
  function BookEntries(card: Json): Option<seq<Json>>
  {
    if card.Obj? && "character_book" in card.fields && card.fields["character_book"].Obj?
       && "entries" in card.fields["character_book"].fields
       && card.fields["character_book"].fields["entries"].Arr?
    then Some(card.fields["character_book"].fields["entries"].items)
    else None
  }

  /**
   * For any card layout, nested under `data` or at the top level: every
   * element of the book's entries array becomes one entry, in order, unless
   * one of them is null; without such an array no entry is imported.
   */
  lemma ImportedEntriesFollowCard(data: Json, newId: string, freshUid: nat -> Json)
    requires data != Null
    ensures var r := ImportCard(Some(data), newId, freshUid);
            var items := BookEntries(CardOf(data));
            && r.Imported?
            && (items.None? ==> r.entries == [])
            && (items.Some? && Null in items.value ==> r.entries == [])
            && (items.Some? && Null !in items.value ==>
                  |r.entries| == |items.value|
                  && forall k :: 0 <= k < |r.entries| ==> r.entries[k] == ImportedEntry(items.value[k], k, newId, freshUid))
  {
    var card := CardOf(data);
    assert Or(GetProp(Defined(data), "data").value, Defined(data)) == Defined(card);
    if card.Obj? && "character_book" in card.fields {
      var book := card.fields["character_book"];
      assert GetProp(Defined(card), "character_book").value == Defined(book);
      if book.Obj? && "entries" in book.fields {
        assert GetProp(Defined(book), "entries").value == Defined(book.fields["entries"]);
      }
    }
  }

  class AgentStore {
    var agents: seq<Agent>
    var activeId: Option<string>
    var lorebook: seq<LorebookEntry>

    /** At least one agent, and a non-null active id names one of them. */
    ghost predicate Valid()
      reads this
    {
      |agents| >= 1 && (activeId.Some? ==> Seqs.FindIndex(agents, HasId(activeId.value)) >= 0)
    }

    constructor(initialId: string)
      ensures Valid()
      ensures agents == [Agent(initialId, Str(DefaultAgentName), Str(DefaultAgentGreeting))]
      ensures activeId == Some(initialId) && lorebook == []
    {
      agents := [Agent(initialId, Str(DefaultAgentName), Str(DefaultAgentGreeting))];
      activeId := Some(initialId);
      lorebook := [];
    }

    /** `activeAgent`: the first agent carrying the active id, if any. */
    function ActiveAgent(): (r: Option<Agent>)
      reads this
      ensures r.Some? ==> r.value in agents && activeId == Some(r.value.id)
      ensures r.None? ==> activeId.None? || forall k :: 0 <= k < |agents| ==> agents[k].id != activeId.value
      ensures Valid() && activeId.Some? ==> r.Some?
    {
      if activeId.None? then None
      else
        var i := Seqs.FindIndex(agents, HasId(activeId.value));
        if i == -1 then None else Some(agents[i])
    }

    /** `globalLorebookEntries`: the entries with a falsy characterId, each as often as it occurs, in order. */
    function GlobalLorebookEntries(): (r: seq<LorebookEntry>)
      reads this
      ensures forall k :: 0 <= k < |r| ==> IsGlobal(r[k]) && r[k] in lorebook
      ensures forall k :: 0 <= k < |lorebook| && IsGlobal(lorebook[k]) ==> lorebook[k] in r
      ensures Seqs.IsSubsequence(r, lorebook)
      ensures forall e :: multiset(r)[e] == if IsGlobal(e) then multiset(lorebook)[e] else 0
    {
      Seqs.FilterCount(lorebook, IsGlobal);
      Seqs.FilterIsSubsequence(lorebook, IsGlobal);
      Seqs.FilterMembers(lorebook, IsGlobal);
      Seqs.Filter(lorebook, IsGlobal)
    }

    /** `getLorebookEntriesForAgent(agentId)`: the entries bound to exactly that id, each as often as it occurs, in order. */
    function LorebookEntriesForAgent(agentId: Option<string>): (r: seq<LorebookEntry>)
      reads this
      ensures forall k :: 0 <= k < |r| ==> r[k].characterId == agentId && r[k] in lorebook
      ensures forall k :: 0 <= k < |lorebook| && lorebook[k].characterId == agentId ==> lorebook[k] in r
      ensures Seqs.IsSubsequence(r, lorebook)
      ensures forall e :: multiset(r)[e] == if e.characterId == agentId then multiset(lorebook)[e] else 0
    {
      Seqs.FilterCount(lorebook, BoundTo(agentId));
      Seqs.FilterIsSubsequence(lorebook, BoundTo(agentId));
      Seqs.FilterMembers(lorebook, BoundTo(agentId));
      Seqs.Filter(lorebook, BoundTo(agentId))
    }

    /** `addNewAgent`: a new agent at the front becomes active. */
    method AddNewAgent(newId: string)
      requires Valid()
      modifies this
      ensures Valid()
      ensures agents == [Agent(newId, Str(NewAgentName), Str(""))] + old(agents)
      ensures activeId == Some(newId) && lorebook == old(lorebook)
    {
      agents := [Agent(newId, Str(NewAgentName), Str(""))] + agents;
      activeId := Some(newId);
    }

    /**
     * `deleteAgent`: refused while only one agent is left and a no-op for an
     * unknown id; otherwise the agent's entries and the agent go, and an
     * active id that named it moves to the first remaining agent.
     */
    method DeleteAgent(agentId: string)
      requires Valid()
      modifies this
      ensures Valid()
      ensures |old(agents)| <= 1 || Seqs.FindIndex(old(agents), HasId(agentId)) == -1 ==>
                agents == old(agents) && activeId == old(activeId) && lorebook == old(lorebook)
      ensures |old(agents)| > 1 && Seqs.FindIndex(old(agents), HasId(agentId)) >= 0 ==>
                && agents == Seqs.RemoveAt(old(agents), Seqs.FindIndex(old(agents), HasId(agentId)))
                && lorebook == Seqs.Filter(old(lorebook), NotBoundTo(agentId))
                && activeId == if old(activeId) == Some(agentId) then IdOrNull(agents[0].id) else old(activeId)
    {
      if |agents| <= 1 {
        return;
      }
      var index := Seqs.FindIndex(agents, HasId(agentId));
      if index == -1 {
        return;
      }
      if activeId.Some? && activeId != Some(agentId) {
        Seqs.RemoveKeepsMatch(agents, index, HasId(activeId.value));
      }
      lorebook := Seqs.Filter(lorebook, NotBoundTo(agentId));
      agents := Seqs.RemoveAt(agents, index);
      if activeId == Some(agentId) {
        activeId := IdOrNull(agents[0].id);
        assert activeId.Some? ==> Seqs.FindIndex(agents, HasId(activeId.value)) == 0;
      }
    }

    /** `importCharacterCard(jsonData)`, with JSON.parse as `parse`. */
    method ImportCharacterCard(jsonData: string, parse: string -> Option<Json>, newId: string, freshUid: nat -> Json)
      requires Valid()
      modifies this
      ensures Valid()
      ensures ImportCard(parse(jsonData), newId, freshUid).ImportFailed? ==>
                agents == old(agents) && activeId == old(activeId) && lorebook == old(lorebook)
      ensures ImportCard(parse(jsonData), newId, freshUid).Imported? ==>
                && agents == [ImportCard(parse(jsonData), newId, freshUid).agent] + old(agents)
                && activeId == Some(newId)
                && lorebook == old(lorebook) + ImportCard(parse(jsonData), newId, freshUid).entries
    {
      var outcome := ImportCard(parse(jsonData), newId, freshUid);
      if outcome.Imported? {
        agents := [outcome.agent] + agents;
        activeId := Some(newId);
        lorebook := lorebook + outcome.entries;
      }
    }

    /** `addLorebookEntry(agentId = null)`: appends one enabled entry bound to `agentId`. */
    method AddLorebookEntry(uid: Json, agentId: Option<string>)
      requires Valid()
      modifies this
      ensures Valid()
      ensures lorebook == old(lorebook) + [LorebookEntry(uid, agentId, Arr([]), Str(NewEntryComment), Str(NewEntryContent), Bool(true))]
      ensures agents == old(agents) && activeId == old(activeId)
    {
      lorebook := lorebook + [LorebookEntry(uid, agentId, Arr([]), Str(NewEntryComment), Str(NewEntryContent), Bool(true))];
    }

    /** `deleteLorebookEntry(uid)`: removes the first entry with that uid, if any. */
    method DeleteLorebookEntry(uid: Json)
      requires Valid()
      modifies this
      ensures Valid()
      ensures Seqs.FindIndex(old(lorebook), HasUid(uid)) == -1 ==> lorebook == old(lorebook)
      ensures Seqs.FindIndex(old(lorebook), HasUid(uid)) >= 0 ==> lorebook == Seqs.RemoveAt(old(lorebook), Seqs.FindIndex(old(lorebook), HasUid(uid)))
      ensures agents == old(agents) && activeId == old(activeId)
    {
      var index := Seqs.FindIndex(lorebook, HasUid(uid));
      if index > -1 {
        lorebook := Seqs.RemoveAt(lorebook, index);
      }
    }

    /** `updateLorebookEntriesOrder(newOrder)`: the entry list is replaced wholesale. */
    method UpdateLorebookEntriesOrder(newOrder: seq<LorebookEntry>)
      requires Valid()
      modifies this
      ensures Valid()
      ensures lorebook == newOrder && agents == old(agents) && activeId == old(activeId)
    {
      lorebook := newOrder;
    }
  }
}
