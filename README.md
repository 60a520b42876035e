# Gchat front end and proxy, modelled in Dafny

Gchat is a browser chat client for large-language-model providers, with a
small Express back end that forwards requests. This project models its
sequential core and proves properties of that model. The core has three
parts:

- **The streaming chat reader.** `fetchChatStream` and `stopGenerating`
  live in `vite-project/src/api/chat.js` (module `Chat`). Each decoded chunk
  of a server-sent-events stream is split on its own on `"\n\n"`. Blank
  pieces are dropped. Each `data: ` payload is either `[DONE]`, which ends
  the stream, or a JSON payload whose first choice's `delta.content` goes to
  `onStream`. Every invocation ends in exactly one terminal callback.
  Stopping the stream aborts the controller held in the module-level
  `abortController` slot.
- **The Pinia stores.** These are agents with their lorebook entries
  (`AgentStore`), characters (`CharacterStore`), presets (`PresetsStore`),
  worldbook entries (`WorldbookStore`) and chat history (`ChatStore`). Each
  store is a class whose `seq` fields its methods update in place. Each
  method has two-state postconditions, and a `Valid()` invariant where the
  store keeps one: at least one item, and the active id or index naming an
  existing item.
- **The request builders.**
  - The `/api/proxy` handler of `vite-project/backend/server.js`
    (`ProxyServer`) validates its parameters, builds the outbound request
    and chooses the reply's status and body.
  - The per-provider builders (`Gemini`, `OpenAI`, `Custom`, `Deepseek`) and
    the proxy envelope (`ApiService`) are functions that return an axios
    request record (`Http.Request`) or a rejection.

Modules `Js`, `Strings` and `Seqs` hold the JavaScript semantics the core
relies on:
- truthiness, `||`, `??` and optional chaining over a JSON datatype;
- `split`, `join`, `startsWith`, `trim` and ASCII `toLowerCase`;
- `filter`, `findIndex` and `splice`.

The network, `TextDecoder`, `JSON.parse`, id generation and the clock are
inputs:
- a fetch outcome with the already-decoded chunks;
- a partial `parse: string -> Option<Json>`;
- fresh ids and uids as parameters;
- a time string as a parameter.

Two behaviours of the code are modelled as written:
- **Agent card import.** An agent card whose `character_book.entries` holds
  a `null` makes the entry mapping throw after the new agent was already
  added. The import then leaves the agent in the store without any lorebook
  entries (`AgentStore.ImportCard`).
- **Proxy request body.** The proxy handler attaches the request body only
  for `post` in any letter case. A comment next to that code mentions put
  and patch too. The model follows the code (`ProxyServer.OnlyPostCarriesData`).

One behaviour is modelled as evidently intended rather than as written.
`characterStore.deleteCharacter` calls `worldbookStore.deleteEntriesForCharacter`,
which the worldbook store does not define, so a real call throws before the
character is removed. The model records the call in a call log
(`worldbookCalls`) and removes the character; "## Left out" says so under
`DeleteCharacter`. Both cross-store calls of the character store are
recorded in that log, and their effect is not invented.

## Model

| member | source | states |
|---|---|---|
| Chat.PiecesOfChunk | vite-project/src/api/chat.js:66-68 | the pieces of a chunk are exactly its non-blank `"\n\n"` segments, each as often as it occurs and in order, and hold no separator; nothing is carried over between chunks |
| Chat.DeltaContent | vite-project/src/api/chat.js:77-78 | `parsed.choices[0]?.delta?.content \|\| ""` throws exactly when `parsed` is not an object with non-null `choices`; otherwise the result is truthy or `""` |
| Chat.DeltaContentOfChoice | vite-project/src/api/chat.js:78 | a well-formed chunk delivers its first choice's delta content |
| Chat.DeltaContentDefaultsToEmpty | vite-project/src/api/chat.js:78 | a missing or falsy delta content is delivered as `""` |
| Chat.Classify | vite-project/src/api/chat.js:69-82 | a piece without the exact `data: ` prefix is ignored; the payload after the prefix equal to `[DONE]` ends the stream; a delta comes only from a payload that parses and has `choices` |
| Chat.ProcessChunk | vite-project/src/api/chat.js:66-84 | the `for` loop over one chunk makes exactly the callbacks of the chunk's reference trace and reports whether `[DONE]` returned |
| Chat.ChunkTraceShape | vite-project/src/api/chat.js:72-75 | a chunk that met `[DONE]` ends with one onFinish and no other terminal callback; otherwise it makes no terminal callback |
| Chat.Caught | vite-project/src/api/chat.js:86-94 | the catch block makes exactly one terminal callback: onFinish exactly for an AbortError, otherwise onError with the error's message |
| Chat.RejectedFetchTrace | vite-project/src/api/chat.js:36-94 | a rejected fetch gives onFinish alone for an AbortError, and onError with the message alone otherwise |
| Chat.ReadTraceShape | vite-project/src/api/chat.js:60-75 | the reads from any point on end in exactly one terminal callback, placed last |
| Chat.TraceShape | vite-project/src/api/chat.js:35-97 | every invocation, whether the fetch is rejected, the response is not ok, the stream completes, hits `[DONE]` or is stopped, ends in exactly one terminal callback |
| Chat.HttpErrorReported | vite-project/src/api/chat.js:50-55 | a non-ok response gives exactly one onError, whose message contains the status, and no onStream |
| Chat.StoppedReadFinishes | vite-project/src/api/chat.js:86-90 | when the read that a stop interrupts is reached, the reads end with onFinish and never call onError |
| Chat.StopFinishesWithoutError | vite-project/src/api/chat.js:86-94 | stopping an ok stream while a read is pending ends the invocation with onFinish, never onError |
| Chat.ChunkDeltas | vite-project/src/api/chat.js:69-79 | within one chunk the onStream contents are the contents of the parseable `data: ` payloads before the first `[DONE]` |
| Chat.ChunkFinishes | vite-project/src/api/chat.js:69-75 | a chunk finishes the stream if and only if one of its `data: ` payloads is `[DONE]` |
| Chat.ReadDeltas | vite-project/src/api/chat.js:60-85 | from any read up to the stop point, the onStream contents are the parseable payloads of all those chunks, in piece order across chunks, cut at the first `[DONE]` |
| Chat.StreamDeltas | vite-project/src/api/chat.js:36-94 | the deltas of an invocation are those of the payloads read before the stop, up to the first `[DONE]`; a rejected fetch or a non-ok response delivers none |
| Chat.UpToDoneAppend | vite-project/src/api/chat.js:72-75 | cutting at the first `[DONE]` distributes over concatenation: a `[DONE]` in the first part discards everything after it |
| Chat.AbortController.Abort | vite-project/src/api/chat.js:102 | `abort()` sets the controller's aborted flag |
| Chat.ChatApi.constructor | vite-project/src/api/chat.js:3 | the slot starts empty |
| Chat.ChatApi.StopGenerating | vite-project/src/api/chat.js:100-104 | aborts the controller in the slot; a no-op on an empty slot; the slot itself is unchanged |
| Chat.ChatApi.FetchChatStream | vite-project/src/api/chat.js:33-97 | makes exactly the callbacks of the reference trace, which end in exactly one terminal callback, and leaves the slot empty |
| Chat.ChatApi.ReadStream | vite-project/src/api/chat.js:60-85 | the `while (true)` read loop, with a stop served while a read is pending, makes exactly the reference trace of the reads |
| AgentStore.CascadeRemovesExactlyAgentEntries | vite-project/src/stores/agentStore.js:68-70 | the cascade keeps, in order, exactly the entries not bound to the agent: kept and removed entries together are the old entries as a multiset, and no bound entry is kept |
| AgentStore.ImportedEntry | vite-project/src/stores/agentStore.js:100-108 | an imported entry is bound to the new agent; each of `id`, `keys`, `comment`, `content` and `enabled` is kept when present and not null (even when falsy), and otherwise becomes a fresh uid, `[]`, `""`, `""` and `true` |
| AgentStore.ImportCard | vite-project/src/stores/agentStore.js:79-122 | the import fails exactly when the text does not parse or parses to null; otherwise the card is `data.data` when truthy, else `data`, and the new agent has the new id, the card's truthy name or "导入的角色", the card's truthy `first_mes` or "", and only entries bound to it |
| AgentStore.ImportedEntriesFollowCard | vite-project/src/stores/agentStore.js:83-115 | for a card nested under `data` or at the top level, a `character_book.entries` array gives one entry per element, in order, made by ImportedEntry; a null element, or no such array, leaves the new agent without entries |
| AgentStore.AgentStore.constructor | vite-project/src/stores/agentStore.js:24-35 | one default agent, which is active, and no lorebook entries |
| AgentStore.AgentStore.ActiveAgent | vite-project/src/stores/agentStore.js:38-40 | the agent carrying the active id, present whenever the store is valid and an id is active |
| AgentStore.AgentStore.GlobalLorebookEntries | vite-project/src/stores/agentStore.js:41-43 | exactly the entries with a falsy `characterId`, each as often as it occurs in the lorebook, in order |
| AgentStore.AgentStore.LorebookEntriesForAgent | vite-project/src/stores/agentStore.js:44-46 | exactly the entries bound to the given id, each as often as it occurs in the lorebook, in order |
| AgentStore.AgentStore.AddNewAgent | vite-project/src/stores/agentStore.js:52-59 | one agent named "新角色" with an empty greeting goes to the front and becomes active; the others keep their order |
| AgentStore.AgentStore.DeleteAgent | vite-project/src/stores/agentStore.js:61-76 | nothing changes with one agent left or an unknown id; otherwise exactly that agent and its entries go, and an active id naming it moves to the first remaining agent |
| AgentStore.AgentStore.ImportCharacterCard | vite-project/src/stores/agentStore.js:79-122 | a failed parse changes nothing; otherwise the new agent goes to the front and becomes active, and its entries are appended after the existing ones |
| AgentStore.AgentStore.AddLorebookEntry | vite-project/src/stores/agentStore.js:124-131 | appends one enabled default entry bound to the given id (global when none) |
| AgentStore.AgentStore.DeleteLorebookEntry | vite-project/src/stores/agentStore.js:133-136 | removes only the first entry with that uid; a no-op when there is none |
| AgentStore.AgentStore.UpdateLorebookEntriesOrder | vite-project/src/stores/agentStore.js:138-140 | the lorebook becomes the given order; the agents are untouched |
| CharacterStore.WorldInfoArrayText | vite-project/src/stores/characterStore.js:84-86 | the text handed to JSON.parse is bracketed |
| CharacterStore.WorldInfoLines | vite-project/src/stores/characterStore.js:84-86 | the bracketed text joins, in order, exactly the non-empty lines, each as often as it occurs, whitespace-only lines included |
| CharacterStore.WorldInfoWithoutEmptyLines | vite-project/src/stores/characterStore.js:84-86 | with no empty lines, the transform turns every newline into a comma inside brackets |
| CharacterStore.CardSpec | vite-project/src/stores/characterStore.js:60-61 | the card is `data.data` exactly when `spec === "chara_card_v2"`, else `data` itself; reading it fails exactly when the data is null, or is a v2 card whose `data` is null or missing |
| CharacterStore.CardFields | vite-project/src/stores/characterStore.js:64-73 | the new character has exactly a name and the five text fields; the name is the card's truthy `name`, else "导入的角色"; each text field is the card's truthy value, else "" |
| CharacterStore.ImportCard | vite-project/src/stores/characterStore.js:58-76 | the import fails exactly when parsing or reading the card fails; otherwise the character is the new id with the card's fields, and the world info is a truthy `world_info`, else a truthy `wi`, else "" |
| CharacterStore.WorldbookEntries | vite-project/src/stores/characterStore.js:79-93 | the worldbook is called exactly when the world info is a non-empty string whose transform parses, with the parsed entries |
| CharacterStore.CharacterStore.constructor | vite-project/src/stores/characterStore.js:13-23 | one default character, which is active |
| CharacterStore.CharacterStore.ActiveCharacter | vite-project/src/stores/characterStore.js:25-27 | the character carrying the active id, present whenever the store is valid and an id is active |
| CharacterStore.CharacterStore.AddNewCharacter | vite-project/src/stores/characterStore.js:29-36 | a character carrying only its new id goes to the front and becomes active |
| CharacterStore.CharacterStore.DeleteCharacter | vite-project/src/stores/characterStore.js:39-55 | nothing changes with one character left or an unknown id; otherwise the worldbook cascade is called for the id, exactly that character goes, and an active id naming it moves to the first remaining character |
| CharacterStore.CharacterStore.ImportCharacterCard | vite-project/src/stores/characterStore.js:58-101 | a failed import changes nothing; otherwise the character goes to the front and becomes active, and the worldbook import is called only for world info that parses |
| PresetsStore.PromptWithDefaults | vite-project/src/stores/presetsStore.js:72-80 | an object prompt gets each of the five defaults only where the key is absent, present values (false, 0, null) kept; a null or primitive prompt throws |
| PresetsStore.FillPromptDefaults | vite-project/src/stores/presetsStore.js:72-80 | the `forEach` gives every prompt with its defaults, or fails exactly when one prompt throws |
| PresetsStore.FillMissing | vite-project/src/stores/presetsStore.js:83-87 | the `Object.keys(defaultPreset)` loop adds exactly the missing keys with their default values and leaves present keys untouched |
| PresetsStore.FilledPresetIsMerge | vite-project/src/stores/presetsStore.js:83-87 | filling the default keys gives the defaults overlaid with the imported object |
| PresetsStore.AllPromptsWithDefaults | vite-project/src/stores/presetsStore.js:72-80 | all prompts with their defaults, or none when some prompt throws |
| PresetsStore.ImportedPreset | vite-project/src/stores/presetsStore.js:65-100 | an import succeeds exactly when the text parses to an object with a `prompts` array whose prompts all take their defaults |
| PresetsStore.MergedPresetContents | vite-project/src/stores/presetsStore.js:83-87 | every default key missing from the import is added with its default value; the imported properties and the filled prompts are kept; no other key appears |
| PresetsStore.NamedPresetFallback | vite-project/src/stores/presetsStore.js:89-91 | the name ends up truthy: a truthy name is kept and the preset is unchanged, a falsy one becomes "导入的预设 <time>"; no other property changes |
| PresetsStore.NamedMergeContents | vite-project/src/stores/presetsStore.js:83-91 | the merge keeps every default key, the filled prompts and the other imported properties, with a truthy name |
| PresetsStore.NamedMergeName | vite-project/src/stores/presetsStore.js:83-91 | the merged name is the imported truthy name, the default name when absent, or the time-stamped name when present but falsy |
| PresetsStore.DefaultPresetName | vite-project/src/stores/presetsStore.js:4-35 | the default preset is named "新建预设" |
| PresetsStore.ImportedPresetContents | vite-project/src/stores/presetsStore.js:72-91 | an imported preset has every default key, the filled prompts, a truthy name, and every other imported property unchanged |
| PresetsStore.ImportedPresetNaming | vite-project/src/stores/presetsStore.js:83-91 | the name is kept when truthy, "新建预设" when absent, and "导入的预设 <time>" only when present but falsy |
| PresetsStore.DeleteKeepsActivePreset | vite-project/src/stores/presetsStore.js:59-62 | for an in-range delete the active index stays in range and still names the same preset, or its predecessor (the new first preset) when the active one was deleted |
| PresetsStore.PresetsStore.constructor | vite-project/src/stores/presetsStore.js:40-41 | one default preset, active |
| PresetsStore.PresetsStore.ActivePreset | vite-project/src/stores/presetsStore.js:43-45 | the active preset is one of the presets |
| PresetsStore.PresetsStore.AddNewPreset | vite-project/src/stores/presetsStore.js:47-52 | appends the defaults named "新建预设 <old count + 1>" and makes it active |
| PresetsStore.PresetsStore.DeletePreset | vite-project/src/stores/presetsStore.js:54-63 | nothing changes with one preset left; otherwise `splice(index, 1)` and the active-index repair, the active index staying in range |
| PresetsStore.PresetsStore.ImportPreset | vite-project/src/stores/presetsStore.js:65-100 | a failed import changes nothing; a successful one appends the imported preset and makes it active |
| WorldbookStore.ImportedEntries | vite-project/src/stores/worldbookStore.js:24-36 | an import installs entries exactly when the text parses to an array, and then exactly that array |
| WorldbookStore.DeleteEntryInRange | vite-project/src/stores/worldbookStore.js:20-22 | an in-range delete removes exactly that entry and can empty the list |
| WorldbookStore.WorldbookStore.constructor | vite-project/src/stores/worldbookStore.js:4-14 | the store starts with exactly one default entry |
| WorldbookStore.WorldbookStore.AddEntry | vite-project/src/stores/worldbookStore.js:16-18 | appends one default entry, existing entries unchanged |
| WorldbookStore.WorldbookStore.DeleteEntry | vite-project/src/stores/worldbookStore.js:20-22 | `splice(index, 1)` with no minimum size |
| WorldbookStore.WorldbookStore.ImportWorldbook | vite-project/src/stores/worldbookStore.js:24-36 | an array replaces every entry; anything else leaves the entries unchanged |
| ChatStore.ChatStore.constructor | vite-project/src/stores/chatStore.js:7 | the history starts empty |
| ChatStore.ChatStore.AddMessage | vite-project/src/stores/chatStore.js:10-12 | the message is appended; earlier messages unchanged and in order |
| ChatStore.ChatStore.ClearHistory | vite-project/src/stores/chatStore.js:15-17 | the history becomes empty (so clearing twice is clearing once) |
| ProxyServer.Prepare | vite-project/backend/server.js:12-36 | 400 exactly when a required parameter is falsy; a non-string method throws; otherwise the URL is `baseURL + path`, the headers are the JSON type and the Bearer key, and the body goes along iff the lower-cased method is "post" |
| ProxyServer.Respond | vite-project/backend/server.js:41-47 | success relays the data with 200; an error relays the upstream status unless missing or 0 (then 500) and the upstream data unless falsy (then `{error: message}`) |
| ProxyServer.HandleProxy | vite-project/backend/server.js:11-49 | a missing parameter is rejected with 400; otherwise the prepared request is sent once and its outcome answered |
| ProxyServer.RejectionMakesNoCall | vite-project/backend/server.js:14-18 | a rejected request's outcome does not depend on the upstream: no outbound call is made |
| ProxyServer.ForwardedReplyFromOneCall | vite-project/backend/server.js:39-48 | a forwarded request's reply depends on the upstream only through the one call |
| ProxyServer.UpstreamRelayedUnchanged | vite-project/backend/server.js:41-47 | the success body and an upstream error's status and truthy body are relayed unchanged |
| ProxyServer.PostCarriesDataInAnyCase | vite-project/backend/server.js:34-36 | "post", "POST" and "Post" all carry the body |
| ProxyServer.OnlyPostCarriesData | vite-project/backend/server.js:33-36 | put, patch and get requests, in either case, are forwarded without a body |
| Gemini.GeminiCompletion | vite-project/src/api/services/gemini.js:10-22 | rejects exactly when the key or base URL is falsy; otherwise a POST of `params` verbatim to `/v1beta/models/gemini-pro:generateContent?key=<key>` on the base URL, with only the JSON content type |
| Gemini.GeminiModels | vite-project/src/api/services/gemini.js:30-39 | rejects exactly when the key or base URL is falsy; otherwise a GET without body of `/v1beta/models?key=<key>` |
| Gemini.KeyIsOnlyQueryParameter | vite-project/src/api/services/gemini.js:17 | for a key without `?` or `&`, the URL has exactly one query parameter, `key`, carrying the key |
| Gemini.GeminiKeyInQueryOnly | vite-project/src/api/services/gemini.js:17-19 | both builders carry the key once, as the `key` query parameter, and send no Authorization header |
| OpenAI.OpenAIChatCompletion | vite-project/src/api/services/openai.js:9-32 | rejects exactly when no key or an empty one is stored; otherwise a POST to `/v1/chat/completions` with the Bearer key and JSON headers, whose body is `{model: "gpt-3.5-turbo"}` overlaid with `params` |
| OpenAI.KeyOnlyInAuthorization | vite-project/src/api/services/openai.js:20-31 | two keys give requests differing only in the Authorization header: the key never reaches the URL or body |
| OpenAI.ParamsOverrideModel | vite-project/src/api/services/openai.js:27-30 | a `model` in `params` replaces the default; the body is then `params` as given |
| Custom.CustomGateway | vite-project/src/api/services/custom.js:4-15 | always a POST to `/api/custom` whose envelope carries `url`, `apiKey`, `data` and `method` exactly as given, unvalidated |
| Custom.CustomChatCompletion | vite-project/src/api/services/custom.js:17-24 | the envelope targets `<url>/v1/chat/completions` with inner method "post" and the params as body |
| Custom.CustomModels | vite-project/src/api/services/custom.js:26-28 | the envelope targets `<url>/v1/models` with inner method "get" and a null body |
| Deepseek.DeepseekGateway | vite-project/src/api/services/deepseek.js:4-14 | a POST to `/api/deepseek/<endpoint>` whose envelope is `{apiKey, data, method}` verbatim, with no URL |
| Deepseek.DeepseekChatCompletion | vite-project/src/api/services/deepseek.js:16-18 | the chat route, inner method "post", the params as body |
| Deepseek.DeepseekModels | vite-project/src/api/services/deepseek.js:20-22 | the models route, inner method "get", a null body |
| Http.Serialized | vite-project/src/api/apiService.js:16-22 | an envelope object keeps each defined member unchanged and drops undefined ones |
| ApiService.ProxyRequest | vite-project/src/api/apiService.js:11-24 | always a POST to `/api/proxy` whose envelope is `{url, method, headers, data}`, each passed through unchanged |
| ApiService.ProxyHandlerRejectsEnvelope | vite-project/src/api/apiService.js:16-22 | the envelope has no `baseURL`, `path` or `apiKey`, so the shown proxy handler answers it with 400 and makes no upstream call |

## Left out

- Network I/O is not modelled: `fetch`, `response.body.getReader()`, axios, the Express app, CORS and the listener. The fetch outcome and the proxy's outbound call are inputs.
- `TextDecoder` is not modelled: chunks arrive already decoded.
- `JSON.parse` and `JSON.stringify` are not modelled: parsing is a partial function passed in, and stringifying is the identity on the JSON datatype.
- Numbers are integers. No floating point is modelled, so the default preset's temperature and top_p are the integer 1.
- Id and uid generation are not modelled (`crypto.randomUUID`, `Date.now() + Math.random()`), and neither is the local time string. They are parameters.
- `alert`, `ElMessage` and `console.*` are not modelled; only the state outcome is.
- Pinia persistence, `localStorage` and Vue reactivity are not modelled. The stored OpenAI key is an input.
- `exportWorldbook` is not modelled: it only builds a Blob and clicks a DOM anchor.
- `testApiConnection` and `vite-project/src/api/request.js` (the axios instance and its pass-through interceptors) are not part of this model. Only the request's base URL "/" is used.
- The shared `abortController` slot under concurrent streams is not modelled, because the model runs one session at a time.
- Chat.ChatApi.FetchChatStream: an abort during the `fetch` itself is not a separate case. It is a fetch rejected with an AbortError, which `Caught` turns into onFinish. A stop is modelled only while a read is pending.
- Chat.ChatApi.FetchChatStream: the callbacks are assumed present and never to throw.
- CharacterStore.CharacterStore.DeleteCharacter: the two cross-store calls of the character store are logged, and their effect is not modelled. In the code, `worldbookStore.deleteEntriesForCharacter` does not exist, so the real call throws before the character is removed.
- CharacterStore.CharacterStore.ImportCharacterCard: the worldbook import receives the parsed entries and the id, not their re-stringified text.
- AgentStore.AgentStore.DeleteLorebookEntry: uids are compared by value, where JavaScript's `===` compares objects by reference.
- PresetsStore.PromptWithDefaults: an array prompt is returned unchanged, because properties set on an array are not part of its JSON.
- OpenAI.OpenAIChatCompletion: `params` is an object. Spreading a non-object is not modelled.
- Gemini.GeminiCompletion: the key and base URL are strings or absent. Other JavaScript values are not modelled.
- Http.Request: the request's own data is a JSON value, and the axios 60-second timeout is not modelled.
- Behaviour that the code does not have is not modelled as if it did: header stripping in the proxy, buffering of partial events across chunks, retries, and unknown-provider errors.
