// The chat history store of vite-project/src/stores/chatStore.js: messages
// are appended one at a time and cleared all at once. Persistence is not
// modelled.

module ChatStore {
  import opened Js

  class ChatStore {
    var history: seq<Json>

    constructor()
      ensures history == []
    {
      history := [];
    }

    /** `addMessage(message)`: the message goes to the end; earlier ones are untouched. */
    method AddMessage(message: Json)
      modifies this
      ensures history == old(history) + [message]
    {
      history := history + [message];
    }

    /** `clearHistory` */
    method ClearHistory()
      modifies this
      ensures history == []
    {
      history := [];
    }
  }

}
