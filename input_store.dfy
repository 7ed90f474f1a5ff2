/**
 * The browser's input store: the home page's draft and its send flag, and
 * one draft per conversation.
 */
module InputStore {
  datatype Drafts = Drafts(mainInput: string, sendMainInput: bool, chatInputs: map<string, string>)

  const Initial: Drafts := Drafts("", false, map[])

  /** `setChatInput(id, v)`'s update: the conversation's draft is `v`; every other draft and field is kept. */
  function WithChatInput(s: Drafts, id: string, v: string): (r: Drafts)
    ensures r.chatInputs.Keys == s.chatInputs.Keys + {id}
    ensures r.chatInputs[id] == v
    ensures forall k :: k in s.chatInputs && k != id ==> r.chatInputs[k] == s.chatInputs[k]
    ensures r.mainInput == s.mainInput && r.sendMainInput == s.sendMainInput
  {
    s.(chatInputs := s.chatInputs[id := v])
  }

  /** Drafts of different conversations do not interfere, and the last write to one wins. */
  lemma ChatInputsIndependent(s: Drafts, a: string, b: string, v: string, w: string)
    ensures a != b ==> WithChatInput(WithChatInput(s, a, v), b, w) == WithChatInput(WithChatInput(s, b, w), a, v)
    ensures WithChatInput(WithChatInput(s, a, v), a, w) == WithChatInput(s, a, w)
  {
    if a != b {
      assert s.chatInputs[a := v][b := w] == s.chatInputs[b := w][a := v];
    }
    assert s.chatInputs[a := v][a := w] == s.chatInputs[a := w];
  }

  class Store {
    var mainInput: string
    var sendMainInput: bool
    var chatInputs: map<string, string>

    function State(): Drafts
      reads this
    {
      Drafts(mainInput, sendMainInput, chatInputs)
    }

    constructor ()
      ensures State() == Initial
    {
      mainInput, sendMainInput, chatInputs := "", false, map[];
    }

    method SetMainInput(v: string)
      modifies this
      ensures State() == old(State()).(mainInput := v)
    {
      mainInput := v;
    }

    method SetSendMainInput(v: bool)
      modifies this
      ensures State() == old(State()).(sendMainInput := v)
    {
      sendMainInput := v;
    }

    method SetChatInput(id: string, v: string)
      modifies this
      ensures State() == WithChatInput(old(State()), id, v)
    {
      chatInputs := chatInputs[id := v];
    }
  }
}
