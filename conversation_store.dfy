/**
 * The browser's conversation list store: the sidebar's conversations and
 * a loading flag. Each action runs to completion with the server's answer
 * passed in; `now` stands for the clock's ISO-8601 text.
 */
module ConversationStore {
  import opened Wrappers

  datatype Conversation = Conversation(
    id: string,
    title: string,
    icon: string,
    generating: bool,
    createdAt: string,
    updatedAt: string)

  /** The title endpoint's answer. */
  datatype TitleResponse = TitleResponse(title: string, icon: string)

  /** The title a new conversation shows until its generated one arrives. */
  const NewTitle: string := "New Conversation"

  /** The entry `addConversation` puts in front of the list. */
  function Fresh(id: string, now: string): (r: Conversation)
    ensures r.id == id && r.title == NewTitle && r.icon == "" && r.generating
    ensures r.createdAt == now && r.updatedAt == now
  {
    Conversation(id, NewTitle, "", true, now, now)
  }

  /** `generateTitle`'s first update: every entry with the id is marked as generating; the others are kept. */
  function MarkGenerating(cs: seq<Conversation>, id: string): (r: seq<Conversation>)
    ensures |r| == |cs|
    ensures forall i :: 0 <= i < |cs| && cs[i].id != id ==> r[i] == cs[i]
    ensures forall i :: 0 <= i < |cs| && cs[i].id == id ==> r[i] == cs[i].(generating := true)
  {
    if cs == [] then []
    else
      var c := cs[|cs| - 1];
      MarkGenerating(cs[..|cs| - 1], id) + [if c.id == id then c.(generating := true) else c]
  }

  /** `generateTitle`'s second update: every entry with the id gets the title and icon and stops generating. */
  function Retitle(cs: seq<Conversation>, id: string, t: TitleResponse): (r: seq<Conversation>)
    ensures |r| == |cs|
    ensures forall i :: 0 <= i < |cs| && cs[i].id != id ==> r[i] == cs[i]
    ensures forall i :: 0 <= i < |cs| && cs[i].id == id ==>
      r[i] == cs[i].(title := t.title, icon := t.icon, generating := false)
  {
    if cs == [] then []
    else
      var c := cs[|cs| - 1];
      Retitle(cs[..|cs| - 1], id, t) + [if c.id == id then c.(title := t.title, icon := t.icon, generating := false) else c]
  }

  /** `deleteConversation`'s update: the entries with other ids, in their order. */
  function Remove(cs: seq<Conversation>, id: string): (r: seq<Conversation>)
    ensures |r| <= |cs|
    ensures forall k :: 0 <= k < |r| ==> r[k].id != id
  {
    if cs == [] then []
    else
      var c := cs[|cs| - 1];
      Remove(cs[..|cs| - 1], id) + (if c.id == id then [] else [c])
  }

  /** A single entry is kept exactly when it has another id. */
  lemma RemoveOne(c: Conversation, id: string)
    ensures Remove([c], id) == if c.id == id then [] else [c]
  {
  }

  /** The filter distributes over concatenation, so the kept entries keep their order and multiplicity. */
  lemma {:induction false} RemoveAppend(a: seq<Conversation>, b: seq<Conversation>, id: string)
    ensures Remove(a + b, id) == Remove(a, id) + Remove(b, id)
  {
    if b == [] {
      assert a + b == a;
    } else {
      var init := b[..|b| - 1];
      var c := b[|b| - 1];
      RemoveAppend(a, init, id);
      assert (a + b)[..|a + b| - 1] == a + init;
      assert (a + b)[|a + b| - 1] == c;
      var tail := if c.id == id then [] else [c];
      assert Remove(a + b, id) == (Remove(a, id) + Remove(init, id)) + tail;
      assert Remove(b, id) == Remove(init, id) + tail;
    }
  }

  /** The list after a delete holds exactly the entries of the old list with other ids. */
  lemma {:induction false} RemoveKeepsOthers(cs: seq<Conversation>, id: string)
    ensures forall c :: c in Remove(cs, id) <==> c in cs && c.id != id
  {
    if cs != [] {
      var init := cs[..|cs| - 1];
      var last := cs[|cs| - 1];
      RemoveKeepsOthers(init, id);
      assert cs == init + [last];
      assert forall x :: x in cs <==> x in init || x == last;
    }
  }

  /**
   * The list after `generateTitle(id)`: entries with other ids are
   * untouched; the entries with the id carry the answer and are done or,
   * when the request failed, stay marked as generating.
   */
  function Titled(cs: seq<Conversation>, id: string, answer: Result<TitleResponse>): (r: seq<Conversation>)
    ensures |r| == |cs|
    ensures forall i :: 0 <= i < |cs| && cs[i].id != id ==> r[i] == cs[i]
    ensures forall i :: 0 <= i < |cs| && cs[i].id == id ==>
      && r[i].id == id && r[i].createdAt == cs[i].createdAt && r[i].updatedAt == cs[i].updatedAt
      && (answer.Ok? ==> r[i].title == answer.value.title && r[i].icon == answer.value.icon && !r[i].generating)
      && (answer.Err? ==> r[i] == cs[i].(generating := true))
  {
    var marked := MarkGenerating(cs, id);
    if answer.Ok? then Retitle(marked, id, answer.value) else marked
  }

  /** Deleting an id the list does not hold changes nothing. */
  lemma {:induction false} RemoveAbsent(cs: seq<Conversation>, id: string)
    requires forall k :: 0 <= k < |cs| ==> cs[k].id != id
    ensures Remove(cs, id) == cs
  {
    if cs != [] {
      var init := cs[..|cs| - 1];
      var last := cs[|cs| - 1];
      assert forall k :: 0 <= k < |init| ==> init[k].id != id by {
        forall k | 0 <= k < |init| ensures init[k].id != id {
          assert init[k] == cs[k];
        }
      }
      RemoveAbsent(init, id);
      assert cs == init + [last];
    }
  }

  /** Deleting twice is deleting once. */
  lemma RemoveIdempotent(cs: seq<Conversation>, id: string)
    ensures Remove(Remove(cs, id), id) == Remove(cs, id)
  {
    RemoveAbsent(Remove(cs, id), id);
  }

  class Store {
    var conversations: seq<Conversation>
    var isLoading: bool

    constructor ()
      ensures conversations == [] && !isLoading
    {
      conversations := [];
      isLoading := false;
    }

    /** `fetchConversations`: loading while the request runs; the list is replaced only by a successful answer. */
    method FetchConversations(answer: Result<seq<Conversation>>)
      modifies this
      ensures !isLoading
      ensures answer.Ok? ==> conversations == answer.value
      ensures answer.Err? ==> conversations == old(conversations)
    {
      isLoading := true;
      if answer.Ok? {
        conversations := answer.value;
      }
      isLoading := false;
    }

    /** `generateTitle(id)` with the title endpoint's answer. */
    method GenerateTitle(id: string, answer: Result<TitleResponse>)
      modifies this
      ensures conversations == Titled(old(conversations), id, answer)
      ensures isLoading == old(isLoading)
    {
      conversations := MarkGenerating(conversations, id);
      if answer.Ok? {
        conversations := Retitle(conversations, id, answer.value);
      }
    }

    /**
     * `addConversation(id)`: nothing for an empty id; otherwise a fresh
     * entry in front of the list, then `generateTitle(id)`.
     */
    method AddConversation(id: string, now: string, answer: Result<TitleResponse>)
      modifies this
      ensures id == "" ==> conversations == old(conversations)
      ensures id != "" ==> conversations == Titled([Fresh(id, now)] + old(conversations), id, answer)
      ensures isLoading == old(isLoading)
    {
      if id == "" {
        return;
      }
      conversations := [Fresh(id, now)] + conversations;
      GenerateTitle(id, answer);
    }

    /** `deleteConversation(id)`: the entries with the id leave the list whether or not the server call succeeded. */
    method DeleteConversation(id: string)
      modifies this
      ensures conversations == Remove(old(conversations), id)
      ensures isLoading == old(isLoading)
    {
      conversations := Remove(conversations, id);
    }
  }

  /**
   * A new conversation ends up first, titled by the answer or still "New
   * Conversation" and generating when the request failed, and the entries
   * already listed with other ids follow in their order, unchanged.
   */
  lemma AddedFirst(cs: seq<Conversation>, id: string, now: string, answer: Result<TitleResponse>)
    requires id != ""
    ensures var r := Titled([Fresh(id, now)] + cs, id, answer);
      && |r| == |cs| + 1
      && r[0].id == id && r[0].createdAt == now
      && (answer.Ok? ==> r[0].title == answer.value.title && !r[0].generating)
      && (answer.Err? ==> r[0] == Fresh(id, now))
      && forall i :: 0 <= i < |cs| && cs[i].id != id ==> r[i + 1] == cs[i]
  {
    var all := [Fresh(id, now)] + cs;
    assert forall i :: 0 <= i < |cs| ==> all[i + 1] == cs[i];
  }
}
