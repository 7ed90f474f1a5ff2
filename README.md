# FlaiChat core, modelled in Dafny

FlaiChat is a multi-model chat application. Its browser page shows a conversation as a tree of messages. The page walks an "active path" through that tree and streams assistant replies into it. A Go server forwards each prompt to OpenAI or Gemini, stores the reply as typed content segments (`message` and `reasoning`), and relays the provider's stream to the browser as server-sent events.

This project models the logic that decides what the user sees and what gets stored:

- **Chat page.** It covers the conversation tree of the chat page:
  - `processTree`, `switchNode`, `toggleReasoning` and `deleteMessage`;
  - the optimistic part of `sendMessage`, plus the reducer that folds the streamed records into the path;
  - `retryMessage` and the citation annotator `applyCitations`.
- **Server.** It covers the server's segment accumulators:
  - `appendContent` and the provider dispatch;
  - the XML prompt and lookups of `GenerateTitle`, and the `data: …` framing;
  - the history conversion and streaming loop of the Gemini and OpenAI clients, each with its `saveMessage` flush.
- **Smaller parts.**
  - The provider cache rebuild.
  - The bearer-token and admin middleware.
  - `getInitials`.
  - The four client stores: conversations, auth, layout and drafts.
  - The two route guards.

## Modules

| Module | What it holds |
|---|---|
| `Wrappers` | `Option` and `Result`. |
| `Strings` | What the source takes from its string library: trim, ASCII case mapping, Go's `strings.Split`, first-occurrence `replace`, decimal rendering. |
| `Wire` | The shared wire format: the four record types, the stream record, SSE framing and unframing, and the "runs" view of coalesced segments. |
| `ChatTree` | Messages, the node map, `processTree` (index, link, walk up) and `switchNode`, as functions. |
| `Citations` | `applyCitations`. |
| `ChatStream` | The per-record reducer of `sendMessage`, the optimistic start of a send, and `toggleReasoning`, as functions. |
| `ChatEdit` | `retryMessage`'s cut and plan, and `deleteMessage`'s effect, as functions. |
| `ChatPage` | The page state as a class whose methods run the source's loops. Each method is proved equal to the function above it. |
| `LlmClient` | `client.go`: dispatch, `appendContent`, the history turns shared by both clients, the title XML and lookups. |
| `Gemini` | `gemini.go`: history conversion and the candidate/part loop with its flush, as methods proved against fold functions. |
| `OpenAI` | `openai.go`: the same for the Responses event loop. |
| `ProviderCache` | `UpdateProviderCache` as a class with the cache as its field. |
| `AuthMiddleware` | `RequireAuth` and `RequireAdminAuth`. |
| `AuthClient` | `getInitials`. |
| `ConversationStore` | The conversation-list store. |
| `AuthStore` | The session store. |
| `AppStore` | The layout store. |
| `InputStore` | The draft-input store. |
| `RouteGuards` | The protected- and public-route guards. |

Each stateful store or page is a `class`; its methods state the new state in terms of a function on the old one. Each loop in the source is a `while` loop whose invariant ties it to a fold function. The properties the source promises are lemmas about those functions.

## Model

| member | source | states |
|---|---|---|
| Wire.TypesDistinct | frontend/app/page/chat.tsx:427-476 | The four record types `message`, `reasoning`, `meta_info` and `google_grounding_data` are pairwise distinct, so the reducer's type tests never overlap. |
| Wire.Frame | internal/logic/llm/client.go:80-88 | A framed record is `data: `, then the JSON, then a blank line, and is exactly 8 characters longer than the JSON. |
| Wire.FrameRoundTrip | frontend/app/page/chat.tsx:411-423 | The browser's line splitting and `data: ` stripping recovers exactly the one JSON text the server framed, provided it has no newline and is not `[DONE]`. |
| Wire.Coalesce | internal/logic/llm/gemini.go:161-167 | Adding a piece leaves a last segment of the piece's kind. |
| Wire.RunsNoAdjacentSameKind | internal/logic/llm/gemini.go:161-167 | Coalescing typed pieces never leaves two adjacent segments of the same kind, and the last segment has the last piece's kind. |
| Wire.RunsFlatten | internal/logic/llm/gemini.go:161-167 | Coalescing loses and reorders no text: the concatenated segment texts equal the concatenated piece texts. |
| Wire.RunsSnoc | internal/logic/llm/gemini.go:161-167 | Coalescing a longer piece list is coalescing the shorter one, then adding the last piece. |
| Wire.TextEvents | internal/logic/llm/gemini.go:169-178 | One text record per piece, in order, each carrying the message id and the piece's type and text. |
| Wire.TextOnly | internal/logic/llm/gemini.go:193-199 | Dropping the `meta_info` records never lengthens the stream, and no `meta_info` record is left. |
| Wire.TextOnlyOne | internal/logic/llm/gemini.go:193-199 | A single record is kept exactly when it is not a `meta_info` record. |
| Wire.TextOnlyAppend | internal/logic/llm/gemini.go:193-199 | Dropping distributes over concatenation, so the text records keep their order and multiplicity. |
| Wire.TextOnlyAll | internal/logic/llm/gemini.go:169-199 | A stream from which no `meta_info` record is dropped contains none. |
| Strings.TrimStart | frontend/app/page/chat.tsx:324 | The result is a suffix of the input, does not start with white space, and only white space was removed. |
| Strings.TrimEnd | frontend/app/page/chat.tsx:324 | The result is a prefix of the input, does not end with white space, and only white space was removed. |
| Strings.TrimEmptyIffBlank | frontend/app/page/chat.tsx:324 | `text.trim()` is empty exactly when the text is all white space. |
| Strings.ToUpper | frontend/app/lib/auth-client.ts:41-42 | Same length; each ASCII lower-case letter is mapped to upper case and every other character is kept. |
| Strings.ToLower | internal/middleware/auth.go:31 | Same length; each ASCII upper-case letter is mapped to lower case and every other character is kept. |
| Strings.Split | internal/middleware/auth.go:30 | Go's `strings.Split` on one separator: at least one part, and no part contains the separator. |
| Strings.SplitCount | internal/middleware/auth.go:30-31 | The number of parts is the number of separators plus one. |
| Strings.SplitJoin | internal/middleware/auth.go:30 | Joining the parts with the separator gives the input back. |
| Strings.SplitNoSeparator | internal/middleware/auth.go:30 | A text without the separator is one part. |
| Strings.SplitAround | internal/middleware/auth.go:30-31 | `a + sep + b`, with no separator in `a` or `b`, splits into exactly `[a, b]`. |
| Strings.FindFrom | frontend/app/page/chat.tsx:114 | Returns the first position at or after the start where the pattern occurs, or none if it occurs nowhere after it. |
| Strings.ReplaceFirst | frontend/app/page/chat.tsx:114 | `String.replace` with a string pattern: only the first occurrence is replaced, and the text is unchanged when there is no occurrence. |
| Strings.NatToString | frontend/app/page/chat.tsx:108-110 | A non-empty string of decimal digits that denotes the number, with no leading zero unless the number is 0. |
| Strings.IntToString | frontend/app/page/chat.tsx:108-110 | Every character after an optional leading minus is a decimal digit. A negative number is a minus sign before the digits of its magnitude; otherwise the digits of the number itself. Neither has a leading zero, except for 0 itself. |
| Citations.Marker | frontend/app/page/chat.tsx:106-112 | `[[i+1]](uri)` when chunk `i` has a web uri, otherwise `[i+1]`; a marker always starts with `[`. |
| Citations.Markers | frontend/app/page/chat.tsx:106-113 | The joined markers are empty exactly when the index list is empty. |
| Citations.ApplySupport | frontend/app/page/chat.tsx:104-116 | A support with empty segment text or no indices, or whose text does not occur, leaves the text unchanged. |
| Citations.ApplySupportSplices | frontend/app/page/chat.tsx:114 | Otherwise the first occurrence of the segment text is followed by a space and the markers, and the rest is untouched. |
| Citations.ApplyCitations | frontend/app/page/chat.tsx:98-100 | No supports: the text is returned unchanged. |
| Citations.ApplyCitationsSequential | frontend/app/page/chat.tsx:103-117 | Supports apply in order: the result for `a + b` is `b` applied to the result for `a`. |
| Citations.ApplyCitationsInert | frontend/app/page/chat.tsx:99-117 | Supports whose indices are empty, or whose text is absent, change nothing. |
| Citations.CiteOneLinkedChunk | frontend/app/page/chat.tsx:98-120 | One support on one linked chunk inserts ` [[1]](uri)` right after the first occurrence of its text. |
| ChatTree.AnnotateLast | frontend/app/page/chat.tsx:277-282 | Only the last segment may change. It is re-cited when it is a `message` segment, and the content is otherwise unchanged. |
| ChatTree.Annotate | frontend/app/page/chat.tsx:275-283 | Only the content changes, and only when the message has grounding data. |
| ChatTree.IndexNodes | frontend/app/page/chat.tsx:273-284 | The map has exactly the messages' ids as keys; each node has no children yet and carries a message with its own id. |
| ChatTree.IndexNodesLastWins | frontend/app/page/chat.tsx:284 | With duplicate ids, the node holds the last message with that id (annotated). |
| ChatTree.Latest | frontend/app/page/chat.tsx:285-291 | The index of a message with the greatest `created_at`; ties go to the later one (`>=`). |
| ChatTree.InsertSorted | frontend/app/page/chat.tsx:298-299 | The push-then-sort of a child: one longer, and the same ids plus the new one. |
| ChatTree.InsertSortedStable | frontend/app/page/chat.tsx:299 | In a time-sorted list, the new child lands after every earlier-or-equal child and before every later one. |
| ChatTree.InsertSortedSorted | frontend/app/page/chat.tsx:299 | Inserting into a time-sorted children list keeps it sorted. |
| ChatTree.InsertAtSorted | frontend/app/page/chat.tsx:299 | Inserting at the boundary between earlier-or-equal and later children gives a sorted list. |
| ChatTree.LinkChild | frontend/app/page/chat.tsx:294-302 | Linking one message changes no key and no node's message, only one children list. |
| ChatTree.LinkAll | frontend/app/page/chat.tsx:294-302 | Linking all messages changes no key and no node's message. |
| ChatTree.LinkAllChildren | frontend/app/page/chat.tsx:294-302 | After linking, a node's children are its old children plus exactly the listed messages whose `parent_id` is that node, as a multiset. |
| ChatTree.LinkAllSorted | frontend/app/page/chat.tsx:294-302 | Linking keeps every children list sorted by `created_at`. |
| ChatTree.ProcessTreeChildren | frontend/app/page/chat.tsx:294-302 | In the built tree, each node's children are exactly the messages that name it as parent, sorted ascending by `created_at`; orphans are linked nowhere. |
| ChatTree.Ancestry | frontend/app/page/chat.tsx:304-312 | The chain ends at the start message, each element is the parent of the next, and it stops at an empty or unresolvable `parent_id` (or when the bound runs out). |
| ChatTree.InitialPathShape | frontend/app/page/chat.tsx:268-316 | The path is empty exactly when there are no messages. Otherwise it ends at the latest message, never descends below it, is a parent chain, and starts at a root or an orphan. |
| ChatTree.FirstChildChain | frontend/app/page/chat.tsx:238-244 | The descent is either empty (no resolvable first child) or starts at the node's first child. |
| ChatTree.FirstChildChainSteps | frontend/app/page/chat.tsx:238-244 | Each step enters the first child of the node before it, and an unbounded descent ends at a leaf. |
| ChatTree.IndexOf | frontend/app/page/chat.tsx:229 | `indexOf`: the first position holding the id, or -1 exactly when it is absent. |
| ChatTree.FindById | frontend/app/page/chat.tsx:235 | `findIndex` by id: the first position with that id, or -1 exactly when none has it. |
| ChatTree.SwitchedPath | frontend/app/page/chat.tsx:226-248 | No change when the node has no or an unresolvable parent, when moving back from the first child, or when moving on from the last child. |
| ChatTree.SwitchGoesThrough | frontend/app/page/chat.tsx:226-248 | Otherwise the path is the prefix before the node, then the adjacent sibling, then its first-child chain down to a leaf. |
| ChatTree.SwitchedToNext | frontend/app/page/chat.tsx:226-248 | Moving to the next sibling keeps the prefix and puts that sibling where the node was. |
| ChatTree.SwitchThereAndBack | frontend/app/page/chat.tsx:226-248 | Moving to the next sibling and back restores the prefix and the node, followed by the node's first-child chain. |
| ChatTree.SwitchNextThenPrevious | frontend/app/page/chat.tsx:226-248 | The same for a consistent tree whose siblings are distinct and do not occur earlier in the path. |
| ChatTree.SwitchKeepsChain | frontend/app/page/chat.tsx:226-248 | In a consistent tree, switching keeps the path a parent-child chain. |
| ChatTree.DescentChained | frontend/app/page/chat.tsx:238-244 | A node followed by its first-child chain is a parent-child chain. |
| ChatStream.Toggle | frontend/app/page/chat.tsx:214-224 | `toggleReasoning`: the id is in the new set exactly when it was not in the old one, and no other id changes. |
| ChatStream.ToggleTwice | frontend/app/page/chat.tsx:214-224 | Toggling twice is the identity. |
| ChatStream.ApplyEdit | frontend/app/page/chat.tsx:469-528 | A reducer edit never changes a message's id, parent, role or time. |
| ChatStream.EditPath | frontend/app/page/chat.tsx:469-528 | The `map` over the path edits exactly the messages with the tracked id and keeps the others. |
| ChatStream.StepNew | frontend/app/page/chat.tsx:437-466 | A text record for a new id replaces the last path element with a fresh assistant node. That node has the record's id, the user node as parent, and exactly one segment of the record's type. The id is tracked, and it enters the expanded set exactly when the type is `reasoning`. |
| ChatStream.Pieces | frontend/app/page/chat.tsx:477-528 | One typed piece per text record. |
| ChatStream.ReduceTextStream | frontend/app/page/chat.tsx:437-539 | A stream of text records for one new id shows one assistant message after the kept prefix. The message carries the stream's pieces, coalesced so that adjacent segments differ in type and same-type text is concatenated. |
| ChatStream.TextStreamFirst | frontend/app/page/chat.tsx:437-466 | The same for a single record. |
| ChatStream.TextStreamStep | frontend/app/page/chat.tsx:505-529 | One more text record extends the shown message by that record's piece, coalesced. |
| ChatStream.StreamNotEmpty | frontend/app/page/chat.tsx:505-529 | A message being streamed always has a segment. |
| ChatStream.StepText | frontend/app/page/chat.tsx:505-529 | A later text record edits only the tracked message and records its type as the previous type. |
| ChatStream.ShowsTextEvents | frontend/app/page/chat.tsx:437-539 | Reducing the text records made from pieces shows exactly one message whose content is the coalesced pieces. |
| ChatStream.MetaInfoSplitsText | frontend/app/page/chat.tsx:467-475 | `message a`, `meta_info`, `message b` yields two `message` segments `a` and `b` plus the meta data, whereas without the meta record they would coalesce into one. |
| ChatStream.TextMetaTextPath | frontend/app/page/chat.tsx:467-529 | The path after `message`, `meta_info`, `message` records. |
| ChatStream.MetaAfterText | frontend/app/page/chat.tsx:467-475 | A `meta_info` record sets the meta data only and makes `meta_info` the previous type. |
| ChatStream.StepMeta | frontend/app/page/chat.tsx:467-475 | A `meta_info` record replaces the meta data of the tracked message and nothing else. |
| ChatStream.PushAfterMeta | frontend/app/page/chat.tsx:505-521 | A text record after `meta_info` appends a new segment, even when its type matches the last segment's. |
| ChatStream.StepPush | frontend/app/page/chat.tsx:505-521 | A text record whose type differs from the previous record's pushes a new segment of its type. |
| ChatStream.PushFills | frontend/app/page/chat.tsx:505-521 | After a push, the tracked message has content. |
| ChatStream.StepAppendExpanded | frontend/app/page/chat.tsx:531-536 | A same-type record, when it is reasoning and its id is not in the set captured at send time, adds the id to the current set. Otherwise the set becomes that captured set without the id. |
| ChatStream.ReasoningPanelOpensThenCloses | frontend/app/page/chat.tsx:463-465 | reasoning, message, message: the panel opens on the first record, stays open after the second and is closed after the third. |
| ChatStream.RequestPath | frontend/app/page/chat.tsx:391 | `messagePath` holds exactly the path's ids other than the prompt's own id and the placeholder's empty id. |
| ChatStream.AddUserNode | frontend/app/page/chat.tsx:357-363 | The optimistic user node is added under its own id, without children. |
| ChatStream.SendBusy | frontend/app/page/chat.tsx:324-332 | Blank text, no conversation or no token changes nothing. Otherwise the page is left busy exactly when no model is selected. |
| ChatStream.SendSends | frontend/app/page/chat.tsx:324-394 | A request is sent exactly when the text is not blank, there is a conversation and a token, and a provider and model are selected. |
| ChatStream.SendRequest | frontend/app/page/chat.tsx:334-394 | A fresh send posts the fresh id, the model choice, the current path's ids (without the new one and the placeholder) and the text. |
| ChatStream.SendRetryRequest | frontend/app/page/chat.tsx:334-394 | A retry posts the given message id and the given path's ids. |
| ChatStream.StartPathChained | frontend/app/page/chat.tsx:334-363 | The optimistic path is a parent-child chain ending in the placeholder under the user node. |
| ChatStream.EditPathKeepsChain | frontend/app/page/chat.tsx:469-528 | Edits keep the reply chain. |
| ChatStream.StepKeepsChain | frontend/app/page/chat.tsx:437-539 | Every reducer step keeps the path a parent-child chain that ends under the user node. |
| ChatStream.ReduceKeepsChain | frontend/app/page/chat.tsx:420-539 | So does a whole stream. |
| ChatStream.SendKeepsChain | frontend/app/page/chat.tsx:323-552 | A send, fresh or retry, keeps the active path a parent-child chain. |
| ChatStream.DeliverKeepsChain | frontend/app/page/chat.tsx:411-551 | Reading the reply keeps the path a parent-child chain. |
| ChatStream.StepKeepsKeys | frontend/app/page/chat.tsx:437-539 | Each node in the map stays filed under its own message's id after a reducer step. |
| ChatStream.ReduceKeepsKeys | frontend/app/page/chat.tsx:420-539 | The same for a whole stream. |
| ChatStream.StartNodesKeys | frontend/app/page/chat.tsx:357-363 | The same for the optimistic user node. |
| ChatStream.SendKeepsKeys | frontend/app/page/chat.tsx:323-552 | The same for a whole send. |
| ChatStream.DeliverKeepsKeys | frontend/app/page/chat.tsx:411-551 | The same for reading the reply. |
| ChatEdit.KeptPath | frontend/app/page/chat.tsx:555-565 | Retrying an assistant node cuts the path before it; retrying any other node keeps it and cuts after it. |
| ChatEdit.PlanRetry | frontend/app/page/chat.tsx:554-575 | It resends exactly when the cut path ends in a non-assistant message with content, using that message's id and its last segment's text. It warns exactly when the cut path ends in an assistant message. |
| ChatEdit.RetryRequest | frontend/app/page/chat.tsx:572-574 | A retry posts the kept message's own id, the ids before it and its last segment's text, with `retry` set, so no user node is added. |
| ChatEdit.RetryRefusals | frontend/app/page/chat.tsx:558-571 | Retrying the first message (an assistant one) leaves nothing and throws. After an assistant message it warns. After a user message it resends, unless that message has no segments. |
| ChatEdit.Without | frontend/app/page/chat.tsx:604-606 | The filtered children are exactly the old ones other than the deleted id. |
| ChatEdit.WithoutAbsent | frontend/app/page/chat.tsx:604-606 | Filtering an absent id changes nothing. |
| ChatEdit.WithoutRemovesOne | frontend/app/page/chat.tsx:604-606 | With distinct children, filtering removes exactly the one position. |
| ChatEdit.SiblingAfterDelete | frontend/app/page/chat.tsx:603-611 | The fallback sibling is another child of the same parent, and none exists exactly when nothing is left (or the previous index falls off the filtered list). |
| ChatEdit.SiblingAfterDeleteChoice | frontend/app/page/chat.tsx:603-611 | With distinct children, it is the previous sibling, or the new first child when the deleted node was first; a single child leaves none. |
| ChatEdit.DeleteEffect | frontend/app/page/chat.tsx:577-626 | An empty path or a failed request changes nothing. Otherwise the last path node leaves the map, a parent still in the map loses exactly that child, every other node is unchanged, and the path keeps everything before it. |
| ChatEdit.DeletePath | frontend/app/page/chat.tsx:614-625 | Without a sibling the path loses its last node. With one, the sibling takes that place and is followed by first children, down to a leaf unless the fuel runs out. |
| ChatEdit.NodeDescent | frontend/app/page/chat.tsx:617-624 | A node followed by its first-child chain steps from parent to first child and ends at a leaf unless the fuel runs out. |
| ChatEdit.DeleteMovesToSibling | frontend/app/page/chat.tsx:599-613 | On a map whose children all resolve, the sibling is the one the source picks: the previous sibling, or the new first child when the deleted node was first; an only child leaves none. |
| ChatEdit.DeleteNodesKeys | frontend/app/page/chat.tsx:597-607 | Deleting keeps the map consistent. |
| ChatEdit.SiblingHangsFromParent | frontend/app/page/chat.tsx:603-611 | The fallback sibling is still in the map and has the deleted node's parent. |
| ChatEdit.DeleteKeepsChain | frontend/app/page/chat.tsx:577-626 | Deleting keeps the path a parent-child chain and the map consistent. |
| ChatPage.Descend | frontend/app/page/chat.tsx:238-244 | The `while` descent through first children computes the first-child chain. |
| ChatPage.IndexMessages | frontend/app/page/chat.tsx:273-292 | The first loop of `processTree` computes the index and the latest message. |
| ChatPage.LinkMessages | frontend/app/page/chat.tsx:294-302 | The second loop computes the linked tree. |
| ChatPage.WalkUp | frontend/app/page/chat.tsx:304-312 | The upward loop computes the ancestry chain. |
| ChatPage.Consume | frontend/app/page/chat.tsx:420-539 | The record loop computes the reducer's fold. |
| ChatPage.ReadReply | frontend/app/page/chat.tsx:411-551 | Reading the reply: the fold, or nothing on an error, then `isInterference` cleared. |
| ChatPage.Launch | frontend/app/page/chat.tsx:323-394 | The steps of `sendMessage` on the page state as a value. |
| ChatPage.Page.constructor | frontend/app/page/chat.tsx:165-168 | Empty path, map and expanded set; not busy. |
| ChatPage.Page.ProcessTree | frontend/app/page/chat.tsx:268-316 | The map becomes the built tree and the path the initial path; nothing else changes. |
| ChatPage.Page.ToggleReasoning | frontend/app/page/chat.tsx:214-224 | Toggles the one panel; nothing else changes. |
| ChatPage.Page.SwitchNode | frontend/app/page/chat.tsx:226-248 | The path becomes the switched path, and the map is never modified. |
| ChatPage.Page.SendMessage | frontend/app/page/chat.tsx:323-552 | State and request are those of the send function. |
| ChatPage.Page.RetryMessage | frontend/app/page/chat.tsx:554-575 | Cuts the path, then resends exactly as planned, or stops without a request. |
| ChatPage.Page.DeleteMessage | frontend/app/page/chat.tsx:577-626 | The new state is the delete effect. |
| LlmClient.Dispatch | internal/logic/llm/client.go:22-33 | `openai` selects OpenAI and `gemini` selects Gemini (both directions); anything else is `unsupported provider type: <type>`. |
| LlmClient.AppendContent | internal/logic/llm/client.go:90-104 | An empty builder leaves the list unchanged. Otherwise exactly one segment is appended holding the builder's text, earlier elements are untouched, and its type is `reasoning` exactly when the current type is `reasoning` (`message` for anything else, `""` included). |
| LlmClient.AppendContentText | internal/logic/llm/client.go:90-104 | Flushing adds exactly the builder's text to the stored text. |
| LlmClient.Saved | internal/logic/llm/gemini.go:102-107 | The stored reply has the new message as parent, the assistant role and the reply's conversation. |
| LlmClient.SegmentTurns | internal/logic/llm/gemini.go:60-69 | At most one turn per segment, all in the message's role. |
| LlmClient.HistoryTurns | internal/logic/llm/gemini.go:47-71 | History converts exactly when every stored content decodes. Assistant messages take the provider's assistant role and all others the user role. |
| LlmClient.HistoryTurnsStep | internal/logic/llm/gemini.go:49-70 | Each message adds its `message` segments' turns, in order. |
| LlmClient.AddSegmentTurns | internal/logic/llm/gemini.go:60-69 | The inner loop appends exactly the segment turns. |
| LlmClient.HistoryPrefixFails | internal/logic/llm/gemini.go:56-59 | One undecodable message fails the whole conversion. |
| LlmClient.OnlyMessagesSent | internal/logic/llm/gemini.go:61 | Reasoning segments are never sent back. |
| LlmClient.SegmentTurnsAppend | internal/logic/llm/gemini.go:60-69 | The turns of concatenated contents are the concatenated turns. |
| LlmClient.HistoryTurnsAppend | internal/logic/llm/gemini.go:47-71 | The conversion of concatenated histories is the concatenated conversions. |
| LlmClient.TitleXml | internal/logic/llm/client.go:55-65 | The prompt starts with `<chat_history>` and a newline, and ends with `</chat_history>`. |
| LlmClient.TitleXmlLines | internal/logic/llm/client.go:55-60 | Between them sits exactly one `<message role="R">C</message>` line per message, in order. |
| LlmClient.LinesAppend | internal/logic/llm/client.go:57-59 | The lines of concatenated message lists are the concatenated lines. |
| LlmClient.BuildTitleXml | internal/logic/llm/client.go:55-65 | The builder loop computes the prompt. |
| LlmClient.PrepareTitle | internal/logic/llm/client.go:35-78 | The errors come in the order title config, provider, model, provider type, each with its own message. On success the call carries the configured provider (`ProviderMap[provider_id]`), that provider's `model_name` entry, the XML, the configured prompt and the dispatched backend. |
| LlmClient.GenerateTitle | internal/logic/llm/client.go:35-77 | The method computes that function. |
| Gemini.PartKind | internal/logic/llm/gemini.go:148-152 | A part is `reasoning` exactly when it is a thought, and `message` exactly when it is not. |
| Gemini.ConvertHistory | internal/logic/llm/gemini.go:47-71 | The loop computes the history turns with the `model` role for the assistant. |
| Gemini.ReadCandidate | internal/logic/llm/gemini.go:144-208 | The part loop of one candidate computes the candidate step. |
| Gemini.ReadResponse | internal/logic/llm/gemini.go:144-209 | The candidate loop of one response computes the response step. |
| Gemini.StreamChat | internal/logic/llm/gemini.go:40-217 | An undecodable history fails without output. Otherwise it forwards the fold's records. A stream error fails without saving unless the context was cancelled, in which case the partial reply is saved; otherwise the flushed reply is saved at the end. |
| Gemini.PartStepFiled | internal/logic/llm/gemini.go:148-167 | A text part keeps the filed segments plus the open block equal to the text so far, with no adjacent same-type segments. |
| Gemini.PartStepTracks | internal/logic/llm/gemini.go:147-190 | A part keeps the accumulator tracking its pieces, and only parts with text are accumulated or forwarded. |
| Gemini.PartsStepTracks | internal/logic/llm/gemini.go:147-191 | The same for a part list. |
| Gemini.CandidateStepTracks | internal/logic/llm/gemini.go:144-208 | A candidate adds its parts' pieces, and one `meta_info` record when it stops. |
| Gemini.CandidatesStepTracks | internal/logic/llm/gemini.go:144-209 | The same for a candidate list. |
| Gemini.ResponsesStepTracks | internal/logic/llm/gemini.go:135-211 | The same for the whole stream. |
| Gemini.TracksAll | internal/logic/llm/gemini.go:135-211 | From the start state, the final state tracks all the stream's pieces and stops. |
| Gemini.StoresRuns | internal/logic/llm/gemini.go:113-216 | The stored content is the coalesced pieces: no adjacent same-type segments and no text lost. Every text piece is forwarded once with the message id, plus one record per stop. |
| Gemini.ForwardsOnlyText | internal/logic/llm/gemini.go:169-178 | Without a stop, exactly the text records are forwarded. |
| Gemini.ClientShowsStored | internal/logic/llm/gemini.go:161-178 | Fed into the chat page's reducer, the forwarded records show exactly the content the server stores. |
| OpenAI.InputItems | internal/logic/llm/openai.go:40-64 | Conversion succeeds exactly when the history decodes, and the new prompt is always the final user item. |
| OpenAI.ConvertHistory | internal/logic/llm/openai.go:40-64 | The loop computes the input items with the `assistant` role. |
| OpenAI.StreamChat | internal/logic/llm/openai.go:35-188 | The same ending and saving rules as Gemini, over the Responses event fold. |
| OpenAI.AddTracks | internal/logic/llm/openai.go:132-154 | A non-empty delta sets the type, extends the builder and is forwarded once. |
| OpenAI.StepTracks | internal/logic/llm/openai.go:131-163 | Reasoning and text deltas, summary part breaks (`\n\n`), item-done flushes, completion records and skipped events each keep the accumulator tracking the pieces forwarded. |
| OpenAI.FoldTracks | internal/logic/llm/openai.go:126-174 | The same for the whole stream. |
| OpenAI.StoresStreamedText | internal/logic/llm/openai.go:106-188 | The stored text is exactly the forwarded text, every stored segment is non-empty and typed, and a record is forwarded per piece plus one per completion. |
| OpenAI.ClientShowsStoredText | internal/logic/llm/openai.go:126-166 | Fed into the chat page's reducer, the forwarded records show the pieces, coalesced, with the same text as stored. |
| OpenAI.EmptyDeltasForwarded | internal/logic/llm/openai.go:132-166 | As written: "Hi" and two empty text deltas store "Hi" but forward two untyped, data-less records. |
| OpenAI.UntypedRecordKeepsPending | frontend/app/page/chat.tsx:505-529 | An untyped record after text changes nothing shown but sets the previous type to empty. |
| OpenAI.UntypedPushesNothing | frontend/app/page/chat.tsx:505-521 | The first untyped record pushes an empty segment list. |
| OpenAI.UntypedRepeatsPending | frontend/app/page/chat.tsx:522-529 | A second untyped record re-appends the pending text. |
| OpenAI.PageDoublesText | frontend/app/page/chat.tsx:505-529 | Text `t` then two untyped records show `t + t`. |
| OpenAI.EmptyDeltasDoubleText | internal/logic/llm/openai.go:132-166 | As written, the server stores "Hi" while the page shows "HiHi". |
| OpenAI.SkippedPieces | internal/logic/llm/openai.go:148-154 | Empty deltas contribute no piece. |
| OpenAI.SkippedFold | internal/logic/llm/openai.go:148-154 | With empty deltas skipped, only the "Hi" record is forwarded. |
| OpenAI.EmptyDeltasSkipped | internal/logic/llm/openai.go:132-166 | With empty deltas skipped, the page shows the "Hi" the server stores. |
| ProviderCache.AddConfigs | internal/logic/provider_cache.go:84-86 | The models are the old ones plus every listed id; unlisted models keep their configuration. |
| ProviderCache.LastIn | internal/logic/provider_cache.go:84-86 | The last configuration listed with an id, or none when no configuration has it. |
| ProviderCache.AddConfigsLast | internal/logic/provider_cache.go:84-86 | A model is filed under its id, a later configuration with the same id overwrites an earlier one, and an unlisted model keeps its entry. |
| ProviderCache.BuildProvidersKeys | internal/logic/provider_cache.go:64-87 | The cache holds exactly the providers of rows with a model list; rows with an empty `model` leave no trace. |
| ProviderCache.FirstRowFixesProvider | internal/logic/provider_cache.go:70-78 | A provider is present exactly when it has a row with a model list, and the first such row fixes its type, key and base URL. |
| ProviderCache.LastConfigWins | internal/logic/provider_cache.go:65-87 | A model is cached exactly when some row lists it, with the last listed configuration. |
| ProviderCache.FileConfigs | internal/logic/provider_cache.go:84-86 | The inner loop files the configurations in order. |
| ProviderCache.Cache.constructor | internal/logic/provider_cache.go:57-89 | The cache starts empty. |
| ProviderCache.Cache.Update | internal/logic/provider_cache.go:57-89 | The process stops exactly when some model list does not decode. Otherwise the cache is rebuilt from scratch as the row-by-row map. |
| AuthMiddleware.RequireAuth | internal/middleware/auth.go:20-58 | Every rejection is 401. An empty header gives "Authorization header required". A header that does not split on single spaces into exactly two parts, the first being `bearer` in any case, gives "Invalid authorization header format". Only such a header is admitted. |
| AuthMiddleware.BearerTokenValidated | internal/middleware/auth.go:30-57 | For a well-formed header, the token validated is exactly the second part. A failure gives 401 "Invalid or expired token"; success admits the claims' user id, email and role. |
| AuthMiddleware.AdmittedHeaderShape | internal/middleware/auth.go:30-57 | An admitted header is `scheme + " " + token` with a bearer scheme, a valid token and the token's user. |
| AuthMiddleware.DoubleSpaceRejected | internal/middleware/auth.go:30-37 | A header with a double space is rejected as malformed. |
| AuthMiddleware.RequireAdminAuth | internal/middleware/auth.go:60-70 | Admitted exactly when a context user exists with role `admin`, otherwise 403 "Admin access required". |
| AuthMiddleware.AdminChain | internal/middleware/auth.go:20-70 | Both checks in a row admit exactly the validated admins; an authenticated non-admin gets 403. |
| AuthClient.Dashes | frontend/app/lib/auth-client.ts:36 | Every `_` and `-` becomes a space and nothing else changes. |
| AuthClient.Fields | frontend/app/lib/auth-client.ts:37 | Splitting on white space gives at least one part. |
| AuthClient.NonEmpty | frontend/app/lib/auth-client.ts:38 | The filter keeps only non-empty parts. |
| AuthClient.FieldsConcat | frontend/app/lib/auth-client.ts:37 | The parts are the text without its white space. |
| AuthClient.NonEmptyConcat | frontend/app/lib/auth-client.ts:38 | Filtering out empty parts loses no character. |
| AuthClient.DashesSpacesOut | frontend/app/lib/auth-client.ts:36-37 | `_` and `-` act as separators exactly like white space. |
| AuthClient.TrimKeepsLetters | frontend/app/lib/auth-client.ts:35 | Trimming loses no non-separator character. |
| AuthClient.WordsKeepLetters | frontend/app/lib/auth-client.ts:34-38 | The words hold exactly the name's non-separator characters, in order. |
| AuthClient.WordsClean | frontend/app/lib/auth-client.ts:34-38 | Every word is non-empty and contains no separator. |
| AuthClient.LettersEmpty | frontend/app/lib/auth-client.ts:34-40 | A name has no non-separator character exactly when it consists of separators only. |
| AuthClient.WordsLetters | frontend/app/lib/auth-client.ts:34-40 | No words exactly when the name consists of separators; otherwise the first word starts the letters. |
| AuthClient.InitialsFromLetters | frontend/app/lib/auth-client.ts:32-42 | A missing name, or one of separators only, gives `FL`. Otherwise: one or two characters, the first being the first letter upper-cased; a single word gives its first two characters upper-cased; two or more words give the first character of each of the first two words. |
| AuthClient.OneWordInitials | frontend/app/lib/auth-client.ts:41 | A single word gives its first two characters in upper case. |
| AuthClient.TwoWordInitials | frontend/app/lib/auth-client.ts:42 | Two or more words give the upper-cased first characters of the first two words. |
| AuthClient.ExampleSeparatorsOnly | frontend/app/lib/auth-client.ts:33-40 | Example: `" -_ "`, a name of separators only, gives the fallback `FL`. |
| ConversationStore.Fresh | frontend/app/store/conversation-store.ts:49-56 | A new entry is titled "New Conversation", has an empty icon, is generating, and is stamped now. |
| ConversationStore.MarkGenerating | frontend/app/store/conversation-store.ts:62-66 | Only entries with the id become generating; the others are unchanged. |
| ConversationStore.Retitle | frontend/app/store/conversation-store.ts:68-72 | Only entries with the id take the new title and icon and stop generating. |
| ConversationStore.Titled | frontend/app/store/conversation-store.ts:60-80 | On success the entries with the id are retitled; on failure they stay generating. Other entries are unchanged either way. |
| ConversationStore.Remove | frontend/app/store/conversation-store.ts:92-94 | The list never grows and no remaining entry has the id. |
| ConversationStore.RemoveOne | frontend/app/store/conversation-store.ts:92-94 | A single entry is kept exactly when it has another id. |
| ConversationStore.RemoveAppend | frontend/app/store/conversation-store.ts:92-94 | Removing distributes over concatenation, so the kept entries keep their order and multiplicity. |
| ConversationStore.RemoveKeepsOthers | frontend/app/store/conversation-store.ts:92-94 | An entry remains exactly when it was there and has another id. |
| ConversationStore.RemoveAbsent | frontend/app/store/conversation-store.ts:92-94 | Removing an absent id changes nothing. |
| ConversationStore.RemoveIdempotent | frontend/app/store/conversation-store.ts:92-94 | Removing twice is removing once. |
| ConversationStore.AddedFirst | frontend/app/store/conversation-store.ts:47-59 | The new entry is first, the old entries follow in order, and the title request's outcome decides its title. |
| ConversationStore.Store.constructor | frontend/app/store/conversation-store.ts:30-31 | An empty list, not loading. |
| ConversationStore.Store.FetchConversations | frontend/app/store/conversation-store.ts:32-46 | It always ends not loading, and replaces the list only on success. |
| ConversationStore.Store.GenerateTitle | frontend/app/store/conversation-store.ts:60-80 | The list becomes the titled list. |
| ConversationStore.Store.AddConversation | frontend/app/store/conversation-store.ts:47-59 | An empty id changes nothing; otherwise the new entry is prepended and then titled. |
| ConversationStore.Store.DeleteConversation | frontend/app/store/conversation-store.ts:81-95 | Entries with the id leave the list whether or not the server call succeeded. |
| AuthStore.ExpiresIn | frontend/app/store/auth-store.ts:24 | `expires_in`, or 0 when the token or the field is absent. |
| AuthStore.LoginSession | frontend/app/store/auth-store.ts:20-26 | User and tokens as given (absent ones null), and an expiry exactly `expires_in * 1000` ms after now. |
| AuthStore.MergeLaws | frontend/app/store/auth-store.ts:34-38 | The empty update is the identity, two updates compose, and repeating an update changes nothing. |
| AuthStore.UpdatedSession | frontend/app/store/auth-store.ts:34-38 | A present user gets the fields merged in, a null user stays null, and tokens and expiry are unchanged. |
| AuthStore.Store.constructor | frontend/app/store/auth-store.ts:17-19 | Signed out. |
| AuthStore.Store.Login | frontend/app/store/auth-store.ts:20-26 | The state becomes the login session. |
| AuthStore.Store.Logout | frontend/app/store/auth-store.ts:27-33 | User, tokens and expiry all become null. |
| AuthStore.Store.UpdateUser | frontend/app/store/auth-store.ts:34-38 | The state becomes the updated session. |
| AppStore.SidebarToggled | frontend/app/store/app-store.ts:28-31 | Negates the sidebar flag and keeps the menu. |
| AppStore.MenuToggled | frontend/app/store/app-store.ts:33-34 | Negates the menu flag and keeps the sidebar. |
| AppStore.MenuClosed | frontend/app/store/app-store.ts:35-39 | The menu ends closed, the sidebar is kept, and a closed menu is left as it was. |
| AppStore.LayoutLaws | frontend/app/store/app-store.ts:28-48 | Toggling twice is the identity and closing is idempotent. Only the sidebar flag is persisted, so a reload restores it with the menu closed. |
| AppStore.Store.constructor | frontend/app/store/app-store.ts:26-27 | Sidebar expanded and menu closed. |
| AppStore.Store.ToggleSidebar | frontend/app/store/app-store.ts:28-31 | Toggles the sidebar. |
| AppStore.Store.SetSidebarCollapsed | frontend/app/store/app-store.ts:32 | Sets exactly the given value. |
| AppStore.Store.ToggleUserMenu | frontend/app/store/app-store.ts:33-34 | Toggles the menu. |
| AppStore.Store.CloseUserMenu | frontend/app/store/app-store.ts:35-39 | Closes the menu, and writes exactly when it was open. |
| InputStore.WithChatInput | frontend/app/store/input-store.ts:18-24 | `chatInputs[id] = v`; every other conversation's entry and both main fields are unchanged. |
| InputStore.ChatInputsIndependent | frontend/app/store/input-store.ts:18-24 | Writes to different conversations commute, and a second write to the same one overrides the first. |
| InputStore.Store.constructor | frontend/app/store/input-store.ts:13-17 | `""`, false and an empty record. |
| InputStore.Store.SetMainInput | frontend/app/store/input-store.ts:15 | Changes only the main input. |
| InputStore.Store.SetSendMainInput | frontend/app/store/input-store.ts:16 | Changes only its flag. |
| InputStore.Store.SetChatInput | frontend/app/store/input-store.ts:18-24 | Writes the one draft. |
| RouteGuards.ProtectedRoute | frontend/app/layout/protected-route.tsx:8-12 | Redirects to /login exactly when there is no expiry or now is past it. |
| RouteGuards.PublicRoute | frontend/app/layout/public-route.tsx:8-12 | Redirects to `/` exactly when there is an expiry and now is before it. |
| RouteGuards.GuardsAgree | frontend/app/layout/public-route.tsx:8 | The two guards never both redirect. Exactly one redirects, except at the expiry instant, where both render the outlet. |
| RouteGuards.GuardsFollowSession | frontend/app/store/auth-store.ts:20-33 | After login, the protected routes render until expiry and the public ones from expiry on. After logout, protected routes redirect to /login and public ones render. |

## Left out

- Transport: HTTP, the JSON encoding of records, `json.Marshal` failures and the byte-level reader. The reducer runs over already-decoded records that carry the data their type promises (`AllWellTyped`). The client's `[DONE]` marker and the SSE framing are modelled only in `Wire`.
- Providers: the OpenAI and Gemini SDKs, their clients, tools (`consts.InternalTools`), grounding search configuration and the provider `GenerateTitle` calls. Their answers are parameters: the Gemini responses, the OpenAI events, the title answer. The ending (finished, cancelled or failed) is a pair of flags.
- gemini.go never sends `google_grounding_data` records, so the reducer's grounding branch is modelled only as far as the stored message annotation (`Annotate`). The base64 thought signature is carried as a plain field.
- Persistence and logging: the database insert, error logs and the stores' `localStorage`. Only what the app store persists is modelled (`Persisted`/`Rehydrate`).
- Time and ids: `Date.now()`, `created_at` and `uuid` are integer or string parameters. `processTree` compares `created_at` values, which the source keeps as strings; the model compares integers.
- Async order: `await`, `setState` batching, toasts, navigation, clearing the input box on a fresh send (`setInput("")`, frontend/app/page/chat.tsx:365), and the reads from the conversation store during a send. Each handler runs to completion on its inputs.
- Gemini usage: every modelled response carries usage counts. The source reads `resp.UsageMetadata` for every text part (internal/logic/llm/gemini.go:154-158), so a response without it would crash the handler; that path is not modelled.
- ChatEdit.DeleteSibling: keeps a fallback sibling only when its id is still in the new map. The source pushes the child object whatever the map holds (frontend/app/page/chat.tsx:603-618). The two agree on maps where every listed child is indexed and names the parent that lists it (`ChildrenLinked`); `ChatEdit.DeleteMovesToSibling` states that agreement. The model does not prove that every map the page builds has this property.
- Token validation (`utils.ValidateToken`) is a function parameter. The claims' JWT format is not modelled.
- Cycles in `parent_id` links: the downward descents and the upward walk carry the map size as fuel, so a cyclic map is cut off instead of looping.
- Strings: strings are sequences of Unicode scalar values. JavaScript strings are UTF-16 code units, so `slice(0, 2)` and `cleaned[0][0]` in `getInitials` (frontend/app/lib/auth-client.ts:41-42) can split a character outside the Basic Multilingual Plane; the model takes whole characters. Case mapping is ASCII only. `\s+` in `getInitials` is modelled as splitting on each white-space character and then dropping empty parts, which gives the same words. `$` patterns in `String.replace` replacement strings are not interpreted.
- Prices and the cost fields of `ModelConfig`, and usage floats, are not modelled; token counts are plain integers.
- `zustand`'s `Partial` update with explicitly `undefined` fields is not modelled: an update lists the fields it sets.
- `UpdateProviderCache` loads its rows from the database; the rows are a parameter, and a model list that does not decode is `configs == None`. The source calls `g.Log().Fatal`; the model stops with `fatal` set and says nothing about the map left behind.
- OpenAI.Step: forwards nothing for an empty reasoning or text delta. This is the corrected behaviour (see Findings), and `OpenAI.StreamChat` is built on it. The loop as written is `OpenAI.StepAsWritten`.
- `Gemini.StreamChat` and `OpenAI.StreamChat` state the forwarded records and the stored message, but not where the stream stopped inside the loop. A stream error is modelled as arriving after the last event given.

## Findings

| source | as written | input that shows it | evidently intended | confidence | as-written member | corrected member |
|---|---|---|---|---|---|---|
| internal/logic/llm/openai.go:132-166 | An empty reasoning or text delta leaves the record's type and data unset, but the record is still forwarded. The page's reducer treats `""` as a new type: the first such record pushes nothing, and the second re-appends the pending text (frontend/app/page/chat.tsx:505-529). | The events `TextDelta("Hi")`, `TextDelta("")`, `TextDelta("")`: the server stores "Hi", but the page shows "HiHi". | Skip empty deltas entirely, as the other branches `continue`, so the page shows exactly what is stored. | not executed | OpenAI.EmptyDeltasDoubleText | OpenAI.EmptyDeltasSkipped |
