# Simple TODO app: a Dafny model of its list handlers

This project models the core of the `SimpleTodoApp` React component: a single-page
to-do list. The component keeps two pieces of state: the ordered item list `todos`,
and the text of the input box `newTodo`. It has four handlers:

- `addTodo` trims the input. If the result is empty it does nothing. Otherwise it appends a
  new item that is not completed and not added by AI, and clears the input.
- `toggleTodo(id)` flips `completed` on every item with that id.
- `deleteTodo(id)` drops every item with that id.
- `generateImprovements` shuffles a fixed list of ten improvement texts and appends the
  first five as items flagged as added by AI.

The progress counter shows `completedCount` out of `totalCount`.

Layout:

- `Text.dfy` (module `Text`): ECMAScript's `String.prototype.trim`, with the exact
  ECMAScript white-space and line-terminator set.
- `Todos.dfy` (module `Todos`): the `Todo` record and the pure list operations. These are
  the new item built by `addTodo`, the `map` of `toggleTodo`, the `filter` of
  `deleteTodo`, and the completed count.
- `Improvements.dfy` (module `Improvements`): the fixed suggestion list and the five items
  `generateImprovements` builds from a shuffle of it.
- `App.dfy` (module `App`): the class `SimpleTodoApp`. Its fields are `todos` and
  `newTodo`, and it has one method per handler. Its invariant `Valid()` says that every
  item text is non-empty and trimmed, and that every AI-flagged item carries one of the
  fixed suggestion texts. The handlers accept any state, as the app's do, and each one
  keeps this invariant whenever it held before the call.

Inputs the app takes from its environment are parameters of the model:

- Item ids are caller-supplied numbers (`Id = real`). The app reads them from the clock
  with `Date.now()`, or with `Date.now() + Math.random()` for suggestions. Ids are not
  assumed unique, so toggle and delete are specified for every item that shares an id.
- The random shuffle is a caller-supplied permutation of the indices 0..9. Sorting with
  the comparator `0.5 - Math.random()` still yields some permutation of the array.

Facts about the app that shape the model:

- Items carry only `id`, `text`, `completed` and `addedByAI`, so toggling only flips
  `completed`.
- Ids come from the clock and are not unique.
- Suggestions are appended without filtering. All ten fixed texts are non-empty and
  trimmed; `ImprovementTextsTrimmed` proves this.

## Model

| member | source | states |
|---|---|---|
| Text.Trim | src/App.tsx:19-22 | `trim()` returns the infix of the input left once white space is removed from both ends: the removed prefix and suffix are all white space, and the result starts and ends with a non-white-space character. It is empty exactly when the input is blank, which is when `if (newTodo.trim())` is false. |
| Text.TrimTrimmed | src/App.tsx:22 | Trimming a text with no white space at either end returns it unchanged. |
| Text.TrimIdempotent | src/App.tsx:22 | Trimming twice gives the same result as trimming once. |
| Todos.NewTodoItem | src/App.tsx:19-25 | No item is built exactly when the input is blank. Otherwise the item has the given id and the trimmed text, which is non-empty and trimmed, with `completed` false and `addedByAI` false. |
| Todos.Toggle | src/App.tsx:31-37 | Length and order are preserved. Every item with the id has `completed` negated and keeps its id, text and AI flag. Every other item is unchanged. |
| Todos.ToggleTwice | src/App.tsx:32-35 | Toggling the same id twice gives back the original list. |
| Todos.ToggleAbsent | src/App.tsx:34 | Toggling an id that no item has returns the list unchanged. |
| Todos.ToggleOneCount | src/App.tsx:34 | When exactly one item has the id, toggling lowers the completed count by 1 if that item was completed, and raises it by 1 if not. |
| Todos.CountCompletedWithId | src/App.tsx:34 | The number of completed items with the id is at most the number of items with the id, and is zero exactly when every item with the id is open. |
| Todos.ToggleCount | src/App.tsx:34 | For any number of items sharing the id, toggling removes the completed ones with that id from the completed count and adds the open ones with that id. |
| Todos.CountId | src/App.tsx:40 | The number of items with the id is at most the list length, and it is zero exactly when no item has that id. |
| Todos.CountIdAppend | src/App.tsx:40 | The number of items with the id adds up over a concatenation. |
| Todos.CountIdIsCardinality | src/App.tsx:40 | The number of items with the id equals the number of positions holding such an item. |
| Todos.Delete | src/App.tsx:39-41 | The result is a subsequence of the list, keeping order. It contains no item with the id, and holds exactly the items of the list whose id differs. Its length is the old length minus the number of items with the id. |
| Todos.DeleteUnique | src/App.tsx:40 | Any subsequence that has no item with the id and has the length above equals `Delete`, so the contract of `Delete` determines the filter completely. |
| Todos.DeleteAbsent | src/App.tsx:40 | Deleting an id that no item has returns the list unchanged. |
| Todos.DeleteIdempotent | src/App.tsx:40 | Deleting the same id twice gives the same result as deleting it once. |
| Todos.DeleteKeepsAtMostCompleted | src/App.tsx:40 | Deleting never raises the completed count. |
| Todos.CountCompleted | src/App.tsx:71 | The completed count is at most the list length. It is zero exactly when no item is completed, and equals the length exactly when every item is completed. |
| Todos.CountCompletedIsCardinality | src/App.tsx:71 | The completed count equals the number of positions that hold a completed item. |
| Todos.CountCompletedAppend | src/App.tsx:71 | The completed count of a concatenation is the sum of the counts of its parts. |
| Improvements.ImprovementTextsDistinct | src/App.tsx:45-56 | The ten suggestion texts are pairwise distinct. |
| Improvements.ImprovementTextsTrimmed | src/App.tsx:45-56 | Each suggestion text is non-empty and has no white space at either end. |
| Improvements.Suggestions | src/App.tsx:58-66 | The result is exactly 5 items. Item k has the k-th drawn id and the text at position k of the shuffled list, with `completed` false and `addedByAI` true. The five texts are pairwise distinct members of the fixed list. |
| App.ToggleWellFormed | src/App.tsx:32-35 | Toggling keeps every text non-empty and trimmed, and keeps every AI-flagged item's text in the fixed list. |
| App.DeleteWellFormed | src/App.tsx:40 | Deleting keeps the list well formed. |
| App.AppendWellFormed | src/App.tsx:26 | Appending well-formed items to a well-formed list gives a well-formed list. |
| App.SuggestionsWellFormed | src/App.tsx:58-66 | The five suggested items are well formed. |
| App.AppendOpenKeepsCount | src/App.tsx:26 | Appending items that are not completed leaves the completed count unchanged. |
| App.SimpleTodoApp.constructor | src/App.tsx:5-6 | The component starts with no items and an empty input, and is valid. |
| App.SimpleTodoApp.SetNewTodo | src/App.tsx:110 | Typing replaces `newTodo` with the typed value and leaves the list unchanged. |
| App.SimpleTodoApp.AddTodo | src/App.tsx:18-29 | If the input is blank, neither the list nor the input changes. Otherwise the list is the old list followed by one item with the trimmed text, not completed and not added by AI, and the input becomes `""`. The completed count is unchanged and the invariant is kept whenever it held before. |
| App.SimpleTodoApp.ToggleTodo | src/App.tsx:31-37 | The list becomes `Toggle` of the old list, the input is unchanged, and the invariant is kept whenever it held before. |
| App.SimpleTodoApp.DeleteTodo | src/App.tsx:39-41 | The list becomes `Delete` of the old list, the input is unchanged, the completed count does not rise, and the invariant is kept whenever it held before. |
| App.SimpleTodoApp.GenerateImprovements | src/App.tsx:44-69 | The list is the unchanged old list followed by the five suggestions, so it grows by exactly 5. The input and the completed count are unchanged, and the invariant is kept whenever it held before. |
| App.SimpleTodoApp.CompletedCount | src/App.tsx:71-72 | `completedCount` is the number of positions holding a completed item, and is at most `totalCount`, the list length. |

## Left out

- Rendering, CSS classes, icons and the Enter key handler (src/App.tsx:74-214) are user interface only. The item list, the progress label and the empty-list message are not modelled.
- Loading and saving the list in `localStorage` through `JSON.parse`/`JSON.stringify` (src/App.tsx:9-16) is browser I/O through a foreign library. A list loaded from storage is not checked by the app. The handlers' contracts hold for any list, and `Valid()` is promised only after a call that started from a valid state.
- The progress-bar width `(completedCount / totalCount) * 100` (src/App.tsx:96-99) is floating-point arithmetic. Only the two integer counts are modelled.
- `Date.now()` and `Math.random()` (src/App.tsx:21, 59, 62) read the clock and a random source. The ids and the shuffle are method parameters. The model does not capture how likely id collisions are.
- Improvements.Suggestions: the shuffle is stated as an index permutation of the ten texts. It is not stated as a `multiset` equality on the shuffled array.
- React batches state and re-renders asynchronously. Handlers are modelled as atomic, serialized updates. `addTodo` builds from the `todos` value it closed over, while `generateImprovements` uses a functional update; under serialized events the two give the same result.
- JavaScript strings are UTF-16 code units, while Dafny's `char` is a Unicode scalar value. Every white-space code point that `trim` strips lies in the Basic Multilingual Plane, so for well-formed UTF-16 text trimming gives the same result either way. A JavaScript string may also hold unpaired surrogate code units, which a Dafny `string` cannot represent; such input is not modelled.
- src/App2.tsx is a truncated, non-compiling copy of `addTodo`. It uses the undefined names `fales` and `newTodoItem`, and its component returns nothing. It is dead code and is not modelled.
- src/api/openai.ts is a bare network POST to a chat-completion service. It has no response handling and uses names defined nowhere, so it is not modelled.
