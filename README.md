# Kanban card reducer, in Dafny

This project models the card store of PomodoroLogger's kanban board. It covers the
reducer that maps the current card collection (card id to card) and one event to a new
collection. It also covers the loop that turns the list of stored cards into that
collection when the board is loaded.

- `CardTypes` (card_types.dfy): a card, its subtasks and its time pair
  `spentTimeInHour {estimated, actual}`. Hours are `real`: JavaScript numbers are
  idealised, so sums are exact here where floating point would round.
  A map value is an `Entry`. It is either a `Full` card or a `Partial` object. A `Partial`
  object is what renaming or setting the content of an id that is not in the state
  inserts: the handler spreads `undefined`, so the new object has only `title` or
  `content`, and maybe `subTasks` later.
- `SubTasks` (subtasks.dfy): the `.map` and `.filter` edits of a subtask sequence:
  toggle `completed`, set `title`, remove by id.
- `CardReducer` (card_reducer.dfy): the `Event` datatype, one function per handler, and
  `Apply`, the reducer. `Handled(state, e)` says when a handler runs without throwing:
  - time and session events read `state[id].spentTimeInHour` or `state[id].sessionIds`,
    so they need a full card under the id;
  - subtask events read `state[cardId].subTasks`, so they need some entry under the id;
  - add, rename, set content, delete and set cards always run.
- `CardLaws` (card_laws.dfy): properties across several events. These cover additivity
  of `actual`, the halves of the time pair staying independent, round trips, repeating
  an event, and what happens to a deleted id. `Run` dispatches a list of events in order.
- `CardFetch` (card_fetch.dfy): the map-building loop of `fetchCards`, as a method proved
  against a fold function, and what the state looks like after `SetCards` installs the
  result.

Two nondeterministic inputs are parameters. The card's creation time comes in the
`AddCard` event: `givenCreatedTime` when the payload has one, otherwise `clock`, the
time the reducer would have read. The subtask id and timestamp come in the `SubTask`
value carried by `AddSubTask`.

An event on an id that is not in the collection is not ignored. Only `DeleteCard` leaves
the state as it was (action.ts:250-253). `RenameCard` and `SetContent` insert a partial
entry (action.ts:204-222). The time, session and subtask handlers dereference `state[id]`
and throw (action.ts:230, 244, 262, 270-277, 285-290, 296-297, 311-312, 324-325).
`CardLaws.EventsAfterDelete` states this for an id that was just deleted.

## Model

| member | source | states |
|---|---|---|
| `CardReducer.Apply` | src/renderer/components/Kanban/Card/action.ts:182-335 | every event except `SetCards` leaves all other keys and entries as they were; only delete removes a key; only add, rename and set content can add one |
| `CardReducer.Handled` | src/renderer/components/Kanban/Card/action.ts:224-334 | when a handler runs without throwing: add, rename, set content, delete and set cards always do; every other event throws unless its card id is in the state (time and session events further need a full card, since they read `spentTimeInHour` or `sessionIds`) |
| `CardReducer.AddCardTo` | src/renderer/components/Kanban/Card/action.ts:184-201 | the card under the id is new, overwriting any entry: it has the id, no sessions, zeroed times and an empty subtask sequence; title and content default to the empty string and the creation time to the clock; other cards unchanged |
| `CardReducer.Rename` | src/renderer/components/Kanban/Card/action.ts:204-212 | only the title of the entry changes (putting the old title back gives the old card); an absent id gets a bare `{title}` entry; other cards unchanged |
| `CardReducer.SetContentOf` | src/renderer/components/Kanban/Card/action.ts:214-222 | only the content of the entry changes; an absent id gets a bare `{content}` entry; other cards unchanged |
| `CardReducer.WithTime` | src/renderer/components/Kanban/Card/action.ts:224-248 | the card gets the new time pair and keeps every other property; key set and other cards unchanged |
| `CardReducer.SetEstimated` | src/renderer/components/Kanban/Card/action.ts:224-235 | the estimate becomes the new value, `actual` is copied from the current card, nothing else on the card or in the state changes |
| `CardReducer.SetActual` | src/renderer/components/Kanban/Card/action.ts:237-248 | `actual` becomes the new value, the estimate is copied from the current card, nothing else changes |
| `CardReducer.Delete` | src/renderer/components/Kanban/Card/action.ts:250-253 | the key set loses the id, every remaining entry is identical, and a missing id gives back an equal map |
| `CardReducer.Replace` | src/renderer/components/Kanban/Card/action.ts:255 | the state becomes the payload: same keys, each the payload's card |
| `CardReducer.AddActual` | src/renderer/components/Kanban/Card/action.ts:256-267 | `actual` grows by exactly `plus`, the estimate and every other property stay |
| `CardReducer.AddSessionTo` | src/renderer/components/Kanban/Card/action.ts:269-282 | the session log grows by one, with the old log as prefix and the new id last; `actual` grows by the session's hours; the estimate and the rest of the card stay |
| `CardReducer.WithSubTasksAt` | src/renderer/components/Kanban/Card/action.ts:286-291 | the entry gets the new subtask sequence and keeps every other property; other cards unchanged |
| `CardReducer.AddSubTaskTo` | src/renderer/components/Kanban/Card/action.ts:284-293 | the subtask is appended at the end, an absent sequence counting as empty; nothing else changes |
| `CardReducer.ToggleSubTaskIn` | src/renderer/components/Kanban/Card/action.ts:295-308 | the state is unchanged when the card has no subtask sequence; otherwise only the sequence changes, to its toggled form |
| `CardReducer.DeleteSubTaskIn` | src/renderer/components/Kanban/Card/action.ts:310-321 | the state is unchanged when the card has no subtask sequence; otherwise only the sequence changes, to the one without the id |
| `CardReducer.UpdateSubTaskIn` | src/renderer/components/Kanban/Card/action.ts:323-334 | the state is unchanged when the card has no subtask sequence; otherwise only the sequence changes, to its retitled form |
| `SubTasks.Toggle` | src/renderer/components/Kanban/Card/action.ts:303-305 | same length, order, ids and titles; `completed` flips exactly where the id matches; a sequence without the id is unchanged |
| `SubTasks.Retitle` | src/renderer/components/Kanban/Card/action.ts:331 | same length, order, ids and `completed`; the title changes exactly where the id matches; a sequence without the id is unchanged |
| `SubTasks.Remove` | src/renderer/components/Kanban/Card/action.ts:318 | no subtask with the id is left, and the result is no longer than the input |
| `SubTasks.RemoveMembers` | src/renderer/components/Kanban/Card/action.ts:318 | a subtask is in the result exactly when it was in the input and has another id |
| `SubTasks.RemoveConcat` | src/renderer/components/Kanban/Card/action.ts:318 | removing distributes over concatenation, so relative order is kept |
| `SubTasks.RemoveAbsent` | src/renderer/components/Kanban/Card/action.ts:318 | removing an id that no subtask carries changes nothing |
| `SubTasks.AppendThenRemove` | src/renderer/components/Kanban/Card/action.ts:284-321 | appending a subtask with a new id and removing that id gives the sequence back |
| `SubTasks.ToggleTwice` | src/renderer/components/Kanban/Card/action.ts:303-305 | toggling the same id twice is the identity |
| `SubTasks.RetitleTwice` | src/renderer/components/Kanban/Card/action.ts:331 | retitling the same id twice keeps only the second title |
| `SubTasks.ToggleRetitleCommute` | src/renderer/components/Kanban/Card/action.ts:295-334 | toggling and retitling commute |
| `CardLaws.Run` | src/renderer/components/Kanban/Card/action.ts:182-335 | dispatching events in order, stopping at the first handler that would throw; a one-event run succeeds exactly when that event is handled, and then gives the reducer's result |
| `CardLaws.RunAppend` | src/renderer/components/Kanban/Card/action.ts:182-335 | dispatching `a` then `b` is dispatching `a + b`, and a throw in `a` stops the whole run |
| `CardLaws.AddActualTimeAdditive` | src/renderer/components/Kanban/Card/action.ts:256-267 | adding `d1` and then `d2` is the same state as adding `d1 + d2` |
| `CardLaws.SetTimesCommute` | src/renderer/components/Kanban/Card/action.ts:224-248 | setting the estimate and setting `actual` give the same state in either order |
| `CardLaws.SetActualAfterAdd` | src/renderer/components/Kanban/Card/action.ts:237-267 | setting `actual` after an increment is the same as setting it directly |
| `CardLaws.SessionTimeIsAddActual` | src/renderer/components/Kanban/Card/action.ts:256-282 | a session changes the time pair exactly as an increment by its hours |
| `CardLaws.TwoSessions` | src/renderer/components/Kanban/Card/action.ts:269-282 | two sessions log both ids in order and add both durations; the estimate stays |
| `CardLaws.EstimateSurvives` | src/renderer/components/Kanban/Card/action.ts:224-282 | any run of events that neither sets this card's estimate nor adds, deletes or replaces this card keeps the card and its estimate |
| `CardLaws.ActualSurvives` | src/renderer/components/Kanban/Card/action.ts:224-282 | any run of events with no set, increment or session on this card, and no add, delete or replace of it, keeps the card and its `actual` |
| `CardLaws.ActualNeverDecreases` | src/renderer/components/Kanban/Card/action.ts:237-282 | with non-negative increments and no set of `actual` on this card (and no add, delete or replace of it), `actual` never decreases |
| `CardLaws.SessionLogGrows` | src/renderer/components/Kanban/Card/action.ts:269-282 | any run of events that does not re-add, delete or replace this card keeps it, and its old session log stays a prefix of the new one |
| `CardLaws.AddThenDeleteCard` | src/renderer/components/Kanban/Card/action.ts:184-253 | adding a card and deleting it is the same as deleting the id; on a fresh id, the state comes back unchanged |
| `CardLaws.RenameTwice` | src/renderer/components/Kanban/Card/action.ts:204-212 | renaming twice is the same as renaming once to the last title |
| `CardLaws.SetContentTwice` | src/renderer/components/Kanban/Card/action.ts:214-222 | setting the content twice is the same as setting it once to the last content |
| `CardLaws.EventsAfterDelete` | src/renderer/components/Kanban/Card/action.ts:204-253 | after a delete the id is absent; a rename brings back a bare `{title}` entry; time, session and subtask events on it would throw |
| `CardLaws.AddThenDeleteSubTask` | src/renderer/components/Kanban/Card/action.ts:284-321 | adding a subtask with a new id and deleting that id restores the card, with an absent sequence coming back empty; with a present sequence the whole state comes back |
| `CardLaws.ToggleSubTaskTwice` | src/renderer/components/Kanban/Card/action.ts:295-308 | toggling the same subtask twice gives back the state |
| `CardLaws.UpdateSubTaskTwice` | src/renderer/components/Kanban/Card/action.ts:323-334 | updating a subtask twice is the same as updating it once to the last title |
| `CardLaws.NewCardScenario` | src/renderer/components/Kanban/Card/action.ts:184-201 | on an empty board, adding "Buy milk" gives exactly one card with empty content, zeroed times, no sessions and no subtasks |
| `CardLaws.TimerScenario` | src/renderer/components/Kanban/Card/action.ts:269-282 | two finished timers of 1.5 and 0.5 hours log `s1`, `s2` and bring `actual` from 0 to 2 |
| `CardFetch.CardMap` | src/renderer/components/Kanban/Card/action.ts:83-86 | the map built from a card list has exactly the listed ids as keys, and each key holds a listed card carrying that id |
| `CardFetch.CardMapLastWins` | src/renderer/components/Kanban/Card/action.ts:84-86 | when ids repeat, the last card in the list with that id is the one kept |
| `CardFetch.FetchCards` | src/renderer/components/Kanban/Card/action.ts:81-89 | the loop builds exactly the fold `CardMap` of the list |
| `CardFetch.LoadedState` | src/renderer/components/Kanban/Card/action.ts:84-88 | after `SetCards` with the loaded map, the state has exactly the listed ids, each holding a full card with that id, the last listed one for a repeated id |

## Left out

- The asynchronous thunks (action.ts:90-179): each command's `db.update`, `db.insert`, `db.remove` and `db.findOne` against the document store in a worker. The store's code is not part of this model, and these calls are fire-and-forget I/O. That includes the read-then-write persistence of a toggle.
- The owning-list calls `listActions.addCardById` and `listActions.deleteCard`, and their order against dispatch. The list module is not part of this model.
- `shortid.generate()` and `+new Date()`: they become values carried by the events (`AddCard.clock`, `AddCard.givenCreatedTime`, the `SubTask` in `AddSubTask`).
- The `deox` plumbing (`createActionCreator`, `createReducer`): it is replaced by the `Event` datatype and the match in `Apply`. Action types the reducer does not handle, and the initial state `{}`, are not modelled.
- Floating-point hours: times are reals, so `AddActualTimeAdditive` and the scenario sums hold exactly here. They would not hold exactly for JavaScript doubles.
- Throwing handlers: a handler that would throw (see `Handled`) is excluded by a precondition, and `Run` stops there. The exception itself is not modelled.
- JavaScript object details: key order after a spread, and keys such as `__proto__`, are not modelled.
- The card editor modal (CardEditor.tsx): form state, hotkeys, markdown preview, styling and which commands it dispatches on save. It is view code.
