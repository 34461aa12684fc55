# Kanban board card store, modelled in Dafny

A single-user kanban board keeps its cards under the `"cards"` key of the
browser's local storage. Each card has an id, a title, a description and a
status, and the board shows one column per status: "Not Started",
"In Progress" and "Completed". Three views work on that list:

- the board (`Home.tsx`) groups the cards by status and moves a dragged card
  to the column it is dropped on;
- the create form (`CreateCard.tsx`) appends a new card;
- the edit view (`Page.tsx`) loads one card into an edit buffer, then merges
  the buffer back into the stored list or deletes the card.

This project models the list operations of those three views and proves
what they do to the stored list.

## How the model is built

- `Cards` (cards.dfy) holds the shared pieces. A card is its numeric `id`
  plus a `map<string, string>` of its other keys. The object spread
  `{...a, ...b}` is then the map union `a + b`, with `b` winning on shared
  keys (`Spread`). The field update `{...prev, [name]: value}` is
  `prev[name := value]` (`Assign`). The class `CardStore` is the
  `"cards"` entry of local storage. Its `entry` is `None` when the key is
  absent or holds the empty string, since both are read as `"[]"`.
- `Editor` (editor.dfy) is `Page.tsx`. It has the pure list transforms
  `Find`, `EditBuffer`, `SaveAll` and `Remove`, and the class `Page`. `Page`
  holds the route's id and the `formState` buffer. Its methods are the
  mount effect and the four handlers.
- `Board` (board.dfy) is `Home.tsx`. It has the status rewrite `MoveAll`,
  the status filter `ByStatus`, the three-column `View`, and the class `Home`.
  `Home` holds the `cards` state, and its methods are `moveCard` and the drop
  callback.
- `Creator` (creator.dfy) is `CreateCard.tsx`. It has the initial form, the
  new card `NewCard`, the append, and the class `CreateCard`, which holds the
  form buffer.
- `Walkthrough` (walkthrough.dfy) is a client of the three views. One card
  is created, dragged, edited, reopened and deleted, and the column counts
  are checked at each step. The checks use the views' contracts, plus the
  definitions of the status filter and the delete filter on one-card lists.

The create path is modelled as written. The new card keeps the form's title,
but under the key `text` (CreateCard.tsx:30). It gets no `title` and no
`description` key, and it takes the clock reading as its id without
comparing it with the stored ids. The rest of the code reads a card's
`title` and `description`: the board's card shows those two keys
(Home.tsx:23, 41-42), and the edit view's form state declares them
(Page.tsx:4-9). So a newly created card shows no title and has no
description until it is edited. Ids stay unique only when the caller
supplies a fresh clock reading, and `Creator.AppendUniqueIds` states this
as an if-and-only-if.

Every status a card can get is one of the three column names: the text
inputs never write `status`, the radio buttons and the drop zones pass a
column name, and the create form starts with "Not Started". The model states
this as `OnBoard`, and each operation that writes storage keeps it. The
edit view's save needs a buffer whose status is a column name; loading from
such a list gives one, and every edit of the buffer keeps it. The
partition of the board into its three columns (`Board.ColumnsPartition`,
`Board.ViewCountsSum`) holds for every such list.

The clock reading (`Date.now()`) and the numeric route id (`Number(id)`) are
parameters. Navigation is a returned `Nav` value: `Navigate("/")` or
`Stay`. Each handler runs as one atomic step.

## Model

| member | source | states |
|---|---|---|
| `Cards.Assign` | src/components/Page.tsx:33 | `{...prev, [name]: value}` sets `name` to `value`, keeps every other key and value, and adds no other key |
| `Cards.Spread` | src/components/Page.tsx:44 | `{...card, ...buffer}` has the keys of both; the buffer's value wins on every key it has, and the card keeps its value on every other key |
| `Cards.SetField` | src/components/Home.tsx:56 | `{...card, status: newStatus}`: the id is kept, the named key gets the value, every other key keeps its value, and no other key is added |
| `Cards.Merge` | src/components/Page.tsx:44 | `{...card, ...formState}`: the buffer's id wins; the keys are those of both; the buffer's value wins on every key it has, and the card keeps its value on every other key |
| `Cards.AssignIdempotent` | src/components/Home.tsx:56 | writing the same key and value twice equals writing it once |
| `Cards.AssignCurrent` | src/components/Home.tsx:56 | writing a key its current value leaves the object unchanged |
| `Cards.SpreadIdempotent` | src/components/Page.tsx:44 | spreading the same buffer a second time changes nothing |
| `Cards.CardStore.Cards` | src/components/Page.tsx:17 | an absent or empty `"cards"` entry reads as the empty list; otherwise the stored list is read unchanged |
| `Cards.CardStore.Write` | src/components/Page.tsx:47 | after `setItem`, the entry holds exactly the written list |
| `Editor.Find` | src/components/Page.tsx:21 | the result is null exactly when no card has the id; otherwise it is the card at the first index whose id matches |
| `Editor.EditBuffer` | src/components/Page.tsx:31-38 | a null buffer stays null; otherwise the id is kept and only the named field changes |
| `Editor.SaveAll` | src/components/Page.tsx:42-45 | same length and order as the stored list; a card with another id is unchanged; a card with the route's id becomes that card spread with the buffer |
| `Editor.SaveAbsent` | src/components/Page.tsx:43-45 | saving when no stored card has the id writes back the same list |
| `Editor.SaveIdempotent` | src/components/Page.tsx:43-45 | saving the same buffer twice equals saving it once |
| `Editor.SaveKeepsBoard` | src/components/Page.tsx:43-45 | when every stored status is a column name and so is the buffer's, every status after the save is a column name |
| `Editor.SaveKeepsIds` | src/components/Page.tsx:43-45 | a buffer that carries the route's id keeps every stored id in place, so ids are unique after exactly when before |
| `Editor.Remove` | src/components/Page.tsx:55 | no card with the id remains; a card survives exactly when it was stored and has another id; survivors keep their relative order |
| `Editor.RemoveAbsent` | src/components/Page.tsx:55 | deleting an id that no card has leaves the list unchanged |
| `Editor.RemoveIdempotent` | src/components/Page.tsx:55 | deleting twice equals deleting once |
| `Editor.RemoveAppend` | src/components/Page.tsx:55 | deleting distributes over concatenation, so the order of the remaining cards is kept |
| `Editor.RemoveKeepsUnique` | src/components/Page.tsx:55 | deleting keeps unique ids unique |
| `Editor.RemoveKeepsBoard` | src/components/Page.tsx:55 | deleting keeps every remaining status a column name |
| `Editor.RemoveUniqueLength` | src/components/Page.tsx:55 | when ids are unique and the id is stored, exactly one card goes |
| `Editor.Page.constructor` | src/components/Page.tsx:12-14 | the view starts with the route's id and a null buffer |
| `Editor.Page.Load` | src/components/Page.tsx:16-29 | if a stored card has the route's id, the buffer becomes the first such card and nothing navigates; otherwise the buffer is unchanged and the result is a navigation to `/`; a card loaded from a store whose statuses are all column names has a column name as its status |
| `Editor.Page.InputChange` | src/components/Page.tsx:31-34 | called for the title and description inputs only (Page.tsx:75-97); the buffer changes only in the named field, a null buffer stays null, and a column status stays a column status |
| `Editor.Page.StatusChange` | src/components/Page.tsx:36-38 | called with a column name (Page.tsx:112); the buffer changes only in `status`, a null buffer stays null, and a loaded buffer's status is then a column name |
| `Editor.Page.Save` | src/components/Page.tsx:40-50 | with a null buffer, storage is unchanged and nothing navigates; otherwise storage holds the merge of the re-read list, ids stay unique exactly when they were, every status stays a column name when the buffer's is one, and the result is a navigation to `/` |
| `Editor.Page.Delete` | src/components/Page.tsx:52-61 | storage holds the re-read list without the route's id, no card with that id remains, unique ids stay unique, every status stays a column name, and the result is a navigation to `/` |
| `Board.MoveAll` | src/components/Home.tsx:55-57 | same length and order; a card with another id is unchanged; a card with the dragged id gets the new status and keeps all its other fields |
| `Board.MoveKeepsBoard` | src/components/Home.tsx:55-57 | a move to a column name keeps every status a column name |
| `Board.MoveAbsent` | src/components/Home.tsx:55-57 | moving an id that no card has leaves the list unchanged |
| `Board.MoveIdempotent` | src/components/Home.tsx:55-57 | moving twice to the same status equals moving once |
| `Board.MoveToCurrentStatus` | src/components/Home.tsx:55-57 | moving cards to the status they already have leaves the list value unchanged |
| `Board.MoveKeepsIds` | src/components/Home.tsx:55-57 | a move keeps every id in place, so ids are unique after exactly when before |
| `Board.ByStatus` | src/components/Home.tsx:68-69 | the cards of exactly that status, as a subsequence of the list in original order |
| `Board.ByStatusAppend` | src/components/Home.tsx:68-69 | the status filter distributes over concatenation, so it keeps both the order and the multiplicity of the cards it keeps |
| `Board.ByStatusCount` | src/components/Home.tsx:68-69 | the filter keeps each card of that status exactly as often as the list holds it, and no card of another status |
| `Board.ByStatusHead` | src/components/Home.tsx:69 | the first card goes to the group of its own status and to no other |
| `Board.ColumnsPartition` | src/components/Home.tsx:68-69 | when every status is a column name, the three groups together hold each card exactly as often as the list does, and their sizes add up to the list's length |
| `Board.ExactlyOneColumn` | src/components/Home.tsx:74 | when every status is a column name, a card lies in the group of its own status and in no other column's group |
| `Board.View` | src/components/Home.tsx:74-105 | three columns in the order Not Started, In Progress, Completed; each shows its status's group, and the count shown is that group's length |
| `Board.ViewCountsSum` | src/components/Home.tsx:82 | when every status is a column name, the three counts shown add up to the number of cards |
| `Board.Home.constructor` | src/components/Home.tsx:48-51 | the board starts with the stored list, or with the empty list when the key is absent |
| `Board.Home.Mount` | src/components/Home.tsx:63-66 | mounting reloads the stored list |
| `Board.Home.CardsByStatus` | src/components/Home.tsx:68-69 | the status filter over the board's cards: a subsequence in board order, holding each card of that status exactly as often as the board does, and no other card |
| `Board.Home.MoveCard` | src/components/Home.tsx:53-61 | the in-memory list becomes the move of the old in-memory list, storage holds that same list, and ids stay unique exactly when they were |
| `Board.Home.Drop` | src/components/Home.tsx:107-108 | a drop on a column's zone moves the dragged card to that column's status, persists the board, and keeps every status a column name |
| `Creator.NewCard` | src/components/CreateCard.tsx:28-33 | the new card's id is the clock reading; it has exactly the keys `text` (the form's title) and `status` (the form's status); it has no `title` and no `description` key |
| `Creator.AppendCard` | src/components/CreateCard.tsx:34 | one card longer; the stored cards come first, unchanged and in order; the new card is last |
| `Creator.AppendKeepsBoard` | src/components/CreateCard.tsx:28-34 | a form whose status is a column name appends a card whose status is one too, so every stored status stays a column name |
| `Creator.AppendUniqueIds` | src/components/CreateCard.tsx:29 | ids are unique after a create exactly when they were unique before and the clock reading is no stored id |
| `Creator.CreateCard.constructor` | src/components/CreateCard.tsx:13-17 | the form starts as title `""`, description `""`, status `"Not Started"`, a column name |
| `Creator.CreateCard.InputChange` | src/components/CreateCard.tsx:19-22 | called for the title and description inputs only (CreateCard.tsx:48-70); the form changes only in the named field, so its status stays a column name |
| `Creator.CreateCard.StatusChange` | src/components/CreateCard.tsx:23-25 | called with a column name (CreateCard.tsx:85); the form changes only in `status` |
| `Creator.CreateCard.Create` | src/components/CreateCard.tsx:26-38 | storage holds the re-read list with the new card appended; ids stay unique exactly when the clock reading is fresh; every status stays a column name; the result is a navigation to `/` |
| `Walkthrough.CreateDraft` | src/components/CreateCard.tsx:13-38 | creating "Draft spec" on an empty store leaves one card, in "Not Started" |
| `Walkthrough.DragDraft` | src/components/Home.tsx:53-108 | the board first shows the card under "Not Started"; after the drop on "In Progress", the counts shown are 0, 1 and 0 |
| `Walkthrough.SaveDraft` | src/components/Page.tsx:16-50 | the edit view loads the card and saves description "v2"; the stored card keeps its id and status, and the counts shown stay 0, 1 and 0 |
| `Walkthrough.ReopenAndDelete` | src/components/Page.tsx:16-61 | after a board reload, the reopened edit view's buffer has description "v2"; deleting the card then leaves the store empty, and all counts are 0 |
| `Walkthrough.DraftSpec` | src/components/Home.tsx:74-82 | after the whole lifecycle on an empty store, the board shows three columns that all count 0 |

## Left out

- Rendering, CSS classes, header colours and the `isDragging` opacity: these are presentation only.
- The router and `App.tsx`: navigation is a returned `Nav` value. A card's click-through to `/page/{id}` is left out, since it only builds a route.
- react-dnd internals (`useDrag`, `useDrop`, `DndProvider`): only the drop callback's arguments are modelled, as `Board.Home.Drop`.
- JSON serialisation: stored content that `JSON.parse` rejects makes the source throw. That path is not modelled, and the model has no fail-open for it.
- `Number(id)` parsing, including a route id that parses to `NaN` and so matches no card: the route id is an integer parameter.
- `Date.now()`: the clock reading is an integer parameter.
- `console.log` and `console.error`: these only log.
- React state scheduling (`setState` updaters, `useEffect` timing): each handler is one atomic step. The edit view's mount effect runs once, for a fixed route id.
- `Editor.EditBuffer`: requires a field name other than `id`. An `id` edit would also change the id's JavaScript type, which the model does not represent.
- `Editor.Page.InputChange` and `Creator.CreateCard.InputChange`: require the name `title` or `description`, because these are the only inputs wired to `handleInputChange` (Page.tsx:75-97, CreateCard.tsx:48-70). A call with `status` or any other name cannot happen in the source and is not modelled.
- The card's `id` is kept apart from its other keys. Stored cards are not required to lack an `id` entry among their other keys, because no operation writes one.
