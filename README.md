# kanban-tui board model

A Dafny model of the data logic of `kanban-tui`, a terminal kanban board.
The board is an ordered list of columns, each an ordered list of cards; a
card is known only by its (label, description) pair, a missing description
counting as the empty string.  The action handlers of `KanbanApp` change
the in-memory board and save the whole board to the data file, or change
nothing and do not save, with these exceptions, all modelled:
- `action_add_card` replaces an empty board by the default board before its
  dialog opens and does not save that, even when the dialog is cancelled
  (board.py:258-261);
- `action_delete_card` saves even when no card matched (board.py:307-314);
- `action_rename_column`, once its dialog returns a title, saves a board it
  never changes (board.py:428-438);
- `action_edit_card`, once its dialog returns a title, saves an unchanged board when
  no stored card already carries the new label and description
  (board.py:382-394).

The model pulls that logic out of the widget code:

- `options.dfy` — module `Options`: the `Option` type shared by the modules that use it.
- `board_model.dfy` — module `BoardModel`: cards, columns, boards, and the
  pure data step of every handler (the filter comprehension, move, delete,
  append, first-match lookups, the edit and rename steps as written and as
  intended).
- `board_facts.dfy` — module `BoardFacts`: what those steps promise — how
  many times each card occurs on the board afterwards, order of the
  surviving cards, idempotence, and why the edit and rename steps as written
  change (almost) nothing.
- `storage.dfy` — module `Storage`: `get_default_data`, and `load_board` /
  `save_board` as methods of a `Store` object whose file is `Absent`,
  `Corrupt` or `Holds(board)`; a ghost counter `writes` counts saves.
- `dialogs.dfy` — module `Dialogs`: what the card and column dialogs hand to
  the action callbacks (the non-empty-title gate), and the buttons of the
  confirmation dialog.
- `focus.dfy` — module `FocusNav`: keyboard focus movement over a jagged
  grid given as per-column card counts.
- `drag.dfy` — module `Drag`: points, column regions, the first column whose
  region contains the release point (a loop, proved against a recursive
  specification), and the pointer-following offset.
- `app.dfy` — module `App`: the `KanbanApp` class with the board, the store
  and the drag state as fields, and one method per handler that changes the
  board or the drag state; card and column widgets are small classes holding
  the fields the handlers read or overwrite.  The focus actions
  (`action_focus_up/down/left/right`) are the `FocusNav` functions, and
  `action_view_card_details` is left out (see "## Left out").
- `findings.dfy` — module `Findings`: concrete inputs on which the code as
  written differs from its evident intent.

The app methods model the code as written, including its defects.  Each
method that changes the board is proved against a pure data step (of
`BoardModel`, or `Storage.DefaultBoard` for `ClearBoard`) and states whether
a save happened (`store.file == Holds(board)` and one more write) or not
(`unchanged(store)`).  Column widgets are mounted in board order, so a
widget's position is used directly as a column index; the methods that index
the board by a focused widget's position require that position to be in
range.

Where the code departs from what its own docstrings or evident intent say,
the model keeps the code as written and states the intended behaviour
beside it (see "## Findings"):
- `action_delete_card`'s docstring says it deletes "the currently focused
  card" (board.py:299); the code removes every card with that label and
  description, in every column (`DeleteMatching`);
- `_move_card`'s docstring says it moves "the focused card left or right"
  (board.py:317); the code removes every match from the source column and
  appends one copy without details (`MoveCard`);
- the edit handler evidently means to update the card being edited; it
  looks the stored card up after overwriting the widget, i.e. by the new
  values (`EditFirstMatch`), and the rename handler does the same with the
  title (`RenameFirstTitled`);
- `action_focus_right` evidently mirrors `action_focus_left`; it reads
  `target_column_index`, a name it never binds, and raises NameError
  whenever a column lies to the right (`FocusRight`).

The focus actions act only when a card has focus, so from a focused column
(the anchor of an empty column) none of them moves.  This is the code's
behaviour, not a departure from intent: both the as-written and the intended
focus functions keep it (`ActionsKeepAnchors`, `Findings.JaggedGridRight`).

## Model

| member | source | states |
|---|---|---|
| `BoardModel.DescriptionOf` | kanban-tui/board.py:310 | a missing description reads as the empty string, exactly as `card.get("description", "")` |
| `BoardModel.Matches` | kanban-tui/board.py:310 | the identity test used by drag, delete, move and edit (board.py:233, 340, 384): same label, and the description equal or missing and compared with "" |
| `BoardModel.MovedCard` | kanban-tui/board.py:332-335 | the card a move appends has the moved identity and no details |
| `BoardModel.RemoveMatches` | kanban-tui/board.py:338-341 | the filter keeps exactly the cards that do not match the identity |
| `BoardModel.MoveCard` | kanban-tui/board.py:337-344 | a move keeps column count and titles, leaves other columns alone, empties the source of the identity and puts one detail-less card at the target's tail |
| `BoardModel.DeleteMatching` | kanban-tui/board.py:307-311 | delete filters every column by the identity and keeps the column count |
| `BoardModel.AppendToFirstColumn` | kanban-tui/board.py:269 | a new card goes to the tail of column 0, other columns unchanged |
| `BoardModel.AppendColumn` | kanban-tui/board.py:286-287 | a new empty column goes after the existing, unchanged columns |
| `BoardModel.DeleteColumnAt` | kanban-tui/board.py:415 | exactly the given column goes; the others keep their order |
| `BoardModel.FirstMatchIn` | kanban-tui/board.py:383-388 | the index found is the first matching card of the column, or there is none |
| `BoardModel.FirstMatch` | kanban-tui/board.py:382-391 | the position found is the first match in column order, or no card matches |
| `BoardModel.EditFirstMatch` | kanban-tui/board.py:382-391 | the edit as written keeps the column count, every title and every column's length; the first match of the looked-up values receives the label, description and details, and with no match the board is unchanged; `EditFirstMatchKeepsIdentities` and `EditFirstMatchChangesOne` state that no other card changes |
| `BoardModel.SetCardAt` | kanban-tui/board.py:385-387 | the edit overwrites one card's three fields and nothing else |
| `BoardModel.FirstTitled` | kanban-tui/board.py:432-435 | the index found is the first column with that title, or there is none |
| `BoardModel.RenameFirstTitled` | kanban-tui/board.py:432-435 | the rename loop keeps every column's cards, and a title changes only from the looked-up title to the new one |
| `BoardModel.RenameAt` | kanban-tui/board.py:428-434 | the intended rename retitles exactly the focused column |
| `BoardFacts.RemoveMatchesCensus` | kanban-tui/board.py:308-311 | a matching card disappears entirely; any other card keeps its count |
| `BoardFacts.RemoveMatchesAppend` | kanban-tui/board.py:308-311 | the filter distributes over concatenation, so surviving cards keep their order |
| `BoardFacts.RemoveMatchesNoMatch` | kanban-tui/board.py:338-341 | a column without a match is left exactly as it was |
| `BoardFacts.MoveCardCensus` | kanban-tui/board.py:337-344 | after a move each card's count is unchanged, except that source copies of the identity are gone and one detail-less copy is added |
| `BoardFacts.DeleteMatchingCensus` | kanban-tui/board.py:307-311 | after a delete no card with the identity is left, and other cards keep their counts |
| `BoardFacts.DeleteMatchingIdempotent` | kanban-tui/board.py:307-311 | deleting the same identity twice equals deleting it once |
| `BoardFacts.AppendToFirstColumnCensus` | kanban-tui/board.py:266-269 | adding a card adds exactly one copy of it to the board |
| `BoardFacts.AppendColumnKeepsCards` | kanban-tui/board.py:286-287 | adding a column leaves the board's cards unchanged |
| `BoardFacts.DeleteColumnCensus` | kanban-tui/board.py:415 | deleting a column deletes exactly the cards it held |
| `BoardFacts.EditFirstMatchKeepsIdentities` | kanban-tui/board.py:376-391 | the edit as written keeps every card's position and identity, and with no match keeps the board |
| `BoardFacts.EditFirstMatchChangesOne` | kanban-tui/board.py:382-391 | the edit as written changes no card other than the first match of the looked-up values, and a changed card holds the new fields |
| `BoardFacts.RenameFirstTitledSame` | kanban-tui/board.py:428-435 | the rename as written never changes the board |
| `BoardFacts.DeleteFirstMatchCensus` | kanban-tui/board.py:298-311 | the intended delete removes exactly one copy of the first match, or nothing; the rest of its column keeps its order and every other column is untouched |
| `BoardFacts.MoveFirstMatchConserves` | kanban-tui/board.py:316-344 | the intended move takes the first match out of the source column, appends that same card, details included, to the target's tail, leaves other columns alone and keeps every card's count; with no match in the source nothing moves |
| `BoardFacts.EditByIdentityWrites` | kanban-tui/board.py:366-391 | the intended edit writes the new fields into the card with the old identity; every other card, every title and the column count stay as they were |
| `Storage.DefaultBoard` | kanban-tui/storage.py:8-16 | three columns "Input Queue", "In Progress", "Done", all empty |
| `Storage.LoadedBoard` | kanban-tui/storage.py:18-33 | `load_board` returns the stored board, and for an absent or undecodable file a board of three empty columns |
| `Storage.FileAfterLoad` | kanban-tui/storage.py:23-33 | after `load_board` the file exists; only an absent file is written, with the default board |
| `Storage.LoadIsStable` | kanban-tui/storage.py:18-33 | a second load returns the same board and never writes |
| `Storage.LoadKeepsPresentFile` | kanban-tui/storage.py:28-33 | a present file is never written by a load; a stored board is returned, a corrupt file gives the default |
| `Storage.Store.Save` | kanban-tui/storage.py:35-38 | the whole document is replaced by the board; one write |
| `Storage.Store.Load` | kanban-tui/storage.py:18-33 | absent: the default is written and returned; corrupt: the default is returned and the file left alone; holding a board: that board is returned without writing |
| `Storage.SaveThenLoad` | kanban-tui/tests/test_storage.py:27-38 | a load after saving B returns B, with exactly one write |
| `Dialogs.CardDialogResult` | kanban-tui/board.py:82-92 | fields are handed on exactly when Save is pressed with a non-empty title |
| `Dialogs.ColumnDialogResult` | kanban-tui/board.py:114-122 | a title is handed on exactly when Save is pressed with a non-empty title |
| `FocusNav.FocusUp` | kanban-tui/board.py:452-460 | from a card, the card above in the same column, or no move at the top; otherwise a no-op |
| `FocusNav.FocusDown` | kanban-tui/board.py:462-470 | from a card, the card below in the same column, or no move at the bottom; otherwise a no-op |
| `FocusNav.EnterColumn` | kanban-tui/board.py:484-487 | entering a column lands on its first card, or on the column when it is empty |
| `FocusNav.FocusLeft` | kanban-tui/board.py:472-487 | from a card not in column 0, enter the column to the left; otherwise a no-op |
| `FocusNav.FocusRight` | kanban-tui/board.py:489-504 | from a card with a right neighbour, NameError on `target_column_index`; otherwise a no-op |
| `FocusNav.FocusRightIntended` | kanban-tui/board.py:489-504 | from a card not in the last column, enter the column to the right; otherwise a no-op |
| `FocusNav.UpDownInverse` | kanban-tui/board.py:452-470 | up and down undo each other away from the column ends |
| `FocusNav.LeftThenRight` | kanban-tui/board.py:472-504 | left then intended right returns to the first card of the starting column, or stays on an empty left column |
| `FocusNav.ActionsKeepAnchors` | kanban-tui/board.py:454-491 | no focus action moves focus away from a focused column |
| `Drag.FirstContaining` | kanban-tui/board.py:215-219 | the target is the first column, left to right, whose region contains the point, or none contains it |
| `Drag.ResolveTarget` | kanban-tui/board.py:215-219 | the release loop returns exactly that first containing column |
| `Drag.FollowsPointer` | kanban-tui/board.py:204-210 | the drawn offset is the start offset plus the pointer's displacement, so no jump at the press point |
| `App.CardWidget.constructor` | kanban-tui/board.py:16-19 | a card widget starts with the given label, description, details |
| `App.KanbanApp.constructor` | kanban-tui/board.py:172-196 | the app starts Idle with the board `load_board` gives |
| `App.KanbanApp.StartDragging` | kanban-tui/board.py:202-206 | Dragging that card, with grab offset pointer minus card offset |
| `App.KanbanApp.DragMove` | kanban-tui/board.py:208-210 | while Dragging the card's offset is its start offset plus the pointer's displacement and its label, description, details and column are kept; while Idle nothing changes |
| `App.KanbanApp.EndDragging` | kanban-tui/board.py:212-244 | Idle afterwards; the move and one save happen only when released over a column other than the card's own |
| `App.KanbanApp.AddCard` | kanban-tui/board.py:255-280 | empty board replaced by the default (unsaved) before the dialog; on Save with a title the card goes to column 0 and one save; otherwise nothing more |
| `App.KanbanApp.DeleteCard` | kanban-tui/board.py:298-314 | with a focused card, every match goes and one save, even with no match; otherwise nothing |
| `App.KanbanApp.MoveFocusedCard` | kanban-tui/board.py:316-364 | target in range: the move and one save; out of range or no focused card: no change, no save |
| `App.KanbanApp.EditCard` | kanban-tui/board.py:366-396 | on Save with a title: widget's label, description and details overwritten (column and offset kept), board edited by the new values, one save; otherwise board, store and widget unchanged |
| `App.KanbanApp.AddColumn` | kanban-tui/board.py:282-296 | on Save with a title: the column is appended and one save; otherwise nothing |
| `App.KanbanApp.DeleteColumn` | kanban-tui/board.py:403-418 | with a focused column, exactly that column goes and one save; otherwise nothing |
| `App.KanbanApp.RenameColumn` | kanban-tui/board.py:420-440 | on Save with a title: widget retitled (position kept), board unchanged, one save; otherwise board, store and widget unchanged |
| `App.KanbanApp.ClearBoard` | kanban-tui/board.py:442-450 | the confirmation (board.py:143-144) gates it: "yes" gives the default board, with no card, and one save; "no" leaves board and store unchanged |
| `App.FreshInstallSession` | kanban-tui/board.py:255-348 | from an absent file: add "Review", add "Fix bug", move it right; the file holds exactly the final board |
| `Findings.DeleteRemovesEveryCopy` | kanban-tui/board.py:307-311 | two identical cards: delete removes both, the intended delete one |
| `Findings.MoveLosesDuplicates` | kanban-tui/board.py:337-344 | two identical cards: the move leaves one detail-less copy, the intended move relocates one |
| `Findings.EditLooksUpNewValues` | kanban-tui/board.py:376-388 | editing "a" into "b" leaves the board unchanged; the intended edit relabels it |
| `Findings.RenameLooksUpNewTitle` | kanban-tui/board.py:428-435 | renaming "Done" leaves the board unchanged; the intended rename retitles it |
| `Findings.FocusRightRaises` | kanban-tui/board.py:500 | right from a card with a right neighbour raises NameError; intended: that column's first card |
| `Findings.JaggedGridRight` | kanban-tui/board.py:489-504 | on a 2/0/1 grid, right from the first card should reach the empty column's anchor, and from there nothing moves |

## Left out

- Rendering and widget plumbing: `compose`, `render`, CSS, `mount`/`remove`, `refresh`, `add_class`/`remove_class`, the `display` toggling during a drop, and `rebuild_board`'s remounting; only their effect on the board and on indices is modelled.
- Focus after a mutation: `focus()` calls, the re-focus loop after a move and its `print` (board.py:350-356); the focus functions take the layout as card counts and do not track which widget holds focus.
- `action_view_card_details` and `CardDetailScreen`: display only, no data change.
- Mouse event forwarding in `Card.on_mouse_*` and key-binding dispatch, including the duplicate `left`/`right` bindings, whose precedence the widget library decides.
- Region geometry: a column region is an integer rectangle with half-open containment; the library's own region test is not modelled.
- JSON text, indentation, `DATA_FILE` and the home directory: the file is only `Absent`, `Corrupt` or `Holds(board)`; a decodable document that is not a board is not modelled.
- Storage.LoadedBoard: `Corrupt` stands for a file whose text is not valid JSON, an empty file included, the one error `load_board` catches (storage.py:28-33); a file whose bytes do not decode as text (`UnicodeDecodeError`) or that cannot be opened (`OSError`) makes `load_board` raise, and those errors are not modelled.
- Widget/data agreement: that column widgets mirror the board's columns in order is a precondition (`requires` on the widget's position) rather than modelled widget state; a card widget's text may differ from the stored card, and the handlers take identity from the widget as the code does.
- App.KanbanApp.DragMove: "nothing changes while Idle" is not an ensures clause; it follows from the frame, which is the dragged widget only and so empty while Idle.

## Findings

The app methods above keep the behaviour as written; the corrected definitions are stated and proved beside them.

| source | as written | input that shows it | evidently intended | confidence | as-written member | corrected member |
|---|---|---|---|---|---|---|
| kanban-tui/board.py:307-311 | delete drops every card with the focused card's identity, in every column | one column holding two equal cards ("x", "") | drop only the focused card, the first match | not executed | `Findings.DeleteRemovesEveryCopy` | `BoardFacts.DeleteFirstMatchCensus` |
| kanban-tui/board.py:337-344 | a move drops every match from the source column and appends one copy without details | a column with two equal cards ("x", "", "notes") moved right | relocate the one card, details included | not executed | `Findings.MoveLosesDuplicates` | `BoardFacts.MoveFirstMatchConserves` |
| kanban-tui/board.py:376-388 | the stored card is looked up after the widget was overwritten, by the new label and description | card "a" edited into "b" | look the card up by its old label and description | not executed | `Findings.EditLooksUpNewValues` | `BoardFacts.EditByIdentityWrites` |
| kanban-tui/board.py:428-435 | the stored column is looked up by the new title, so the title written is the one already there | column "Done" renamed "Shipped" | retitle the focused column | not executed | `Findings.RenameLooksUpNewTitle` | `BoardModel.RenameAt` |
| kanban-tui/board.py:500 | `target_column_index` is never bound in `action_focus_right` | focus on a card of the first of two columns, press right | enter the column to the right, as `action_focus_left` does leftwards | not executed | `Findings.FocusRightRaises` | `FocusNav.FocusRightIntended` |
