/** The data side of `KanbanApp` (kanban-tui/board.py:167-504): the board it
    keeps in memory, the store it saves to, the drag state, and one method
    per action handler.  Widgets appear only as far as the handlers read or
    write them: a card widget's label, description, details, column and
    drawing offset, and a column widget's title and position. */
module App {
  import opened Options
  import opened BoardModel
  import opened BoardFacts
  import opened Storage
  import opened Dialogs
  import opened Drag

  /** A card widget.  Its fields may disagree with the stored card: the edit
      handler overwrites them before it looks the stored card up. */
  class CardWidget {
    var name: string
    var description: string
    var details: string
    /** Position of the column widget holding this card, in widget order. */
    var column: nat
    var offset: Point

    constructor (name: string, description: string, details: string, column: nat)
      ensures this.name == name && this.description == description && this.details == details
      ensures this.column == column && offset == Point(0, 0)
    {
      this.name := name;
      this.description := description;
      this.details := details;
      this.column := column;
      offset := Point(0, 0);
    }
  }

  /** A column widget: its title label and its position in widget order. */
  class ColumnWidget {
    var title: string
    var index: nat

    constructor (title: string, index: nat)
      ensures this.title == title && this.index == index
    {
      this.title := title;
      this.index := index;
    }
  }

  /** What `self.focused` is when an action runs. */
  datatype Focused = OnCard(card: CardWidget) | OnColumn(column: ColumnWidget) | Elsewhere

  class KanbanApp {
    var board: Board
    const store: Store
    /** `_drag_card`: null while Idle. */
    var dragCard: CardWidget?
    /** `_drag_offset_x`, `_drag_offset_y`. */
    var dragOffset: Point
    /** Pointer position and card offset at the press that began the drag. */
    ghost var pressedAt: Point
    ghost var startOffset: Point

    ghost predicate DragConsistent()
      reads this
    {
      dragCard != null ==> dragOffset == Sub(pressedAt, startOffset)
    }

    /** `__init__` and `on_mount`: Idle, with the board `load_board` gives. */
    constructor (s: Store)
      modifies s
      ensures store == s && dragCard == null
      ensures board == LoadedBoard(old(s.file))
      ensures s.file == FileAfterLoad(old(s.file))
      ensures s.writes == if old(s.file).Absent? then old(s.writes) + 1 else old(s.writes)
    {
      var b := s.Load();
      board := b;
      store := s;
      dragCard := null;
      dragOffset := Point(0, 0);
    }

    // -------------------------------------------------------------------
    // Drag and drop
    // -------------------------------------------------------------------

    /** `start_dragging`: remember the card and where on it it was grabbed. */
    method StartDragging(card: CardWidget, pointer: Point)
      modifies this`dragCard, this`dragOffset, this`pressedAt, this`startOffset
      ensures dragCard == card && dragOffset == Sub(pointer, card.offset)
      ensures pressedAt == pointer && startOffset == card.offset
      ensures DragConsistent()
    {
      dragCard := card;
      dragOffset := Sub(pointer, card.offset);
      pressedAt := pointer;
      startOffset := card.offset;
    }

    /** `drag_move`: while Dragging the card is drawn at the pointer minus the
        grab offset, which is its starting offset moved by exactly the
        pointer's displacement; while Idle nothing may change. */
    method DragMove(pointer: Point)
      requires DragConsistent()
      modifies dragCard
      ensures dragCard != null ==> dragCard.offset == Add(startOffset, Sub(pointer, pressedAt))
      ensures dragCard != null && pointer == pressedAt ==> dragCard.offset == startOffset
      ensures dragCard != null ==>
        && dragCard.name == old(dragCard.name) && dragCard.description == old(dragCard.description)
        && dragCard.details == old(dragCard.details) && dragCard.column == old(dragCard.column)
    {
      if dragCard != null {
        dragCard.offset := Sub(pointer, dragOffset);
        FollowsPointer(startOffset, pressedAt, pointer);
      }
    }

    /** `end_dragging`.  `regions` are the column widgets' screen regions in
        widget order, which is board order.  The card moves only when the
        pointer is released over a column other than its own; the drag ends
        in every case. */
    method EndDragging(pointer: Point, regions: seq<Region>)
      requires |regions| == |board|
      requires dragCard != null ==> dragCard.column < |board|
      modifies this`board, this`dragCard, store
      ensures dragCard == null
      ensures old(dragCard) == null ==> board == old(board) && unchanged(store)
      ensures old(dragCard) != null ==>
        var target := FirstContaining(regions, pointer, 0);
        if target.Some? && target.value != old(dragCard).column then
          && board == MoveCard(old(board), old(dragCard).column, target.value, old(dragCard).name, old(dragCard).description)
          && store.file == Holds(board) && store.writes == old(store.writes) + 1
        else
          board == old(board) && unchanged(store)
    {
      if dragCard != null {
        var target := ResolveTarget(regions, pointer);
        if target.Some? && target.value != dragCard.column {
          var from := dragCard.column;
          var moved := MovedCard(dragCard.name, dragCard.description);
          board := board[from := board[from].(cards := RemoveMatches(board[from].cards, dragCard.name, dragCard.description))];
          board := board[target.value := board[target.value].(cards := board[target.value].cards + [moved])];
          store.Save(board);
        }
        dragCard := null;
      }
    }

    // -------------------------------------------------------------------
    // Card actions
    // -------------------------------------------------------------------

    /** `action_add_card` with its dialog and callback.  An empty board is
        replaced by the default board before the dialog opens, and that
        replacement is not saved; a dismissed dialog changes nothing more. */
    method AddCard(pressed: FormButton, form: CardForm)
      modifies this`board, store
      ensures var start := if old(board) == [] then DefaultBoard() else old(board);
        if CardDialogResult(pressed, form).Some? then
          && board == AppendToFirstColumn(start, Card(form.title, Some(form.description), Some(form.details)))
          && store.file == Holds(board) && store.writes == old(store.writes) + 1
        else
          board == start && unchanged(store)
    {
      if board == [] {
        board := DefaultBoard();
      }
      var data := CardDialogResult(pressed, form);
      if data.Some? {
        var newCard := Card(data.value.title, Some(data.value.description), Some(data.value.details));
        board := board[0 := board[0].(cards := board[0].cards + [newCard])];
        store.Save(board);
      }
    }

    /** `action_delete_card`: every card with the focused card's identity is
        dropped from every column, and the board is saved even when nothing
        matched.  Without a focused card nothing happens. */
    method DeleteCard(focused: Focused)
      modifies this`board, store
      ensures focused.OnCard? ==>
        && board == DeleteMatching(old(board), focused.card.name, focused.card.description)
        && store.file == Holds(board) && store.writes == old(store.writes) + 1
      ensures !focused.OnCard? ==> board == old(board) && unchanged(store)
    {
      if focused.OnCard? {
        var w := focused.card;
        ghost var before := board;
        var i := 0;
        while i < |board|
          invariant 0 <= i <= |board| == |before|
          invariant unchanged(store)
          invariant forall k :: 0 <= k < i ==> board[k] == before[k].(cards := RemoveMatches(before[k].cards, w.name, w.description))
          invariant forall k :: i <= k < |board| ==> board[k] == before[k]
        {
          board := board[i := board[i].(cards := RemoveMatches(board[i].cards, w.name, w.description))];
          i := i + 1;
        }
        store.Save(board);
      }
    }

    /** `_move_card`, behind `action_move_card_left` (-1) and
        `action_move_card_right` (+1).  Outside the column range nothing
        changes and nothing is saved. */
    method MoveFocusedCard(focused: Focused, direction: int)
      requires focused.OnCard? ==> focused.card.column < |board|
      modifies this`board, store
      ensures focused.OnCard? && 0 <= focused.card.column + direction < |old(board)| ==>
        && board == MoveCard(old(board), focused.card.column, focused.card.column + direction,
                             focused.card.name, focused.card.description)
        && store.file == Holds(board) && store.writes == old(store.writes) + 1
      ensures !(focused.OnCard? && 0 <= focused.card.column + direction < |old(board)|) ==>
        board == old(board) && unchanged(store)
    {
      if focused.OnCard? {
        var w := focused.card;
        var current := w.column;
        var target := current + direction;
        if 0 <= target < |board| {
          var moved := MovedCard(w.name, w.description);
          board := board[current := board[current].(cards := RemoveMatches(board[current].cards, w.name, w.description))];
          board := board[target := board[target].(cards := board[target].cards + [moved])];
          store.Save(board);
        }
      }
    }

    /** `action_edit_card` with its dialog and callback, AS WRITTEN: the
        widget is overwritten first and the stored card is then looked up by
        the widget's (new) label and description, so the stored card that
        was edited is found only if it already carried the new values. */
    method EditCard(focused: Focused, pressed: FormButton, form: CardForm)
      modifies this`board, store
      modifies if focused.OnCard? then {focused.card} else {}
      ensures focused.OnCard? && CardDialogResult(pressed, form).Some? ==>
        && focused.card.name == form.title && focused.card.description == form.description
        && focused.card.details == form.details
        && focused.card.column == old(focused.card.column) && focused.card.offset == old(focused.card.offset)
        && board == EditFirstMatch(old(board), form.title, form.description, form.details)
        && store.file == Holds(board) && store.writes == old(store.writes) + 1
      ensures !(focused.OnCard? && CardDialogResult(pressed, form).Some?) ==>
        board == old(board) && unchanged(store)
      ensures focused.OnCard? && CardDialogResult(pressed, form).None? ==> unchanged(focused.card)
    {
      if focused.OnCard? {
        var w := focused.card;
        var data := CardDialogResult(pressed, form);
        if data.Some? {
          w.name := data.value.title;
          w.description := data.value.description;
          w.details := data.value.details;
          ghost var before := board;
          var i := 0;
          label scan:
          while i < |board|
            invariant 0 <= i <= |board| == |before|
            invariant unchanged(store)
            invariant board == before
            invariant NoMatchInColumns(before, w.name, w.description, 0, i)
          {
            var j := 0;
            while j < |board[i].cards|
              invariant 0 <= j <= |board[i].cards|
              invariant board == before
              invariant forall m :: 0 <= m < j ==> !Matches(before[i].cards[m], w.name, w.description)
            {
              if Matches(board[i].cards[j], w.name, w.description) {
                FirstMatchAt(before, w.name, w.description, i, j);
                board := board[i := board[i].(cards := board[i].cards[j := Card(data.value.title, Some(data.value.description), Some(data.value.details))])];
                break scan;
              }
              j := j + 1;
            }
            i := i + 1;
          }
          store.Save(board);
        }
      }
    }

    // -------------------------------------------------------------------
    // Column actions
    // -------------------------------------------------------------------

    /** `action_add_column` with its dialog and callback. */
    method AddColumn(pressed: FormButton, title: string)
      modifies this`board, store
      ensures ColumnDialogResult(pressed, title).Some? ==>
        && board == AppendColumn(old(board), title)
        && store.file == Holds(board) && store.writes == old(store.writes) + 1
      ensures ColumnDialogResult(pressed, title).None? ==> board == old(board) && unchanged(store)
    {
      var data := ColumnDialogResult(pressed, title);
      if data.Some? && data.value != "" {
        board := board + [Column(data.value, [])];
        store.Save(board);
      }
    }

    /** `action_delete_column`: only when a column has focus, exactly the
        focused position goes. */
    method DeleteColumn(focused: Focused)
      requires focused.OnColumn? ==> focused.column.index < |board|
      modifies this`board, store
      ensures focused.OnColumn? ==>
        && board == DeleteColumnAt(old(board), focused.column.index)
        && store.file == Holds(board) && store.writes == old(store.writes) + 1
      ensures !focused.OnColumn? ==> board == old(board) && unchanged(store)
    {
      if focused.OnColumn? {
        var i := focused.column.index;
        board := board[..i] + board[i + 1..];
        store.Save(board);
      }
    }

    /** `action_rename_column` with its dialog and callback, AS WRITTEN: the
        widget title is overwritten first, and the stored column is then
        looked up by that new title and given the new title, so the stored
        board never changes; it is saved all the same. */
    method RenameColumn(focused: Focused, pressed: FormButton, title: string)
      modifies this`board, store
      modifies if focused.OnColumn? then {focused.column} else {}
      ensures focused.OnColumn? && ColumnDialogResult(pressed, title).Some? ==>
        && focused.column.title == title && focused.column.index == old(focused.column.index)
        && board == RenameFirstTitled(old(board), title, title)
        && board == old(board)
        && store.file == Holds(board) && store.writes == old(store.writes) + 1
      ensures !(focused.OnColumn? && ColumnDialogResult(pressed, title).Some?) ==>
        board == old(board) && unchanged(store)
      ensures focused.OnColumn? && ColumnDialogResult(pressed, title).None? ==> unchanged(focused.column)
    {
      if focused.OnColumn? {
        var w := focused.column;
        var data := ColumnDialogResult(pressed, title);
        if data.Some? && data.value != "" {
          w.title := data.value;
          ghost var before := board;
          var i := 0;
          while i < |board|
            invariant 0 <= i <= |board| == |before|
            invariant unchanged(store)
            invariant board == before
            invariant FirstTitled(before, w.title, 0) == FirstTitled(before, w.title, i)
          {
            if board[i].title == w.title {
              board := board[i := board[i].(title := data.value)];
              break;
            }
            i := i + 1;
          }
          RenameFirstTitledSame(before, title);
          store.Save(board);
        }
      }
    }

    /** `action_clear_board` with its confirmation: "yes" resets the board to
        the default and saves; "no" changes nothing. */
    method ClearBoard(pressed: ConfirmButton)
      modifies this`board, store
      ensures pressed == YesButton ==>
        board == DefaultBoard() && AllCards(board) == []
        && store.file == Holds(DefaultBoard()) && store.writes == old(store.writes) + 1
      ensures pressed == NoButton ==> board == old(board) && unchanged(store)
    {
      var confirmed := pressed == YesButton;
      if confirmed {
        board := DefaultBoard();
        store.Save(board);
      }
    }
  }

  /** A session on a fresh install: add a "Review" column, add a "Fix bug"
      card, move it one column right.  The card ends in "In Progress" without
      its details, and the file holds exactly the final board. */
  method FreshInstallSession() returns (final: Board, file: FileState)
    ensures final == [Column("Input Queue", []), Column("In Progress", [Card("Fix bug", Some(""), None)]),
                      Column("Done", []), Column("Review", [])]
    ensures file == Holds(final)
  {
    var s := new Store(Absent);
    var app := new KanbanApp(s);
    app.AddColumn(SaveButton, "Review");
    app.AddCard(SaveButton, CardForm("Fix bug", "", ""));
    // the widget the add callback mounts carries no details
    var w := new CardWidget("Fix bug", "", "", 0);
    app.MoveFocusedCard(OnCard(w), 1);
    final := app.board;
    file := s.file;
  }
}
