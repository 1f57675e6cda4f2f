/** Keyboard focus movement (kanban-tui/board.py:452-504).  The layout is
    given as the card count of each column, left to right; focus is on a
    card, on a column (the anchor used for an empty column) or elsewhere. */
module FocusNav {

  datatype Focus = CardAt(col: nat, idx: nat) | ColumnAnchor(col: nat) | Other

  /** What a focus action produces: a focus, or the NameError raised when a
      line refers to a name that was never bound. */
  datatype Outcome = Focused(focus: Focus) | NameError(name: string)

  /** The focus points at a widget of the layout. */
  predicate ValidFocus(counts: seq<nat>, f: Focus)
  {
    match f
    case CardAt(c, i) => c < |counts| && i < counts[c]
    case ColumnAnchor(c) => c < |counts|
    case Other => true
  }

  /** `action_focus_up`: the card above, if any. */
  function FocusUp(counts: seq<nat>, f: Focus): (r: Focus)
    requires ValidFocus(counts, f)
    ensures ValidFocus(counts, r)
    ensures !f.CardAt? ==> r == f
    ensures f.CardAt? ==> r.CardAt? && r.col == f.col
    ensures f.CardAt? ==> (r.idx + 1 == f.idx || (f.idx == 0 && r == f))
  {
    if f.CardAt? && f.idx > 0 then CardAt(f.col, f.idx - 1) else f
  }

  /** `action_focus_down`: the card below, if any. */
  function FocusDown(counts: seq<nat>, f: Focus): (r: Focus)
    requires ValidFocus(counts, f)
    ensures ValidFocus(counts, r)
    ensures !f.CardAt? ==> r == f
    ensures f.CardAt? ==> r.CardAt? && r.col == f.col
    ensures f.CardAt? ==> (r.idx == f.idx + 1 || (f.idx + 1 == counts[f.col] && r == f))
  {
    if f.CardAt? && f.idx < counts[f.col] - 1 then CardAt(f.col, f.idx + 1) else f
  }

  /** The focus that entering column `c` lands on: its first card, or the
      column itself when it has no card. */
  function EnterColumn(counts: seq<nat>, c: nat): (r: Focus)
    requires c < |counts|
    ensures ValidFocus(counts, r) && (r.CardAt? || r.ColumnAnchor?) && r.col == c
    ensures r.CardAt? <==> counts[c] > 0
    ensures r.CardAt? ==> r.idx == 0
  {
    if counts[c] > 0 then CardAt(c, 0) else ColumnAnchor(c)
  }

  /** `action_focus_left`. */
  function FocusLeft(counts: seq<nat>, f: Focus): (r: Focus)
    requires ValidFocus(counts, f)
    ensures ValidFocus(counts, r)
    ensures !(f.CardAt? && f.col > 0) ==> r == f
    ensures f.CardAt? && f.col > 0 ==> r == EnterColumn(counts, f.col - 1)
  {
    if f.CardAt? && f.col > 0 then EnterColumn(counts, f.col - 1) else f
  }

  /** `action_focus_right` AS WRITTEN: whenever a right neighbour exists the
      handler evaluates `target_column_index`, a name it never bound, and
      raises NameError; at the last column it does nothing. */
  function FocusRight(counts: seq<nat>, f: Focus): (r: Outcome)
    requires ValidFocus(counts, f)
    ensures r.Focused? <==> !f.CardAt? || f.col + 1 >= |counts|
    ensures r.Focused? ==> r.focus == f
    ensures r.NameError? ==> r.name == "target_column_index"
  {
    if f.CardAt? && f.col < |counts| - 1 then NameError("target_column_index") else Focused(f)
  }

  /** `action_focus_right` as evidently intended: the mirror of FocusLeft. */
  function FocusRightIntended(counts: seq<nat>, f: Focus): (r: Focus)
    requires ValidFocus(counts, f)
    ensures ValidFocus(counts, r)
    ensures !(f.CardAt? && f.col + 1 < |counts|) ==> r == f
    ensures f.CardAt? && f.col + 1 < |counts| ==> r == EnterColumn(counts, f.col + 1)
  {
    if f.CardAt? && f.col + 1 < |counts| then EnterColumn(counts, f.col + 1) else f
  }

  /** Up undoes down and down undoes up, away from the column's ends. */
  lemma UpDownInverse(counts: seq<nat>, f: Focus)
    requires ValidFocus(counts, f)
    ensures f.CardAt? && f.idx > 0 ==> FocusDown(counts, FocusUp(counts, f)) == f
    ensures f.CardAt? && f.idx + 1 < counts[f.col] ==> FocusUp(counts, FocusDown(counts, f)) == f
  {
  }

  /** Left then (intended) right brings the focus back to the first card of
      the column it started in, when the left column has a card to stop on;
      from an empty left column the second press is a no-op, because focus
      then sits on a Column. */
  lemma LeftThenRight(counts: seq<nat>, c: nat, i: nat)
    requires c < |counts| && i < counts[c] && c > 0
    ensures counts[c - 1] > 0 ==> FocusRightIntended(counts, FocusLeft(counts, CardAt(c, i))) == CardAt(c, 0)
    ensures counts[c - 1] == 0 ==> FocusRightIntended(counts, FocusLeft(counts, CardAt(c, i))) == ColumnAnchor(c - 1)
  {
  }

  /** Every focus action acts only on a focused card: from a Column anchor
      each one leaves the focus where it is. */
  lemma ActionsKeepAnchors(counts: seq<nat>, c: nat)
    requires c < |counts|
    ensures FocusUp(counts, ColumnAnchor(c)) == ColumnAnchor(c)
    ensures FocusDown(counts, ColumnAnchor(c)) == ColumnAnchor(c)
    ensures FocusLeft(counts, ColumnAnchor(c)) == ColumnAnchor(c)
    ensures FocusRight(counts, ColumnAnchor(c)) == Focused(ColumnAnchor(c))
    ensures FocusRightIntended(counts, ColumnAnchor(c)) == ColumnAnchor(c)
  {
  }
}
