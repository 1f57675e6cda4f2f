/** The board document of the kanban app and the pure data steps its action
    handlers perform on it (kanban-tui/board.py).  A board is an ordered
    sequence of columns, a column an ordered sequence of cards; a card is
    known only by its (name, description) pair. */
module BoardModel {

  import opened Options

  /** A stored card record.  The `description` and `details` keys may be
      missing from a record: a moved card is stored without details, and a
      record read from disk may lack either.  `name` holds the record's
      "label" key (`label` is a Dafny keyword). */
  datatype Card = Card(name: string, description: Option<string>, details: Option<string>)

  datatype Column = Column(title: string, cards: seq<Card>)

  /** Left-to-right column order is the only ordering of the board. */
  type Board = seq<Column>

  /** Position of a card: column index, then index inside the column. */
  datatype Position = Position(col: nat, idx: nat)

  /** A missing description reads as the empty string. */
  function DescriptionOf(c: Card): (r: string)
    ensures c.description.Some? ==> c.description == Some(r)
    ensures r == "" <==> c.description.None? || c.description == Some("")
  {
    if c.description.Some? then c.description.value else ""
  }

  /** Structural identity: same name and same (defaulted) description. */
  predicate Matches(c: Card, name: string, description: string): (m: bool)
    ensures m <==> c.name == name && (c.description == Some(description) || (c.description.None? && description == ""))
  {
    c.name == name && DescriptionOf(c) == description
  }

  /** The card the move handlers append: name and description only. */
  function MovedCard(name: string, description: string): (c: Card)
    ensures Matches(c, name, description) && c.details.None?
  {
    Card(name, Some(description), None)
  }

  /** The list comprehension that keeps the cards NOT matching the identity.
      Every match is dropped, not only the first one. */
  function RemoveMatches(cards: seq<Card>, name: string, description: string): (r: seq<Card>)
    ensures |r| <= |cards|
    ensures forall c :: c in r <==> c in cards && !Matches(c, name, description)
  {
    if cards == [] then []
    else if Matches(cards[0], name, description) then RemoveMatches(cards[1..], name, description)
    else [cards[0]] + RemoveMatches(cards[1..], name, description)
  }

  /** Every card of the board, column after column. */
  function AllCards(b: Board): (r: seq<Card>)
    ensures forall c :: c in r <==> exists k :: 0 <= k < |b| && c in b[k].cards
  {
    if b == [] then []
    else
      assert forall k :: 1 <= k < |b| ==> b[k] == b[1..][k - 1];
      b[0].cards + AllCards(b[1..])
  }

  /** How many cards of the board equal `c`. */
  function Occurrences(b: Board, c: Card): nat
  {
    multiset(AllCards(b))[c]
  }

  // ---------------------------------------------------------------------
  // Keyboard and drag move (board.py:316-348 and 222-239)
  // ---------------------------------------------------------------------

  /** The data step of a move: the source column loses every card matching
      the identity, then the target column gains one `MovedCard` at its tail. */
  function MoveCard(b: Board, from: nat, to: nat, name: string, description: string): (r: Board)
    requires from < |b| && to < |b|
    ensures |r| == |b|
    ensures forall k :: 0 <= k < |r| ==> r[k].title == b[k].title
    ensures forall k :: 0 <= k < |r| && k != from && k != to ==> r[k] == b[k]
    ensures from != to ==> r[from].cards == RemoveMatches(b[from].cards, name, description)
    ensures from != to ==> forall c :: c in r[from].cards ==> !Matches(c, name, description)
    ensures |r[to].cards| > 0
    ensures r[to].cards[..|r[to].cards| - 1] == (if from == to then RemoveMatches(b[to].cards, name, description) else b[to].cards)
    ensures r[to].cards[|r[to].cards| - 1] == MovedCard(name, description)
  {
    var b1 := b[from := b[from].(cards := RemoveMatches(b[from].cards, name, description))];
    b1[to := b1[to].(cards := b1[to].cards + [MovedCard(name, description)])]
  }

  // ---------------------------------------------------------------------
  // Delete card (board.py:298-314)
  // ---------------------------------------------------------------------

  /** Every column filtered by `RemoveMatches`: all matches everywhere go. */
  function DeleteMatching(b: Board, name: string, description: string): (r: Board)
    ensures |r| == |b|
    ensures forall k :: 0 <= k < |b| ==> r[k] == b[k].(cards := RemoveMatches(b[k].cards, name, description))
  {
    if b == [] then []
    else [b[0].(cards := RemoveMatches(b[0].cards, name, description))] + DeleteMatching(b[1..], name, description)
  }

  // ---------------------------------------------------------------------
  // Add card / add column / delete column (board.py:255-296, 403-418)
  // ---------------------------------------------------------------------

  /** The add-card callback appends to column 0 whatever has focus. */
  function AppendToFirstColumn(b: Board, c: Card): (r: Board)
    requires |b| > 0
    ensures |r| == |b| && r[0].title == b[0].title && r[0].cards == b[0].cards + [c]
    ensures r[1..] == b[1..]
  {
    b[0 := b[0].(cards := b[0].cards + [c])]
  }

  function AppendColumn(b: Board, title: string): (r: Board)
    ensures |r| == |b| + 1 && r[..|b|] == b
    ensures r[|b|] == Column(title, [])
  {
    b + [Column(title, [])]
  }

  function DeleteColumnAt(b: Board, i: nat): (r: Board)
    requires i < |b|
    ensures |r| == |b| - 1
    ensures r[..i] == b[..i] && r[i..] == b[i + 1..]
  {
    b[..i] + b[i + 1..]
  }

  // ---------------------------------------------------------------------
  // First match in column order (the nested loop of board.py:382-391)
  // ---------------------------------------------------------------------

  /** No card of columns lo..hi-1 matches the identity. */
  ghost predicate NoMatchInColumns(b: Board, name: string, description: string, lo: int, hi: int)
  {
    forall k, m :: lo <= k < hi && 0 <= k < |b| && 0 <= m < |b[k].cards| ==> !Matches(b[k].cards[m], name, description)
  }

  /** Index of the first card from `from` on that matches. */
  function FirstMatchIn(cards: seq<Card>, name: string, description: string, from: nat): (r: Option<nat>)
    requires from <= |cards|
    ensures r.Some? ==> from <= r.value < |cards| && Matches(cards[r.value], name, description)
    ensures r.Some? ==> forall m :: from <= m < r.value ==> !Matches(cards[m], name, description)
    ensures r.None? ==> forall m :: from <= m < |cards| ==> !Matches(cards[m], name, description)
    decreases |cards| - from
  {
    if from == |cards| then None
    else if Matches(cards[from], name, description) then Some(from)
    else FirstMatchIn(cards, name, description, from + 1)
  }

  /** Position of the first matching card, scanning columns from `from` on. */
  function FirstMatch(b: Board, name: string, description: string, from: nat): (r: Option<Position>)
    requires from <= |b|
    ensures r.Some? ==> from <= r.value.col < |b| && r.value.idx < |b[r.value.col].cards|
    ensures r.Some? ==> Matches(b[r.value.col].cards[r.value.idx], name, description)
    ensures r.Some? ==> NoMatchInColumns(b, name, description, from, r.value.col)
    ensures r.Some? ==> forall m :: 0 <= m < r.value.idx ==> !Matches(b[r.value.col].cards[m], name, description)
    ensures r.None? ==> NoMatchInColumns(b, name, description, from, |b|)
    decreases |b| - from
  {
    if from == |b| then None
    else match FirstMatchIn(b[from].cards, name, description, 0)
      case Some(j) => Some(Position(from, j))
      case None => FirstMatch(b, name, description, from + 1)
  }

  /** Overwrite the card at `p` with the three edited fields. */
  function SetCardAt(b: Board, p: Position, name: string, description: string, details: string): (r: Board)
    requires p.col < |b| && p.idx < |b[p.col].cards|
    ensures |r| == |b| && forall k :: 0 <= k < |b| && k != p.col ==> r[k] == b[k]
    ensures r[p.col].title == b[p.col].title && |r[p.col].cards| == |b[p.col].cards|
    ensures r[p.col].cards[p.idx] == Card(name, Some(description), Some(details))
    ensures forall m :: 0 <= m < |b[p.col].cards| && m != p.idx ==> r[p.col].cards[m] == b[p.col].cards[m]
  {
    b[p.col := b[p.col].(cards := b[p.col].cards[p.idx := Card(name, Some(description), Some(details))])]
  }

  /** The edit data step AS WRITTEN: the lookup runs after the widget was
      overwritten, so it searches for the NEW (name, description) and sets
      the first such card's fields (in effect only its details). */
  function EditFirstMatch(b: Board, name: string, description: string, details: string): (r: Board)
    ensures |r| == |b|
    ensures forall k :: 0 <= k < |b| ==> r[k].title == b[k].title && |r[k].cards| == |b[k].cards|
    ensures match FirstMatch(b, name, description, 0)
      case None => r == b
      case Some(p) => r[p.col].cards[p.idx] == Card(name, Some(description), Some(details))
  {
    match FirstMatch(b, name, description, 0)
    case None => b
    case Some(p) => SetCardAt(b, p, name, description, details)
  }

  /** The edit data step as evidently intended: look the card up by the
      identity it had BEFORE the dialog, then overwrite its fields. */
  function EditByIdentity(b: Board, oldName: string, oldDescription: string,
                          name: string, description: string, details: string): (r: Board)
  {
    match FirstMatch(b, oldName, oldDescription, 0)
    case None => b
    case Some(p) => SetCardAt(b, p, name, description, details)
  }

  // ---------------------------------------------------------------------
  // Rename column (board.py:420-438)
  // ---------------------------------------------------------------------

  /** Index of the first column from `from` on whose title is `title`. */
  function FirstTitled(b: Board, title: string, from: nat): (r: Option<nat>)
    requires from <= |b|
    ensures r.Some? ==> from <= r.value < |b| && b[r.value].title == title
    ensures r.Some? ==> forall k :: from <= k < r.value ==> b[k].title != title
    ensures r.None? ==> forall k :: from <= k < |b| ==> b[k].title != title
    decreases |b| - from
  {
    if from == |b| then None
    else if b[from].title == title then Some(from)
    else FirstTitled(b, title, from + 1)
  }

  /** The rename loop: retitle the first column titled `lookup`. */
  function RenameFirstTitled(b: Board, lookup: string, title: string): (r: Board)
    ensures |r| == |b|
    ensures forall k :: 0 <= k < |b| ==> r[k].cards == b[k].cards
    ensures forall k :: 0 <= k < |b| ==> r[k].title == b[k].title || (b[k].title == lookup && r[k].title == title)
  {
    match FirstTitled(b, lookup, 0)
    case None => b
    case Some(i) => b[i := b[i].(title := title)]
  }

  /** Rename as evidently intended: retitle the focused column itself. */
  function RenameAt(b: Board, i: nat, title: string): (r: Board)
    requires i < |b|
    ensures |r| == |b| && r[i] == Column(title, b[i].cards)
    ensures forall k :: 0 <= k < |b| && k != i ==> r[k] == b[k]
  {
    b[i := b[i].(title := title)]
  }

  // ---------------------------------------------------------------------
  // Corrected delete / move: one card, the first match
  // ---------------------------------------------------------------------

  /** Delete as documented: only the first match in column order goes. */
  function DeleteFirstMatch(b: Board, name: string, description: string): (r: Board)
  {
    match FirstMatch(b, name, description, 0)
    case None => b
    case Some(p) => b[p.col := b[p.col].(cards := b[p.col].cards[..p.idx] + b[p.col].cards[p.idx + 1..])]
  }

  /** Move as evidently intended: take the first matching card out of the
      source column and append that same card to the target column. */
  function MoveFirstMatch(b: Board, from: nat, to: nat, name: string, description: string): (r: Board)
    requires from < |b| && to < |b| && from != to
  {
    match FirstMatchIn(b[from].cards, name, description, 0)
    case None => b
    case Some(j) =>
      var card := b[from].cards[j];
      var b1 := b[from := b[from].(cards := b[from].cards[..j] + b[from].cards[j + 1..])];
      b1[to := b1[to].(cards := b1[to].cards + [card])]
  }
}
