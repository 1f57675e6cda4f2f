/** What the board data steps promise: which cards survive, in what order,
    and how many times each card occurs on the board afterwards. */
module BoardFacts {
  import opened Options
  import opened BoardModel

  // ---------------------------------------------------------------------
  // The filter comprehension
  // ---------------------------------------------------------------------

  /** A matching card disappears entirely; any other card keeps its count. */
  lemma {:induction false} RemoveMatchesCensus(cards: seq<Card>, name: string, description: string, c: Card)
    ensures multiset(RemoveMatches(cards, name, description))[c]
            == if Matches(c, name, description) then 0 else multiset(cards)[c]
  {
    if cards != [] {
      RemoveMatchesCensus(cards[1..], name, description, c);
      assert cards == [cards[0]] + cards[1..];
    }
  }

  /** The filter distributes over concatenation, so the surviving cards keep
      their relative order. */
  lemma {:induction false} RemoveMatchesAppend(a: seq<Card>, b: seq<Card>, name: string, description: string)
    ensures RemoveMatches(a + b, name, description) == RemoveMatches(a, name, description) + RemoveMatches(b, name, description)
  {
    if a == [] {
      assert a + b == b;
    } else {
      assert (a + b)[0] == a[0] && (a + b)[1..] == a[1..] + b;
      RemoveMatchesAppend(a[1..], b, name, description);
    }
  }

  /** A column with no matching card is left exactly as it was. */
  lemma {:induction false} RemoveMatchesNoMatch(cards: seq<Card>, name: string, description: string)
    requires forall c :: c in cards ==> !Matches(c, name, description)
    ensures RemoveMatches(cards, name, description) == cards
  {
    if cards != [] {
      assert cards[0] in cards;
      assert forall c :: c in cards[1..] ==> c in cards;
      RemoveMatchesNoMatch(cards[1..], name, description);
      assert cards == [cards[0]] + cards[1..];
    }
  }

  // ---------------------------------------------------------------------
  // Counting the cards of a board
  // ---------------------------------------------------------------------

  lemma {:induction false} AllCardsAppend(a: Board, b: Board)
    ensures AllCards(a + b) == AllCards(a) + AllCards(b)
  {
    if a == [] {
      assert a + b == b;
    } else {
      assert (a + b)[0] == a[0] && (a + b)[1..] == a[1..] + b;
      AllCardsAppend(a[1..], b);
    }
  }

  /** Replacing one column changes the count of `c` by what the column held. */
  lemma OccurrencesUpdate(b: Board, i: nat, col: Column, c: Card)
    requires i < |b|
    ensures Occurrences(b[i := col], c) == Occurrences(b, c) - multiset(b[i].cards)[c] + multiset(col.cards)[c]
  {
    assert b == b[..i] + ([b[i]] + b[i + 1..]);
    assert b[i := col] == b[..i] + ([col] + b[i + 1..]);
    AllCardsAppend(b[..i], [b[i]] + b[i + 1..]);
    AllCardsAppend(b[..i], [col] + b[i + 1..]);
    AllCardsAppend([b[i]], b[i + 1..]);
    AllCardsAppend([col], b[i + 1..]);
  }

  // ---------------------------------------------------------------------
  // Move (keyboard and drag)
  // ---------------------------------------------------------------------

  /** Between two different columns a move drops every copy of the identity
      from the source, adds exactly one detail-less copy at the target and
      leaves the count of every other card alone. */
  lemma MoveCardCensus(b: Board, from: nat, to: nat, name: string, description: string, c: Card)
    requires from < |b| && to < |b| && from != to
    ensures Occurrences(MoveCard(b, from, to, name, description), c)
            == (if Matches(c, name, description) then Occurrences(b, c) - multiset(b[from].cards)[c] else Occurrences(b, c))
               + (if c == MovedCard(name, description) then 1 else 0)
  {
    var b1 := b[from := b[from].(cards := RemoveMatches(b[from].cards, name, description))];
    OccurrencesUpdate(b, from, b1[from], c);
    RemoveMatchesCensus(b[from].cards, name, description, c);
    OccurrencesUpdate(b1, to, b1[to].(cards := b1[to].cards + [MovedCard(name, description)]), c);
  }

  // ---------------------------------------------------------------------
  // Delete card
  // ---------------------------------------------------------------------

  /** After a delete no card with that identity is left anywhere, and every
      other card occurs as often as before. */
  lemma {:induction false} DeleteMatchingCensus(b: Board, name: string, description: string, c: Card)
    ensures Occurrences(DeleteMatching(b, name, description), c)
            == if Matches(c, name, description) then 0 else Occurrences(b, c)
  {
    if b != [] {
      var r := DeleteMatching(b, name, description);
      assert r == [r[0]] + r[1..];
      assert r[1..] == DeleteMatching(b[1..], name, description);
      AllCardsAppend([r[0]], r[1..]);
      assert b == [b[0]] + b[1..];
      AllCardsAppend([b[0]], b[1..]);
      RemoveMatchesCensus(b[0].cards, name, description, c);
      DeleteMatchingCensus(b[1..], name, description, c);
    }
  }

  /** Deleting the same identity twice is the same as deleting it once. */
  lemma DeleteMatchingIdempotent(b: Board, name: string, description: string)
    ensures DeleteMatching(DeleteMatching(b, name, description), name, description) == DeleteMatching(b, name, description)
  {
    var r := DeleteMatching(b, name, description);
    forall k | 0 <= k < |r|
      ensures RemoveMatches(r[k].cards, name, description) == r[k].cards
    {
      RemoveMatchesNoMatch(r[k].cards, name, description);
    }
  }

  // ---------------------------------------------------------------------
  // Add card / add column / delete column
  // ---------------------------------------------------------------------

  /** Adding a card adds exactly that card to the board. */
  lemma AppendToFirstColumnCensus(b: Board, card: Card, c: Card)
    requires |b| > 0
    ensures Occurrences(AppendToFirstColumn(b, card), c) == Occurrences(b, c) + (if c == card then 1 else 0)
  {
    OccurrencesUpdate(b, 0, b[0].(cards := b[0].cards + [card]), c);
  }

  /** A new column is empty, so the board's cards are the same list. */
  lemma AppendColumnKeepsCards(b: Board, title: string)
    ensures AllCards(AppendColumn(b, title)) == AllCards(b)
  {
    AllCardsAppend(b, [Column(title, [])]);
    assert AllCards([Column(title, [])]) == [];
  }

  /** Deleting a column deletes exactly the cards it held. */
  lemma DeleteColumnCensus(b: Board, i: nat, c: Card)
    requires i < |b|
    ensures Occurrences(DeleteColumnAt(b, i), c) == Occurrences(b, c) - multiset(b[i].cards)[c]
  {
    assert b == b[..i] + ([b[i]] + b[i + 1..]);
    AllCardsAppend(b[..i], [b[i]] + b[i + 1..]);
    AllCardsAppend([b[i]], b[i + 1..]);
    AllCardsAppend(b[..i], b[i + 1..]);
  }

  // ---------------------------------------------------------------------
  // First match in column order
  // ---------------------------------------------------------------------

  /** A matching card with no match before it, in column order, is THE first
      match. */
  lemma FirstMatchAt(b: Board, name: string, description: string, i: nat, j: nat)
    requires i < |b| && j < |b[i].cards| && Matches(b[i].cards[j], name, description)
    requires NoMatchInColumns(b, name, description, 0, i)
    requires forall m :: 0 <= m < j ==> !Matches(b[i].cards[m], name, description)
    ensures FirstMatch(b, name, description, 0) == Some(Position(i, j))
  {
  }

  // ---------------------------------------------------------------------
  // Edit and rename, as written
  // ---------------------------------------------------------------------

  /** Because the edit looks the card up by the values it is about to write,
      it can change nothing but the details of one card: every card keeps its
      position and its identity, and without a match the board is unchanged. */
  lemma EditFirstMatchKeepsIdentities(b: Board, name: string, description: string, details: string)
    ensures var r := EditFirstMatch(b, name, description, details);
      && |r| == |b|
      && (forall k :: 0 <= k < |b| ==> r[k].title == b[k].title && |r[k].cards| == |b[k].cards|)
      && (forall k, m :: 0 <= k < |b| && 0 <= m < |b[k].cards| ==>
            r[k].cards[m].name == b[k].cards[m].name && DescriptionOf(r[k].cards[m]) == DescriptionOf(b[k].cards[m]))
      && (FirstMatch(b, name, description, 0).None? ==> r == b)
  {
  }

  /** The edit touches at most one card: the first match in column order,
      whose details become the edited details (that it does receive them is
      part of the contract of `EditFirstMatch`). */
  lemma EditFirstMatchChangesOne(b: Board, name: string, description: string, details: string, k: nat, m: nat)
    requires k < |b| && m < |b[k].cards|
    requires EditFirstMatch(b, name, description, details)[k].cards[m] != b[k].cards[m]
    ensures FirstMatch(b, name, description, 0) == Some(Position(k, m))
    ensures EditFirstMatch(b, name, description, details)[k].cards[m] == Card(name, Some(description), Some(details))
  {
  }

  /** The rename looks the column up by the new title and writes the new
      title into it: the board never changes. */
  lemma RenameFirstTitledSame(b: Board, title: string)
    ensures RenameFirstTitled(b, title, title) == b
  {
    match FirstTitled(b, title, 0)
    case None =>
    case Some(i) => assert b[i].(title := title) == b[i];
  }

  // ---------------------------------------------------------------------
  // The corrected delete, move and edit
  // ---------------------------------------------------------------------

  /** Deleting the first match removes exactly one copy of that card, or
      nothing when no card matches; the other cards of its column keep their
      order and every other column is untouched. */
  lemma DeleteFirstMatchCensus(b: Board, name: string, description: string, c: Card)
    ensures match FirstMatch(b, name, description, 0)
      case None => DeleteFirstMatch(b, name, description) == b
      case Some(p) =>
        var r := DeleteFirstMatch(b, name, description);
        && Occurrences(r, c) == Occurrences(b, c) - (if c == b[p.col].cards[p.idx] then 1 else 0)
        && |r| == |b|
        && r[p.col] == Column(b[p.col].title, b[p.col].cards[..p.idx] + b[p.col].cards[p.idx + 1..])
        && forall k :: 0 <= k < |b| && k != p.col ==> r[k] == b[k]
  {
    match FirstMatch(b, name, description, 0)
    case None =>
    case Some(p) =>
      var cards := b[p.col].cards;
      assert cards == cards[..p.idx] + [cards[p.idx]] + cards[p.idx + 1..];
      OccurrencesUpdate(b, p.col, b[p.col].(cards := cards[..p.idx] + cards[p.idx + 1..]), c);
  }

  /** The corrected move relocates one card: the first match of the source
      column leaves it, the very same card (details included) lands at the
      target's tail, every other column is untouched, and the board holds
      the same cards, each as often as before.  Without a match in the source
      column nothing moves. */
  lemma MoveFirstMatchConserves(b: Board, from: nat, to: nat, name: string, description: string, c: Card)
    requires from < |b| && to < |b| && from != to
    ensures Occurrences(MoveFirstMatch(b, from, to, name, description), c) == Occurrences(b, c)
    ensures match FirstMatchIn(b[from].cards, name, description, 0)
      case None =>
        && MoveFirstMatch(b, from, to, name, description) == b
        && forall m :: 0 <= m < |b[from].cards| ==> !Matches(b[from].cards[m], name, description)
      case Some(j) =>
        var r := MoveFirstMatch(b, from, to, name, description);
        && Matches(b[from].cards[j], name, description)
        && |r| == |b|
        && r[from] == Column(b[from].title, b[from].cards[..j] + b[from].cards[j + 1..])
        && r[to] == Column(b[to].title, b[to].cards + [b[from].cards[j]])
        && forall k :: 0 <= k < |b| && k != from && k != to ==> r[k] == b[k]
  {
    match FirstMatchIn(b[from].cards, name, description, 0)
    case None =>
    case Some(j) =>
      var cards := b[from].cards;
      var card := cards[j];
      assert cards == cards[..j] + [card] + cards[j + 1..];
      var b1 := b[from := b[from].(cards := cards[..j] + cards[j + 1..])];
      OccurrencesUpdate(b, from, b1[from], c);
      OccurrencesUpdate(b1, to, b1[to].(cards := b1[to].cards + [card]), c);
  }

  /** The corrected edit writes the new fields into the card that had the
      old identity, whatever the new values are, and leaves every other card
      and every title as it was. */
  lemma EditByIdentityWrites(b: Board, oldName: string, oldDescription: string,
                             name: string, description: string, details: string)
    ensures match FirstMatch(b, oldName, oldDescription, 0)
      case None => EditByIdentity(b, oldName, oldDescription, name, description, details) == b
      case Some(p) =>
        EditByIdentity(b, oldName, oldDescription, name, description, details)[p.col].cards[p.idx]
          == Card(name, Some(description), Some(details))
    ensures var r := EditByIdentity(b, oldName, oldDescription, name, description, details);
      && |r| == |b|
      && (forall k :: 0 <= k < |b| ==> r[k].title == b[k].title && |r[k].cards| == |b[k].cards|)
      && (forall k, m :: 0 <= k < |b| && 0 <= m < |b[k].cards| && FirstMatch(b, oldName, oldDescription, 0) != Some(Position(k, m)) ==>
            r[k].cards[m] == b[k].cards[m])
  {
  }
}
