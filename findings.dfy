/** Concrete inputs on which the handlers of kanban-tui/board.py, as written,
    differ from what they evidently mean to do.  Each lemma sets the
    as-written data step beside its corrected counterpart. */
module Findings {
  import opened Options
  import opened BoardModel
  import opened FocusNav

  /** Deleting one of two identical cards removes both (board.py:307-311). */
  lemma DeleteRemovesEveryCopy()
    ensures var c := Card("x", Some(""), None);
      var b := [Column("Done", [c, c])];
      && DeleteMatching(b, "x", "") == [Column("Done", [])]
      && DeleteFirstMatch(b, "x", "") == [Column("Done", [c])]
  {
    var c := Card("x", Some(""), None);
    var b := [Column("Done", [c, c])];
    assert [c, c][1..] == [c] && [c][1..] == [];
    assert RemoveMatches([c, c], "x", "") == [];
    assert b[1..] == [];
    assert FirstMatch(b, "x", "", 0) == Some(Position(0, 0));
    assert [c, c][..0] + [c, c][1..] == [c];
  }

  /** Moving a card whose identity occurs twice in its column takes both out
      and puts one back, without its details (board.py:332-344). */
  lemma MoveLosesDuplicates()
    ensures var c := Card("x", Some(""), Some("notes"));
      var b := [Column("Input Queue", [c, c]), Column("Done", [])];
      && MoveCard(b, 0, 1, "x", "") == [Column("Input Queue", []), Column("Done", [Card("x", Some(""), None)])]
      && MoveFirstMatch(b, 0, 1, "x", "") == [Column("Input Queue", [c]), Column("Done", [c])]
  {
    var c := Card("x", Some(""), Some("notes"));
    var b := [Column("Input Queue", [c, c]), Column("Done", [])];
    assert [c, c][1..] == [c] && [c][1..] == [];
    assert RemoveMatches([c, c], "x", "") == [];
    assert FirstMatchIn(b[0].cards, "x", "", 0) == Some(0);
    assert [c, c][..0] + [c, c][1..] == [c];
  }

  /** Editing the card "a" into "b" leaves the stored board unchanged, since
      the lookup searches for a card already called "b" (board.py:376-388). */
  lemma EditLooksUpNewValues()
    ensures var b := [Column("Input Queue", [Card("a", Some(""), None)])];
      && EditFirstMatch(b, "b", "", "") == b
      && EditByIdentity(b, "a", "", "b", "", "") == [Column("Input Queue", [Card("b", Some(""), Some(""))])]
  {
    var b := [Column("Input Queue", [Card("a", Some(""), None)])];
    assert FirstMatchIn(b[0].cards, "b", "", 1) == None;
    assert FirstMatchIn(b[0].cards, "b", "", 0) == None;
    assert FirstMatch(b, "b", "", 1) == None;
    assert FirstMatchIn(b[0].cards, "a", "", 0) == Some(0);
    assert FirstMatch(b, "a", "", 0) == Some(Position(0, 0));
    assert b[0].cards[0 := Card("b", Some(""), Some(""))] == [Card("b", Some(""), Some(""))];
  }

  /** Renaming "Done" to "Shipped" leaves the stored title "Done"
      (board.py:428-435). */
  lemma RenameLooksUpNewTitle()
    ensures var b := [Column("Done", [])];
      && RenameFirstTitled(b, "Shipped", "Shipped") == b
      && RenameAt(b, 0, "Shipped") == [Column("Shipped", [])]
  {
    var b := [Column("Done", [])];
    assert FirstTitled(b, "Shipped", 1) == None;
  }

  /** Right from the first of two non-empty columns raises NameError instead
      of focusing the right column's first card (board.py:500). */
  lemma FocusRightRaises()
    ensures FocusRight([1, 1], CardAt(0, 0)) == NameError("target_column_index")
    ensures FocusRightIntended([1, 1], CardAt(0, 0)) == CardAt(1, 0)
  {
  }

  /** On columns holding 2, 0 and 1 cards, right from the first card should
      reach the empty column's anchor; once there, the code acts only on a
      focused Card, so a further right press does nothing. */
  lemma JaggedGridRight()
    ensures FocusRight([2, 0, 1], CardAt(0, 0)).NameError?
    ensures FocusRightIntended([2, 0, 1], CardAt(0, 0)) == ColumnAnchor(1)
    ensures FocusRight([2, 0, 1], ColumnAnchor(1)) == Focused(ColumnAnchor(1))
    ensures FocusRightIntended([2, 0, 1], ColumnAnchor(1)) == ColumnAnchor(1)
  {
  }
}
