/** The board store (kanban-tui/storage.py): one document that holds the
    whole board.  The file is seen only as absent, holding text that is not
    valid JSON (an empty file included), or holding a board; the JSON text
    itself is not modelled. */
module Storage {
  import opened BoardModel

  /** `get_default_data`: three empty columns. */
  function DefaultBoard(): (r: Board)
    ensures |r| == 3
    ensures r[0].title == "Input Queue" && r[1].title == "In Progress" && r[2].title == "Done"
    ensures forall k :: 0 <= k < |r| ==> r[k].cards == []
    ensures AllCards(r) == []
  {
    [Column("Input Queue", []), Column("In Progress", []), Column("Done", [])]
  }

  /** `Corrupt` is a file whose text `json.load` rejects with a
      JSONDecodeError; other read errors propagate and are not modelled. */
  datatype FileState = Absent | Corrupt | Holds(board: Board)

  /** What `load_board` returns for a given file. */
  function LoadedBoard(f: FileState): (r: Board)
    ensures f.Holds? ==> r == f.board
    ensures !f.Holds? ==> |r| == 3 && AllCards(r) == []
  {
    match f
    case Absent => DefaultBoard()
    case Corrupt => DefaultBoard()
    case Holds(b) => b
  }

  /** The file after `load_board`: only the absent branch writes. */
  function FileAfterLoad(f: FileState): (r: FileState)
    ensures !r.Absent?
    ensures !f.Absent? ==> r == f
    ensures f.Absent? ==> r == Holds(DefaultBoard())
  {
    if f.Absent? then Holds(DefaultBoard()) else f
  }

  /** Loading twice returns the same board as loading once, and the second
      load never writes. */
  lemma LoadIsStable(f: FileState)
    ensures LoadedBoard(FileAfterLoad(f)) == LoadedBoard(f)
    ensures FileAfterLoad(FileAfterLoad(f)) == FileAfterLoad(f)
  {
  }

  /** A load never destroys a stored board and never repairs a corrupt file. */
  lemma LoadKeepsPresentFile(f: FileState)
    requires !f.Absent?
    ensures FileAfterLoad(f) == f
    ensures f.Holds? ==> LoadedBoard(f) == f.board
    ensures f.Corrupt? ==> LoadedBoard(f) == DefaultBoard()
  {
  }

  /** The data file.  `writes` counts calls of `save_board`, so that "does not
      save" can be stated. */
  class Store {
    var file: FileState
    ghost var writes: nat

    constructor (f: FileState)
      ensures file == f && writes == 0
    {
      file := f;
      writes := 0;
    }

    /** `save_board`: the whole document is replaced. */
    method Save(b: Board)
      modifies this
      ensures file == Holds(b)
      ensures writes == old(writes) + 1
    {
      file := Holds(b);
      writes := writes + 1;
    }

    /** `load_board`. */
    method Load() returns (b: Board)
      modifies this
      ensures b == LoadedBoard(old(file))
      ensures file == FileAfterLoad(old(file))
      ensures writes == if old(file).Absent? then old(writes) + 1 else old(writes)
      ensures old(file).Absent? ==> b == DefaultBoard() && file == Holds(b)
      ensures old(file).Corrupt? ==> b == DefaultBoard() && file == Corrupt
      ensures old(file).Holds? ==> b == old(file).board && file == old(file)
    {
      match file
      case Absent =>
        b := DefaultBoard();
        Save(b);
      case Corrupt =>
        b := DefaultBoard();
      case Holds(stored) =>
        b := stored;
    }
  }

  /** Whatever the file held, a save followed by a load returns the saved
      board, and that load writes nothing. */
  method SaveThenLoad(s: Store, b: Board) returns (loaded: Board)
    modifies s
    ensures loaded == b
    ensures s.file == Holds(b) && s.writes == old(s.writes) + 1
  {
    s.Save(b);
    loaded := s.Load();
  }
}
