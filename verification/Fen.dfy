/** boardToFEN of engine/chessEngine.js and loadFEN of hooks/useChessGame.js: the six fields
    of Forsyth-Edwards Notation, section 16.1 of the PGN Standard. */
module Fen {
  import opened Basics
  import opened ChessBoard
  import opened Notation

  // ---- joining and splitting text ----

  function Join(parts: seq<string>, sep: char): string {
    if parts == [] then ""
    else if |parts| == 1 then parts[0]
    else Join(parts[..|parts| - 1], sep) + [sep] + parts[|parts| - 1]
  }

  function Split(text: string, sep: char): (parts: seq<string>)
    ensures |parts| > 0
  {
    if text == "" then [""]
    else
      var rest := Split(text[..|text| - 1], sep);
      var last := text[|text| - 1];
      if last == sep then rest + [""] else rest[..|rest| - 1] + [rest[|rest| - 1] + [last]]
  }

  lemma {:induction false} SplitAfter(head: string, sep: char, tail: string)
    requires sep !in tail
    ensures Split(head + [sep] + tail, sep) == Split(head, sep) + [tail]
  {
    var text := head + [sep] + tail;
    if tail == "" {
      assert text[..|text| - 1] == head;
    } else {
      var short := tail[..|tail| - 1];
      assert text[..|text| - 1] == head + [sep] + short;
      SplitAfter(head, sep, short);
      assert short + [tail[|tail| - 1]] == tail;
    }
  }

  lemma {:induction false} SplitPlain(text: string, sep: char)
    requires sep !in text
    ensures Split(text, sep) == [text]
  {
    if text != "" {
      SplitPlain(text[..|text| - 1], sep);
      assert text[..|text| - 1] + [text[|text| - 1]] == text;
    }
  }

  /** Splitting undoes joining when no part contains the separator. */
  lemma {:induction false} SplitJoin(parts: seq<string>, sep: char)
    requires parts != [] && forall p <- parts :: sep !in p
    ensures Split(Join(parts, sep), sep) == parts
  {
    if |parts| == 1 {
      SplitPlain(parts[0], sep);
    } else {
      var n := |parts| - 1;
      forall p <- parts[..n] ensures sep !in p {
        assert p in parts;
      }
      SplitJoin(parts[..n], sep);
      assert parts[n] in parts;
      assert Join(parts, sep) == Join(parts[..n], sep) + [sep] + parts[n];
      SplitAfter(Join(parts[..n], sep), sep, parts[n]);
      hide Split, Join;
      assert parts[..n] + [parts[n]] == parts;
    }
  }

  lemma {:induction false} JoinAvoids(parts: seq<string>, sep: char, ch: char)
    requires ch != sep && forall p <- parts :: ch !in p
    ensures ch !in Join(parts, sep)
  {
    if |parts| > 1 {
      JoinAvoids(parts[..|parts| - 1], sep, ch);
    }
  }

  // ---- piece placement ----

  const LETTERS: string := "PNBRQKpnbrqk"

  function Letter(p: Piece): char {
    LETTERS[if p.color == White then KindIndex(p.kind) else KindIndex(p.kind) + 6]
  }

  function KindIndex(kind: Kind): (i: nat)
    ensures i < 6
  {
    match kind
    case Pawn => 0
    case Knight => 1
    case Bishop => 2
    case Rook => 3
    case Queen => 4
    case King => 5
  }

  /** What loadFEN puts on a square: a colour and an upper-case symbol, whether or not that
      names a piece. */
  datatype Mark = Mark(color: Color, symbol: char)

  /** toUpperCase on the letters of the alphabet. */
  function Upper(ch: char): char {
    if 'a' <= ch <= 'z' then ch - 'a' + 'A' else ch
  }

  function ReadSymbol(ch: char): Mark {
    Mark(if ch == Upper(ch) then White else Black, Upper(ch))
  }

  function MarkOf(p: Piece): Mark {
    Mark(p.color, LETTERS[KindIndex(p.kind)])
  }

  /** The piece a mark stands for in the engine; None for other symbols. */
  function PieceOf(m: Mark): Option<Piece> {
    match m.symbol
    case 'P' => Some(Piece(m.color, Pawn))
    case 'N' => Some(Piece(m.color, Knight))
    case 'B' => Some(Piece(m.color, Bishop))
    case 'R' => Some(Piece(m.color, Rook))
    case 'Q' => Some(Piece(m.color, Queen))
    case 'K' => Some(Piece(m.color, King))
    case _ => None
  }

  lemma LetterRoundTrip(p: Piece)
    ensures ReadSymbol(Letter(p)) == MarkOf(p) && PieceOf(MarkOf(p)) == Some(p)
    ensures Letter(p) !in DIGITS && Letter(p) != '/' && Letter(p) != ' '
  {
  }

  function Nulls(n: nat): seq<Option<Mark>> {
    seq(n, _ => None)
  }

  /** A rank as it is stored: the marks of its pieces. */
  function Marks(row: seq<Cell>): (marks: seq<Option<Mark>>)
    ensures |marks| == |row|
  {
    seq(|row|, c requires 0 <= c < |row| => if row[c].Some? then Some(MarkOf(row[c].value)) else None)
  }

  /** The text written and the empty squares counted after the first c cells of a rank. */
  function RankState(row: seq<Cell>, c: nat): (string, nat)
    requires c <= |row| <= 8
    ensures RankState(row, c).1 <= c
  {
    if c == 0 then ("", 0)
    else
      var (text, empty) := RankState(row, c - 1);
      match row[c - 1]
      case None => (text, empty + 1)
      case Some(p) => (text + Count(empty) + [Letter(p)], 0)
  }

  function Count(empty: nat): string
    requires empty <= 9
  {
    if empty > 0 then [DIGITS[empty]] else ""
  }

  function RankText(row: seq<Cell>): string
    requires |row| == 8
  {
    RankState(row, 8).0 + Count(RankState(row, 8).1)
  }

  /** The cells of one rank, symbol by symbol. */
  function ReadRank(text: string): seq<Option<Mark>> {
    if text == "" then []
    else
      var ch := text[|text| - 1];
      var row := ReadRank(text[..|text| - 1]);
      match IndexIn(DIGITS, ch)
      case Some(n) => row + Nulls(n)
      case None => row + [Some(ReadSymbol(ch))]
  }

  lemma ReadCount(text: string, empty: nat)
    requires empty <= 9
    ensures ReadRank(text + Count(empty)) == ReadRank(text) + Nulls(empty)
  {
    if empty > 0 {
      var longer := text + Count(empty);
      assert longer[..|longer| - 1] == text;
      IndexOfUnique(DIGITS, empty);
    } else {
      assert text + "" == text && ReadRank(text) + Nulls(0) == ReadRank(text);
    }
  }

  lemma {:induction false} NotADigit(ch: char, digits: string)
    requires ch !in digits
    ensures IndexIn(digits, ch).None?
  {
    if digits != "" {
      NotADigit(ch, digits[1..]);
    }
  }

  lemma ReadPiece(text: string, p: Piece)
    ensures ReadRank(text + [Letter(p)]) == ReadRank(text) + [Some(MarkOf(p))]
  {
    hide Letter, ReadSymbol;
    LetterRoundTrip(p);
    NotADigit(Letter(p), DIGITS);
    assert (text + [Letter(p)])[..|text|] == text;
  }

  lemma {:induction false} ReadRankState(row: seq<Cell>, c: nat)
    requires c <= |row| == 8
    ensures var (text, empty) := RankState(row, c);
            && ReadRank(text) + Nulls(empty) == Marks(row)[..c]
            && '/' !in text && ' ' !in text
  {
    hide Letter, ReadRank, MarkOf;
    if c == 0 {
      assert ReadRank("") == [] by { EmptyRank(); }
    } else {
      ReadRankState(row, c - 1);
      var (text, empty) := RankState(row, c - 1);
      assert Marks(row)[..c] == Marks(row)[..c - 1] + [Marks(row)[c - 1]];
      match row[c - 1]
      case None =>
        assert Nulls(empty + 1) == Nulls(empty) + [None];
      case Some(p) =>
        LetterRoundTrip(p);
        ReadCount(text, empty);
        ReadPiece(text + Count(empty), p);
        CountPlain(empty);
        assert Nulls(0) == [];
    }
  }

  lemma EmptyRank()
    ensures ReadRank("") == []
  {
  }

  lemma CountPlain(empty: nat)
    requires empty <= 9
    ensures '/' !in Count(empty) && ' ' !in Count(empty)
  {
  }

  /** Reading a printed rank gives the marks of its pieces. */
  lemma RankRoundTrip(row: seq<Cell>)
    requires |row| == 8
    ensures ReadRank(RankText(row)) == Marks(row)
    ensures '/' !in RankText(row) && ' ' !in RankText(row)
  {
    hide RankState, ReadRank, Count, Marks;
    ReadRankState(row, 8);
    var (text, empty) := RankState(row, 8);
    ReadCount(text, empty);
    CountPlain(empty);
    assert Marks(row)[..8] == Marks(row);
  }

  function RankTexts(b: Board, n: nat): (texts: seq<string>)
    requires n <= 8
    ensures |texts| == n
  {
    seq(n, r requires 0 <= r < n => RankText(b[r]))
  }

  /** restored */
  function ReadRanks(texts: seq<string>): seq<seq<Option<Mark>>> {
    if texts == [] then [] else ReadRanks(texts[..|texts| - 1]) + [ReadRank(texts[|texts| - 1])]
  }

  function AllMarks(b: Board, n: nat): (rows: seq<seq<Option<Mark>>>)
    requires n <= 8
    ensures |rows| == n
  {
    seq(n, r requires 0 <= r < n => Marks(b[r]))
  }

  lemma {:induction false} RanksRoundTrip(b: Board, n: nat)
    requires n <= 8
    ensures ReadRanks(RankTexts(b, n)) == AllMarks(b, n)
    ensures forall t <- RankTexts(b, n) :: '/' !in t && ' ' !in t
  {
    hide RankText, ReadRank, Marks;
    var texts := RankTexts(b, n);
    forall r | 0 <= r < n ensures '/' !in texts[r] && ' ' !in texts[r] {
      RankRoundTrip(b[r]);
    }
    if n > 0 {
      RanksRoundTrip(b, n - 1);
      RankRoundTrip(b[n - 1]);
      assert texts[..n - 1] == RankTexts(b, n - 1);
      assert AllMarks(b, n) == AllMarks(b, n - 1) + [Marks(b[n - 1])];
    }
  }

  // ---- the other fields ----

  function CastlingText(cast: Rights): string {
    var text := (if cast.wK then "K" else "") + (if cast.wQ then "Q" else "")
                + (if cast.bK then "k" else "") + (if cast.bQ then "q" else "");
    if text == "" then "-" else text
  }

  function ReadCastling(text: string): Rights {
    Rights('K' in text, 'Q' in text, 'k' in text, 'q' in text)
  }

  lemma CastlingRoundTrip(cast: Rights)
    ensures ReadCastling(CastlingText(cast)) == cast && ' ' !in CastlingText(cast)
  {
  }

  function EpText(ep: Option<Sq>): string
    requires ep.Some? ==> On(ep.value)
  {
    if ep.Some? then SqName(ep.value) else "-"
  }

  /** The stored en-passant value; Broken for the pair with -1 or NaN that squareToRC makes of
      a text that names no square. */
  datatype EpValue = NoSquare | Square(s: Sq) | Broken

  function ReadEp(text: string): EpValue {
    if text == "-" then NoSquare
    else
      match SquareToRC(text)
      case None => Broken
      case Some(s) => Square(s)
  }

  function EpOf(ep: Option<Sq>): EpValue {
    match ep
    case None => NoSquare
    case Some(s) => Square(s)
  }

  lemma EpRoundTrip(ep: Option<Sq>)
    requires ep.Some? ==> On(ep.value)
    ensures ReadEp(EpText(ep)) == EpOf(ep) && ' ' !in EpText(ep)
  {
    if ep.Some? {
      NameRoundTrip(ep.value);
      assert FILES[ep.value.c] in FILES && DIGITS[8 - ep.value.r] in DIGITS;
      assert |EpText(ep)| == 2;
    }
  }

  function Decimal(n: nat): string {
    if n < 10 then [DIGITS[n]] else Decimal(n / 10) + [DIGITS[n % 10]]
  }

  lemma {:induction false} DecimalPlain(n: nat)
    ensures ' ' !in Decimal(n)
  {
    assert ' ' !in DIGITS;
    if n >= 10 {
      DecimalPlain(n / 10);
    }
  }

  // ---- the whole record ----

  datatype Loaded = Loaded(board: Board, turn: Color, cast: Rights, ep: Option<Sq>)

  function TurnText(turn: Color): string {
    if turn == White then "w" else "b"
  }

  function Fields(x: Loaded, plies: nat): seq<string>
    requires x.ep.Some? ==> On(x.ep.value)
  {
    [Join(RankTexts(x.board, 8), '/'), TurnText(x.turn), CastlingText(x.cast), EpText(x.ep), "0", Decimal(plies / 2 + 1)]
  }

  /** boardToFEN(board, turn, cast, ep, hist), where `plies` is the length of hist. */
  function ToFen(x: Loaded, plies: nat): string
    requires x.ep.Some? ==> On(x.ep.value)
  {
    Join(Fields(x, plies), ' ')
  }

  /** What loadFEN leaves in the hook: nothing of it is validated but the size of the board. */
  datatype Stored = Stored(rows: seq<seq<Option<Mark>>>, turn: string, cast: Rights, ep: EpValue)

  predicate IsSquare(rows: seq<seq<Option<Mark>>>) {
    |rows| == 8 && forall row <- rows :: |row| == 8
  }

  /** loadFEN: None where it throws. */
  function LoadFen(fen: string): Option<Stored> {
    var fields := Split(fen, ' ');
    var rows := ReadRanks(Split(fields[0], '/'));
    if !IsSquare(rows) || |fields| < 4 then None
    else Some(Stored(rows, fields[1], ReadCastling(fields[2]), ReadEp(fields[3])))
  }

  /** How a position is stored. */
  function StoredOf(x: Loaded): Stored {
    Stored(AllMarks(x.board, 8), TurnText(x.turn), x.cast, EpOf(x.ep))
  }

  lemma {:induction false} MarksInjective(a: seq<Cell>, b: seq<Cell>)
    requires Marks(a) == Marks(b)
    ensures a == b
  {
    assert |a| == |b|;
    forall c | 0 <= c < |a| ensures a[c] == b[c] {
      assert Marks(a)[c] == Marks(b)[c];
      if a[c].Some? && b[c].Some? {
        LetterRoundTrip(a[c].value);
        LetterRoundTrip(b[c].value);
      }
    }
  }

  /** Nothing is lost: different positions are stored differently. */
  lemma StoredInjective(x: Loaded, y: Loaded)
    requires StoredOf(x) == StoredOf(y)
    ensures x == y
  {
    hide Marks;
    forall r | 0 <= r < 8 ensures x.board[r] == y.board[r] {
      assert AllMarks(x.board, 8)[r] == AllMarks(y.board, 8)[r];
      MarksInjective(x.board[r], y.board[r]);
    }
  }

  lemma PlacementRoundTrip(b: Board)
    ensures ReadRanks(Split(Join(RankTexts(b, 8), '/'), '/')) == AllMarks(b, 8) && IsSquare(AllMarks(b, 8))
    ensures ' ' !in Join(RankTexts(b, 8), '/')
  {
    RanksRoundTrip(b, 8);
    SplitJoin(RankTexts(b, 8), '/');
    JoinAvoids(RankTexts(b, 8), '/', ' ');
    hide RankTexts, ReadRanks, Join, Split, Marks;
  }

  lemma FieldsRead(x: Loaded, plies: nat)
    requires x.ep.Some? ==> On(x.ep.value)
    ensures Split(ToFen(x, plies), ' ') == Fields(x, plies)
  {
    hide Join, Split, RankTexts, ReadRanks, CastlingText, ReadCastling, EpText, ReadEp, Decimal, AllMarks, IsSquare;
    PlacementRoundTrip(x.board);
    CastlingRoundTrip(x.cast);
    EpRoundTrip(x.ep);
    DecimalPlain(plies / 2 + 1);
    SplitJoin(Fields(x, plies), ' ');
  }

  /** Loading a printed position restores board, turn, castling rights and en-passant square,
      for every board, right or wrong. */
  lemma FenRoundTrip(x: Loaded, plies: nat)
    requires x.ep.Some? ==> On(x.ep.value)
    ensures LoadFen(ToFen(x, plies)) == Some(StoredOf(x))
  {
    hide Join, Split, RankTexts, ReadRanks, CastlingText, ReadCastling, EpText, ReadEp, Decimal, AllMarks, IsSquare,
         ToFen;
    FieldsRead(x, plies);
    PlacementRoundTrip(x.board);
    CastlingRoundTrip(x.cast);
    EpRoundTrip(x.ep);
  }

  /** The two clocks may be missing: the first four fields of a record load the same position,
      fewer load nothing. */
  lemma FourFieldsSuffice(x: Loaded, plies: nat, n: nat)
    requires (x.ep.Some? ==> On(x.ep.value)) && 0 < n <= 6
    ensures LoadFen(Join(Fields(x, plies)[..n], ' ')) == if n < 4 then None else Some(StoredOf(x))
  {
    hide Join, Split, RankTexts, ReadRanks, CastlingText, ReadCastling, EpText, ReadEp, Decimal, AllMarks, IsSquare;
    PlacementRoundTrip(x.board);
    CastlingRoundTrip(x.cast);
    EpRoundTrip(x.ep);
    DecimalPlain(plies / 2 + 1);
    var fields := Fields(x, plies);
    forall p <- fields[..n] ensures ' ' !in p {
      assert p in fields;
    }
    SplitJoin(fields[..n], ' ');
  }

  /** Different positions have different records. */
  lemma FenInjective(x: Loaded, y: Loaded, m: nat, n: nat)
    requires (x.ep.Some? ==> On(x.ep.value)) && (y.ep.Some? ==> On(y.ep.value))
    requires ToFen(x, m) == ToFen(y, n)
    ensures x == y
  {
    hide ToFen, LoadFen, StoredOf;
    FenRoundTrip(x, m);
    FenRoundTrip(y, n);
    StoredInjective(x, y);
  }

  // ---- the first record and the move number ----

  /** The number a decimal text stands for. */
  ghost function Number(text: string): int {
    if text == "" then 0 else 10 * Number(text[..|text| - 1]) + (text[|text| - 1] as int - '0' as int)
  }

  lemma {:induction false} DecimalIs(n: nat)
    ensures Number(Decimal(n)) == n && Decimal(n) != ""
  {
    if n >= 10 {
      DecimalIs(n / 10);
      assert Decimal(n)[..|Decimal(n)| - 1] == Decimal(n / 10);
    } else {
      assert Number("") == 0;
    }
  }

  /** A record has six fields; the clock of the fifty-move rule is always 0, and the move
      number counts black's moves. */
  lemma MoveFields(x: Loaded, plies: nat)
    requires x.ep.Some? ==> On(x.ep.value)
    ensures var fields := Split(ToFen(x, plies), ' ');
            |fields| == 6 && fields[4] == "0" && Number(fields[5]) == plies / 2 + 1
  {
    hide Join, Split, RankTexts, CastlingText, EpText, Decimal, Number, ToFen;
    FieldsRead(x, plies);
    DecimalIs(plies / 2 + 1);
  }

  lemma {:induction false} FullRank(row: seq<Cell>, letters: string, c: nat)
    requires c <= |row| == |letters| == 8
    requires forall i :: 0 <= i < 8 ==> row[i].Some? && Letter(row[i].value) == letters[i]
    ensures RankState(row, c) == (letters[..c], 0)
  {
    hide Letter;
    if c > 0 {
      FullRank(row, letters, c - 1);
      assert letters[..c] == letters[..c - 1] + Count(0) + [letters[c - 1]];
    }
  }

  lemma {:induction false} BlankRank(row: seq<Cell>, c: nat)
    requires c <= |row| == 8 && forall i :: 0 <= i < 8 ==> row[i].None?
    ensures RankState(row, c) == ("", c)
  {
    if c > 0 {
      BlankRank(row, c - 1);
    }
  }

  lemma InitialRank(r: nat)
    requires r < 8
    ensures RankText(InitBoard()[r]) ==
              match r case 0 => "rnbqkbnr" case 1 => "pppppppp" case 6 => "PPPPPPPP" case 7 => "RNBQKBNR" case _ => "8"
  {
    hide RankState, InitBoard;
    var row := InitBoard()[r];
    forall c | 0 <= c < 8 ensures row[c] == InitCell(r, c) {
      assert At(InitBoard(), Sq(r, c)) == row[c];
    }
    if r == 0 {
      FullRank(row, "rnbqkbnr", 8);
    } else if r == 1 {
      FullRank(row, "pppppppp", 8);
    } else if r == 6 {
      FullRank(row, "PPPPPPPP", 8);
    } else if r == 7 {
      FullRank(row, "RNBQKBNR", 8);
    } else {
      BlankRank(row, 8);
    }
  }

  const INITIAL_RANKS := ["rnbqkbnr", "pppppppp", "8", "8", "8", "8", "PPPPPPPP", "RNBQKBNR"]

  lemma InitialPlacement()
    ensures RankTexts(InitBoard(), 8) == INITIAL_RANKS
  {
    hide RankText, InitBoard;
    forall r | 0 <= r < 8 ensures RankTexts(InitBoard(), 8)[r] == INITIAL_RANKS[r] {
      InitialRank(r);
    }
  }

  lemma JoinMore(parts: seq<string>, n: nat, sep: char, joined: string, more: string)
    requires 0 < n < |parts| && Join(parts[..n], sep) == joined && more == joined + [sep] + parts[n]
    ensures Join(parts[..n + 1], sep) == more
  {
    assert parts[..n + 1][..n] == parts[..n];
  }

  lemma InitialJoin()
    ensures Join(INITIAL_RANKS, '/') == "rnbqkbnr/pppppppp/8/8/8/8/PPPPPPPP/RNBQKBNR"
  {
    var i := INITIAL_RANKS;
    assert Join(i[..1], '/') == "rnbqkbnr";
    hide Join;
    JoinMore(i, 1, '/', "rnbqkbnr", "rnbqkbnr/pppppppp");
    JoinMore(i, 2, '/', "rnbqkbnr/pppppppp", "rnbqkbnr/pppppppp/8");
    JoinMore(i, 3, '/', "rnbqkbnr/pppppppp/8", "rnbqkbnr/pppppppp/8/8");
    JoinMore(i, 4, '/', "rnbqkbnr/pppppppp/8/8", "rnbqkbnr/pppppppp/8/8/8");
    JoinMore(i, 5, '/', "rnbqkbnr/pppppppp/8/8/8", "rnbqkbnr/pppppppp/8/8/8/8");
    JoinMore(i, 6, '/', "rnbqkbnr/pppppppp/8/8/8/8", "rnbqkbnr/pppppppp/8/8/8/8/PPPPPPPP");
    JoinMore(i, 7, '/', "rnbqkbnr/pppppppp/8/8/8/8/PPPPPPPP", "rnbqkbnr/pppppppp/8/8/8/8/PPPPPPPP/RNBQKBNR");
    assert i[..8] == i;
  }

  lemma InitialTexts()
    ensures CastlingText(Rights(true, true, true, true)) == "KQkq" && Decimal(1) == "1" && EpText(None) == "-"
  {
    assert "K" + "Q" + "k" + "q" == "KQkq";
  }

  /** The initial position is written as the record every new game is stored with. */
  lemma InitialFen()
    ensures ToFen(Loaded(InitBoard(), White, Rights(true, true, true, true), None), 0)
              == "rnbqkbnr/pppppppp/8/8/8/8/PPPPPPPP/RNBQKBNR w KQkq - 0 1"
  {
    hide Fields, Join, InitBoard;
    InitialFields();
    InitialRecord();
  }

  const INITIAL_PLACEMENT := "rnbqkbnr/pppppppp/8/8/8/8/PPPPPPPP/RNBQKBNR"

  lemma InitialFields()
    ensures Fields(Loaded(InitBoard(), White, Rights(true, true, true, true), None), 0)
              == [INITIAL_PLACEMENT, "w", "KQkq", "-", "0", "1"]
  {
    hide Join, CastlingText, Decimal, EpText, RankTexts, InitBoard;
    InitialPlacement();
    InitialJoin();
    InitialTexts();
  }

  lemma InitialRecord()
    ensures Join([INITIAL_PLACEMENT, "w", "KQkq", "-", "0", "1"], ' ') == INITIAL_PLACEMENT + " w KQkq - 0 1"
  {
    var f := [INITIAL_PLACEMENT, "w", "KQkq", "-", "0", "1"];
    assert Join(f[..1], ' ') == INITIAL_PLACEMENT;
    hide Join;
    JoinMore(f, 1, ' ', INITIAL_PLACEMENT, INITIAL_PLACEMENT + " w");
    JoinMore(f, 2, ' ', INITIAL_PLACEMENT + " w", INITIAL_PLACEMENT + " w KQkq");
    JoinMore(f, 3, ' ', INITIAL_PLACEMENT + " w KQkq", INITIAL_PLACEMENT + " w KQkq -");
    JoinMore(f, 4, ' ', INITIAL_PLACEMENT + " w KQkq -", INITIAL_PLACEMENT + " w KQkq - 0");
    JoinMore(f, 5, ' ', INITIAL_PLACEMENT + " w KQkq - 0", INITIAL_PLACEMENT + " w KQkq - 0 1");
    assert f[..6] == f;
  }

  // ---- the loops ----

  /** boardToFEN: the row text and the run of empty squares are updated square by square. */
  method BoardToFen(x: Loaded, plies: nat) returns (fen: string)
    requires x.ep.Some? ==> On(x.ep.value)
    ensures fen == ToFen(x, plies) && LoadFen(fen) == Some(StoredOf(x))
  {
    hide Join, Split, LoadFen, Letter, CastlingText, EpText, Decimal;
    var rows: seq<string> := [];
    for r := 0 to 8
      invariant rows == RankTexts(x.board, r)
    {
      var row, empty := "", 0;
      for c := 0 to 8
        invariant (row, empty) == RankState(x.board[r], c)
      {
        assert row + "" == row;
        match x.board[r][c] {
          case None => empty := empty + 1;
          case Some(p) =>
            if empty > 0 {
              row := row + [DIGITS[empty]];
              empty := 0;
            }
            row := row + [Letter(p)];
        }
      }
      if empty > 0 {
        row := row + [DIGITS[empty]];
      }
      assert RankState(x.board[r], 8).0 + "" == RankState(x.board[r], 8).0;
      assert RankTexts(x.board, r + 1) == RankTexts(x.board, r) + [RankText(x.board[r])];
      rows := rows + [row];
    }
    fen := Join([Join(rows, '/'), TurnText(x.turn), CastlingText(x.cast), EpText(x.ep), "0", Decimal(plies / 2 + 1)], ' ');
    FenRoundTrip(x, plies);
  }

  /** The outer map of loadFEN: one row per rank, one run or mark pushed per symbol. */
  method ReadPlacement(placement: string) returns (restored: seq<seq<Option<Mark>>>)
    ensures restored == ReadRanks(Split(placement, '/'))
  {
    var texts := Split(placement, '/');
    restored := [];
    for i := 0 to |texts|
      invariant restored == ReadRanks(texts[..i])
    {
      assert texts[..i + 1][..i] == texts[..i];
      var row: seq<Option<Mark>> := [];
      for j := 0 to |texts[i]|
        invariant row == ReadRank(texts[i][..j])
      {
        var ch := texts[i][j];
        assert texts[i][..j + 1][..j] == texts[i][..j];
        var digit := IndexIn(DIGITS, ch);
        if digit.Some? {
          row := row + Nulls(digit.value);
        } else {
          row := row + [Some(ReadSymbol(ch))];
        }
      }
      assert texts[i][..|texts[i]|] == texts[i];
      restored := restored + [row];
    }
    assert texts[..|texts|] == texts;
  }

  /** loadFEN */
  method Load(fen: string) returns (stored: Option<Stored>)
    ensures stored == LoadFen(fen)
  {
    var fields := Split(fen, ' ');
    var restored := ReadPlacement(fields[0]);
    if |restored| != 8 || exists row <- restored :: |row| != 8 { return None; }
    if |fields| < 4 { return None; }
    return Some(Stored(restored, fields[1], ReadCastling(fields[2]), ReadEp(fields[3])));
  }
}
