/** Connect 4: the 6 x 7 board the game updates in place, the column drop,
    the four-direction win test, the draw test and the turn switch, and the
    view that runs a turn and settles the bets with the ledger. */
module Connect4 {
  import opened Common
  import opened Economy

  const Rows: int := 6
  const Columns: int := 7

  /** A snapshot of the board, row 0 at the top; 0 is empty, 1 and 2 are pieces. */
  type Grid = seq<seq<int>>

  predicate IsGrid(g: Grid) {
    |g| == Rows && forall r :: 0 <= r < Rows ==> |g[r]| == Columns
  }

  predicate InBounds(r: int, c: int) { 0 <= r < Rows && 0 <= c < Columns }

  /** The cell at (r, c), or None off the board. */
  function At(g: Grid, r: int, c: int): Option<int>
    requires IsGrid(g)
  {
    if InBounds(r, c) then Some(g[r][c]) else None
  }

  /** The cell under (r, c) is occupied whenever (r, c) is. */
  predicate Supported(g: Grid, r: int, c: int)
    requires IsGrid(g) && InBounds(r, c)
  {
    r == Rows - 1 || g[r][c] == 0 || g[r + 1][c] != 0
  }

  /** Pieces rest on pieces: under every occupied cell the cell is occupied. */
  predicate Settled(g: Grid)
    requires IsGrid(g)
  {
    forall r, c :: 0 <= r < Rows && 0 <= c < Columns ==> Supported(g, r, c)
  }

  /** The row a piece dropped into `column` comes to rest in, scanning up
      from the bottom row as `make_move` does: the lowest empty cell of the
      column; None for a column off the board or full. */
  function LowestEmpty(g: Grid, column: int): (row: Option<int>)
    requires IsGrid(g)
    ensures row.None? <==> !(0 <= column < Columns) || forall r :: 0 <= r < Rows ==> g[r][column] != 0
    ensures row.Some? ==> && 0 <= row.value < Rows && g[row.value][column] == 0
                          && forall r :: row.value < r < Rows ==> g[r][column] != 0
  {
    if 0 <= column < Columns then LowestFrom(g, column, Rows - 1) else None
  }

  /** The scan of `make_move` from row `top` upwards, every cell below `top` being full. */
  function LowestFrom(g: Grid, column: int, top: int): (row: Option<int>)
    requires IsGrid(g) && 0 <= column < Columns && -1 <= top < Rows
    requires forall r :: top < r < Rows ==> g[r][column] != 0
    ensures row.None? <==> forall r :: 0 <= r < Rows ==> g[r][column] != 0
    ensures row.Some? ==> && 0 <= row.value <= top && g[row.value][column] == 0
                          && forall r :: row.value < r < Rows ==> g[r][column] != 0
    decreases top + 1
  {
    if top < 0 then None
    else if g[top][column] == 0 then Some(top)
    else LowestFrom(g, column, top - 1)
  }

  /** An empty cell with only full cells under it is the one LowestEmpty finds. */
  lemma LowestEmptyUnique(g: Grid, column: int, row: int)
    requires IsGrid(g) && InBounds(row, column) && g[row][column] == 0
    requires forall r :: row < r < Rows ==> g[r][column] != 0
    ensures LowestEmpty(g, column) == Some(row)
  {
  }

  /** The board with `piece` in cell (row, col). */
  function Dropped(g: Grid, row: int, col: int, piece: int): (h: Grid)
    requires IsGrid(g) && InBounds(row, col)
    ensures IsGrid(h) && h[row][col] == piece
    ensures forall r, c :: InBounds(r, c) && (r, c) != (row, col) ==> h[r][c] == g[r][c]
  {
    g[row := g[row][col := piece]]
  }

  /** A board that differs from `before` in (row, col) only, where it holds `piece`, is Dropped. */
  lemma DroppedIs(before: Grid, after: Grid, row: int, col: int, piece: int)
    requires IsGrid(before) && IsGrid(after) && InBounds(row, col) && after[row][col] == piece
    requires forall r, c :: InBounds(r, c) && (r, c) != (row, col) ==> after[r][c] == before[r][c]
    ensures after == Dropped(before, row, col, piece)
  {
    var d := Dropped(before, row, col, piece);
    forall r | 0 <= r < Rows
      ensures after[r] == d[r]
    {
      assert forall c :: 0 <= c < Columns ==> after[r][c] == d[r][c];
    }
  }

  /** `check_draw`'s test: no empty cell in the top row. */
  predicate TopRowFull(g: Grid)
    requires IsGrid(g)
  {
    forall c :: 0 <= c < Columns ==> g[0][c] != 0
  }

  // ---------------------------------------------------------------------------
  // The win test
  // ---------------------------------------------------------------------------

  /** The four directions `check_win` looks along: horizontal, vertical and
      the two diagonals. */
  const Directions: seq<(int, int)> := [(0, 1), (1, 0), (1, 1), (1, -1)]

  /** The cell k steps from (row, col) along (dr, dc); k may be negative. */
  function Ahead(g: Grid, row: int, col: int, dr: int, dc: int, k: int): Option<int>
    requires IsGrid(g)
  {
    At(g, row + dr * k, col + dc * k)
  }

  /** Stepping back along a direction is stepping along its opposite. */
  lemma AheadOpposite(g: Grid, row: int, col: int, dr: int, dc: int, k: int)
    requires IsGrid(g)
    ensures Ahead(g, row, col, -dr, -dc, k) == Ahead(g, row, col, dr, dc, -k)
  {
    assert (-dr) * k == dr * (-k) && (-dc) * k == dc * (-k);
  }

  /** How many of the cells at steps i, i+1, ..., 3 from (row, col) along
      (dr, dc) hold `piece` before the first one that does not. */
  function Run(g: Grid, row: int, col: int, dr: int, dc: int, piece: int, i: nat): (n: nat)
    requires IsGrid(g)
    ensures n <= 4 - i || (i > 3 && n == 0)
    decreases 4 - i
  {
    if i > 3 then 0
    else if Ahead(g, row, col, dr, dc, i) == Some(piece) then 1 + Run(g, row, col, dr, dc, piece, i + 1)
    else 0
  }

  /** The count `check_win` makes along one direction: the cell itself and
      the runs on both sides. */
  function LineCount(g: Grid, row: int, col: int, dr: int, dc: int, piece: int): nat
    requires IsGrid(g)
  {
    1 + Run(g, row, col, dr, dc, piece, 1) + Run(g, row, col, -dr, -dc, piece, 1)
  }

  /** The count along a direction from the two runs measured on each side. */
  lemma LineCountOfRuns(g: Grid, row: int, col: int, dr: int, dc: int, piece: int, forward: nat, backward: nat)
    requires IsGrid(g)
    requires forward == Run(g, row, col, dr, dc, piece, 1) && backward == Run(g, row, col, -dr, -dc, piece, 1)
    ensures LineCount(g, row, col, dr, dc, piece) == 1 + forward + backward
  {
  }

  /** What `check_win` decides. */
  predicate Wins(g: Grid, row: int, col: int, piece: int)
    requires IsGrid(g)
  {
    exists d :: 0 <= d < |Directions| && LineCount(g, row, col, Directions[d].0, Directions[d].1, piece) >= 4
  }

  /** The four cells at steps -s .. 3-s along (dr, dc) all hold `piece`. */
  predicate Window(g: Grid, row: int, col: int, dr: int, dc: int, piece: int, s: int)
    requires IsGrid(g)
  {
    forall k :: -s <= k <= 3 - s ==> Ahead(g, row, col, dr, dc, k) == Some(piece)
  }

  /** Four cells in a row along (dr, dc), one of them (row, col), all holding `piece`. */
  predicate FourThrough(g: Grid, row: int, col: int, dr: int, dc: int, piece: int)
    requires IsGrid(g)
  {
    exists s :: 0 <= s < 4 && Window(g, row, col, dr, dc, piece, s)
  }

  /** A run from step i covers exactly the matching cells up to the first mismatch. */
  lemma {:induction false} RunCovers(g: Grid, row: int, col: int, dr: int, dc: int, piece: int, i: nat)
    requires IsGrid(g) && 1 <= i <= 4
    ensures i + Run(g, row, col, dr, dc, piece, i) <= 4
    ensures forall k :: i <= k < i + Run(g, row, col, dr, dc, piece, i) ==>
              Ahead(g, row, col, dr, dc, k) == Some(piece)
    ensures var e := i + Run(g, row, col, dr, dc, piece, i);
            e <= 3 ==> Ahead(g, row, col, dr, dc, e) != Some(piece)
    decreases 4 - i
  {
    if i <= 3 && Ahead(g, row, col, dr, dc, i) == Some(piece) {
      RunCovers(g, row, col, dr, dc, piece, i + 1);
    }
  }

  /** A run from step 1 is at least m when the first m cells match. */
  lemma RunAtLeast(g: Grid, row: int, col: int, dr: int, dc: int, piece: int, m: nat)
    requires IsGrid(g) && m <= 3
    requires forall k :: 1 <= k <= m ==> Ahead(g, row, col, dr, dc, k) == Some(piece)
    ensures Run(g, row, col, dr, dc, piece, 1) >= m
  {
    RunCovers(g, row, col, dr, dc, piece, 1);
  }

  /** The backward run is at least s when the s cells behind the cell match. */
  lemma BackRunAtLeast(g: Grid, row: int, col: int, dr: int, dc: int, piece: int, s: int)
    requires IsGrid(g) && 0 <= s <= 3
    requires forall k: int :: -s <= k <= -1 ==> Ahead(g, row, col, dr, dc, k) == Some(piece)
    ensures Run(g, row, col, -dr, -dc, piece, 1) >= s
  {
    var ndr, ndc := -dr, -dc;
    forall k | 1 <= k <= s
      ensures Ahead(g, row, col, ndr, ndc, k) == Some(piece)
    {
      AheadOpposite(g, row, col, dr, dc, k);
      assert Ahead(g, row, col, dr, dc, -k) == Some(piece);
    }
    RunAtLeast(g, row, col, ndr, ndc, piece, s);
  }

  /** The `s` cells behind (row, col) along (dr, dc) are covered by the backward run. */
  lemma BackWindow(g: Grid, row: int, col: int, dr: int, dc: int, piece: int, s: int)
    requires IsGrid(g) && 0 <= s <= Run(g, row, col, -dr, -dc, piece, 1)
    ensures forall k :: -s <= k < 0 ==> Ahead(g, row, col, dr, dc, k) == Some(piece)
  {
    RunCovers(g, row, col, -dr, -dc, piece, 1);
    forall k | -s <= k < 0
      ensures Ahead(g, row, col, dr, dc, k) == Some(piece)
    {
      AheadOpposite(g, row, col, dr, dc, -k);
      assert Ahead(g, row, col, -dr, -dc, -k) == Some(piece);
    }
  }

  /** The `m` cells ahead of (row, col) along (dr, dc) are covered by the forward run. */
  lemma FrontWindow(g: Grid, row: int, col: int, dr: int, dc: int, piece: int, m: int)
    requires IsGrid(g) && m <= Run(g, row, col, dr, dc, piece, 1)
    ensures forall k :: 1 <= k <= m ==> Ahead(g, row, col, dr, dc, k) == Some(piece)
  {
    RunCovers(g, row, col, dr, dc, piece, 1);
  }

  /** Runs adding up to three or more give a line of four through the cell. */
  lemma RunsMakeFour(g: Grid, row: int, col: int, dr: int, dc: int, piece: int)
    requires IsGrid(g) && InBounds(row, col) && g[row][col] == piece
    requires LineCount(g, row, col, dr, dc, piece) >= 4
    ensures FourThrough(g, row, col, dr, dc, piece)
  {
    var n := Run(g, row, col, -dr, -dc, piece, 1);
    var s: int := if n >= 3 then 3 else n;
    BackWindow(g, row, col, dr, dc, piece, s);
    FrontWindow(g, row, col, dr, dc, piece, 3 - s);
    forall k | -s <= k <= 3 - s
      ensures Ahead(g, row, col, dr, dc, k) == Some(piece)
    {
      if k == 0 {
        assert row + dr * k == row && col + dc * k == col;
      }
    }
    assert Window(g, row, col, dr, dc, piece, s);
  }

  /** A line of four through the cell gives runs adding up to three or more. */
  lemma FourMakesRuns(g: Grid, row: int, col: int, dr: int, dc: int, piece: int)
    requires IsGrid(g)
    requires FourThrough(g, row, col, dr, dc, piece)
    ensures LineCount(g, row, col, dr, dc, piece) >= 4
  {
    var s :| 0 <= s < 4 && Window(g, row, col, dr, dc, piece, s);
    RunAtLeast(g, row, col, dr, dc, piece, 3 - s);
    BackRunAtLeast(g, row, col, dr, dc, piece, s);
  }

  /** The counting test of `check_win` along one direction holds exactly
      when four pieces of the player line up through the played cell. */
  lemma LineCountIffFour(g: Grid, row: int, col: int, dr: int, dc: int, piece: int)
    requires IsGrid(g) && InBounds(row, col) && g[row][col] == piece
    ensures LineCount(g, row, col, dr, dc, piece) >= 4 <==> FourThrough(g, row, col, dr, dc, piece)
  {
    if LineCount(g, row, col, dr, dc, piece) >= 4 {
      RunsMakeFour(g, row, col, dr, dc, piece);
    }
    if FourThrough(g, row, col, dr, dc, piece) {
      FourMakesRuns(g, row, col, dr, dc, piece);
    }
  }

  /** `check_win` reports a win exactly when the played cell completes a line
      of four of the player's pieces in one of the four directions. */
  lemma WinsIffFourInARow(g: Grid, row: int, col: int, piece: int)
    requires IsGrid(g) && InBounds(row, col) && g[row][col] == piece
    ensures Wins(g, row, col, piece) <==>
            exists d :: 0 <= d < |Directions| && FourThrough(g, row, col, Directions[d].0, Directions[d].1, piece)
  {
    forall d | 0 <= d < |Directions|
      ensures LineCount(g, row, col, Directions[d].0, Directions[d].1, piece) >= 4
              <==> FourThrough(g, row, col, Directions[d].0, Directions[d].1, piece)
    {
      LineCountIffFour(g, row, col, Directions[d].0, Directions[d].1, piece);
    }
  }

  /** On a settled board a full top row means a full board. */
  lemma {:induction false} FullTopRowFillsBoard(g: Grid)
    requires IsGrid(g) && Settled(g)
    requires forall c :: 0 <= c < Columns ==> g[0][c] != 0
    ensures forall r, c :: 0 <= r < Rows && 0 <= c < Columns ==> g[r][c] != 0
  {
    forall r, c | 0 <= r < Rows && 0 <= c < Columns
      ensures g[r][c] != 0
    {
      FilledDown(g, c, r);
    }
  }

  lemma {:induction false} FilledDown(g: Grid, c: int, r: nat)
    requires IsGrid(g) && Settled(g) && 0 <= c < Columns && r < Rows && g[0][c] != 0
    ensures g[r][c] != 0
  {
    if r > 0 {
      FilledDown(g, c, r - 1);
      assert Supported(g, r - 1, c);
    }
  }

  // ---------------------------------------------------------------------------
  // The game
  // ---------------------------------------------------------------------------

  class Connect4Game {
    /** The two players' ids, first player first. */
    const players: (int, int)
    const bet: int
    const board: array2<int>
    var currentPlayerIndex: int
    var winner: Option<int>
    var isDraw: bool

    ghost predicate Valid()
      reads this, board
    {
      && board.Length0 == Rows && board.Length1 == Columns
      && (currentPlayerIndex == 0 || currentPlayerIndex == 1)
      && Settled(Cells())
    }

    function Cells(): (g: Grid)
      reads board
      requires board.Length0 == Rows && board.Length1 == Columns
      ensures IsGrid(g)
      ensures forall r, c :: 0 <= r < Rows && 0 <= c < Columns ==> g[r][c] == board[r, c]
    {
      seq(Rows, r reads board requires 0 <= r < Rows =>
        seq(Columns, c reads board requires 0 <= c < Columns => board[r, c]))
    }

    function CurrentPlayer(): int
      reads this
    {
      if currentPlayerIndex == 0 then players.0 else players.1
    }

    /** `__init__`: an empty board, the first player to move. */
    constructor(players: (int, int), bet: int)
      ensures Valid() && fresh(board)
      ensures this.players == players && this.bet == bet
      ensures currentPlayerIndex == 0 && winner.None? && !isDraw
      ensures forall r, c :: 0 <= r < Rows && 0 <= c < Columns ==> board[r, c] == 0
    {
      this.players := players;
      this.bet := bet;
      board := new int[Rows, Columns]((r, c) => 0);
      currentPlayerIndex := 0;
      winner := None;
      isDraw := false;
    }

    /** `make_move`: drop a piece of the current player into `column`.
        Returns the cell filled, or None for a column off the board or full. */
    method MakeMove(column: int) returns (cell: Option<(int, int)>)
      requires Valid()
      modifies board
      ensures Valid()
      ensures cell.None? <==> LowestEmpty(old(Cells()), column).None?
      ensures cell.Some? ==> && LowestEmpty(old(Cells()), column) == Some(cell.value.0) && cell.value.1 == column
                             && Cells() == Dropped(old(Cells()), cell.value.0, column, currentPlayerIndex + 1)
      ensures cell.None? ==> Cells() == old(Cells())
    {
      if !(0 <= column < Columns) {
        return None;
      }
      var row := Rows - 1;
      while row >= 0
        invariant -1 <= row < Rows
        invariant forall r :: row < r < Rows ==> board[r, column] != 0
        decreases row
      {
        if board[row, column] == 0 {
          ghost var before := Cells();
          LowestEmptyUnique(before, column, row);
          board[row, column] := currentPlayerIndex + 1;
          SettledAfterDrop(before, Cells(), row, column);
          DroppedIs(before, Cells(), row, column, currentPlayerIndex + 1);
          return Some((row, column));
        }
        row := row - 1;
      }
      cell := None;
    }

    /** A run from step i along (dr, dc), counted as `check_win`'s inner loop does. */
    method CountRun(row: int, col: int, dr: int, dc: int, piece: int, ghost g: Grid) returns (n: nat)
      requires board.Length0 == Rows && board.Length1 == Columns && g == Cells()
      ensures n == Run(g, row, col, dr, dc, piece, 1)
    {
      n := 0;
      var i := 1;
      while i < 4
        invariant 1 <= i <= 4 && n == i - 1
        invariant Run(g, row, col, dr, dc, piece, 1) == n + Run(g, row, col, dr, dc, piece, i)
        decreases 4 - i
      {
        var r, c := row + dr * i, col + dc * i;
        if 0 <= r < Rows && 0 <= c < Columns && board[r, c] == piece {
          n := n + 1;
        } else {
          assert Run(g, row, col, dr, dc, piece, i) == 0;
          return;
        }
        i := i + 1;
      }
    }

    /** `check_win` after the current player filled (row, col); records the
        winner. */
    method CheckWin(row: int, col: int) returns (win: bool)
      requires Valid()
      modifies this
      ensures Valid()
      ensures win <==> Wins(Cells(), row, col, currentPlayerIndex + 1)
      ensures winner == if win then Some(CurrentPlayer()) else old(winner)
      ensures currentPlayerIndex == old(currentPlayerIndex) && isDraw == old(isDraw)
    {
      win := FourDirections(row, col, currentPlayerIndex + 1);
      if win {
        winner := Some(CurrentPlayer());
      }
    }

    /** The loop over the four directions in `check_win`. */
    method FourDirections(row: int, col: int, piece: int) returns (win: bool)
      requires board.Length0 == Rows && board.Length1 == Columns
      ensures win <==> Wins(Cells(), row, col, piece)
    {
      ghost var g := Cells();
      for d := 0 to |Directions|
        invariant forall e :: 0 <= e < d ==> LineCount(g, row, col, Directions[e].0, Directions[e].1, piece) < 4
      {
        var found := DirectionWins(row, col, Directions[d].0, Directions[d].1, piece);
        if found {
          return true;
        }
      }
      win := false;
    }

    /** One direction of `check_win`: the count along it reaches four. */
    method DirectionWins(row: int, col: int, dr: int, dc: int, piece: int) returns (found: bool)
      requires board.Length0 == Rows && board.Length1 == Columns
      ensures found <==> LineCount(Cells(), row, col, dr, dc, piece) >= 4
    {
      ghost var g := Cells();
      var count := 1;
      var forward := CountRun(row, col, dr, dc, piece, g);
      count := count + forward;
      var backward := CountRun(row, col, -dr, -dc, piece, g);
      count := count + backward;
      LineCountOfRuns(g, row, col, dr, dc, piece, forward, backward);
      found := count >= 4;
    }

    /** `check_draw`: the top row is full. */
    method CheckDraw() returns (draw: bool)
      requires Valid()
      modifies this
      ensures Valid()
      ensures draw <==> forall c :: 0 <= c < Columns ==> board[0, c] != 0
      ensures isDraw == (old(isDraw) || draw)
      ensures currentPlayerIndex == old(currentPlayerIndex) && winner == old(winner)
    {
      draw := true;
      for c := 0 to Columns
        invariant draw <==> forall c' :: 0 <= c' < c ==> board[0, c'] != 0
      {
        if board[0, c] == 0 {
          draw := false;
        }
      }
      if draw {
        isDraw := true;
      }
    }

    /** `switch_player`. */
    method SwitchPlayer()
      requires Valid()
      modifies this
      ensures Valid()
      ensures currentPlayerIndex == 1 - old(currentPlayerIndex)
      ensures CurrentPlayer() == if old(currentPlayerIndex) == 0 then players.1 else players.0
      ensures winner == old(winner) && isDraw == old(isDraw)
    {
      currentPlayerIndex := 1 - currentPlayerIndex;
    }
  }

  /** Dropping a piece into the lowest empty cell keeps the board settled. */
  lemma SettledAfterDrop(before: Grid, after: Grid, row: int, col: int)
    requires IsGrid(before) && IsGrid(after) && Settled(before) && InBounds(row, col)
    requires before[row][col] == 0 && after[row][col] != 0
    requires row < Rows - 1 ==> before[row + 1][col] != 0
    requires forall r, c :: 0 <= r < Rows && 0 <= c < Columns && (r, c) != (row, col) ==> after[r][c] == before[r][c]
    ensures Settled(after)
  {
    forall r, c | InBounds(r, c)
      ensures Supported(after, r, c)
    {
      assert Supported(before, r, c);
    }
  }

  // ---------------------------------------------------------------------------
  // The view: one turn and the settlement
  // ---------------------------------------------------------------------------

  datatype MoveOutcome = NotYourTurn | ColumnFull | Won(player: int, winnings: int) | Drawn | Continued

  /** The ledger after a win: the winner takes both bets. */
  function PayWinner(data: map<string, int>, default: int, winner: int, bet: int): map<string, int> {
    Credit(data, default, winner, bet * 2)
  }

  /** The ledger after a draw or a timeout: each player gets the bet back. */
  function Refund(data: map<string, int>, default: int, players: (int, int), bet: int): map<string, int> {
    Credit(Credit(data, default, players.0, bet), default, players.1, bet)
  }

  /** The ledger when the game starts: both bets are taken. */
  function TakeBets(data: map<string, int>, default: int, players: (int, int), bet: int): map<string, int> {
    Credit(Credit(data, default, players.0, -bet), default, players.1, -bet)
  }

  /** The ledger after the bets are taken, for the two players. */
  lemma TakeBetsBalances(data: map<string, int>, default: int, players: (int, int), bet: int, u: int)
    requires players.0 != players.1
    ensures var start := TakeBets(data, default, players, bet);
            BalanceIn(start, default, u)
            == BalanceIn(data, default, u) - (if u == players.0 || u == players.1 then bet else 0)
  {
    var (a, b) := players;
    var s1 := Credit(data, default, a, -bet);
    if u != a {
      CreditOthersUnchanged(data, default, a, -bet, u);
    }
    if u != b {
      CreditOthersUnchanged(s1, default, b, -bet, u);
    }
  }

  /** The ledger after a refund, for the two players. */
  lemma RefundBalances(data: map<string, int>, default: int, players: (int, int), bet: int, u: int)
    requires players.0 != players.1
    ensures BalanceIn(Refund(data, default, players, bet), default, u)
            == BalanceIn(data, default, u) + (if u == players.0 || u == players.1 then bet else 0)
  {
    var (a, b) := players;
    var r1 := Credit(data, default, a, bet);
    if u != a {
      CreditOthersUnchanged(data, default, a, bet, u);
    }
    if u != b {
      CreditOthersUnchanged(r1, default, b, bet, u);
    }
  }

  /** Taking the bets and then paying a winner moves no coins in or out of
      the two players' combined balance; taking them and refunding restores
      every balance; nobody else's balance moves. */
  lemma Connect4IsZeroSum(data: map<string, int>, default: int, players: (int, int), bet: int, w: int, u: int)
    requires players.0 != players.1 && (w == players.0 || w == players.1)
    ensures var start := TakeBets(data, default, players, bet);
            var won := PayWinner(start, default, w, bet);
            && BalanceIn(won, default, players.0) + BalanceIn(won, default, players.1)
               == BalanceIn(data, default, players.0) + BalanceIn(data, default, players.1)
            && BalanceIn(Refund(start, default, players, bet), default, u) == BalanceIn(data, default, u)
            && (u != players.0 && u != players.1 ==> BalanceIn(won, default, u) == BalanceIn(data, default, u))
  {
    var start := TakeBets(data, default, players, bet);
    var other := if w == players.0 then players.1 else players.0;
    TakeBetsBalances(data, default, players, bet, w);
    TakeBetsBalances(data, default, players, bet, other);
    TakeBetsBalances(data, default, players, bet, u);
    CreditOthersUnchanged(start, default, w, bet * 2, other);
    RefundBalances(start, default, players, bet, u);
    if u != w {
      CreditOthersUnchanged(start, default, w, bet * 2, u);
    }
  }

  class Connect4View {
    const game: Connect4Game
    const economy: EconomyManager
    /** Set by `self.stop()`: the view takes no more presses or timeouts. */
    var stopped: bool

    ghost predicate Valid()
      reads this, game, game.board
    {
      game.Valid()
    }

    constructor(game: Connect4Game, economy: EconomyManager)
      requires game.Valid()
      ensures Valid() && this.game == game && this.economy == economy && !stopped
    {
      this.game := game;
      this.economy := economy;
      stopped := false;
    }

    /** `column_button_callback`: a press of column `column` by `user`.
        `cell` is the cell the piece landed in, None when no piece was dropped. */
    method ColumnPressed(user: int, column: int) returns (outcome: MoveOutcome, ghost cell: Option<(int, int)>)
      requires Valid() && !stopped
      modifies this, game, game.board, economy
      ensures Valid()
      ensures user != old(game.CurrentPlayer()) <==> outcome == NotYourTurn
      ensures outcome == ColumnFull <==> user == old(game.CurrentPlayer()) && LowestEmpty(old(game.Cells()), column).None?
      ensures cell.None? <==> outcome == NotYourTurn || outcome == ColumnFull
      ensures cell.None? ==>
                && game.Cells() == old(game.Cells()) && economy.economyData == old(economy.economyData)
                && !stopped && game.currentPlayerIndex == old(game.currentPlayerIndex)
      ensures cell.Some? ==>
                var (row, col) := cell.value;
                var piece := old(game.currentPlayerIndex) + 1;
                && LowestEmpty(old(game.Cells()), column) == Some(row) && col == column
                && game.Cells() == Dropped(old(game.Cells()), row, col, piece)
                && (outcome.Won? <==> Wins(game.Cells(), row, col, piece))
                && (outcome == Drawn <==> !Wins(game.Cells(), row, col, piece) && TopRowFull(game.Cells()))
      ensures outcome.Won? ==>
                && outcome == Won(old(game.CurrentPlayer()), game.bet * 2)
                && game.winner == Some(outcome.player)
                && economy.economyData == PayWinner(old(economy.economyData), economy.defaultBalance, outcome.player, game.bet)
                && stopped
      ensures outcome == Drawn ==>
                && game.isDraw
                && economy.economyData == Refund(old(economy.economyData), economy.defaultBalance, game.players, game.bet)
                && stopped
      ensures outcome == Continued ==>
                && economy.economyData == old(economy.economyData) && !stopped
                && game.currentPlayerIndex == 1 - old(game.currentPlayerIndex)
    {
      if user != game.CurrentPlayer() {
        return NotYourTurn, None;
      }
      ghost var before := game.Cells();
      var moved := game.MakeMove(column);
      cell := moved;
      if moved.None? {
        return ColumnFull, None;
      }
      ghost var after := game.Cells();
      assert after == Dropped(before, moved.value.0, column, old(game.currentPlayerIndex) + 1);
      outcome := FinishMove(moved.value.0, moved.value.1, after);
    }

    /** The rest of `column_button_callback` once a piece has landed in
        (row, col) of the board `g`: `check_win`, else `check_draw`, else
        `switch_player`. */
    method FinishMove(row: int, col: int, ghost g: Grid) returns (outcome: MoveOutcome)
      requires Valid() && !stopped && InBounds(row, col) && g == game.Cells()
      modifies this, game, economy
      ensures Valid() && game.Cells() == g
      ensures outcome.Won? <==> Wins(g, row, col, old(game.currentPlayerIndex) + 1)
      ensures outcome == Drawn <==> !Wins(g, row, col, old(game.currentPlayerIndex) + 1) && TopRowFull(g)
      ensures outcome == Continued <==> !Wins(g, row, col, old(game.currentPlayerIndex) + 1) && !TopRowFull(g)
      ensures outcome.Won? ==>
                && outcome == Won(old(game.CurrentPlayer()), game.bet * 2)
                && game.winner == Some(outcome.player)
                && economy.economyData == PayWinner(old(economy.economyData), economy.defaultBalance, outcome.player, game.bet)
                && stopped
      ensures outcome == Drawn ==>
                && game.isDraw
                && economy.economyData == Refund(old(economy.economyData), economy.defaultBalance, game.players, game.bet)
                && stopped
      ensures outcome == Continued ==>
                && economy.economyData == old(economy.economyData) && !stopped
                && game.currentPlayerIndex == 1 - old(game.currentPlayerIndex)
    {
      var win := game.CheckWin(row, col);
      assert win <==> Wins(g, row, col, old(game.currentPlayerIndex) + 1);
      if win {
        outcome := DeclareWin(g);
      } else {
        outcome := DrawOrSwitch(g);
      }
    }

    /** `_end_game` for the player to move, who has just won. */
    method DeclareWin(ghost g: Grid) returns (outcome: MoveOutcome)
      requires Valid() && !stopped && g == game.Cells() && game.winner == Some(game.CurrentPlayer())
      modifies this, economy
      ensures Valid() && game.Cells() == g && outcome == Won(game.CurrentPlayer(), game.bet * 2)
      ensures game.winner == Some(outcome.player)
      ensures economy.economyData == PayWinner(old(economy.economyData), economy.defaultBalance, outcome.player, game.bet)
      ensures stopped
    {
      var w := game.CurrentPlayer();
      EndGameWon(w);
      outcome := Won(w, game.bet * 2);
    }

    /** `check_draw`, else `switch_player`, after a move that did not win. */
    method DrawOrSwitch(ghost g: Grid) returns (outcome: MoveOutcome)
      requires Valid() && !stopped && g == game.Cells()
      modifies this, game, economy
      ensures Valid() && game.Cells() == g && game.winner == old(game.winner)
      ensures outcome == Drawn <==> TopRowFull(g)
      ensures outcome == Continued <==> !TopRowFull(g)
      ensures outcome == Drawn ==>
                && game.isDraw
                && economy.economyData == Refund(old(economy.economyData), economy.defaultBalance, game.players, game.bet)
                && stopped
      ensures outcome == Continued ==>
                && economy.economyData == old(economy.economyData) && !stopped
                && game.currentPlayerIndex == 1 - old(game.currentPlayerIndex)
    {
      var draw := game.CheckDraw();
      assert draw <==> TopRowFull(g);
      if draw {
        EndGameDrawn();
        outcome := Drawn;
      } else {
        game.SwitchPlayer();
        outcome := Continued;
      }
    }

    /** `_end_game(winner=w)`. */
    method EndGameWon(w: int)
      modifies this, economy
      ensures economy.economyData == PayWinner(old(economy.economyData), economy.defaultBalance, w, game.bet)
      ensures stopped
    {
      var _ := economy.UpdateBalance(w, game.bet * 2);
      stopped := true;
    }

    /** `_end_game(is_draw=True)`. */
    method EndGameDrawn()
      modifies this, economy
      ensures economy.economyData == Refund(old(economy.economyData), economy.defaultBalance, game.players, game.bet)
      ensures stopped
    {
      var _ := economy.UpdateBalance(game.players.0, game.bet);
      var _ := economy.UpdateBalance(game.players.1, game.bet);
      stopped := true;
    }

    /** `on_timeout`: the bets go back unless the game has ended. */
    method OnTimeout()
      requires !stopped
      modifies this, economy
      ensures game.winner.None? && !game.isDraw ==>
                economy.economyData == Refund(old(economy.economyData), economy.defaultBalance, game.players, game.bet)
      ensures game.winner.Some? || game.isDraw ==> economy.economyData == old(economy.economyData)
      ensures stopped
    {
      if game.winner.None? && !game.isDraw {
        var _ := economy.UpdateBalance(game.players.0, game.bet);
        var _ := economy.UpdateBalance(game.players.1, game.bet);
      }
      stopped := true;
    }
  }

  // ---------------------------------------------------------------------------
  // The `connect4` command
  // ---------------------------------------------------------------------------

  datatype StartRefusal = CannotPlaySelf | CannotPlayBot | AuthorBet(why: BetRejection) | OpponentBet(why: BetRejection)

  /** `connect4`: refuse a game against oneself or a bot, validate both
      players' bets, take the bets and set up the game. */
  method StartConnect4(economy: EconomyManager, author: int, opponent: int, opponentIsBot: bool, bet: int)
    returns (r: Result<Connect4Game, StartRefusal>)
    modifies economy
    ensures author == opponent ==> r == Err(CannotPlaySelf)
    ensures author != opponent && opponentIsBot ==> r == Err(CannotPlayBot)
    ensures r.Err? ==> economy.economyData == old(economy.economyData)
    ensures r.Ok? <==> author != opponent && !opponentIsBot && Connect4MinBet <= bet
                       && bet <= old(economy.GetBalance(author)) && bet <= old(economy.GetBalance(opponent))
    ensures r.Ok? ==>
              && fresh(r.value) && fresh(r.value.board) && r.value.Valid()
              && r.value.players == (author, opponent) && r.value.bet == bet && r.value.currentPlayerIndex == 0
              && economy.economyData == TakeBets(old(economy.economyData), economy.defaultBalance, (author, opponent), bet)
  {
    if author == opponent {
      return Err(CannotPlaySelf);
    }
    if opponentIsBot {
      return Err(CannotPlayBot);
    }
    var authorCheck := CommonBetValidation(economy, bet, Connect4MinBet, author);
    if authorCheck.Some? {
      return Err(AuthorBet(authorCheck.value));
    }
    var opponentCheck := CommonBetValidation(economy, bet, Connect4MinBet, opponent);
    if opponentCheck.Some? {
      return Err(OpponentBet(opponentCheck.value));
    }
    var _ := economy.UpdateBalance(author, -bet);
    var _ := economy.UpdateBalance(opponent, -bet);
    var game := new Connect4Game((author, opponent), bet);
    r := Ok(game);
  }
}
