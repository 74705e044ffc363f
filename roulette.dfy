/** Roulette: one bet on a colour or a number, one spin of the wheel 0..36
    and the payout credited to the ledger. */
module Roulette {
  import opened Common
  import opened Economy

  /** ROULETTE_RED_NUMBERS, ROULETTE_BLACK_NUMBERS and ROULETTE_GREEN_NUMBER. */
  const RedNumbers: seq<int> := [1, 3, 5, 7, 9, 12, 14, 16, 18, 19, 21, 23, 25, 27, 30, 32, 34, 36]
  const BlackNumbers: seq<int> := [2, 4, 6, 8, 10, 11, 13, 15, 17, 20, 22, 24, 26, 28, 29, 31, 33, 35]
  const GreenNumber: int := 0

  /** ROULETTE_PAYOUT_NUMBER, ROULETTE_PAYOUT_COLOR and ROULETTE_PAYOUT_GREEN. */
  const PayoutNumber: int := 35
  const PayoutColor: int := 2
  const PayoutGreen: int := 35

  datatype Colour = Green | Red | Black | Unknown

  /** `get_winning_color`. */
  function WinningColor(n: int): (c: Colour)
    ensures c == Green <==> n == GreenNumber
    ensures c == Red <==> n != GreenNumber && n in RedNumbers
    ensures c == Black <==> n != GreenNumber && n !in RedNumbers && n in BlackNumbers
  {
    if n == GreenNumber then Green
    else if n in RedNumbers then Red
    else if n in BlackNumbers then Black
    else Unknown
  }

  lemma RedMembers(n: int)
    ensures n in RedNumbers <==> n in {1, 3, 5, 7, 9, 12, 14, 16, 18, 19, 21, 23, 25, 27, 30, 32, 34, 36}
  {
  }

  lemma BlackMembers(n: int)
    ensures n in BlackNumbers <==> n in {2, 4, 6, 8, 10, 11, 13, 15, 17, 20, 22, 24, 26, 28, 29, 31, 33, 35}
  {
  }

  /** The red and black lists share no number and hold eighteen each. */
  lemma RedBlackDisjoint(n: int)
    ensures !(n in RedNumbers && n in BlackNumbers)
    ensures |RedNumbers| == 18 && |BlackNumbers| == 18
  {
    RedMembers(n);
    BlackMembers(n);
  }

  /** With green, red and black cover the wheel: every number 0..36 has a
      colour and no other number does. */
  lemma WheelColours(n: int)
    ensures WinningColor(n) != Unknown <==> 0 <= n <= 36
  {
    RedMembers(n);
    BlackMembers(n);
  }

  // ---------------------------------------------------------------------------
  // Bet types
  // ---------------------------------------------------------------------------

  /** The text of `s` up to the first `ch`, or all of it. */
  function UpTo(s: string, ch: char): (r: string)
    ensures |r| <= |s| && r == s[..|r|]
    ensures ch !in r
    ensures |r| < |s| ==> s[|r|] == ch
  {
    if s == [] || s[0] == ch then [] else [s[0]] + UpTo(s[1..], ch)
  }

  const NumberPrefix: string := "number_"

  /** `int(bet_type.split("_")[1])` for a bet type starting `number_`: the
      field after the first underscore, read as an integer. */
  function ChosenNumber(betType: string): Option<int>
    requires StartsWith(betType, NumberPrefix)
  {
    ParseInt(UpTo(betType[|NumberPrefix|..], '_'))
  }

  /** `payout` after `calculate_payout` for a placed bet, given the payout
      held before: a number bet that parses but misses keeps it. */
  function PayoutFor(bet: int, betType: string, winning: int, previous: int): int {
    if StartsWith(betType, NumberPrefix) then
      match ChosenNumber(betType)
      case Some(chosen) => if chosen == winning then bet * PayoutNumber else previous
      case None => 0
    else if betType == "red" && winning in RedNumbers then bet * PayoutColor
    else if betType == "black" && winning in BlackNumbers then bet * PayoutColor
    else if betType == "green" && winning == GreenNumber then bet * PayoutGreen
    else 0
  }

  /** The colour payouts: twice the bet for the colour that came up and 35
      times it for green on zero, nothing otherwise. */
  lemma ColourPayouts(bet: int, winning: int, previous: int)
    requires 0 <= winning <= 36
    ensures PayoutFor(bet, "red", winning, previous) == if WinningColor(winning) == Red then 2 * bet else 0
    ensures PayoutFor(bet, "black", winning, previous) == if WinningColor(winning) == Black then 2 * bet else 0
    ensures PayoutFor(bet, "green", winning, previous) == if winning == 0 then 35 * bet else 0
  {
    RedBlackDisjoint(winning);
    assert !StartsWith("red", NumberPrefix) && !StartsWith("black", NumberPrefix) && !StartsWith("green", NumberPrefix);
  }

  /** A number bet whose number cannot be read pays nothing and raises no
      error, whatever was held before. */
  lemma MalformedNumberPaysNothing(bet: int, winning: int, previous: int)
    ensures PayoutFor(bet, "number_", winning, previous) == 0
    ensures PayoutFor(bet, "number_x", winning, previous) == 0
  {
    assert StartsWith("number_", NumberPrefix);
    assert "number_"[|NumberPrefix|..] == [];
    assert StartsWith("number_x", NumberPrefix);
    assert "number_x"[|NumberPrefix|..] == "x";
    assert UpTo("x", '_') == "x" by {
      assert "x"[1..] == [];
    }
    assert !IsDigit('x');
  }

  /** A decimal numeral holds no underscore. */
  lemma NoUnderscore(s: string)
    requires AllDigits(s)
    ensures UpTo(s, '_') == s
    decreases |s|
  {
    if s != [] {
      NoUnderscore(s[1..]);
    }
  }

  /** The bet the number modal places and the payout reading it back agree:
      `number_{n}` wins 35 times the bet exactly when `n` comes up. */
  lemma NumberBetRoundTrip(bet: int, n: int, winning: int, previous: int)
    requires 0 <= n <= 36
    ensures StartsWith(NumberBet(n), NumberPrefix) && ChosenNumber(NumberBet(n)) == Some(n)
    ensures PayoutFor(bet, NumberBet(n), winning, previous) == if n == winning then bet * 35 else previous
  {
    var s := NumberBet(n);
    assert s[..|NumberPrefix|] == NumberPrefix;
    assert s[|NumberPrefix|..] == IntToDecimal(n);
    NoUnderscore(IntToDecimal(n));
    IntToDecimalParses(n);
  }

  /** `f"number_{number}"`. */
  function NumberBet(n: int): string {
    NumberPrefix + IntToDecimal(n)
  }

  datatype ModalError = OutOfRange | NotANumber

  /** `RouletteNumberModal.on_submit`: the typed text read with `int()`,
      refused outside 0..36. */
  function NumberModal(text: string): (r: Result<string, ModalError>)
    ensures r == Err(NotANumber) <==> ParseInt(text).None?
    ensures r == Err(OutOfRange) <==> ParseInt(text).Some? && !(0 <= ParseInt(text).value <= 36)
    ensures r.Ok? ==> exists n :: 0 <= n <= 36 && ParseInt(text) == Some(n) && r.value == NumberBet(n)
  {
    match ParseInt(text)
    case None => Err(NotANumber)
    case Some(n) => if 0 <= n <= 36 then Ok(NumberBet(n)) else Err(OutOfRange)
  }

  // ---------------------------------------------------------------------------
  // The game object
  // ---------------------------------------------------------------------------

  class RouletteGame {
    const player: int
    const betAmount: int
    var betType: Option<string>
    /** `random.randint(0, 36)`, taken as a parameter. */
    const winningNumber: int
    var payout: int
    var gameOver: bool

    constructor(player: int, betAmount: int, spin: int)
      requires 0 <= spin <= 36
      ensures this.player == player && this.betAmount == betAmount && winningNumber == spin
      ensures betType == None && payout == 0 && !gameOver
    {
      this.player := player;
      this.betAmount := betAmount;
      winningNumber := spin;
      betType := None;
      payout := 0;
      gameOver := false;
    }

    /** `place_bet`. */
    method PlaceBet(bet: string)
      modifies this
      ensures betType == Some(bet) && payout == old(payout) && gameOver == old(gameOver)
    {
      betType := Some(bet);
    }

    /** `calculate_payout`: the game is over; without a bet nothing is paid
        and `payout` is left alone. */
    method CalculatePayout() returns (p: int)
      modifies this
      ensures gameOver && betType == old(betType)
      ensures betType.None? ==> p == 0 && payout == old(payout)
      ensures betType.Some? ==> payout == PayoutFor(betAmount, betType.value, winningNumber, old(payout)) && p == payout
    {
      gameOver := true;
      if betType.None? {
        return 0;
      }
      var bet := betType.value;
      if StartsWith(bet, NumberPrefix) {
        var chosen := ParseInt(UpTo(bet[|NumberPrefix|..], '_'));
        if chosen.Some? {
          if chosen.value == winningNumber {
            payout := betAmount * PayoutNumber;
          }
        } else {
          payout := 0;
        }
      } else if bet == "red" && winningNumber in RedNumbers {
        payout := betAmount * PayoutColor;
      } else if bet == "black" && winningNumber in BlackNumbers {
        payout := betAmount * PayoutColor;
      } else if bet == "green" && winningNumber == GreenNumber {
        payout := betAmount * PayoutGreen;
      } else {
        payout := 0;
      }
      return payout;
    }
  }

  // ---------------------------------------------------------------------------
  // The view and the command
  // ---------------------------------------------------------------------------

  datatype Reply =
    | Ignored
    | NotYourGame
    | AlreadyOver
    | ModalOpened
    | Refused(why: ModalError)
    | Spun(number: int, colour: Colour, payout: int)

  /** The bet type of a button: `custom_id.split("_")[1]`. */
  function ButtonBet(customId: string): string
    requires StartsWith(customId, "roulette_")
  {
    UpTo(customId[|"roulette_"|..], '_')
  }

  class RouletteView {
    const game: RouletteGame
    const economy: EconomyManager
    var stopped: bool

    constructor(game: RouletteGame, economy: EconomyManager)
      ensures this.game == game && this.economy == economy && !stopped
    {
      this.game := game;
      this.economy := economy;
      stopped := false;
    }

    /** `process_bet`: place the bet, spin, credit a positive payout and stop. */
    method ProcessBet(bet: string) returns (r: Reply)
      modifies this, game, economy
      ensures game.betType == Some(bet) && game.gameOver && stopped
      ensures game.payout == PayoutFor(game.betAmount, bet, game.winningNumber, old(game.payout))
      ensures r == Spun(game.winningNumber, WinningColor(game.winningNumber), game.payout)
      ensures economy.economyData == if game.payout > 0
        then Credit(old(economy.economyData), economy.defaultBalance, game.player, game.payout)
        else old(economy.economyData)
    {
      game.PlaceBet(bet);
      var _ := game.CalculatePayout();
      var payout := game.payout;
      if payout > 0 {
        var _ := economy.UpdateBalance(game.player, payout);
      }
      stopped := true;
      return Spun(game.winningNumber, WinningColor(game.winningNumber), payout);
    }

    /** `on_interaction` with `interaction_check` and `on_button_click`:
        buttons of other ids are ignored, the check refuses other users and a
        finished game, the number button opens the modal and a colour button
        places its bet. */
    method OnInteraction(user: int, customId: string) returns (r: Reply)
      modifies this, game, economy
      ensures !StartsWith(customId, "roulette_") ==> r == Ignored
      ensures !StartsWith(customId, "roulette_") || user != game.player || old(game.gameOver)
                || customId == "roulette_number_select" ==>
                unchanged(this, game, economy)
      ensures StartsWith(customId, "roulette_") && user != game.player ==> r == NotYourGame
      ensures StartsWith(customId, "roulette_") && user == game.player && old(game.gameOver) ==> r == AlreadyOver
      ensures StartsWith(customId, "roulette_") && user == game.player && !old(game.gameOver) ==>
        if customId == "roulette_number_select" then r == ModalOpened
        else
          && game.betType == Some(ButtonBet(customId)) && stopped
          && game.payout == PayoutFor(game.betAmount, ButtonBet(customId), game.winningNumber, old(game.payout))
          && r == Spun(game.winningNumber, WinningColor(game.winningNumber), game.payout)
    {
      if !StartsWith(customId, "roulette_") {
        return Ignored;
      }
      if user != game.player {
        return NotYourGame;
      }
      if game.gameOver {
        return AlreadyOver;
      }
      if customId == "roulette_number_select" {
        return ModalOpened;
      }
      r := ProcessBet(ButtonBet(customId));
    }

    /** `RouletteNumberModal.on_submit`, which is not behind
        `interaction_check`. */
    method OnModalSubmit(text: string) returns (r: Reply)
      modifies this, game, economy
      ensures NumberModal(text).Err? ==> r == Refused(NumberModal(text).error) && unchanged(this, game, economy)
      ensures NumberModal(text).Ok? ==>
        && game.betType == Some(NumberModal(text).value) && stopped
        && game.payout == PayoutFor(game.betAmount, NumberModal(text).value, game.winningNumber, old(game.payout))
        && r == Spun(game.winningNumber, WinningColor(game.winningNumber), game.payout)
    {
      var parsed := ParseInt(text);
      if parsed.None? {
        return Refused(NotANumber);
      }
      var number := parsed.value;
      if !(0 <= number <= 36) {
        return Refused(OutOfRange);
      }
      r := ProcessBet(NumberPrefix + IntToDecimal(number));
    }

    /** `on_timeout`: nothing is charged or paid. */
    method OnTimeout()
      modifies this
      ensures stopped
    {
      stopped := true;
    }
  }

  /** As written, `roulette` never takes the stake: a losing spin leaves the
      balance as it was and a winning colour gains twice the bet. */
  lemma StakeNeverTakenAsWritten(data: map<string, int>, default: int, user: int, bet: int,
                                  betType: string, winning: int)
    requires bet >= 0 && 0 <= winning <= 36
    ensures var payout := PayoutFor(bet, betType, winning, 0);
      var net := BalanceIn(Settle(data, default, user, payout), default, user) - BalanceIn(data, default, user);
      && net >= 0
      && (payout == 0 ==> net == 0)
      && (betType == "red" && WinningColor(winning) == Red ==> net == 2 * bet)
  {
    var payout := PayoutFor(bet, betType, winning, 0);
    if StartsWith(betType, NumberPrefix) {
      assert payout >= 0;
    }
    ColourPayouts(bet, winning, 0);
  }

  /** With the stake taken up front the payout is a total return: a losing
      spin costs the bet, a winning colour gains it and a winning number or
      green gains 34 times it. */
  lemma StakedNet(data: map<string, int>, default: int, user: int, bet: int, betType: string, winning: int)
    requires bet > 0 && 0 <= winning <= 36
    ensures var payout := PayoutFor(bet, betType, winning, 0);
      var net := BalanceIn(Settle(Stake(data, default, user, bet), default, user, payout), default, user)
                 - BalanceIn(data, default, user);
      && (payout == 0 ==> net == -bet)
      && (betType == "red" && WinningColor(winning) == Red ==> net == bet)
      && (betType == "green" && winning == 0 ==> net == 34 * bet)
  {
    ColourPayouts(bet, winning, 0);
  }

  /** The `roulette` command as written: validate the bet and open the game
      without taking the stake. */
  method RouletteCommandAsWritten(economy: EconomyManager, author: int, bet: int, spin: int)
    returns (r: Result<RouletteView, BetRejection>)
    requires 0 <= spin <= 36
    modifies economy
    ensures r.Err? <==> ValidateBet(bet, RouletteMinBet, old(economy.GetBalance(author))).Some?
    ensures r.Err? ==> r.error == ValidateBet(bet, RouletteMinBet, old(economy.GetBalance(author))).value
    ensures economy.economyData == old(economy.economyData)
    ensures r.Ok? ==> fresh(r.value) && fresh(r.value.game) && !r.value.stopped && r.value.economy == economy
                      && r.value.game.player == author && r.value.game.betAmount == bet
                      && r.value.game.winningNumber == spin && r.value.game.betType.None? && !r.value.game.gameOver
  {
    var rejection := CommonBetValidation(economy, bet, RouletteMinBet, author);
    if rejection.Some? {
      return Err(rejection.value);
    }
    var game := new RouletteGame(author, bet, spin);
    var view := new RouletteView(game, economy);
    return Ok(view);
  }

  /** The `roulette` command with the stake taken when the game opens. */
  method RouletteCommand(economy: EconomyManager, author: int, bet: int, spin: int)
    returns (r: Result<RouletteView, BetRejection>)
    requires 0 <= spin <= 36
    modifies economy
    ensures r.Err? <==> ValidateBet(bet, RouletteMinBet, old(economy.GetBalance(author))).Some?
    ensures r.Err? ==> r.error == ValidateBet(bet, RouletteMinBet, old(economy.GetBalance(author))).value
                       && economy.economyData == old(economy.economyData)
    ensures r.Ok? ==> economy.economyData == Stake(old(economy.economyData), economy.defaultBalance, author, bet)
    ensures r.Ok? ==> fresh(r.value) && fresh(r.value.game) && !r.value.stopped && r.value.economy == economy
                      && r.value.game.player == author && r.value.game.betAmount == bet
                      && r.value.game.winningNumber == spin && r.value.game.betType.None? && !r.value.game.gameOver
  {
    var rejection := CommonBetValidation(economy, bet, RouletteMinBet, author);
    if rejection.Some? {
      return Err(rejection.value);
    }
    var _ := economy.UpdateBalance(author, -bet);
    var game := new RouletteGame(author, bet, spin);
    var view := new RouletteView(game, economy);
    return Ok(view);
  }
}
