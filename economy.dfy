/** The coin ledger shared by the games and the store: `EconomyManager`
    keeps a dictionary from `str(user_id)` to a balance, where a user with
    no entry holds the default balance. */
module Economy {
  import opened Common

  /** ECONOMY_DEFAULT_BALANCE. */
  const DefaultBalance: int := 100

  /** The dictionary key of a user: `str(user_id)`. */
  function Key(user: int): string { IntToDecimal(user) }

  /** Different users never share a key. */
  lemma KeyInjective(u: int, v: int)
    ensures Key(u) == Key(v) <==> u == v
  {
    IntToDecimalParses(u);
    IntToDecimalParses(v);
  }

  /** `economy_data.get(str(user), default_balance)`. */
  function BalanceIn(data: map<string, int>, default: int, user: int): int {
    if Key(user) in data then data[Key(user)] else default
  }

  /** The ledger after `update_balance(user, amount)`: the user's entry is
      written with their balance plus `amount`. */
  function Credit(data: map<string, int>, default: int, user: int, amount: int): (r: map<string, int>)
    ensures Key(user) in r && r.Keys == data.Keys + {Key(user)}
    ensures BalanceIn(r, default, user) == BalanceIn(data, default, user) + amount
  {
    data[Key(user) := BalanceIn(data, default, user) + amount]
  }

  /** An update changes the balance of its own user only. */
  lemma CreditOthersUnchanged(data: map<string, int>, default: int, user: int, amount: int, other: int)
    requires other != user
    ensures BalanceIn(Credit(data, default, user, amount), default, other) == BalanceIn(data, default, other)
  {
    KeyInjective(user, other);
  }

  /** Two updates of the same user add up. */
  lemma CreditTwice(data: map<string, int>, default: int, user: int, a: int, b: int)
    ensures Credit(Credit(data, default, user, a), default, user, b) == Credit(data, default, user, a + b)
  {
  }

  /** A bet taken from a player: their balance less the stake. */
  function Stake(data: map<string, int>, default: int, user: int, bet: int): (r: map<string, int>)
    ensures BalanceIn(r, default, user) == BalanceIn(data, default, user) - bet
  {
    Credit(data, default, user, -bet)
  }

  /** A game's settlement, `if payout > 0: update_balance(player, payout)`. */
  function Settle(data: map<string, int>, default: int, user: int, payout: int): (r: map<string, int>)
    ensures payout <= 0 ==> r == data
    ensures BalanceIn(r, default, user) == BalanceIn(data, default, user) + (if payout > 0 then payout else 0)
  {
    if payout > 0 then Credit(data, default, user, payout) else data
  }

  class EconomyManager {
    const defaultBalance: int
    var economyData: map<string, int>

    /** `__init__` with `_load_economy`: `stored` is the decoded file, or
        None when the file is missing or cannot be decoded. */
    constructor(defaultBalance: int, stored: Option<map<string, int>>)
      ensures this.defaultBalance == defaultBalance
      ensures economyData == if stored.Some? then stored.value else map[]
    {
      this.defaultBalance := defaultBalance;
      economyData := if stored.Some? then stored.value else map[];
    }

    /** `get_balance`. */
    function GetBalance(user: int): (b: int)
      reads this
      ensures Key(user) !in economyData ==> b == defaultBalance
      ensures Key(user) in economyData ==> b == economyData[Key(user)]
    {
      BalanceIn(economyData, defaultBalance, user)
    }

    /** `update_balance`; the file write that follows is not modelled. */
    method UpdateBalance(user: int, amount: int) returns (newBalance: int)
      modifies this
      ensures economyData == Credit(old(economyData), defaultBalance, user, amount)
      ensures newBalance == old(GetBalance(user)) + amount && newBalance == GetBalance(user)
    {
      var current := if Key(user) in economyData then economyData[Key(user)] else defaultBalance;
      newBalance := current + amount;
      economyData := economyData[Key(user) := newBalance];
    }
  }

  // ---------------------------------------------------------------------------
  // Bets
  // ---------------------------------------------------------------------------

  /** CONNECT4_MIN_BET, BLACKJACK_MIN_BET and ROULETTE_MIN_BET. */
  const Connect4MinBet: int := 1
  const BlackjackMinBet: int := 5
  const RouletteMinBet: int := 10

  datatype BetRejection = BelowMinimum(minBet: int) | InsufficientFunds(balance: int)

  /** `common_bet_validation` given the player's balance; None accepts the bet. */
  function ValidateBet(bet: int, minBet: int, balance: int): (r: Option<BetRejection>)
    ensures r.None? <==> minBet <= bet <= balance
    ensures r == Some(BelowMinimum(minBet)) <==> bet < minBet
    ensures r == Some(InsufficientFunds(balance)) <==> minBet <= bet && balance < bet
  {
    if bet < minBet then Some(BelowMinimum(minBet))
    else if balance < bet then Some(InsufficientFunds(balance))
    else None
  }

  /** `common_bet_validation` reading the ledger. */
  method CommonBetValidation(economy: EconomyManager, bet: int, minBet: int, user: int)
    returns (r: Option<BetRejection>)
    ensures r.None? <==> minBet <= bet <= economy.GetBalance(user)
    ensures r == ValidateBet(bet, minBet, economy.GetBalance(user))
  {
    if bet < minBet {
      return Some(BelowMinimum(minBet));
    }
    var balance := economy.GetBalance(user);
    if balance < bet {
      return Some(InsufficientFunds(balance));
    }
    r := None;
  }
}
