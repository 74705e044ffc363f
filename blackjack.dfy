/** Blackjack against the dealer: the deck of 52 card strings, the
    ace-adjusted hand value, hit, the dealer's draw-to-17 rule, the result and
    the payout credited to the ledger. */
module Blackjack {
  import opened Common
  import opened Economy

  // ---------------------------------------------------------------------------
  // Cards
  // ---------------------------------------------------------------------------

  /** BLACKJACK_CARD_RANKS. */
  const Ranks: seq<string> := ["2", "3", "4", "5", "6", "7", "8", "9", "10", "J", "Q", "K", "A"]

  /** BLACKJACK_CARD_SUITS: each suit emoji is a symbol followed by the
      variation selector U+FE0F, so two characters long. */
  const Suits: seq<string> := ["\U{2660}\U{FE0F}", "\U{2663}\U{FE0F}", "\U{2665}\U{FE0F}", "\U{2666}\U{FE0F}"]

  /** `len(BLACKJACK_CARD_SUITS[0])`, the suffix cut off a card to read its rank. */
  const SuitLength: int := |Suits[0]|

  /** `_create_deck`: every rank of every suit, suit by suit. */
  function FullDeck(): (d: seq<string>)
    ensures |d| == 52
  {
    seq(52, i requires 0 <= i < 52 => Ranks[i % 13] + Suits[i / 13])
  }

  /** `card[:-len(suit)]`. */
  function RankOf(card: string): string {
    PyPrefix(card, -SuitLength)
  }

  /** What one card adds to the total before aces are adjusted: a digit rank
      its number, J/Q/K ten, an ace eleven and any other rank nothing. */
  function CardPoints(card: string): nat {
    var rank := RankOf(card);
    if rank != [] && AllDigits(rank) then NumeralValue(rank, 10)
    else if rank == "J" || rank == "Q" || rank == "K" then 10
    else if rank == "A" then 11
    else 0
  }

  predicate IsAce(card: string) {
    RankOf(card) == "A"
  }

  /** The blackjack value of rank number `r` of Ranks. */
  function RankPoints(r: int): nat
    requires 0 <= r < 13
  {
    if r < 9 then r + 2 else if r < 12 then 10 else 11
  }

  lemma RankOfDeckCard(i: int)
    requires 0 <= i < 52
    ensures RankOf(FullDeck()[i]) == Ranks[i % 13]
  {
    var card := FullDeck()[i];
    assert card == Ranks[i % 13] + Suits[i / 13];
    assert RankOf(card) == card[..|Ranks[i % 13]|];
  }

  /** Reading the rank back off a dealt card gives the usual blackjack value. */
  lemma DeckCardPoints(i: int)
    requires 0 <= i < 52
    ensures CardPoints(FullDeck()[i]) == RankPoints(i % 13)
    ensures IsAce(FullDeck()[i]) <==> i % 13 == 12
  {
    RankOfDeckCard(i);
    var r := i % 13;
    var rank := Ranks[r];
    if r < 8 {
      assert |rank| == 1 && rank[0] == DigitChar(r + 2);
      assert NumeralValue(rank, 10) == r + 2 by {
        assert rank[..0] == [];
      }
    } else if r == 8 {
      assert rank == "10";
      assert NumeralValue(rank, 10) == 10 by {
        assert rank[..1] == "1";
        assert rank[..1][..0] == [];
      }
    } else {
      assert !IsDigit(rank[0]);
    }
  }

  /** The position of a rank in Ranks, read back from its text. */
  function RankNumber(rank: string): int {
    if rank == "2" then 0 else if rank == "3" then 1 else if rank == "4" then 2
    else if rank == "5" then 3 else if rank == "6" then 4 else if rank == "7" then 5
    else if rank == "8" then 6 else if rank == "9" then 7 else if rank == "10" then 8
    else if rank == "J" then 9 else if rank == "Q" then 10 else if rank == "K" then 11
    else 12
  }

  /** The position of a suit in Suits, read back from its symbol. */
  function SuitNumber(suit: string): int {
    if suit == Suits[0] then 0 else if suit == Suits[1] then 1 else if suit == Suits[2] then 2 else 3
  }

  lemma RankNumberInverts(r: int)
    requires 0 <= r < 13
    ensures RankNumber(Ranks[r]) == r
  {
  }

  lemma SuitOfDeckCard(i: int)
    requires 0 <= i < 52
    ensures |FullDeck()[i]| >= SuitLength && FullDeck()[i][|FullDeck()[i]| - SuitLength..] == Suits[i / 13]
    ensures SuitNumber(Suits[i / 13]) == i / 13
  {
    var card := FullDeck()[i];
    assert card == Ranks[i % 13] + Suits[i / 13];
  }

  /** No two cards of the deck are the same string. */
  lemma FullDeckDistinct(i: int, j: int)
    requires 0 <= i < 52 && 0 <= j < 52 && i != j
    ensures FullDeck()[i] != FullDeck()[j]
  {
    assert i == 13 * (i / 13) + i % 13 && j == 13 * (j / 13) + j % 13;
    if i % 13 != j % 13 {
      RankOfDeckCard(i);
      RankOfDeckCard(j);
      RankNumberInverts(i % 13);
      RankNumberInverts(j % 13);
    } else {
      SuitOfDeckCard(i);
      SuitOfDeckCard(j);
    }
  }

  // ---------------------------------------------------------------------------
  // Hand value
  // ---------------------------------------------------------------------------

  /** The total with every ace counted as eleven. */
  function RawTotal(hand: seq<string>): nat
    decreases |hand|
  {
    if hand == [] then 0 else RawTotal(hand[..|hand| - 1]) + CardPoints(hand[|hand| - 1])
  }

  function AceCount(hand: seq<string>): nat
    decreases |hand|
  {
    if hand == [] then 0 else AceCount(hand[..|hand| - 1]) + (if IsAce(hand[|hand| - 1]) then 1 else 0)
  }

  /** The total when `low` of the aces count as one. */
  function WithLowAces(hand: seq<string>, low: int): int {
    RawTotal(hand) - 10 * low
  }

  function Min(a: int, b: int): int { if a <= b then a else b }

  /** The value of a hand in closed form: no ace counted low when the raw
      total is at most 21, otherwise just enough aces, as far as there are
      aces, to come down to 21 (a total of `t > 21` needs `(t - 12) / 10`). */
  function HandValue(hand: seq<string>): int {
    var t := RawTotal(hand);
    if t <= 21 then t else WithLowAces(hand, Min(AceCount(hand), (t - 12) / 10))
  }

  /** The value is the best total: the largest one that does not bust when
      any exists, and the all-aces-low total otherwise. */
  lemma HandValueIsBest(hand: seq<string>)
    ensures exists low :: 0 <= low <= AceCount(hand) && HandValue(hand) == WithLowAces(hand, low)
    ensures HandValue(hand) <= 21 || HandValue(hand) == WithLowAces(hand, AceCount(hand))
    ensures forall low :: 0 <= low <= AceCount(hand) && WithLowAces(hand, low) <= 21 ==>
              WithLowAces(hand, low) <= HandValue(hand)
  {
    var t: int, a: int := RawTotal(hand), AceCount(hand);
    if t <= 21 {
      assert HandValue(hand) == WithLowAces(hand, 0);
    } else {
      var k := Min(a, (t - 12) / 10);
      assert HandValue(hand) == WithLowAces(hand, k);
      forall low | 0 <= low <= a && WithLowAces(hand, low) <= 21
        ensures WithLowAces(hand, low) <= HandValue(hand)
      {
        assert t - 10 * low <= 21;
        assert low >= (t - 12) / 10;
      }
    }
  }

  /** `_calculate_hand_value`. */
  method CalculateHandValue(hand: seq<string>) returns (value: int)
    ensures value == HandValue(hand)
  {
    value := 0;
    var aces := 0;
    for i := 0 to |hand|
      invariant value == RawTotal(hand[..i]) && aces == AceCount(hand[..i])
    {
      assert hand[..i + 1][..i] == hand[..i];
      var rank := PyPrefix(hand[i], -SuitLength);
      if rank != [] && AllDigits(rank) {
        value := value + NumeralValue(rank, 10);
      } else if rank == "J" || rank == "Q" || rank == "K" {
        value := value + 10;
      } else if rank == "A" {
        aces := aces + 1;
        value := value + 11;
      }
    }
    assert hand[..|hand|] == hand;
    ghost var t, a := value, aces;
    while value > 21 && aces > 0
      invariant 0 <= aces <= a && value == t - 10 * (a - aces)
      invariant aces < a ==> t - 10 * (a - aces - 1) > 21
      decreases aces
    {
      value := value - 10;
      aces := aces - 1;
    }
    assert t > 21 ==> a - aces == Min(a, (t - 12) / 10);
  }

  // ---------------------------------------------------------------------------
  // Game state
  // ---------------------------------------------------------------------------

  /** `result_message`, by the message it holds. */
  datatype Outcome = Pending | Bust | DealerBusts | PlayerWins | DealerWins | Push | TimedOut

  /** The messages containing "You win!": "Dealer busts! You win!" and "You win!". */
  predicate ClaimsWin(o: Outcome) { o.DealerBusts? || o.PlayerWins? }

  datatype Table = Table(deck: seq<string>, playerHand: seq<string>, dealerHand: seq<string>,
                         gameOver: bool, result: Outcome)

  /** No card is created or lost: deck and hands together are the full deck. */
  predicate CardsConserved(t: Table, cards: multiset<string>) {
    multiset(t.deck) + multiset(t.playerHand) + multiset(t.dealerHand) == cards
  }

  /** Whether `hit` ends the hand: no card left to draw, or a bust. */
  predicate HitEnds(t: Table) {
    t.deck == [] || HandValue(t.playerHand + [t.deck[|t.deck| - 1]]) > 21
  }

  /** The table after `hit`. */
  function HitOn(t: Table): Table {
    if t.deck == [] then t
    else
      var t1 := t.(deck := t.deck[..|t.deck| - 1], playerHand := t.playerHand + [t.deck[|t.deck| - 1]]);
      if HitEnds(t) then t1.(gameOver := true, result := Bust) else t1
  }

  /** The dealer's play: draw from the end of the deck while the hand is
      worth under 17 and the deck is not empty. */
  function DealerPlay(dealer: seq<string>, deck: seq<string>): (r: (seq<string>, seq<string>))
    decreases |deck|
  {
    if HandValue(dealer) >= 17 || deck == [] then (dealer, deck)
    else DealerPlay(dealer + [deck[|deck| - 1]], deck[..|deck| - 1])
  }

  /** The last `k` cards of a deck in the order `pop()` takes them. */
  function Popped(deck: seq<string>, k: nat): (r: seq<string>)
    requires k <= |deck|
    ensures |r| == k
  {
    if k == 0 then [] else [deck[|deck| - 1]] + Popped(deck[..|deck| - 1], k - 1)
  }

  /** The j-th card popped is the j-th from the end of the deck. */
  lemma {:induction false} PoppedAt(deck: seq<string>, k: nat)
    requires k <= |deck|
    ensures forall j :: 0 <= j < k ==> Popped(deck, k)[j] == deck[|deck| - 1 - j]
  {
    if k > 0 {
      var n := |deck|;
      var front := deck[..n - 1];
      var rest := Popped(front, k - 1);
      assert Popped(deck, k) == [deck[n - 1]] + rest;
      PoppedAt(front, k - 1);
      forall j | 0 <= j < k
        ensures Popped(deck, k)[j] == deck[n - 1 - j]
      {
        if j > 0 {
          assert rest[j - 1] == front[n - 1 - j];
        }
      }
    }
  }

  /** Popping `k` cards takes the end of the deck, last card first. */
  lemma PoppedIsReversedEnd(deck: seq<string>, k: nat)
    requires k <= |deck|
    ensures Popped(deck, k) == Reverse(deck[|deck| - k..])
  {
    PoppedAt(deck, k);
    var tail := deck[|deck| - k..];
    assert forall j :: 0 <= j < k ==> Reverse(tail)[j] == tail[k - 1 - j];
  }

  /** The dealer stops at 17 or more, or on an empty deck, keeping the start
      of the deck. */
  lemma {:induction false} DealerPlayStops(dealer: seq<string>, deck: seq<string>)
    ensures var play := DealerPlay(dealer, deck);
      && (HandValue(play.0) >= 17 || play.1 == [])
      && |play.1| <= |deck| && play.1 == deck[..|play.1|]
    decreases |deck|
  {
    if !(HandValue(dealer) >= 17 || deck == []) {
      var n := |deck|;
      DealerPlayStops(dealer + [deck[n - 1]], deck[..n - 1]);
    }
  }

  /** The dealer's new cards are the ones popped off the deck, in that order. */
  lemma {:induction false} DealerPlayDraws(dealer: seq<string>, deck: seq<string>)
    ensures var play := DealerPlay(dealer, deck);
      |play.1| <= |deck| && play.0 == dealer + Popped(deck, |deck| - |play.1|)
    decreases |deck|
  {
    if !(HandValue(dealer) >= 17 || deck == []) {
      var n := |deck|;
      var dealer1, deck1 := dealer + [deck[n - 1]], deck[..n - 1];
      DealerPlayDraws(dealer1, deck1);
      var play1 := DealerPlay(dealer1, deck1);
      assert Popped(deck, n - |play1.1|) == [deck[n - 1]] + Popped(deck1, |deck1| - |play1.1|);
    }
  }

  /** The dealer draws only while below 17: every hand held on the way to the
      final one was worth less than 17. */
  lemma {:induction false} DealerPlayMinimal(dealer: seq<string>, deck: seq<string>)
    ensures var d := DealerPlay(dealer, deck).0;
      |dealer| <= |d| && d[..|dealer|] == dealer &&
      forall k :: |dealer| <= k < |d| ==> HandValue(d[..k]) < 17
    decreases |deck|
  {
    if !(HandValue(dealer) >= 17 || deck == []) {
      var n := |deck|;
      var dealer1 := dealer + [deck[n - 1]];
      DealerPlayMinimal(dealer1, deck[..n - 1]);
      var d := DealerPlay(dealer1, deck[..n - 1]).0;
      assert d[..|dealer|] == dealer1[..|dealer|] == dealer;
      forall k | |dealer| <= k < |d|
        ensures HandValue(d[..k]) < 17
      {
        if k == |dealer| {
          assert d[..k] == dealer;
        }
      }
    }
  }

  /** How `stand` reads the two final values. */
  function StandResult(player: int, dealer: int): (o: Outcome)
    ensures o.DealerBusts? <==> dealer > 21
    ensures o.PlayerWins? <==> dealer <= 21 && player > dealer
    ensures o.DealerWins? <==> dealer <= 21 && player < dealer
    ensures o.Push? <==> dealer <= 21 && player == dealer
  {
    if dealer > 21 then DealerBusts
    else if player > dealer then PlayerWins
    else if player < dealer then DealerWins
    else Push
  }

  /** `stand` on a table. */
  function StandOn(t: Table): (r: Table) {
    var play := DealerPlay(t.dealerHand, t.deck);
    t.(deck := play.1, dealerHand := play.0, gameOver := true,
       result := StandResult(HandValue(t.playerHand), HandValue(play.0)))
  }

  lemma Shift(s: seq<string>)
    requires s != []
    ensures multiset(s) == multiset(s[..|s| - 1]) + multiset{s[|s| - 1]}
  {
    assert s == s[..|s| - 1] + [s[|s| - 1]];
  }

  /** A hit moves the top card of the deck to the player and keeps every card. */
  lemma HitProperties(t: Table, cards: multiset<string>)
    requires CardsConserved(t, cards)
    ensures var t1, ended := HitOn(t), HitEnds(t);
      && CardsConserved(t1, cards)
      && (t.deck == [] ==> ended && t1 == t)
      && (t.deck != [] ==>
            && t1.deck == t.deck[..|t.deck| - 1]
            && t1.playerHand == t.playerHand + [t.deck[|t.deck| - 1]]
            && t1.dealerHand == t.dealerHand
            && (ended <==> HandValue(t1.playerHand) > 21)
            && (ended ==> t1.gameOver && t1.result == Bust)
            && (!ended ==> t1.gameOver == t.gameOver && t1.result == t.result))
  {
    if t.deck != [] {
      Shift(t.deck);
    }
  }

  lemma {:induction false} DealerPlayConserves(dealer: seq<string>, deck: seq<string>)
    ensures var (d, rest) := DealerPlay(dealer, deck);
      multiset(d) + multiset(rest) == multiset(dealer) + multiset(deck)
    decreases |deck|
  {
    if !(HandValue(dealer) >= 17 || deck == []) {
      Shift(deck);
      DealerPlayConserves(dealer + [deck[|deck| - 1]], deck[..|deck| - 1]);
    }
  }

  /** After standing the game is over, the dealer holds 17 or more or the deck
      is spent, every card is kept and the result compares the final values. */
  lemma StandProperties(t: Table, cards: multiset<string>)
    requires CardsConserved(t, cards)
    ensures var t1 := StandOn(t);
      && CardsConserved(t1, cards)
      && t1.gameOver && t1.playerHand == t.playerHand && |t1.dealerHand| >= |t.dealerHand|
      && (HandValue(t1.dealerHand) >= 17 || t1.deck == [])
      && t1.result == StandResult(HandValue(t.playerHand), HandValue(t1.dealerHand))
  {
    DealerPlayStops(t.dealerHand, t.deck);
    DealerPlayDraws(t.dealerHand, t.deck);
    DealerPlayConserves(t.dealerHand, t.deck);
    var (d, rest) := DealerPlay(t.dealerHand, t.deck);
    calc {
      multiset(rest) + multiset(t.playerHand) + multiset(d);
      multiset(t.playerHand) + (multiset(d) + multiset(rest));
      multiset(t.playerHand) + (multiset(t.dealerHand) + multiset(t.deck));
      cards;
    }
  }

  // ---------------------------------------------------------------------------
  // The game object
  // ---------------------------------------------------------------------------

  /** `_deal_initial_hands`: two rounds of one card to the player and one to
      the dealer, each popped off the end of the deck. */
  method DealInitialHands(deck: seq<string>) returns (rest: seq<string>, player: seq<string>, dealer: seq<string>)
    requires |deck| >= 4
    ensures var n := |deck|;
      && rest == deck[..n - 4]
      && player == [deck[n - 1], deck[n - 3]] && dealer == [deck[n - 2], deck[n - 4]]
  {
    var n := |deck|;
    rest, player, dealer := deck, [], [];
    for round := 0 to 2
      invariant rest == deck[..n - 2 * round]
      invariant round == 0 ==> player == [] && dealer == []
      invariant round == 1 ==> player == [deck[n - 1]] && dealer == [deck[n - 2]]
      invariant round == 2 ==> player == [deck[n - 1], deck[n - 3]] && dealer == [deck[n - 2], deck[n - 4]]
    {
      player := player + [rest[|rest| - 1]];
      rest := rest[..|rest| - 1];
      dealer := dealer + [rest[|rest| - 1]];
      rest := rest[..|rest| - 1];
    }
  }

  lemma DealConserves(deck: seq<string>)
    requires |deck| >= 4
    ensures var n := |deck|;
      multiset(deck) == multiset(deck[..n - 4]) + multiset([deck[n - 1], deck[n - 3]]) + multiset([deck[n - 2], deck[n - 4]])
  {
    var n := |deck|;
    assert deck == deck[..n - 4] + [deck[n - 4], deck[n - 3], deck[n - 2], deck[n - 1]];
  }

  class BlackjackGame {
    const player: int
    const bet: int
    var deck: seq<string>
    var playerHand: seq<string>
    var dealerHand: seq<string>
    var gameOver: bool
    var result: Outcome

    function Snapshot(): Table
      reads this
    {
      Table(deck, playerHand, dealerHand, gameOver, result)
    }

    ghost predicate Valid()
      reads this
    {
      |playerHand| >= 2 && |dealerHand| >= 2
    }

    /** `__init__` with the shuffled deck as a parameter, then
        `_deal_initial_hands`: player, dealer, player, dealer, each from the
        end of the deck. */
    constructor(player: int, bet: int, shuffled: seq<string>)
      requires multiset(shuffled) == multiset(FullDeck())
      ensures Valid() && this.player == player && this.bet == bet
      ensures CardsConserved(Snapshot(), multiset(FullDeck()))
      ensures |shuffled| == 52
      ensures deck == shuffled[..48]
      ensures playerHand == [shuffled[51], shuffled[49]] && dealerHand == [shuffled[50], shuffled[48]]
      ensures !gameOver && result == Pending
    {
      assert |multiset(shuffled)| == |shuffled|;
      this.player := player;
      this.bet := bet;
      DealConserves(shuffled);
      var rest, p, d := DealInitialHands(shuffled);
      deck, playerHand, dealerHand := rest, p, d;
      gameOver, result := false, Pending;
    }

    /** `hit`: true when the hand ended (a bust, or no card left to draw). */
    method Hit() returns (ended: bool)
      requires Valid()
      modifies this
      ensures Valid()
      ensures Snapshot() == HitOn(old(Snapshot())) && ended == HitEnds(old(Snapshot()))
    {
      if deck == [] {
        return true;
      }
      var hand := playerHand + [deck[|deck| - 1]];
      deck, playerHand := deck[..|deck| - 1], hand;
      var value := CalculateHandValue(hand);
      ended := value > 21;
      if ended {
        gameOver, result := true, Bust;
      }
    }

    /** `stand`: the dealer draws to 17, then the two values are compared. */
    method Stand()
      requires Valid()
      modifies this
      ensures Valid()
      ensures Snapshot() == StandOn(old(Snapshot()))
    {
      ghost var t0 := Snapshot();
      DealerPlayDraws(dealerHand, deck);
      ghost var t1 := StandOn(t0);
      var hand, rest := DealerDraws(dealerHand, deck);
      assert hand == t1.dealerHand && rest == t1.deck;
      var playerValue := CalculateHandValue(playerHand);
      var dealerValue := CalculateHandValue(hand);
      var outcome;
      if dealerValue > 21 {
        outcome := DealerBusts;
      } else if playerValue > dealerValue {
        outcome := PlayerWins;
      } else if playerValue < dealerValue {
        outcome := DealerWins;
      } else {
        outcome := Push;
      }
      assert outcome == t1.result;
      gameOver, dealerHand, deck, result := true, hand, rest, outcome;
      assert Snapshot() == t1;
    }
  }

  /** The dealer's loop of `stand`. */
  method DealerDraws(dealer: seq<string>, deck: seq<string>) returns (hand: seq<string>, rest: seq<string>)
    ensures (hand, rest) == DealerPlay(dealer, deck)
  {
    hand, rest := dealer, deck;
    var value := CalculateHandValue(hand);
    while value < 17
      invariant value == HandValue(hand)
      invariant DealerPlay(hand, rest) == DealerPlay(dealer, deck)
      decreases |rest|
    {
      if rest == [] {
        break;
      }
      hand := hand + [rest[|rest| - 1]];
      rest := rest[..|rest| - 1];
      value := CalculateHandValue(hand);
    }
  }

  // ---------------------------------------------------------------------------
  // Payout and the ledger
  // ---------------------------------------------------------------------------

  /** Python's `int(x / d)` for a positive divisor: truncation toward zero. */
  function TruncDiv(x: int, d: int): (q: int)
    requires d > 0
    ensures x >= 0 ==> q == x / d
    ensures x < 0 ==> q == -((-x) / d)
  {
    if x >= 0 then x / d else -((-x) / d)
  }

  /** A two-card 21 that the dealer does not match. */
  predicate Natural(player: seq<string>, dealer: seq<string>) {
    HandValue(player) == 21 && |player| == 2 && !(HandValue(dealer) == 21 && |dealer| == 2)
  }

  /** The payout of `BlackjackView._end_game`: `int(bet * 2.5)` for a natural
      win, `bet * 2` for another win, the bet back on a push, nothing else. */
  function Payout(bet: int, t: Table): (p: int)
    ensures ClaimsWin(t.result) && Natural(t.playerHand, t.dealerHand) ==> p == TruncDiv(5 * bet, 2)
    ensures ClaimsWin(t.result) && !Natural(t.playerHand, t.dealerHand) ==> p == 2 * bet
    ensures t.result.Push? ==> p == bet
    ensures !ClaimsWin(t.result) && !t.result.Push? ==> p == 0
  {
    if ClaimsWin(t.result) then
      if Natural(t.playerHand, t.dealerHand) then TruncDiv(5 * bet, 2) else 2 * bet
    else if t.result.Push? then bet
    else 0
  }

  /** As written, `blackjack` never takes the stake: a finished game changes
      the player's balance by exactly the payout, so a lost hand costs
      nothing, a push gains a whole bet and no game can lose coins. */
  lemma StakeNeverTakenAsWritten(data: map<string, int>, default: int, user: int, bet: int, t: Table)
    requires bet >= 0
    ensures var after := Settle(data, default, user, Payout(bet, t));
      && BalanceIn(after, default, user) >= BalanceIn(data, default, user)
      && (t.result.DealerWins? || t.result.Bust? ==> after == data)
      && (t.result.Push? && bet > 0 ==> BalanceIn(after, default, user) == BalanceIn(data, default, user) + bet)
  {
  }

  /** With the stake taken up front the payout is a total return: a loss
      costs the bet, a push is even, an ordinary win gains the bet and a
      natural gains half as much again. */
  lemma StakedNet(data: map<string, int>, default: int, user: int, bet: int, t: Table)
    requires bet >= 0
    ensures var after := Settle(Stake(data, default, user, bet), default, user, Payout(bet, t));
      var net := BalanceIn(after, default, user) - BalanceIn(data, default, user);
      && (!ClaimsWin(t.result) && !t.result.Push? ==> net == -bet)
      && (t.result.Push? ==> net == 0)
      && (ClaimsWin(t.result) && !Natural(t.playerHand, t.dealerHand) ==> net == bet)
      && (ClaimsWin(t.result) && Natural(t.playerHand, t.dealerHand) ==> net == (3 * bet) / 2)
      && net >= -bet
  {
  }

  // ---------------------------------------------------------------------------
  // The view and the command
  // ---------------------------------------------------------------------------

  datatype Press = NotYourGame | Continued | Ended(payout: int)

  class BlackjackView {
    const game: BlackjackGame
    const economy: EconomyManager
    var stopped: bool

    ghost predicate Valid()
      reads this, game
    {
      game.Valid() && (!stopped ==> !game.gameOver)
    }

    constructor(game: BlackjackGame, economy: EconomyManager)
      requires game.Valid() && !game.gameOver
      ensures Valid() && this.game == game && this.economy == economy && !stopped
    {
      this.game := game;
      this.economy := economy;
      stopped := false;
    }

    /** `_end_game`: credit the payout, if any, and stop the view. */
    method EndGame() returns (payout: int)
      requires game.Valid()
      modifies this, economy
      ensures Valid() && stopped
      ensures payout == Payout(game.bet, game.Snapshot())
      ensures economy.economyData == Settle(old(economy.economyData), economy.defaultBalance, game.player, payout)
    {
      var playerValue := CalculateHandValue(game.playerHand);
      var dealerValue := CalculateHandValue(game.dealerHand);
      payout := 0;
      if game.result.DealerBusts? || game.result.PlayerWins? {
        if playerValue == 21 && |game.playerHand| == 2 && !(dealerValue == 21 && |game.dealerHand| == 2) {
          payout := TruncDiv(game.bet * 5, 2);
        } else {
          payout := game.bet * 2;
        }
      } else if game.result.Push? {
        payout := game.bet;
      }
      if payout > 0 {
        var _ := economy.UpdateBalance(game.player, payout);
      }
      stopped := true;
    }

    /** `hit_button`. */
    method HitPressed(user: int) returns (r: Press)
      requires Valid() && !stopped
      modifies this, game, economy
      ensures Valid()
      ensures user != game.player ==> r == NotYourGame && unchanged(this, game, economy)
      ensures user == game.player ==>
        var t, ended := HitOn(old(game.Snapshot())), HitEnds(old(game.Snapshot()));
        && game.Snapshot() == t
        && (ended ==> stopped && r == Ended(Payout(game.bet, t))
                      && economy.economyData == Settle(old(economy.economyData), economy.defaultBalance, game.player, r.payout))
        && (!ended ==> !stopped && r == Continued && unchanged(economy))
    {
      if user != game.player {
        return NotYourGame;
      }
      var ended := game.Hit();
      if ended {
        var payout := EndGame();
        return Ended(payout);
      }
      return Continued;
    }

    /** `stand_button`. */
    method StandPressed(user: int) returns (r: Press)
      requires Valid() && !stopped
      modifies this, game, economy
      ensures Valid()
      ensures user != game.player ==> r == NotYourGame && unchanged(this, game, economy)
      ensures user == game.player ==>
        && game.Snapshot() == StandOn(old(game.Snapshot()))
        && stopped && r == Ended(Payout(game.bet, game.Snapshot()))
        && economy.economyData == Settle(old(economy.economyData), economy.defaultBalance, game.player, r.payout)
    {
      if user != game.player {
        return NotYourGame;
      }
      game.Stand();
      var payout := EndGame();
      return Ended(payout);
    }

    /** `on_timeout`: an unfinished game is lost and pays nothing. */
    method OnTimeout()
      requires Valid()
      modifies this, game, economy
      ensures Valid() && stopped
      ensures !old(game.gameOver) ==> game.gameOver && game.result == TimedOut
      ensures old(game.gameOver) ==> unchanged(game)
      ensures economy.economyData == old(economy.economyData)
    {
      if !game.gameOver {
        game.gameOver := true;
        game.result := TimedOut;
        var _ := EndGame();
      }
      stopped := true;
    }
  }

  /** The `blackjack` command as written: validate the bet and deal, without
      taking the stake. */
  method BlackjackCommandAsWritten(economy: EconomyManager, author: int, bet: int, shuffled: seq<string>)
    returns (r: Result<BlackjackView, BetRejection>)
    requires multiset(shuffled) == multiset(FullDeck())
    modifies economy
    ensures r.Err? <==> ValidateBet(bet, BlackjackMinBet, old(economy.GetBalance(author))).Some?
    ensures r.Err? ==> r.error == ValidateBet(bet, BlackjackMinBet, old(economy.GetBalance(author))).value
    ensures economy.economyData == old(economy.economyData)
    ensures r.Ok? ==> fresh(r.value) && fresh(r.value.game) && r.value.Valid() && !r.value.stopped
                      && r.value.economy == economy && r.value.game.player == author && r.value.game.bet == bet
  {
    var rejection := CommonBetValidation(economy, bet, BlackjackMinBet, author);
    if rejection.Some? {
      return Err(rejection.value);
    }
    var game := new BlackjackGame(author, bet, shuffled);
    var view := new BlackjackView(game, economy);
    return Ok(view);
  }

  /** The `blackjack` command with the stake taken when the game starts. */
  method BlackjackCommand(economy: EconomyManager, author: int, bet: int, shuffled: seq<string>)
    returns (r: Result<BlackjackView, BetRejection>)
    requires multiset(shuffled) == multiset(FullDeck())
    modifies economy
    ensures r.Err? <==> ValidateBet(bet, BlackjackMinBet, old(economy.GetBalance(author))).Some?
    ensures r.Err? ==> r.error == ValidateBet(bet, BlackjackMinBet, old(economy.GetBalance(author))).value
                       && economy.economyData == old(economy.economyData)
    ensures r.Ok? ==> economy.economyData == Stake(old(economy.economyData), economy.defaultBalance, author, bet)
    ensures r.Ok? ==> fresh(r.value) && fresh(r.value.game) && r.value.Valid() && !r.value.stopped
                      && r.value.economy == economy && r.value.game.player == author && r.value.game.bet == bet
  {
    var rejection := CommonBetValidation(economy, bet, BlackjackMinBet, author);
    if rejection.Some? {
      return Err(rejection.value);
    }
    var _ := economy.UpdateBalance(author, -bet);
    var game := new BlackjackGame(author, bet, shuffled);
    var view := new BlackjackView(game, economy);
    return Ok(view);
  }
}
