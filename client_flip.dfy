/**
 * The coin-flip page of the web client: local state held in React `useState`
 * hooks, changed by the flip handler and, 2000 ms later, by the timer callback
 * it schedules. The coin result is a parameter of the callback; the delay is
 * the split between `StartFlip` and `CompleteFlip`.
 */
module ClientFlip {
  import opened Basics

  const InitialBalance: real := 100.0
  const InitialBet: real := 10.0
  /** The amounts of the quick-bet buttons. */
  const QuickBets: seq<real> := [5.0, 10.0, 25.0, 50.0]

  /** The toasts the page raises. */
  datatype Notice =
    | ChooseSide          // 'Выберите сторону монеты'
    | InsufficientFunds   // 'Недостаточно средств'
    | EnterBet            // 'Укажите сумму ставки'
    | Won(amount: real)   // 'Вы выиграли <amount> TON!'
    | Lost(amount: real)  // 'Вы проиграли <amount> TON'

  /**
   * The three checks of the flip handler, in their order: a side must be
   * chosen, the bet must not exceed the balance, the bet must be positive.
   * The first failing check decides the toast; `None` means the flip starts.
   */
  function Rejection(side: Option<Side>, bet: real, balance: real): (r: Option<Notice>)
    ensures r == None <==> side.Some? && 0.0 < bet <= balance
    ensures r == Some(ChooseSide) <==> side == None
    ensures r == Some(InsufficientFunds) <==> side.Some? && bet > balance
    ensures r == Some(EnterBet) <==> side.Some? && bet <= balance && bet <= 0.0
  {
    if side == None then Some(ChooseSide)
    else if bet > balance then Some(InsufficientFunds)
    else if bet <= 0.0 then Some(EnterBet)
    else None
  }

  /** The four numbers the timer callback updates. */
  datatype Stats = Stats(balance: real, totalGames: nat, wins: nat, totalWinnings: real)

  /** The timer callback's effect on the numbers, for a flip of `bet` on `side` that landed on `result`. */
  function Settle(s: Stats, bet: real, side: Side, result: Side): Stats
  {
    if result == side then
      Stats(s.balance + bet, s.totalGames + 1, s.wins + 1, s.totalWinnings + 2.0 * bet)
    else
      Stats(s.balance - bet, s.totalGames + 1, s.wins, s.totalWinnings)
  }

  /** One resolved flip: what was staked, on which side, and where the coin landed. */
  datatype Round = Round(bet: real, side: Side, result: Side)

  /** The numbers after a history of resolved flips, oldest first. */
  function Replay(s: Stats, rounds: seq<Round>): Stats
    decreases |rounds|
  {
    if rounds == [] then s
    else Replay(Settle(s, rounds[0].bet, rounds[0].side, rounds[0].result), rounds[1..])
  }

  /** The number of flips in a history that the player won. */
  function WonRounds(rounds: seq<Round>): (n: nat)
    ensures n <= |rounds|
  {
    if rounds == [] then 0
    else (if rounds[0].result == rounds[0].side then 1 else 0) + WonRounds(rounds[1..])
  }

  /** The total stake of the won flips of a history. */
  function WonStake(rounds: seq<Round>): real
  {
    if rounds == [] then 0.0
    else (if rounds[0].result == rounds[0].side then rounds[0].bet else 0.0) + WonStake(rounds[1..])
  }

  /** The total stake of the lost flips of a history. */
  function LostStake(rounds: seq<Round>): real
  {
    if rounds == [] then 0.0
    else (if rounds[0].result == rounds[0].side then 0.0 else rounds[0].bet) + LostStake(rounds[1..])
  }

  /**
   * What the profile tab shows after a history of flips: one game per flip,
   * one win per matching result (so the displayed losses `totalGames - wins`
   * grow by the number of lost flips), the balance moved by the won stakes
   * minus the lost ones, and the winnings grown by twice the won stakes.
   */
  lemma {:induction false} ReplayAccounts(s: Stats, rounds: seq<Round>)
    ensures Replay(s, rounds).totalGames == s.totalGames + |rounds|
    ensures Replay(s, rounds).wins == s.wins + WonRounds(rounds)
    ensures Replay(s, rounds).totalGames - Replay(s, rounds).wins
         == s.totalGames - s.wins + (|rounds| - WonRounds(rounds))
    ensures Replay(s, rounds).balance == s.balance + WonStake(rounds) - LostStake(rounds)
    ensures Replay(s, rounds).totalWinnings == s.totalWinnings + 2.0 * WonStake(rounds)
    decreases |rounds|
  {
    if rounds != [] {
      ReplayAccounts(Settle(s, rounds[0].bet, rounds[0].side, rounds[0].result), rounds[1..]);
    }
  }

  /** Every flip of the history passed the handler's checks against the balance of its moment. */
  ghost predicate Admissible(s: Stats, rounds: seq<Round>)
    decreases |rounds|
  {
    rounds == [] ||
    (Rejection(Some(rounds[0].side), rounds[0].bet, s.balance) == None &&
     Admissible(Settle(s, rounds[0].bet, rounds[0].side, rounds[0].result), rounds[1..]))
  }

  /**
   * The page's bookkeeping stays sane over any history of accepted flips:
   * a non-negative balance stays non-negative, `wins <= totalGames` holds,
   * and the winnings never go negative.
   */
  lemma {:induction false} AdmissibleReplayStaysSane(s: Stats, rounds: seq<Round>)
    requires 0.0 <= s.balance && s.wins <= s.totalGames && 0.0 <= s.totalWinnings
    requires Admissible(s, rounds)
    ensures 0.0 <= Replay(s, rounds).balance
    ensures Replay(s, rounds).wins <= Replay(s, rounds).totalGames
    ensures 0.0 <= Replay(s, rounds).totalWinnings
    decreases |rounds|
  {
    if rounds != [] {
      AdmissibleReplayStaysSane(Settle(s, rounds[0].bet, rounds[0].side, rounds[0].result), rounds[1..]);
    }
  }

  /** The page component: its state hooks, plus the bet and side the timer callback captured. */
  class FlipPage {
    var balance: real
    var betAmount: real
    var selectedSide: Option<Side>
    var isFlipping: bool
    var lastResult: Option<Side>
    var totalGames: nat
    var wins: nat
    var totalWinnings: real
    /** The bet the pending timer callback closed over (meaningful while `isFlipping`). */
    var pendingBet: real
    /** The side the pending timer callback closed over (meaningful while `isFlipping`). */
    var pendingSide: Side

    function CurrentStats(): Stats
      reads this
    {
      Stats(balance, totalGames, wins, totalWinnings)
    }

    /**
     * The page's invariant: at most as many wins as games, a non-negative
     * balance and winnings, and while a flip is pending the captured bet and
     * side are the ones on display and the bet was accepted.
     */
    ghost predicate Valid()
      reads this
    {
      && wins <= totalGames
      && 0.0 <= balance
      && 0.0 <= totalWinnings
      && (isFlipping ==> selectedSide == Some(pendingSide) && betAmount == pendingBet && 0.0 < pendingBet <= balance)
    }

    /** The initial hook values. */
    constructor ()
      ensures Valid()
      ensures balance == InitialBalance && betAmount == InitialBet
      ensures selectedSide == None && !isFlipping && lastResult == None
      ensures totalGames == 0 && wins == 0 && totalWinnings == 0.0
    {
      balance := InitialBalance;
      betAmount := InitialBet;
      selectedSide := None;
      isFlipping := false;
      lastResult := None;
      totalGames := 0;
      wins := 0;
      totalWinnings := 0.0;
      pendingBet := 0.0;
      pendingSide := Heads;
    }

    /** Typing into the bet field; the field is disabled while a flip is pending. */
    method SetBetAmount(amount: real)
      requires Valid()
      modifies this`betAmount
      ensures Valid()
      ensures betAmount == if isFlipping then old(betAmount) else amount
    {
      if !isFlipping {
        betAmount := amount;
      }
    }

    /** Pressing one of the quick-bet buttons; they are disabled while a flip is pending. */
    method PickQuickBet(k: nat)
      requires Valid()
      requires k < |QuickBets|
      modifies this`betAmount
      ensures Valid()
      ensures betAmount == if isFlipping then old(betAmount) else QuickBets[k]
    {
      SetBetAmount(QuickBets[k]);
    }

    /** Pressing a side button; both are disabled while a flip is pending. */
    method SelectSide(side: Side)
      requires Valid()
      modifies this`selectedSide
      ensures Valid()
      ensures selectedSide == if isFlipping then old(selectedSide) else Some(side)
    {
      if !isFlipping {
        selectedSide := Some(side);
      }
    }

    /**
     * The flip handler. It runs its three checks; on the first failure it
     * raises that toast and changes nothing, otherwise it only sets the busy
     * flag and schedules the callback with the current bet and side.
     */
    method StartFlip() returns (notice: Option<Notice>)
      requires Valid()
      requires !isFlipping
      modifies this`isFlipping, this`pendingBet, this`pendingSide
      ensures Valid()
      ensures notice == Rejection(selectedSide, betAmount, balance)
      ensures isFlipping <==> notice == None
      ensures notice != None ==> pendingBet == old(pendingBet) && pendingSide == old(pendingSide)
      ensures notice == None ==> pendingBet == betAmount && selectedSide == Some(pendingSide)
    {
      notice := Rejection(selectedSide, betAmount, balance);
      if notice == None {
        isFlipping := true;
        pendingBet := betAmount;
        pendingSide := selectedSide.value;
      }
    }

    /**
     * Pressing the flip button. The button is disabled while a flip is
     * pending or no side is chosen; then nothing happens, so no second flip
     * can start and the no-side toast cannot come from the button.
     */
    method PressFlip() returns (notice: Option<Notice>)
      requires Valid()
      modifies this`isFlipping, this`pendingBet, this`pendingSide
      ensures Valid()
      ensures old(isFlipping) || selectedSide == None ==>
                notice == None && isFlipping == old(isFlipping)
                && pendingBet == old(pendingBet) && pendingSide == old(pendingSide)
      ensures !old(isFlipping) && selectedSide != None ==>
                notice == Rejection(selectedSide, betAmount, balance) && (isFlipping <==> notice == None)
      ensures notice != Some(ChooseSide)
    {
      if isFlipping || selectedSide == None {
        notice := None;
      } else {
        notice := StartFlip();
      }
    }

    /**
     * The timer callback: shows `result`, releases the busy flag, counts the
     * game, pays or takes the captured bet, clears the chosen side and keeps
     * the bet amount.
     */
    method CompleteFlip(result: Side) returns (notice: Notice)
      requires Valid()
      requires isFlipping
      modifies this
      ensures Valid()
      ensures !isFlipping && lastResult == Some(result) && selectedSide == None
      ensures betAmount == old(betAmount)
      ensures totalGames == old(totalGames) + 1
      ensures result == old(pendingSide) ==>
                balance == old(balance) + old(pendingBet) && wins == old(wins) + 1
                && totalWinnings == old(totalWinnings) + 2.0 * old(pendingBet)
                && notice == Won(2.0 * old(pendingBet))
      ensures result != old(pendingSide) ==>
                balance == old(balance) - old(pendingBet) && wins == old(wins)
                && totalWinnings == old(totalWinnings) && notice == Lost(old(pendingBet))
      ensures CurrentStats() == Settle(old(CurrentStats()), old(pendingBet), old(pendingSide), result)
      ensures pendingBet == old(pendingBet) && pendingSide == old(pendingSide)
    {
      lastResult := Some(result);
      isFlipping := false;
      totalGames := totalGames + 1;
      if result == pendingSide {
        var winAmount := pendingBet * 2.0;
        balance := balance + pendingBet;
        wins := wins + 1;
        totalWinnings := totalWinnings + winAmount;
        notice := Won(winAmount);
      } else {
        balance := balance - pendingBet;
        notice := Lost(pendingBet);
      }
      selectedSide := None;
    }

    /** The number of lost games the profile tab shows; never negative. */
    function Losses(): (n: nat)
      reads this
      requires Valid()
      ensures n + wins == totalGames
    {
      totalGames - wins
    }
  }
}
