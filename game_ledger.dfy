/**
 * The game service: one HTTP handler that dispatches on the `action` of a
 * POST body and works on three tables, `players` (balance and statistics),
 * `games` (one row per play) and `transactions` (wins, losses, deposit and
 * withdrawal requests). The tables are a map from player id to record and two
 * append-only sequences; the random coin is a parameter.
 */
module GameLedger {
  import opened Basics
  import DecimalText

  /** The balance a newly registered player starts with. */
  const StartingBalance: real := 100.0

  const PlayerNotFound := "Player not found"
  const InsufficientBalance := "Insufficient balance"
  const MethodNotAllowed := "Method not allowed"
  const DepositMemoPrefix := "DEPOSIT_"

  /** A row of `players`. */
  datatype Player = Player(
    telegramId: int,
    username: string,
    balance: real,
    totalGames: nat,
    wins: nat,
    totalWinnings: real)

  /** A row of `games`: one play. */
  datatype GameRow = GameRow(
    playerId: int,
    betAmount: real,
    selectedSide: string,
    resultSide: Side,
    won: bool,
    winAmount: real)

  datatype TxnKind = Deposit | Withdrawal | Win | Loss
  datatype TxnStatus = Pending | Completed

  /** A row of `transactions`; `id` is the serial key. */
  datatype Txn = Txn(
    id: nat,
    playerId: int,
    kind: TxnKind,
    amount: real,
    tonAddress: Option<string>,
    status: TxnStatus)

  /** The value stored in the `type` column. */
  function KindName(k: TxnKind): string
  {
    match k
    case Deposit => "deposit"
    case Withdrawal => "withdrawal"
    case Win => "win"
    case Loss => "loss"
  }

  /**
   * The decoded body of a POST request. An amount is `None` when its text is
   * not a decimal number, which makes `Decimal(...)` raise; a missing amount
   * reads as 0.
   */
  datatype Action =
    | GetOrCreatePlayer(telegramId: int, username: string)
    | Play(playerId: int, betAmount: Option<real>, selectedSide: string)
    | CreateDeposit(playerId: int, amount: Option<real>)
    | CreateWithdrawal(playerId: int, amount: Option<real>, tonAddress: Option<string>)
    | OtherAction  // a missing or unrecognised `action`

  /** An incoming event; `body` is `None` when it is not valid JSON. */
  datatype Request = Request(httpMethod: Option<string>, body: Option<Action>)

  /** The JSON payload of a response. */
  datatype Reply =
    | NoContent
    | PlayerInfo(playerId: int, balance: real, totalGames: nat, wins: nat, totalWinnings: real)
    | PlayInfo(resultSide: Side, won: bool, winAmount: real,
               balance: real, totalGames: nat, wins: nat, totalWinnings: real)
    | DepositInfo(transactionId: nat, tonWallet: string, amount: real, memo: string)
    | WithdrawalInfo(transactionId: nat, status: TxnStatus)
    | ErrorInfo(message: string)
    | Fault  // `{'error': str(e)}` after an exception

  datatype Response = Response(status: int, reply: Reply)

  /** The HTTP method of an event, 'GET' when it has none. */
  function MethodOf(req: Request): string
  {
    match req.httpMethod
    case None => "GET"
    case Some(m) => m
  }

  /** The action's amount text is not a decimal number. */
  predicate AmountUnreadable(a: Action)
  {
    match a
    case Play(_, bet, _) => bet == None
    case CreateDeposit(_, amount) => amount == None
    case CreateWithdrawal(_, amount, _) => amount == None
    case _ => false
  }

  /** The row inserted for an unknown telegram id (the other columns take their zero defaults). */
  function NewPlayer(telegramId: int, username: string): Player
  {
    Player(telegramId, username, StartingBalance, 0, 0, 0.0)
  }

  /** The reply of `get_or_create_player` for a row. */
  function Info(id: int, p: Player): Reply
  {
    PlayerInfo(id, p.balance, p.totalGames, p.wins, p.totalWinnings)
  }

  /** The update `play` applies to the player's row. */
  function AfterPlay(p: Player, bet: real, won: bool): Player
  {
    p.(balance := if won then p.balance + bet else p.balance - bet,
       totalGames := p.totalGames + 1,
       wins := if won then p.wins + 1 else p.wins,
       totalWinnings := p.totalWinnings + (if won then 2.0 * bet else 0.0))
  }

  /**
   * With a non-negative balance and a stake the guard lets through that is
   * not negative, the balance after a play is not negative.
   */
  lemma PlayKeepsSolvent(p: Player, bet: real, won: bool)
    requires 0.0 <= bet <= p.balance
    ensures 0.0 <= AfterPlay(p, bet, won).balance
  {
  }

  /**
   * The guard of `play` compares the stake only with the balance, so a
   * negative stake is accepted: losing it credits the player, and winning it
   * can leave the balance below zero.
   */
  lemma NegativeStakeAccepted(p: Player, bet: real)
    requires bet < 0.0 && 0.0 <= p.balance
    ensures !(p.balance < bet)  // the guard of `play` lets the stake through
    ensures AfterPlay(p, bet, false).balance > p.balance
    ensures p.balance + bet < 0.0 ==> AfterPlay(p, bet, true).balance < 0.0
  {
  }

  /** The memo a deposit request is told to attach to its payment. */
  function DepositMemo(id: nat): string
  {
    DepositMemoPrefix + DecimalText.DecimalString(id)
  }

  /** Distinct deposit transactions get distinct memos, so a payment identifies its request. */
  lemma DepositMemosDistinct(a: nat, b: nat)
    requires a != b
    ensures DepositMemo(a) != DepositMemo(b)
  {
    if DepositMemo(a) == DepositMemo(b) {
      assert DepositMemo(a)[|DepositMemoPrefix|..] == DecimalText.DecimalString(a);
      assert DepositMemo(b)[|DepositMemoPrefix|..] == DecimalText.DecimalString(b);
      DecimalText.DecimalStringInjective(a, b);
    }
  }

  /** What one player's rows of `games` add up to: plays, wins, winnings and the net balance change. */
  datatype Tally = Tally(games: nat, wins: nat, winnings: real, net: real)

  const NoGames := Tally(0, 0, 0.0, 0.0)

  /** A tally with one more row of its player. */
  function Count(t: Tally, g: GameRow): Tally
  {
    Tally(t.games + 1,
          if g.won then t.wins + 1 else t.wins,
          t.winnings + g.winAmount,
          if g.won then t.net + g.betAmount else t.net - g.betAmount)
  }

  /** The tally of player `id` over the rows of `games`. */
  function TallyOf(rows: seq<GameRow>, id: int): (t: Tally)
    ensures t.wins <= t.games
    decreases |rows|
  {
    if rows == [] then NoGames
    else
      var t := TallyOf(rows[..|rows| - 1], id);
      if rows[|rows| - 1].playerId == id then Count(t, rows[|rows| - 1]) else t
  }

  /** The total amount of the withdrawal requests of player `id`. */
  function Withdrawn(rows: seq<Txn>, id: int): real
    decreases |rows|
  {
    if rows == [] then 0.0
    else
      var last := rows[|rows| - 1];
      Withdrawn(rows[..|rows| - 1], id) + (if last.kind == Withdrawal && last.playerId == id then last.amount else 0.0)
  }

  lemma TallyAppend(rows: seq<GameRow>, g: GameRow, id: int)
    ensures TallyOf(rows + [g], id) == if g.playerId == id then Count(TallyOf(rows, id), g) else TallyOf(rows, id)
  {
    assert (rows + [g])[..|rows|] == rows;
  }

  lemma WithdrawnAppend(rows: seq<Txn>, t: Txn, id: int)
    ensures Withdrawn(rows + [t], id)
         == Withdrawn(rows, id) + (if t.kind == Withdrawal && t.playerId == id then t.amount else 0.0)
  {
    assert (rows + [t])[..|rows|] == rows;
  }

  /** A player with no rows in `games` has played nothing. */
  lemma {:induction false} TallyOfAbsent(rows: seq<GameRow>, id: int)
    requires forall i :: 0 <= i < |rows| ==> rows[i].playerId != id
    ensures TallyOf(rows, id) == NoGames
    decreases |rows|
  {
    if rows != [] {
      TallyOfAbsent(rows[..|rows| - 1], id);
    }
  }

  /** A player with no withdrawal rows has withdrawn nothing. */
  lemma {:induction false} WithdrawnAbsent(rows: seq<Txn>, id: int)
    requires forall i :: 0 <= i < |rows| && rows[i].kind == Withdrawal ==> rows[i].playerId != id
    ensures Withdrawn(rows, id) == 0.0
    decreases |rows|
  {
    if rows != [] {
      WithdrawnAbsent(rows[..|rows| - 1], id);
    }
  }

  /**
   * A player's row agrees with the other tables: its statistics are the tally
   * of its games, and its balance is the starting balance plus the net of its
   * games minus its withdrawal requests.
   */
  ghost predicate Reconciled(p: Player, t: Tally, withdrawn: real)
  {
    && p.totalGames == t.games
    && p.wins == t.wins
    && p.totalWinnings == t.winnings
    && p.balance == StartingBalance + t.net - withdrawn
  }

  /**
   * The invariant of the three tables: player ids come from the serial and
   * telegram ids are unique among players; every game row and every
   * withdrawal belongs to a player; transaction ids follow the serial; and
   * every player's row is reconciled with its games and withdrawals.
   */
  ghost predicate Consistent(players: map<int, Player>, games: seq<GameRow>, transactions: seq<Txn>, nextPlayerId: int)
  {
    && 0 < nextPlayerId
    && (forall id :: id in players ==> 0 < id < nextPlayerId)
    && (forall a, b :: a in players && b in players && players[a].telegramId == players[b].telegramId ==> a == b)
    && (forall i :: 0 <= i < |games| ==> games[i].playerId in players)
    && (forall i :: 0 <= i < |transactions| ==> transactions[i].id == i + 1)
    && (forall i :: 0 <= i < |transactions| && transactions[i].kind == Withdrawal ==> transactions[i].playerId in players)
    && (forall id :: id in players ==> Reconciled(players[id], TallyOf(games, id), Withdrawn(transactions, id)))
  }

  /** Registering an unknown telegram id under the next serial id keeps the tables consistent. */
  lemma RegisterKeepsConsistent(players: map<int, Player>, games: seq<GameRow>, transactions: seq<Txn>,
                                nextPlayerId: int, telegramId: int, username: string)
    requires Consistent(players, games, transactions, nextPlayerId)
    requires forall id :: id in players ==> players[id].telegramId != telegramId
    ensures nextPlayerId !in players
    ensures Consistent(players[nextPlayerId := NewPlayer(telegramId, username)], games, transactions, nextPlayerId + 1)
  {
    TallyOfAbsent(games, nextPlayerId);
    WithdrawnAbsent(transactions, nextPlayerId);
  }

  /** Recording a play of a known player (its row, its game and its win or loss) keeps the tables consistent. */
  lemma RecordPlayKeepsConsistent(players: map<int, Player>, games: seq<GameRow>, transactions: seq<Txn>,
                                  nextPlayerId: int, g: GameRow, t: Txn)
    requires Consistent(players, games, transactions, nextPlayerId)
    requires g.playerId in players
    requires g.winAmount == if g.won then 2.0 * g.betAmount else 0.0
    requires t.id == |transactions| + 1 && t.kind != Withdrawal
    ensures Consistent(players[g.playerId := AfterPlay(players[g.playerId], g.betAmount, g.won)],
                       games + [g], transactions + [t], nextPlayerId)
  {
    var players' := players[g.playerId := AfterPlay(players[g.playerId], g.betAmount, g.won)];
    forall id | id in players'
      ensures Reconciled(players'[id], TallyOf(games + [g], id), Withdrawn(transactions + [t], id))
    {
      TallyAppend(games, g, id);
      WithdrawnAppend(transactions, t, id);
    }
  }

  /** Appending a deposit request keeps the tables consistent. */
  lemma RecordDepositKeepsConsistent(players: map<int, Player>, games: seq<GameRow>, transactions: seq<Txn>,
                                     nextPlayerId: int, t: Txn)
    requires Consistent(players, games, transactions, nextPlayerId)
    requires t.id == |transactions| + 1 && t.kind == Deposit
    ensures Consistent(players, games, transactions + [t], nextPlayerId)
  {
    forall id | id in players
      ensures Withdrawn(transactions + [t], id) == Withdrawn(transactions, id)
    {
      WithdrawnAppend(transactions, t, id);
    }
  }

  /** Appending a withdrawal request and debiting its amount keeps the tables consistent. */
  lemma RecordWithdrawalKeepsConsistent(players: map<int, Player>, games: seq<GameRow>, transactions: seq<Txn>,
                                        nextPlayerId: int, t: Txn)
    requires Consistent(players, games, transactions, nextPlayerId)
    requires t.id == |transactions| + 1 && t.kind == Withdrawal && t.playerId in players
    ensures Consistent(players[t.playerId := players[t.playerId].(balance := players[t.playerId].balance - t.amount)],
                       games, transactions + [t], nextPlayerId)
  {
    var players' := players[t.playerId := players[t.playerId].(balance := players[t.playerId].balance - t.amount)];
    forall id | id in players'
      ensures Reconciled(players'[id], TallyOf(games, id), Withdrawn(transactions + [t], id))
    {
      WithdrawnAppend(transactions, t, id);
    }
  }

  /** The three tables of the game database. */
  class Ledger {
    var players: map<int, Player>
    var games: seq<GameRow>
    var transactions: seq<Txn>
    /** The next value of the `players` serial key. */
    var nextPlayerId: int
    /** The wallet deposits are paid to (`TON_WALLET_ADDRESS`). */
    const tonWallet: string

    ghost predicate Valid()
      reads this
    {
      Consistent(players, games, transactions, nextPlayerId)
    }

    /** Every player has at most as many wins as games. */
    lemma WinsAtMostGames(id: int)
      requires Valid()
      requires id in players
      ensures players[id].wins <= players[id].totalGames
    {
    }

    constructor (tonWallet: string)
      ensures Valid()
      ensures players == map[] && games == [] && transactions == [] && nextPlayerId == 1
      ensures this.tonWallet == tonWallet
    {
      players := map[];
      games := [];
      transactions := [];
      nextPlayerId := 1;
      this.tonWallet := tonWallet;
    }

    /**
     * `get_or_create_player`: a known telegram id gets its stored row and
     * nothing is written; an unknown one gets exactly one new row with the
     * starting balance.
     */
    method GetOrCreatePlayer(telegramId: int, username: string) returns (resp: Response)
      requires Valid()
      modifies this`players, this`nextPlayerId
      ensures Valid()
      ensures forall id :: id in old(players) && old(players)[id].telegramId == telegramId ==>
                && players == old(players) && nextPlayerId == old(nextPlayerId)
                && resp == Response(200, Info(id, old(players)[id]))
      ensures (forall id :: id in old(players) ==> old(players)[id].telegramId != telegramId) ==>
                && old(nextPlayerId) !in old(players)
                && players == old(players)[old(nextPlayerId) := NewPlayer(telegramId, username)]
                && nextPlayerId == old(nextPlayerId) + 1
                && resp == Response(200, Info(old(nextPlayerId), NewPlayer(telegramId, username)))
    {
      if id :| id in players && players[id].telegramId == telegramId {
        resp := Response(200, Info(id, players[id]));
      } else {
        var id := nextPlayerId;
        RegisterKeepsConsistent(players, games, transactions, nextPlayerId, telegramId, username);
        players := players[id := NewPlayer(telegramId, username)];
        nextPlayerId := nextPlayerId + 1;
        resp := Response(200, Info(id, players[id]));
      }
    }

    /**
     * `play`: an unknown player gets 404 and a balance below the stake gets
     * 400, with no table changed. Otherwise the player wins iff the coin
     * shows the chosen side; the row is updated, and exactly one `games` row
     * and one completed `win` (twice the stake) or `loss` (the stake)
     * transaction are appended. The reply carries the updated row.
     */
    method Play(playerId: int, bet: real, selectedSide: string, coin: Side) returns (resp: Response)
      requires Valid()
      modifies this`players, this`games, this`transactions
      ensures Valid()
      ensures playerId !in old(players) ==>
                && resp == Response(404, ErrorInfo(PlayerNotFound))
                && players == old(players) && games == old(games) && transactions == old(transactions)
      ensures playerId in old(players) && old(players)[playerId].balance < bet ==>
                && resp == Response(400, ErrorInfo(InsufficientBalance))
                && players == old(players) && games == old(games) && transactions == old(transactions)
      ensures playerId in old(players) && bet <= old(players)[playerId].balance ==>
                var p := old(players)[playerId];
                var won := SideName(coin) == selectedSide;
                var winAmount := if won then 2.0 * bet else 0.0;
                var q := AfterPlay(p, bet, won);
                && q.balance == (if won then p.balance + bet else p.balance - bet)
                && q.totalGames == p.totalGames + 1
                && q.wins == (if won then p.wins + 1 else p.wins)
                && q.totalWinnings == p.totalWinnings + winAmount
                && players == old(players)[playerId := q]
                && games == old(games) + [GameRow(playerId, bet, selectedSide, coin, won, winAmount)]
                && transactions == old(transactions)
                     + [Txn(|old(transactions)| + 1, playerId, if won then Win else Loss,
                            if won then winAmount else bet, None, Completed)]
                && resp == Response(200, PlayInfo(coin, won, winAmount, q.balance, q.totalGames, q.wins, q.totalWinnings))
      ensures playerId in old(players) && 0.0 <= old(players)[playerId].balance && 0.0 <= bet ==>
                0.0 <= players[playerId].balance
    {
      if playerId !in players {
        return Response(404, ErrorInfo(PlayerNotFound));
      }
      var p := players[playerId];
      if p.balance < bet {
        return Response(400, ErrorInfo(InsufficientBalance));
      }
      var won := SideName(coin) == selectedSide;
      var winAmount := if won then bet * 2.0 else 0.0;
      var q := AfterPlay(p, bet, won);
      var g := GameRow(playerId, bet, selectedSide, coin, won, winAmount);
      var t := if won then Txn(|transactions| + 1, playerId, Win, winAmount, None, Completed)
               else Txn(|transactions| + 1, playerId, Loss, bet, None, Completed);
      RecordPlayKeepsConsistent(players, games, transactions, nextPlayerId, g, t);
      players := players[playerId := q];
      games := games + [g];
      transactions := transactions + [t];
      resp := Response(200, PlayInfo(coin, won, winAmount, q.balance, q.totalGames, q.wins, q.totalWinnings));
    }

    /**
     * `create_deposit`: appends one pending `deposit` transaction and replies
     * with the wallet, the amount and the memo `DEPOSIT_<id>`. Balances and
     * statistics are not touched; the player id is not checked.
     */
    method CreateDeposit(playerId: int, amount: real) returns (resp: Response)
      requires Valid()
      modifies this`transactions
      ensures Valid()
      ensures var id := |old(transactions)| + 1;
              && transactions == old(transactions) + [Txn(id, playerId, Deposit, amount, None, Pending)]
              && resp == Response(200, DepositInfo(id, tonWallet, amount, DepositMemo(id)))
      ensures players == old(players) && games == old(games)
    {
      var t := Txn(|transactions| + 1, playerId, Deposit, amount, None, Pending);
      RecordDepositKeepsConsistent(players, games, transactions, nextPlayerId, t);
      transactions := transactions + [t];
      resp := Response(200, DepositInfo(t.id, tonWallet, amount, DepositMemo(t.id)));
    }

    /**
     * `create_withdrawal`: a missing player or a balance below the amount
     * gets 400 with nothing changed. Otherwise one pending `withdrawal`
     * transaction carrying the address is appended and the balance drops by
     * exactly the amount, staying at least zero. A negative amount passes the
     * check and raises the balance.
     */
    method CreateWithdrawal(playerId: int, amount: real, tonAddress: Option<string>) returns (resp: Response)
      requires Valid()
      modifies this`players, this`transactions
      ensures Valid()
      ensures playerId !in old(players) || old(players)[playerId].balance < amount ==>
                && resp == Response(400, ErrorInfo(InsufficientBalance))
                && players == old(players) && transactions == old(transactions)
      ensures playerId in old(players) && amount <= old(players)[playerId].balance ==>
                var p := old(players)[playerId];
                var id := |old(transactions)| + 1;
                && transactions == old(transactions) + [Txn(id, playerId, Withdrawal, amount, tonAddress, Pending)]
                && players == old(players)[playerId := p.(balance := p.balance - amount)]
                && 0.0 <= players[playerId].balance
                && resp == Response(200, WithdrawalInfo(id, Pending))
      ensures games == old(games)
    {
      if playerId !in players || players[playerId].balance < amount {
        return Response(400, ErrorInfo(InsufficientBalance));
      }
      var t := Txn(|transactions| + 1, playerId, Withdrawal, amount, tonAddress, Pending);
      RecordWithdrawalKeepsConsistent(players, games, transactions, nextPlayerId, t);
      transactions := transactions + [t];
      var p := players[playerId];
      players := players[playerId := p.(balance := p.balance - amount)];
      resp := Response(200, WithdrawalInfo(t.id, Pending));
    }

    /**
     * The handler. OPTIONS answers 200 before any database work; any other
     * method but POST, and a POST with no known action, answers 405; a body
     * that is not JSON or an amount that is not a number raises and answers
     * 500 after a rollback. No response other than a success leaves a change
     * behind, and the tables only grow.
     */
    method Handle(req: Request, coin: Side) returns (resp: Response)
      requires Valid()
      modifies this`players, this`games, this`transactions, this`nextPlayerId
      ensures Valid()
      ensures MethodOf(req) == "OPTIONS" ==> resp == Response(200, NoContent)
      ensures MethodOf(req) != "OPTIONS" && MethodOf(req) != "POST" ==>
                resp == Response(405, ErrorInfo(MethodNotAllowed))
      ensures MethodOf(req) == "POST" && req.body == Some(OtherAction) ==>
                resp == Response(405, ErrorInfo(MethodNotAllowed))
      ensures MethodOf(req) == "POST" && (req.body == None || AmountUnreadable(req.body.value)) ==>
                resp == Response(500, Fault)
      ensures resp.status != 200 || resp.reply == NoContent ==>
                && players == old(players) && games == old(games) && transactions == old(transactions)
                && nextPlayerId == old(nextPlayerId)
      ensures old(players).Keys <= players.Keys <= old(players).Keys + {old(nextPlayerId)}
      ensures old(games) <= games && |games| <= |old(games)| + 1
      ensures old(transactions) <= transactions && |transactions| <= |old(transactions)| + 1
    {
      var verb := MethodOf(req);
      if verb == "OPTIONS" {
        return Response(200, NoContent);
      }
      if verb != "POST" {
        return Response(405, ErrorInfo(MethodNotAllowed));
      }
      match req.body {
        case None =>
          resp := Response(500, Fault);
        case Some(action) =>
          match action {
            case GetOrCreatePlayer(telegramId, username) =>
              resp := GetOrCreatePlayer(telegramId, username);
            case Play(playerId, bet, selectedSide) =>
              if bet == None {
                resp := Response(500, Fault);
              } else {
                resp := Play(playerId, bet.value, selectedSide, coin);
              }
            case CreateDeposit(playerId, amount) =>
              if amount == None {
                resp := Response(500, Fault);
              } else {
                resp := CreateDeposit(playerId, amount.value);
              }
            case CreateWithdrawal(playerId, amount, tonAddress) =>
              if amount == None {
                resp := Response(500, Fault);
              } else {
                resp := CreateWithdrawal(playerId, amount.value, tonAddress);
              }
            case OtherAction =>
              resp := Response(405, ErrorInfo(MethodNotAllowed));
          }
      }
    }
  }
}
