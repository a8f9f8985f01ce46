# CoinFlip in Dafny

A model of the three pieces of logic in the CoinFlip betting mini-app:

- **The flip page of the web client** (`ClientFlip`, `client_flip.dfy`). The
  page's React state (balance, bet amount, chosen side, busy flag, last result,
  games, wins and winnings) is the class `FlipPage`. The flip handler is
  `StartFlip`. It runs three checks in a fixed order (side, funds, amount) and
  then sets only the busy flag. The timer callback it schedules is
  `CompleteFlip(result)`. It uses the bet and side captured when the flip
  started (`pendingBet`, `pendingSide`). The controls that are disabled while
  a flip is pending are `SetBetAmount`, `PickQuickBet`, `SelectSide` and
  `PressFlip`; while the busy flag is set they change nothing. The class
  invariant keeps `wins <= totalGames` and a non-negative balance. The
  lemmas about `Replay` give the statistics after any history of flips.
- **The game service** (`GameLedger`, `game_ledger.dfy`). The `players`
  table is a map from player id to row; `games` and `transactions` are
  append-only sequences. Each action is a method of the class `Ledger`:
  `get_or_create_player`, `play`, `create_deposit` and `create_withdrawal`.
  `Handle` is the HTTP handler that dispatches to them. The tables keep an
  invariant, `Consistent`. Every player's `total_games`, `wins` and
  `total_winnings` are the tally of that player's `games` rows. Every
  player's balance is the starting 100 plus the net result of those games,
  minus that player's withdrawal requests. Deposit memos are
  `DEPOSIT_<id>` (`DecimalText` renders the id); distinct transactions get
  distinct memos.
- **The Telegram bot's webhook** (`BotRouter`, `bot_router.dfy`). `Route`
  is a pure function. From the HTTP method, the update, the sender and the
  administrator's id, it gives the status, the body and the messages and
  callback answers to send. The views it names (statistics, players,
  transactions) are opaque. `TypeEmoji` and `DisplayName` are the lookups of
  the transaction and player lists.

Money is `real` in all three (see "## Left out" for what that loses). The coin result is a parameter everywhere. It stands for
`Math.random() > 0.5` in the client and `random.random() > 0.5` on the
server.

`src/pages/Index.tsx` picks the result with `Math.random` and updates its
own numbers. It makes no network calls, and the wallet tab's buttons have no
handlers.

## Model

| member | source | states |
|---|---|---|
| `Basics.SideName` | src/pages/Index.tsx:39 | a side's wire name is 'heads' exactly for heads and 'tails' exactly for tails |
| `ClientFlip.Rejection` | src/pages/Index.tsx:20-34 | the handler's checks in order: no side gives 'Выберите сторону монеты'; then a bet above the balance gives 'Недостаточно средств'; then a bet <= 0 gives 'Укажите сумму ставки'. A flip is accepted exactly when a side is chosen and 0 < bet <= balance |
| `ClientFlip.WonRounds` | src/pages/Index.tsx:45-48 | a history of flips has at most as many won flips as flips |
| `ClientFlip.ReplayAccounts` | src/pages/Index.tsx:43-54 | after a history of flips: games grow by the number of flips; wins grow by the flips whose result matched the side; the displayed losses grow by the lost flips; the balance moves by won stakes minus lost stakes; the winnings grow by twice the won stakes |
| `ClientFlip.AdmissibleReplayStaysSane` | src/pages/Index.tsx:26-54 | over any history of flips that passed the handler's checks, a non-negative balance stays non-negative, wins stay at most games and winnings stay non-negative |
| `ClientFlip.FlipPage.constructor` | src/pages/Index.tsx:10-18 | the initial state: balance 100, bet 10, no side, not flipping, no result, zero games, wins and winnings |
| `ClientFlip.FlipPage.SetBetAmount` | src/pages/Index.tsx:116-123 | typing a bet sets it, except while a flip is pending, when the field is disabled and nothing changes |
| `ClientFlip.FlipPage.PickQuickBet` | src/pages/Index.tsx:127-138 | a quick-bet button sets the bet to 5, 10, 25 or 50, except while a flip is pending |
| `ClientFlip.FlipPage.SelectSide` | src/pages/Index.tsx:142-165 | a side button chooses that side, except while a flip is pending |
| `ClientFlip.FlipPage.StartFlip` | src/pages/Index.tsx:20-37 | a rejected flip raises its toast and changes nothing; an accepted one only sets the busy flag and captures the current bet and side; the invariant is kept |
| `ClientFlip.FlipPage.PressFlip` | src/pages/Index.tsx:168-173 | the flip button does nothing while a flip is pending or no side is chosen, so no second flip starts and the no-side toast never comes from it; otherwise it runs the handler |
| `ClientFlip.FlipPage.CompleteFlip` | src/pages/Index.tsx:38-57 | the callback releases the busy flag, shows the result, adds one game, clears the side and keeps the bet. A result equal to the captured side adds the bet to the balance, 1 to wins and twice the bet to the winnings, with a win toast of twice the bet. Any other result takes the bet from the balance, leaves wins and winnings alone, and raises a loss toast of the bet. Wins stay at most games and the balance stays non-negative |
| `ClientFlip.FlipPage.Losses` | src/pages/Index.tsx:295-298 | the displayed losses `totalGames - wins` are a natural number and add up with the wins to the games |
| `DecimalText.DecimalString` | backend/game/index.py:150 | the decimal rendering of a transaction id is a non-empty string of digits, one digit long exactly for ids below 10, and starts with '0' only for 0 |
| `DecimalText.DecimalStringValue` | backend/game/index.py:150 | the digits of a transaction id read back as that id |
| `DecimalText.DecimalStringInjective` | backend/game/index.py:150 | different ids render differently |
| `GameLedger.DepositMemosDistinct` | backend/game/index.py:142-150 | two different transaction ids give different `DEPOSIT_<id>` memos |
| `GameLedger.PlayKeepsSolvent` | backend/game/index.py:83-95 | a stake between 0 and the balance leaves the balance non-negative after a play, won or lost |
| `GameLedger.NegativeStakeAccepted` | backend/game/index.py:67-95 | the guard only compares the stake with the balance, so a negative stake passes; losing it raises the balance, and winning it can push the balance below zero |
| `GameLedger.TallyOf` | backend/game/index.py:97-104 | a player's games rows never hold more wins than games |
| `GameLedger.RegisterKeepsConsistent` | backend/game/index.py:44-50 | inserting a player for an unknown telegram id, under the next serial id, keeps the tables reconciled |
| `GameLedger.RecordPlayKeepsConsistent` | backend/game/index.py:91-118 | updating the row, appending the game and appending its win or loss transaction keep every player's statistics and balance reconciled |
| `GameLedger.RecordDepositKeepsConsistent` | backend/game/index.py:142-147 | appending a pending deposit changes no player's reconciliation |
| `GameLedger.RecordWithdrawalKeepsConsistent` | backend/game/index.py:180-187 | appending a withdrawal and debiting its amount keep the debited player reconciled |
| `GameLedger.Ledger.WinsAtMostGames` | backend/game/index.py:97-100 | every stored player has at most as many wins as games |
| `GameLedger.Ledger.GetOrCreatePlayer` | backend/game/index.py:34-63 | a known telegram id returns its stored row and writes nothing. An unknown one inserts exactly one player, with balance 100 and zero statistics, under the next serial id, advances the serial by one and returns it; a lookup leaves the serial alone |
| `GameLedger.Ledger.Play` | backend/game/index.py:65-136 | an unknown player gets 404 'Player not found'; a balance below the stake gets 400 'Insufficient balance'; neither changes a table, and a stake equal to the balance is accepted. Otherwise the player wins iff the coin's name equals the chosen side. The balance gains or loses the stake; games grow by 1; wins grow by 1 iff won; winnings grow by twice the stake iff won. Exactly one games row is appended, and exactly one completed 'win' (twice the stake) or 'loss' (the stake) transaction. The reply carries the updated row. A non-negative balance and stake leave a non-negative balance |
| `GameLedger.Ledger.CreateDeposit` | backend/game/index.py:138-162 | appends exactly one pending 'deposit' transaction. It replies with its id, the wallet, the amount and the memo `DEPOSIT_<id>`. No player row and no game row changes |
| `GameLedger.Ledger.CreateWithdrawal` | backend/game/index.py:164-197 | a missing player or a balance below the amount gets 400 'Insufficient balance' and changes nothing. Otherwise it appends one pending 'withdrawal' carrying the address and lowers that balance by exactly the amount, leaving it at least 0 |
| `GameLedger.Ledger.Handle` | backend/game/index.py:12-213 | OPTIONS answers 200 with no database work. Any other method but POST, and a POST with no known action, answers 405 'Method not allowed'. A body that is not JSON, or an amount that is not a number, answers 500. No response other than a success leaves a change; the tables only grow: `games` and `transactions` by at most one row each, and `players` by at most the one player under the next serial id |
| `BotRouter.MessageView` | backend/bot/index.py:36-62 | '/start' from anyone gets the welcome with the game button. '/admin' and '/stats' open the admin menu and the statistics exactly when the sender is the administrator. Every other message, those two from anyone else included, gets the '/start' hint. A message never opens the players or transactions list |
| `BotRouter.CallbackViews` | backend/bot/index.py:76-81 | 'admin_stats', 'admin_players' and 'admin_transactions' open exactly the matching view; any other data opens none |
| `BotRouter.CallbackEffects` | backend/bot/index.py:64-83 | a button press from anyone but the administrator gets only the answer 'Доступ запрещён'. The administrator's press gets the matching view, if any, then an empty answer. Only the administrator is ever sent a view |
| `BotRouter.Route` | backend/bot/index.py:11-98 | OPTIONS gives 200 and no effects. Any other method but POST gives 405. An unreadable body gives 500. A message is routed before a callback. A refused callback answers the plain 'ok' body. An update with neither part gives 200 `{ok: true}` and does nothing. An admin view is only ever sent in reply to the administrator |
| `BotRouter.TypeEmoji` | backend/bot/index.py:232-246 | deposit, withdrawal, win and loss get their own emoji; every other type gets '•' |
| `BotRouter.LedgerKindsHaveEmoji` | backend/bot/index.py:232-237 | every transaction type the game service writes has its own emoji |
| `BotRouter.GameUrlOf` | backend/bot/index.py:49 | the game link is `GAME_URL` when it is set, else the default game address |
| `BotRouter.StartOpensGameUrl` | backend/bot/index.py:44-58 | with the handler's environment, '/start' is answered with a welcome whose button opens `GAME_URL` when it is set and the default game address otherwise |
| `BotRouter.DisplayName` | backend/bot/index.py:244 | a missing or empty username shows as 'Аноним'; any other is shown as is; the result is never empty |

## Left out

- Rendering, styling, tabs, icons and toast display: toasts are the `Notice` values the methods return.
- The 2000 ms timer: the delay is the split between `StartFlip` and `CompleteFlip`; the randomness of `Math.random` and `random.random` is a parameter.
- The client's `winRate`, its "average bet" (`totalWinnings / totalGames / 2`) and all `toFixed`, `.2f` and `.1f` formatting: floating-point display only.
- The client's wallet tab (src/pages/Index.tsx:188-250): its inputs and buttons have no handlers, so there is nothing to model.
- ClientFlip.FlipPage.StartFlip: requires that no flip is pending; the handler is only reachable through the flip button, which is disabled then (modelled by `PressFlip`).
- A bet field holding NaN: a number input yields '' for unreadable text, which `Number` turns into 0, so the bet is modelled as a real.
- Database access (psycopg2, SQL text, commits), CORS headers, JSON encoding and the `float(...)` conversions of the replies.
- Concurrent requests (read-then-update without locking): the model handles one request at a time.
- Gaps in the serial keys after a rollback: no modelled rollback happens after an insert, so transaction ids are the row positions.
- The database schema is not part of this model: new players' statistics are assumed to default to 0, and no foreign key is assumed on `transactions.player_id`, so a deposit for an unknown player id is accepted as written.
- A failing database connection: `get_db_connection()` (backend/game/index.py:26) runs before the `try`, so for every method but OPTIONS the error escapes the handler with no reply at all; the model assumes the connection succeeds.
- Non-finite amounts: `json.loads` accepts `Infinity`, `-Infinity` and `NaN`, and `Decimal` keeps them. `+Infinity` gets 400 'Insufficient balance' from `play` (backend/game/index.py:83) and `create_withdrawal` (:172), as the model's guards reject every amount above the balance. `-Infinity` passes both guards (`balance < -Infinity` is false), so the handler goes on to write a non-finite stake or amount into `players`, `games` and `transactions`; the model's `real` has no such value, so this path is not modelled. NaN makes those two comparisons raise (a 500) and is not modelled either. `create_deposit` (:140-147) compares nothing, so any non-finite amount reaches its INSERT; what the database then does with it is not modelled.
- A missing `telegram_id`: the lookup `WHERE telegram_id = NULL` (backend/game/index.py:38-41) never matches, so depending on the schema the insert either raises (a 500) or creates a player with a NULL telegram id and answers 200; the model's telegram id is always present.
- Other exceptions inside the `try` (a failing query): only a body that is not JSON and an amount that is not a decimal are modelled as raising, with their 500 reply and nothing changed.
- Rounding of money: amounts are exact `real`s. The client's JavaScript doubles round `prev + betAmount` and `prev - betAmount` (src/pages/Index.tsx:47, :52), and Python's default `Decimal` context rounds `balance ± bet_amount` and `bet_amount * 2` to 28 significant digits (backend/game/index.py:93, :95); neither rounding is modelled, nor is the float formatting of the replies.
- GameLedger.Ledger.Handle: states the OPTIONS, 405 and 500 branches and what every response keeps; the results of the four actions are stated by their own methods, which it calls unchanged.
- GameLedger.Ledger.GetOrCreatePlayer: relies on telegram ids being unique among players, which the tables' invariant keeps; a database holding duplicates (the SELECT would return any one of them) is not modelled.
- The bot's `send_message` and `answer_callback` HTTP calls, the SQL of `show_stats`, `show_players` and `show_transactions`, their text building and their `strftime` dates: views are opaque effects.
- A 500 from the bot after a failed Telegram call or a non-numeric `ADMIN_TELEGRAM_ID`: the administrator's id is a parameter, 0 when unset.
- The webhook and command registration script (backend/bot-setup/index.py): it only calls the Telegram API.
