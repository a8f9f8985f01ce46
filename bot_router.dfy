/**
 * The Telegram bot's webhook handler: which reply an update gets, decided
 * from the HTTP method, the kind of update, its text or callback data, the
 * sender and the administrator's id. Messages sent and callbacks answered are
 * returned as effects; the views they name (statistics, players,
 * transactions) are opaque.
 */
module BotRouter {
  import opened Basics
  import GameLedger

  /** The game link the welcome button opens when `GAME_URL` is not set. */
  const DefaultGameUrl := "https://coin-toss-betting-ga.poehali.app"
  const AccessDenied := "Доступ запрещён"
  const Anonymous := "Аноним"
  const UnknownTypeEmoji := "•"

  /** The game link of the welcome button: `GAME_URL`, or the default when it is not set. */
  function GameUrlOf(env: Option<string>): (url: string)
    ensures env.Some? ==> url == env.value
    ensures env == None ==> url == DefaultGameUrl
  {
    match env
    case Some(u) => u
    case None => DefaultGameUrl
  }

  /** The environment the handler reads: `ADMIN_TELEGRAM_ID` (0 when unset) and the game link. */
  datatype Config = Config(adminId: int, gameUrl: string)

  /** The configuration the handler builds from `ADMIN_TELEGRAM_ID` and the `GAME_URL` variable. */
  function ConfigOf(adminId: int, gameUrlEnv: Option<string>): Config
  {
    Config(adminId, GameUrlOf(gameUrlEnv))
  }

  /** An incoming message; `text` is '' when the message has none. */
  datatype Message = Message(chatId: int, senderId: int, text: string)

  /** A press on an inline button. */
  datatype CallbackQuery = CallbackQuery(id: string, chatId: int, senderId: int, data: string)

  /** A Telegram update; either part may be absent. */
  datatype Update = Update(message: Option<Message>, callbackQuery: Option<CallbackQuery>)

  /** An incoming event; `update` is `None` when the body is not JSON or lacks a required key. */
  datatype BotRequest = BotRequest(httpMethod: Option<string>, update: Option<Update>)

  /** What a sent message shows. */
  datatype View =
    | Welcome(gameUrl: string)  // the greeting with the web-app button
    | StartHint                 // 'Используйте /start чтобы начать игру'
    | AdminMenu
    | StatsView
    | PlayersView
    | TransactionsView

  datatype Effect =
    | Send(chatId: int, view: View)
    | Answer(callbackId: string, text: string)

  /** The body of the HTTP response. */
  datatype Body = EmptyBody | MethodNotAllowed | OkJson | OkText | Fault

  datatype BotResponse = BotResponse(status: int, body: Body, effects: seq<Effect>)

  /** The views only the administrator may open. */
  predicate IsAdminView(v: View)
  {
    v == AdminMenu || v == StatsView || v == PlayersView || v == TransactionsView
  }

  /** The HTTP method of an event, 'POST' when it has none. */
  function MethodOf(req: BotRequest): string
  {
    match req.httpMethod
    case None => "POST"
    case Some(m) => m
  }

  /**
   * The reply to a message: '/start' from anyone gets the welcome; '/admin'
   * and '/stats' from the administrator open the menu and the statistics;
   * every other message, those two commands from anyone else included, gets
   * the hint.
   */
  function MessageView(m: Message, cfg: Config): (v: View)
    ensures v == Welcome(cfg.gameUrl) <==> m.text == "/start"
    ensures v == AdminMenu <==> m.text == "/admin" && m.senderId == cfg.adminId
    ensures v == StatsView <==> m.text == "/stats" && m.senderId == cfg.adminId
    ensures v == StartHint <==>
              m.text != "/start" && !((m.text == "/admin" || m.text == "/stats") && m.senderId == cfg.adminId)
    ensures v != PlayersView && v != TransactionsView
    ensures IsAdminView(v) ==> m.senderId == cfg.adminId
  {
    if m.text == "/start" then Welcome(cfg.gameUrl)
    else if m.text == "/admin" && m.senderId == cfg.adminId then AdminMenu
    else if m.text == "/stats" && m.senderId == cfg.adminId then StatsView
    else StartHint
  }

  /** The view an administrator's button opens, none for unknown data. */
  function CallbackViews(data: string): (vs: seq<View>)
    ensures |vs| <= 1
    ensures vs == [StatsView] <==> data == "admin_stats"
    ensures vs == [PlayersView] <==> data == "admin_players"
    ensures vs == [TransactionsView] <==> data == "admin_transactions"
    ensures vs == [] <==> data != "admin_stats" && data != "admin_players" && data != "admin_transactions"
  {
    if data == "admin_stats" then [StatsView]
    else if data == "admin_players" then [PlayersView]
    else if data == "admin_transactions" then [TransactionsView]
    else []
  }

  /**
   * The effects of a button press: anyone but the administrator gets only
   * the refusal; the administrator gets the matching view, if any, and then
   * an empty answer.
   */
  function CallbackEffects(c: CallbackQuery, cfg: Config): (es: seq<Effect>)
    ensures c.senderId != cfg.adminId ==> es == [Answer(c.id, AccessDenied)]
    ensures c.senderId == cfg.adminId ==>
              && 1 <= |es| <= 2
              && es[|es| - 1] == Answer(c.id, "")
              && |es| - 1 == |CallbackViews(c.data)|
              && (forall i :: 0 <= i < |es| - 1 ==> es[i] == Send(c.chatId, CallbackViews(c.data)[i]))
    ensures forall i :: 0 <= i < |es| && es[i].Send? ==> IsAdminView(es[i].view) && c.senderId == cfg.adminId
  {
    if c.senderId != cfg.adminId then [Answer(c.id, AccessDenied)]
    else
      var views := CallbackViews(c.data);
      (if views == [] then [] else [Send(c.chatId, views[0])]) + [Answer(c.id, "")]
  }

  /** Who sent the update the handler acts on: the message's sender, else the button presser. */
  function SenderOf(u: Update): Option<int>
  {
    if u.message.Some? then Some(u.message.value.senderId)
    else if u.callbackQuery.Some? then Some(u.callbackQuery.value.senderId)
    else None
  }

  /** The handler. */
  function Route(req: BotRequest, cfg: Config): (r: BotResponse)
    ensures MethodOf(req) == "OPTIONS" ==> r == BotResponse(200, EmptyBody, [])
    ensures MethodOf(req) != "OPTIONS" && MethodOf(req) != "POST" ==> r == BotResponse(405, MethodNotAllowed, [])
    ensures MethodOf(req) == "POST" && req.update == None ==> r == BotResponse(500, Fault, [])
    ensures MethodOf(req) == "POST" && req.update.Some? && req.update.value.message.Some? ==>
              var m := req.update.value.message.value;
              r == BotResponse(200, OkJson, [Send(m.chatId, MessageView(m, cfg))])
    ensures MethodOf(req) == "POST" && req.update.Some? && req.update.value.message == None
            && req.update.value.callbackQuery.Some? ==>
              var c := req.update.value.callbackQuery.value;
              && r.status == 200
              && r.effects == CallbackEffects(c, cfg)
              && (r.body == OkText <==> c.senderId != cfg.adminId)
              && (r.body == OkJson <==> c.senderId == cfg.adminId)
    ensures MethodOf(req) == "POST" && req.update.Some? && req.update.value.message == None
            && req.update.value.callbackQuery == None ==>
              r == BotResponse(200, OkJson, [])
    ensures forall i :: 0 <= i < |r.effects| && r.effects[i].Send? && IsAdminView(r.effects[i].view) ==>
              req.update.Some? && SenderOf(req.update.value) == Some(cfg.adminId)
  {
    var verb := MethodOf(req);
    if verb == "OPTIONS" then BotResponse(200, EmptyBody, [])
    else if verb != "POST" then BotResponse(405, MethodNotAllowed, [])
    else match req.update
      case None => BotResponse(500, Fault, [])
      case Some(u) =>
        if u.message.Some? then
          var m := u.message.value;
          BotResponse(200, OkJson, [Send(m.chatId, MessageView(m, cfg))])
        else if u.callbackQuery.Some? then
          var c := u.callbackQuery.value;
          BotResponse(200, if c.senderId != cfg.adminId then OkText else OkJson, CallbackEffects(c, cfg))
        else BotResponse(200, OkJson, [])
  }

  /**
   * A '/start' message under the handler's environment is answered with the
   * welcome whose button opens `GAME_URL`, or the default link when it is unset.
   */
  lemma StartOpensGameUrl(req: BotRequest, adminId: int, gameUrlEnv: Option<string>)
    requires MethodOf(req) == "POST" && req.update.Some? && req.update.value.message.Some?
    requires req.update.value.message.value.text == "/start"
    ensures var r := Route(req, ConfigOf(adminId, gameUrlEnv));
            var chat := req.update.value.message.value.chatId;
            && r.status == 200
            && (gameUrlEnv.Some? ==> r.effects == [Send(chat, Welcome(gameUrlEnv.value))])
            && (gameUrlEnv == None ==> r.effects == [Send(chat, Welcome(DefaultGameUrl))])
  {
  }

  /** The emoji the transaction list puts before a transaction type. */
  function TypeEmoji(kind: string): (e: string)
    ensures kind == "deposit" ==> e == "⬇️"
    ensures kind == "withdrawal" ==> e == "⬆️"
    ensures kind == "win" ==> e == "🎉"
    ensures kind == "loss" ==> e == "❌"
    ensures e == UnknownTypeEmoji <==> kind !in {"deposit", "withdrawal", "win", "loss"}
  {
    if kind == "deposit" then "⬇️"
    else if kind == "withdrawal" then "⬆️"
    else if kind == "win" then "🎉"
    else if kind == "loss" then "❌"
    else UnknownTypeEmoji
  }

  /** Every transaction type the game service writes has its own emoji. */
  lemma LedgerKindsHaveEmoji(k: GameLedger.TxnKind)
    ensures TypeEmoji(GameLedger.KindName(k)) != UnknownTypeEmoji
  {
  }

  /** The name the player and transaction lists show: the username, or 'Аноним' when it is missing or empty. */
  function DisplayName(username: Option<string>): (name: string)
    ensures name != ""
    ensures username.Some? && username.value != "" ==> name == username.value
    ensures username == None || username == Some("") ==> name == Anonymous
  {
    match username
    case Some(u) => if u != "" then u else Anonymous
    case None => Anonymous
  }
}
