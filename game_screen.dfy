/** The game screen of the mobile client. It keeps an optional local copy of
    one tic-tac-toe game, fetched from the server, and the local user id; it
    derives the board cells and the turn banner from them, and turns taps into
    move and restart requests. Network replies are inputs of the methods;
    requests sent, alerts raised and un-awaited re-fetches started are recorded
    in a log. The game rules themselves are decided by the server. */
module GameScreen {
  import opened Common

  datatype Mark = X | O

  /** The `Game` object the server returns; `board` maps "field_1" ..
      "field_9" to "EMPTY", "X" or "O". */
  datatype Game = Game(
    gameId: string,
    player1: string,
    player2: string,
    player1Symbol: Mark,
    player2Symbol: Mark,
    currentTurn: string,
    isFinished: bool,
    winner: Option<string>,
    board: map<string, string>)

  const EMPTY := "EMPTY"
  const YOUR_TURN := "Your turn"
  const OPPONENTS_TURN := "Opponent's turn"
  const DRAW := "Draw!"
  const WINNER_PREFIX := "Winner: "

  /** The nine cells, numbered as the screen numbers them. */
  type Position = i: int | 1 <= i <= 9 witness 1

  function FieldName(p: Position): string
  {
    "field_" + [('0' as int + p) as char]
  }

  /** `game.board[fieldName]`; None when the key is absent (`undefined`). */
  function CellValue(g: Game, p: Position): Option<string>
  {
    if FieldName(p) in g.board then Some(g.board[FieldName(p)]) else None
  }

  /** The text shown in a cell: nothing for "EMPTY" (and for an absent key,
      which renders as nothing), the stored mark otherwise. */
  function CellLabel(g: Game, p: Position): (shown: string)
    ensures shown != "" ==> CellValue(g, p) == Some(shown) && shown != EMPTY
    ensures CellValue(g, p) == Some(EMPTY) ==> shown == ""
    ensures CellValue(g, p).Some? && CellValue(g, p).value != EMPTY ==> shown == CellValue(g, p).value
    ensures CellValue(g, p).None? ==> shown == ""
  {
    match CellValue(g, p)
    case None => ""
    case Some(v) => if v == EMPTY then "" else v
  }

  /** A cell takes taps only while it holds "EMPTY" and the game is running;
      in particular a cell that shows a mark never does. */
  function CellDisabled(g: Game, p: Position): (disabled: bool)
    ensures !disabled <==> !g.isFinished && FieldName(p) in g.board && g.board[FieldName(p)] == EMPTY
    ensures CellLabel(g, p) != "" ==> disabled
    ensures g.isFinished ==> disabled
  {
    CellValue(g, p) != Some(EMPTY) || g.isFinished
  }

  /** JavaScript truthiness of `game.winner` (a string or null). */
  predicate HasWinner(g: Game)
  {
    g.winner.Some? && g.winner.value != ""
  }

  /** The turn banner above the board. */
  function Banner(g: Game, currentUserId: string): (text: string)
    ensures text == YOUR_TURN <==> !g.isFinished && g.currentTurn == currentUserId
    ensures text == OPPONENTS_TURN <==> !g.isFinished && g.currentTurn != currentUserId
    ensures text == DRAW <==> g.isFinished && !HasWinner(g)
    ensures g.isFinished && HasWinner(g) ==> text == WINNER_PREFIX + g.winner.value
  {
    if g.isFinished then
      if HasWinner(g) then
        var t := WINNER_PREFIX + g.winner.value;
        assert t[0] == 'W' && t[1] == 'i';
        t
      else DRAW
    else if currentUserId == g.currentTurn then YOUR_TURN
    else OPPONENTS_TURN
  }

  datatype Cell = Cell(text: string, disabled: bool)

  /** What the screen shows: a loading text until a game is loaded, then the
      banner, the nine cells and, for a finished game only, the restart button. */
  datatype Screen = Loading | Board(banner: string, cells: seq<Cell>, restartVisible: bool)

  function Render(game: Option<Game>, currentUserId: string): (v: Screen)
    ensures v.Loading? <==> game.None?
    ensures v.Board? ==>
      && |v.cells| == 9
      && v.banner == Banner(game.value, currentUserId)
      && v.restartVisible == game.value.isFinished
      && forall p: Position :: v.cells[p - 1] == Cell(CellLabel(game.value, p), CellDisabled(game.value, p))
  {
    match game
    case None => Loading
    case Some(g) =>
      Board(Banner(g, currentUserId),
            seq(9, i requires 0 <= i < 9 => Cell(CellLabel(g, i + 1), CellDisabled(g, i + 1))),
            g.isFinished)
  }

  /** A finished game locks every cell, shows the restart button and a
      result banner. */
  lemma FinishedBoardLocked(g: Game, currentUserId: string)
    requires g.isFinished
    ensures var v := Render(Some(g), currentUserId);
      && v.restartVisible
      && (forall i :: 0 <= i < |v.cells| ==> v.cells[i].disabled)
      && (v.banner == DRAW || v.banner == WINNER_PREFIX + g.winner.value)
  {
  }

  /** The guards of makeMove: a game is loaded, it is running and it is the
      local user's turn. */
  predicate MoveAllowed(game: Option<Game>, currentUserId: string)
  {
    game.Some? && !game.value.isFinished && game.value.currentTurn == currentUserId
  }

  /** makeMove sends a request exactly when the banner reads "Your turn". */
  lemma MoveAllowedIffYourTurn(game: Option<Game>, currentUserId: string)
    ensures MoveAllowed(game, currentUserId) <==>
      Render(game, currentUserId).Board? && Render(game, currentUserId).banner == YOUR_TURN
  {
  }

  /** The requests the screen sends to the server. */
  datatype Request =
    | GetGame(player1Id: string, player2Id: string)
    | CreateGame(player1Id: string, player2Id: string)
    | MoveRequest(gameId: string, playerId: string, field: int)
    | RestartRequest(gameId: string)

  datatype Event =
    | Sent(request: Request, authorization: string)
    /** A new `fetchGame()` invocation, started without awaiting it. */
    | FetchStarted
    | Alert(title: string, message: Option<string>)

  /** `fetch` outcomes. A network error or a body that is not JSON makes the
      awaited call throw; `body` is None in the second case. */
  datatype GameReply = GameNetworkError | GameReply(status: int, body: Option<Game>)
  datatype CreateReply = CreateNetworkError | CreateReply(status: int)
  /** The body of a move answer: `status` and the text `data.winner` converts to. */
  datatype MoveOutcome = MoveOutcome(status: string, winner: string)
  datatype MoveReply = MoveNetworkError | MoveReply(status: int, body: Option<MoveOutcome>)
  datatype RestartReply = RestartNetworkError | RestartReply(status: int, bodyParsed: bool)

  /** `response.ok`. */
  predicate IsOk(status: int)
  {
    200 <= status <= 299
  }

  /** `"Bearer " + token`, where a missing token reads as "null". */
  function AuthHeader(token: Option<string>): string
  {
    "Bearer " + (if token.Some? then token.value else "null")
  }

  /** What makeMove does after its request: on an ok answer it starts a
      re-fetch and then reports a win or a draw; on anything else nothing. */
  function MoveFollowUp(reply: MoveReply): (events: seq<Event>)
    ensures |events| <= 2
    ensures events != [] <==> reply.MoveReply? && IsOk(reply.status) && reply.body.Some?
    ensures events != [] ==> events[0] == FetchStarted
    ensures |events| == 2 ==> events[1].Alert? && reply.body.value.status in {"WIN", "DRAW"}
    ensures reply.MoveReply? && IsOk(reply.status) && reply.body.Some? && reply.body.value.status == "WIN" ==>
      events == [FetchStarted, Alert("Game Over", Some("Winner: " + reply.body.value.winner))]
    ensures reply.MoveReply? && IsOk(reply.status) && reply.body.Some? && reply.body.value.status == "DRAW" ==>
      events == [FetchStarted, Alert("Draw!", Some("Nobody wins."))]
    ensures reply.MoveReply? && IsOk(reply.status) && reply.body.Some? && reply.body.value.status !in {"WIN", "DRAW"} ==>
      events == [FetchStarted]
  {
    if reply.MoveReply? && reply.body.Some? && IsOk(reply.status) then
      var outcome := reply.body.value;
      [FetchStarted] +
        (if outcome.status == "WIN" then [Alert("Game Over", Some("Winner: " + outcome.winner))]
         else if outcome.status == "DRAW" then [Alert("Draw!", Some("Nobody wins."))]
         else [])
    else []
  }

  /** What restartGame does after its request: a re-fetch on an ok answer, an
      alert on any other answer with a JSON body, nothing when it throws. */
  function RestartFollowUp(reply: RestartReply): (events: seq<Event>)
    ensures |events| <= 1
    ensures events == [FetchStarted] <==> reply.RestartReply? && reply.bodyParsed && IsOk(reply.status)
    ensures events != [] && events != [FetchStarted] ==> events == [Alert("Error restarting game", None)]
    ensures reply.RestartReply? && reply.bodyParsed && !IsOk(reply.status) ==>
      events == [Alert("Error restarting game", None)]
    ensures !(reply.RestartReply? && reply.bodyParsed) ==> events == []
  {
    if reply.RestartReply? && reply.bodyParsed then
      if IsOk(reply.status) then [FetchStarted] else [Alert("Error restarting game", None)]
    else []
  }

  class GameController {
    const player1Id: string
    const player2Id: string
    var currentUserId: string
    var game: Option<Game>
    var log: seq<Event>

    constructor (player1Id: string, player2Id: string)
      ensures this.player1Id == player1Id && this.player2Id == player2Id
      ensures currentUserId == "" && game == None && log == []
    {
      this.player1Id := player1Id;
      this.player2Id := player2Id;
      currentUserId := "";
      game := None;
      log := [];
    }

    /** The mount effect that reads "user_id" from storage: a stored,
        non-empty id replaces the local one. */
    method LoadUserId(stored: Option<string>)
      modifies this`currentUserId
      ensures currentUserId == if Blank(stored) then old(currentUserId) else stored.value
    {
      if !Blank(stored) {
        currentUserId := stored.value;
      }
    }

    /** fetchGame: GET the game of the two players. An ok answer with a body
        replaces the local game wholesale; anything else leaves it alone. A
        404 sends one create request with the same pair and, only if that
        succeeds, starts a new fetchGame. */
    method FetchGame(token: Option<string>, reply: GameReply, createReply: CreateReply)
      modifies this`game, this`log
      ensures game == if reply.GameReply? && IsOk(reply.status) && reply.body.Some? then reply.body else old(game)
      ensures reply.GameReply? && reply.status == 404 ==>
        log == old(log) + [Sent(GetGame(player1Id, player2Id), AuthHeader(token)),
                           Sent(CreateGame(player1Id, player2Id), AuthHeader(token))]
                        + (if createReply.CreateReply? && IsOk(createReply.status) then [FetchStarted] else [])
      ensures !(reply.GameReply? && reply.status == 404) ==>
        log == old(log) + [Sent(GetGame(player1Id, player2Id), AuthHeader(token))]
    {
      var header := AuthHeader(token);
      log := log + [Sent(GetGame(player1Id, player2Id), header)];
      if reply.GameNetworkError? {
        return;
      }
      if reply.status == 404 {
        log := log + [Sent(CreateGame(player1Id, player2Id), header)];
        if createReply.CreateNetworkError? {
          return;
        }
        if IsOk(createReply.status) {
          log := log + [FetchStarted];
          return;
        }
      }
      if !IsOk(reply.status) {
        return;
      }
      if reply.body.None? {
        return;
      }
      game := reply.body;
    }

    /** makeMove(field): nothing without a running game; an alert and no
        request when it is not the local user's turn; otherwise one move
        request carrying (game id, local user id, field). The local game is
        never changed here. */
    method MakeMove(field: int, token: Option<string>, reply: MoveReply)
      modifies this`log
      ensures game.None? || game.value.isFinished ==> log == old(log)
      ensures game.Some? && !game.value.isFinished && game.value.currentTurn != currentUserId ==>
        log == old(log) + [Alert("Not your turn!", None)]
      ensures MoveAllowed(game, currentUserId) ==>
        log == old(log) + [Sent(MoveRequest(game.value.gameId, currentUserId, field), AuthHeader(token))]
                        + MoveFollowUp(reply)
    {
      if game.None? {
        return;
      }
      var g := game.value;
      if g.isFinished {
        return;
      }
      if g.currentTurn != currentUserId {
        log := log + [Alert("Not your turn!", None)];
        return;
      }
      log := log + [Sent(MoveRequest(g.gameId, currentUserId, field), AuthHeader(token))];
      if reply.MoveNetworkError? || reply.body.None? {
        return;
      }
      if !IsOk(reply.status) {
        return;
      }
      log := log + [FetchStarted];
      if reply.body.value.status == "WIN" {
        log := log + [Alert("Game Over", Some("Winner: " + reply.body.value.winner))];
      } else if reply.body.value.status == "DRAW" {
        log := log + [Alert("Draw!", Some("Nobody wins."))];
      }
    }

    /** restartGame: nothing without a game; otherwise one restart request
        for the loaded game, followed by a re-fetch on success or an alert on
        a failed answer. The local game is never changed here. */
    method RestartGame(token: Option<string>, reply: RestartReply)
      modifies this`log
      ensures game.None? ==> log == old(log)
      ensures game.Some? ==>
        log == old(log) + [Sent(RestartRequest(game.value.gameId), AuthHeader(token))] + RestartFollowUp(reply)
    {
      if game.None? {
        return;
      }
      log := log + [Sent(RestartRequest(game.value.gameId), AuthHeader(token))];
      if reply.RestartNetworkError? || !reply.bodyParsed {
        return;
      }
      if !IsOk(reply.status) {
        log := log + [Alert("Error restarting game", None)];
        return;
      }
      log := log + [FetchStarted];
    }
  }
}
