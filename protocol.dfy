/**
 * The wire protocol between the game client and its server, as the client sees it after
 * decoding a frame: one constructor per `type` tag, and the normalization of the two
 * payload shapes of `GAME_STARTED` into one outcome.
 */
module Protocol {
  import opened Wrappers
  import opened JsSemantics

  /**
   * An inbound server message, already parsed. `Unknown` stands for a message whose `type` is
   * none of the eight handled here; its `tag` is never one of those eight.
   */
  datatype Msg =
    | RoomCreated(roomId: string)
    | RoomJoined(roomId: string)
    | PlayerJoined
    | WaitingForPlayer
    | PartnerAvatarSelected(avatar: Option<string>)
    | GameStarted(
        yourPlayerNumber: JsValue,
        yourAvatar: Option<string>, opponentAvatar: Option<string>,
        yourPosition: JsValue, opponentPosition: JsValue,
        player1Avatar: Option<string>, player2Avatar: Option<string>)
    | Question(id: string, text: string)
    | Update(yourPosition: JsValue, opponentPosition: JsValue, distance: JsValue)
    | Unknown(tag: string)

  /** An outbound client message. */
  datatype OutMsg =
    | CreateRoomRequest
    | JoinRoomRequest(roomId: string)
    | SubmitAvatarRequest(roomId: string, avatar: string)
    | AnswerRequest(answer: string)

  /** The starting chairs: `yourPos` 40 and `opponentPos` 41. */
  const DefaultYourPos: real := 40.0
  const DefaultOpponentPos: real := 41.0

  /** The canonical outcome of a `GAME_STARTED` message, whichever shape it came in. */
  datatype GameStart = GameStart(
    playerNumber: JsValue,
    selfAvatar: Option<string>, partnerAvatar: Option<string>,
    selfPos: JsValue, partnerPos: JsValue)

  /** The full shape is recognised by a truthy `yourAvatar`; anything else is read as the short shape. */
  predicate IsFullShape(m: Msg)
    requires m.GameStarted?
  {
    Truthy(m.yourAvatar)
  }

  /**
   * Short-shape avatar resolution: player number 1 takes `player1Avatar`, any other value takes
   * `player2Avatar`, and the partner gets the other one.
   */
  function AvatarsBySlot(n: JsValue, p1: Option<string>, p2: Option<string>): (r: (Option<string>, Option<string>))
    ensures r.0 == if n == Num(1.0) then p1 else p2
    ensures multiset{r.0, r.1} == multiset{p1, p2}
  {
    if n == Num(1.0) then (p1, p2) else (p2, p1)
  }

  /**
   * Folds both `GAME_STARTED` shapes into one outcome. The player number is always taken from
   * the message, and the positions that come out are never `null` or `undefined`.
   */
  function NormalizeGameStart(m: Msg): (g: GameStart)
    requires m.GameStarted?
    ensures g.playerNumber == m.yourPlayerNumber
    ensures !g.selfPos.Nullish? && !g.partnerPos.Nullish?
    ensures IsFullShape(m) ==> g.selfAvatar == m.yourAvatar && g.partnerAvatar == m.opponentAvatar
    ensures IsFullShape(m) && !m.yourPosition.Nullish? ==> g.selfPos == m.yourPosition
    ensures IsFullShape(m) && !m.opponentPosition.Nullish? ==> g.partnerPos == m.opponentPosition
    ensures m.yourPosition.Nullish? || !IsFullShape(m) ==> g.selfPos == Num(DefaultYourPos)
    ensures m.opponentPosition.Nullish? || !IsFullShape(m) ==> g.partnerPos == Num(DefaultOpponentPos)
    ensures !IsFullShape(m) ==> g.selfAvatar == (if m.yourPlayerNumber == Num(1.0) then m.player1Avatar else m.player2Avatar)
    ensures !IsFullShape(m) ==> multiset{g.selfAvatar, g.partnerAvatar} == multiset{m.player1Avatar, m.player2Avatar}
  {
    if IsFullShape(m) then
      GameStart(m.yourPlayerNumber, m.yourAvatar, m.opponentAvatar,
                Coalesce(m.yourPosition, DefaultYourPos), Coalesce(m.opponentPosition, DefaultOpponentPos))
    else
      var (mine, theirs) := AvatarsBySlot(m.yourPlayerNumber, m.player1Avatar, m.player2Avatar);
      GameStart(m.yourPlayerNumber, mine, theirs, Num(DefaultYourPos), Num(DefaultOpponentPos))
  }

  /** A full payload without positions, and the short payload naming the same avatars by slot. */
  function FullPayload(n: JsValue, mine: string, theirs: Option<string>): Msg
  {
    GameStarted(n, Some(mine), theirs, Nullish, Nullish, None, None)
  }

  function ShortPayload(n: JsValue, mine: string, theirs: Option<string>): Msg
  {
    if n == Num(1.0) then GameStarted(n, None, None, Nullish, Nullish, Some(mine), theirs)
    else GameStarted(n, None, None, Nullish, Nullish, theirs, Some(mine))
  }

  /** Shape invariance: both payload shapes describing the same start give the same outcome. */
  lemma ShapeInvariance(n: JsValue, mine: string, theirs: Option<string>)
    requires mine != ""
    ensures NormalizeGameStart(FullPayload(n, mine, theirs)) == NormalizeGameStart(ShortPayload(n, mine, theirs))
    ensures NormalizeGameStart(FullPayload(n, mine, theirs)) ==
            GameStart(n, Some(mine), theirs, Num(DefaultYourPos), Num(DefaultOpponentPos))
  {
  }

  /**
   * An empty `yourAvatar` is falsy, so such a payload is read as the short shape: its own
   * avatar fields are ignored in favour of `player1Avatar`/`player2Avatar`.
   */
  lemma EmptyYourAvatarIsShort(n: JsValue, theirs: Option<string>, ypos: JsValue, opos: JsValue, p1: Option<string>, p2: Option<string>)
    ensures var g := NormalizeGameStart(GameStarted(n, Some(""), theirs, ypos, opos, p1, p2));
            g.selfPos == Num(DefaultYourPos) && g.partnerPos == Num(DefaultOpponentPos) &&
            g.selfAvatar == (if n == Num(1.0) then p1 else p2) &&
            g.partnerAvatar == (if n == Num(1.0) then p2 else p1)
  {
  }
}
