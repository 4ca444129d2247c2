/**
 * The session controller as the client runs it: one object whose fields the message handler,
 * the timer callback and the user actions assign one by one.
 */
module SessionController {
  import opened Wrappers
  import opened JsSemantics
  import opened Protocol
  import opened SessionSpec

  class Session {
    var status: Status
    var roomId: string
    var roomIdInput: string
    var avatar: Option<string>
    var partnerAvatar: Option<string>
    var playerNumber: JsValue
    var currentQuestion: Option<QuestionCard>
    var yourPos: JsValue
    var opponentPos: JsValue
    var distance: JsValue
    var isAnimating: bool
    var pendingClears: nat
    var socketOpen: bool
    var outbox: seq<OutMsg>

    /** The fields as one session record. */
    ghost function Snapshot(): State
      reads this
    {
      State(status, roomId, roomIdInput, avatar, partnerAvatar, playerNumber, currentQuestion,
            yourPos, opponentPos, distance, isAnimating, pendingClears, socketOpen, outbox)
    }

    ghost predicate Valid()
      reads this
    {
      Inv(Snapshot())
    }

    /** The initial value of every hook, no socket open yet, nothing sent. */
    constructor ()
      ensures Valid() && Snapshot() == Initial()
    {
      status := Menu;
      roomId := "";
      roomIdInput := "";
      avatar := None;
      partnerAvatar := None;
      playerNumber := Nullish;
      currentQuestion := None;
      yourPos := Num(DefaultYourPos);
      opponentPos := Num(DefaultOpponentPos);
      distance := Num(1.0);
      isAnimating := false;
      pendingClears := 0;
      socketOpen := false;
      outbox := [];
    }

    /** The `onmessage` switch, one case per message type. */
    method HandleMessage(m: Msg)
      requires Valid()
      modifies this
      ensures Valid()
      ensures Snapshot() == Step(old(Snapshot()), m)
    {
      match m
      case RoomCreated(id) =>
        roomId := id;
        playerNumber := Num(1.0);
        status := Lobby;
      case RoomJoined(id) =>
        roomId := id;
        playerNumber := Num(2.0);
        status := Lobby;
      case PlayerJoined =>
        status := Lobby;
      case WaitingForPlayer =>
        if Truthy(avatar) {
          status := Waiting;
        } else {
          status := Lobby;
        }
      case PartnerAvatarSelected(a) =>
        partnerAvatar := a;
      case GameStarted(_, _, _, _, _, _, _) =>
        StartGame(m);
      case Question(id, text) =>
        currentQuestion := Some(QuestionCard(id, text));
      case Update(y, o, d) =>
        isAnimating := true;
        yourPos := y;
        opponentPos := o;
        distance := d;
        pendingClears := pendingClears + 1;
      case Unknown(_) =>
    }

    /** The `GAME_STARTED` case of the handler, with its full and short payload shapes. */
    method StartGame(m: Msg)
      requires m.GameStarted?
      modifies this
      ensures Snapshot() == Step(old(Snapshot()), m)
    {
      playerNumber := m.yourPlayerNumber;
      if Truthy(m.yourAvatar) {
        avatar := m.yourAvatar;
        partnerAvatar := m.opponentAvatar;
        yourPos := Coalesce(m.yourPosition, DefaultYourPos);
        opponentPos := Coalesce(m.opponentPosition, DefaultOpponentPos);
      } else {
        avatar := if m.yourPlayerNumber == Num(1.0) then m.player1Avatar else m.player2Avatar;
        partnerAvatar := if m.yourPlayerNumber == Num(1.0) then m.player2Avatar else m.player1Avatar;
        yourPos := Num(DefaultYourPos);
        opponentPos := Num(DefaultOpponentPos);
      }
      status := Game;
    }

    /** The callback of one pending animation timer. */
    method AnimationTimerFired()
      requires Valid() && pendingClears > 0
      modifies this
      ensures Valid()
      ensures Snapshot() == TimerFired(old(Snapshot()))
    {
      isAnimating := false;
      pendingClears := pendingClears - 1;
    }

    /** The socket's ready state changes (opened or closed by the transport). */
    method SetSocketOpen(open: bool)
      requires Valid()
      modifies this
      ensures Valid()
      ensures Snapshot() == SessionSpec.SetSocketOpen(old(Snapshot()), open)
    {
      socketOpen := open;
    }

    /** `sendWS`: the message goes out only on an OPEN socket, otherwise it is dropped. */
    method SendWS(msg: OutMsg)
      modifies this`outbox
      ensures Snapshot() == SessionSpec.SendWS(old(Snapshot()), msg)
    {
      if !socketOpen {
        return;
      }
      outbox := outbox + [msg];
    }

    method CreateRoom()
      requires Valid()
      modifies this
      ensures Valid()
      ensures Snapshot() == SessionSpec.CreateRoom(old(Snapshot()))
    {
      SendWS(CreateRoomRequest);
    }

    /** The room-id text field's change handler. */
    method EditRoomIdInput(text: string)
      requires Valid()
      modifies this
      ensures Valid()
      ensures Snapshot() == SessionSpec.EditRoomIdInput(old(Snapshot()), text)
    {
      roomIdInput := text;
    }

    method JoinRoom()
      requires Valid()
      modifies this
      ensures Valid()
      ensures Snapshot() == SessionSpec.JoinRoom(old(Snapshot()))
    {
      var id := Trim(roomIdInput);
      if id == [] {
        return;
      }
      SendWS(JoinRoomRequest(id));
    }

    method SelectAvatar(a: string)
      requires Valid()
      modifies this
      ensures Valid()
      ensures Snapshot() == SessionSpec.SelectAvatar(old(Snapshot()), a)
    {
      avatar := Some(a);
      SendWS(SubmitAvatarRequest(roomId, a));
    }

    /** A click on one of the lobby's avatar buttons, which are disabled once an avatar is set. */
    method ClickAvatarButton(a: string)
      requires Valid() && AvatarButtonsEnabled(Snapshot()) && a in AvatarChoices
      modifies this
      ensures Valid() && !AvatarButtonsEnabled(Snapshot())
      ensures Snapshot() == SessionSpec.ClickAvatarButton(old(Snapshot()), a)
    {
      SelectAvatar(a);
    }

    /** A click on the yes or no button shown under the current question. */
    method AnswerQuestion(yes: bool)
      requires Valid() && AnswerButtonsShown(Snapshot())
      modifies this
      ensures Valid()
      ensures Snapshot() == SessionSpec.AnswerQuestion(old(Snapshot()), yes)
    {
      SendWS(AnswerRequest(if yes then "yes" else "no"));
    }
  }
}
