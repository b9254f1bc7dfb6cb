/**
 * The session cell of App.tsx (`useState<GameState>`), updated from input
 * handlers, the matchmaking timeout and interval timers. Each method is one
 * of those callbacks firing: it replaces the state with the next one given
 * by the engine. The object invariant is the engine's `Inv`, and a match in
 * progress or over has exactly the two seats that the matchmaking timeout
 * gives it.
 */
module Session {
  import opened Types
  import opened Engine

  /**
   * What the matchmaking timeout's closure captures when startMatchmaking
   * runs: the player record it seats and whether a room id was set then.
   */
  datatype PendingMatch = PendingMatch(seated: Player, roomAtStart: bool)

  class GameSession {
    /** The current session record. */
    var state: GameState
    /** The connected wallet account, if any. */
    var account: Option<string>
    /** Whether a room id is set; a set room switches the bot off. */
    var inRoom: bool

    ghost predicate Valid()
      reads this
    {
      && Inv(state)
      && (state.status in {Playing, Won, Lost} ==> TwoSeats(state.players))
    }

    /** The app starts in the Lobby; `inRoom` reflects a room code found in the page address. */
    constructor (account: Option<string>, inRoom: bool, now: int)
      ensures Valid()
      ensures state == InitialState(now) && this.account == account && this.inRoom == inRoom
    {
      state := InitialState(now);
      this.account := account;
      this.inRoom := inRoom;
    }

    /**
     * startMatchmaking. Returns what the 3.5-second matchmaking timeout
     * captures: the player it later seats with the challenger and the room
     * flag as it is now. None when no account is set (then nothing happens
     * and no timeout is scheduled).
     */
    method StartMatchmaking(avatar: string) returns (pending: Option<PendingMatch>)
      requires Valid()
      modifies this`state
      ensures Valid()
      ensures state == Engine.StartMatchmaking(old(state), account, avatar)
      ensures SignedIn(account) ==> pending == Some(PendingMatch(Seat(account.value, avatar), inRoom))
      ensures !SignedIn(account) ==> pending == None
    {
      state := Engine.StartMatchmaking(state, account, avatar);
      if SignedIn(account) {
        pending := Some(PendingMatch(Seat(account.value, avatar), inRoom));
      } else {
        pending := None;
      }
    }

    /**
     * The matchmaking timeout, 3.5 seconds after StartMatchmaking: startGame
     * with the captured player and a challenger named after the captured
     * room flag, once the word has been fetched. It fires whatever the
     * status and the room flag are by then.
     */
    method MatchmakingTimeout(pending: PendingMatch, botAvatar: string, wd: WordData, now: int)
      requires Valid() && SignedIn(account)
      requires pending.seated == Seat(account.value, pending.seated.avatar)
      modifies this`state
      ensures Valid()
      ensures state == Engine.StartGame([pending.seated, Challenger(pending.roomAtStart, botAvatar)], wd, now)
      ensures state.status == Playing && TwoSeats(state.players)
      ensures state.players[0] == pending.seated
      ensures state.players[1] == Challenger(pending.roomAtStart, botAvatar)
    {
      state := Engine.StartGame([pending.seated, Challenger(pending.roomAtStart, botAvatar)], wd, now);
    }

    /**
     * createPrivateRoom, offered on the Lobby screen only: a room id is
     * set, which switches the bot off; the session record is untouched.
     */
    method CreateRoom()
      requires Valid() && state.status == Lobby
      modifies this`inRoom
      ensures Valid()
      ensures inRoom && state == old(state)
    {
      inRoom := true;
    }

    /** handleGuess for an on-screen key, which sends one of A-Z. */
    method Guess(letter: char)
      requires Valid() && IsLetter(letter)
      modifies this`state
      ensures Valid()
      ensures state == Engine.Guess(old(state), account, letter)
    {
      state := Engine.Guess(state, account, letter);
    }

    /** The keydown listener, for the key's text. */
    method KeyDown(key: string)
      requires Valid()
      modifies this`state
      ensures Valid()
      ensures state == Engine.KeyPressed(old(state), account, key)
    {
      state := Engine.KeyPressed(state, account, key);
    }

    /**
     * usePowerUp. Every Shield Boost request schedules the stun-clearing
     * callback, even one that had no effect; the result says whether one was.
     */
    method UsePowerUp(kind: PowerUp) returns (stunClearScheduled: bool)
      requires Valid()
      modifies this`state
      ensures Valid()
      ensures state == Engine.UsePowerUp(old(state), account, kind)
      ensures stunClearScheduled <==> kind == ShieldBoost
    {
      state := Engine.UsePowerUp(state, account, kind);
      stunClearScheduled := kind == ShieldBoost;
    }

    /** The stun-clearing callback, 1.5 seconds after a Shield Boost request. */
    method ClearStun()
      requires Valid()
      modifies this`state
      ensures Valid()
      ensures state == Engine.ClearStun(old(state))
    {
      state := Engine.ClearStun(state);
    }

    /** One second of the turn timer. */
    method SecondElapsed()
      requires Valid()
      modifies this`state
      ensures Valid()
      ensures state == Engine.SecondElapsed(old(state), account)
    {
      state := Engine.SecondElapsed(state, account);
    }

    /** One five-second period of the bot timer, with its random index and 6% draw. */
    method BotTurn(pick: nat, fires: bool)
      requires Valid()
      requires Unvisited(ALPHABET, state.guessedLetters) != [] ==> pick < |Unvisited(ALPHABET, state.guessedLetters)|
      modifies this`state
      ensures Valid()
      ensures state == Engine.BotMove(old(state), inRoom, pick, fires)
    {
      state := Engine.BotMove(state, inRoom, pick, fires);
    }

    /** The win/loss effect, run after the session changes. */
    method EvaluateOutcome()
      requires Valid()
      modifies this`state
      ensures Valid()
      ensures state == Engine.EvaluateOutcome(old(state))
    {
      state := Engine.EvaluateOutcome(state);
    }

    /** The logo or "play again": back to the Lobby, and the room id is dropped. */
    method ReturnToLobby()
      requires Valid()
      modifies this`state, this`inRoom
      ensures Valid()
      ensures state == old(state).(status := Lobby) && !inRoom
    {
      state := ResetToLobby(state);
      inRoom := false;
    }
  }
}
