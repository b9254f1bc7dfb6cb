/** The records of a game session, as declared in types.ts. */
module Types {

  /** An optional value; stands for TypeScript's `T | undefined` fields. */
  datatype Option<+T> = None | Some(value: T)

  datatype GameStatus = Lobby | Matchmaking | Playing | Won | Lost

  /**
   * A seated participant. The optional `isBot` flag is a plain bool here:
   * an absent flag reads as false everywhere the source tests it.
   */
  datatype Player = Player(
    id: string,
    name: string,
    avatar: string,
    hp: int,
    score: int,
    isReady: bool,
    isBot: bool)

  datatype PowerUpState = PowerUpState(vowelScanAvailable: bool, shieldBoostAvailable: bool)

  /**
   * The single session record. `guessedLetters` keeps insertion order (the
   * source uses an array); an absent `isStunned` reads as false.
   */
  datatype GameState = GameState(
    status: GameStatus,
    word: string,
    category: string,
    hint: string,
    guessedLetters: seq<char>,
    players: seq<Player>,
    winnerId: Option<string>,
    turnStartTime: int,
    timeLeft: int,
    isStunned: bool,
    powerUps: PowerUpState)

  /** A word drawn from the word catalogue, with its category and hint. */
  datatype WordData = WordData(word: string, category: string, hint: string)

  /** Appending the head of `t` and then its tail is appending `t`; used by the inductions over appended lists. */
  lemma AppendHead<T>(s: seq<T>, t: seq<T>)
    requires t != []
    ensures s + [t[0]] + t[1..] == s + t
  {
    assert t == [t[0]] + t[1..];
  }
}
