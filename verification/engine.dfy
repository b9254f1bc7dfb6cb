/**
 * The match engine of one game session. Each handler of App.tsx that updates
 * the session with `setGameState(prev => ...)` is a function here from the
 * previous GameState to the next one. The wallet account, the timers, the
 * random draws and the fetched word are inputs.
 */
module Engine {
  import opened Types

  const INITIAL_HP: int := 6
  const TURN_DURATION: int := 60
  /** Seconds that a Shield Boost takes off the countdown. */
  const SHIELD_TIME_COST: int := 10
  /** The id the mutation handlers accept as the local player besides the wallet account. */
  const LOCAL_PLAYER_ID: string := "local-player"
  /** The id of the challenger seated when matchmaking times out. */
  const CHALLENGER_ID: string := "onchain-challenger"
  const VOWELS: seq<char> := ['A', 'E', 'I', 'O', 'U']
  const ALPHABET: seq<char> := "ABCDEFGHIJKLMNOPQRSTUVWXYZ"

  function Max(a: int, b: int): int { if a >= b then a else b }
  function Min(a: int, b: int): int { if a <= b then a else b }

  /** `toUpperCase` on one character; only the ASCII letters a-z change. */
  function ToUpper(c: char): (u: char)
    ensures 'a' <= c <= 'z' ==> 'A' <= u <= 'Z' && u as int == c as int - 32
    ensures !('a' <= c <= 'z') ==> u == c
    ensures !('a' <= u <= 'z')
  {
    if 'a' <= c <= 'z' then (c as int - 32) as char else c
  }

  predicate NoDuplicates(cs: seq<char>)
  {
    forall i, j :: 0 <= i < j < |cs| ==> cs[i] != cs[j]
  }

  predicate HpInRange(ps: seq<Player>)
  {
    forall i :: 0 <= i < |ps| ==> 0 <= ps[i].hp <= INITIAL_HP
  }

  /** An ASCII letter of either case: what `/[a-z]/i` accepts and what the on-screen keys send. */
  predicate IsLetter(c: char)
  {
    'a' <= c <= 'z' || 'A' <= c <= 'Z'
  }

  predicate UpperLetters(cs: seq<char>)
  {
    forall i :: 0 <= i < |cs| ==> 'A' <= cs[i] <= 'Z'
  }

  /**
   * What every reachable session satisfies: each hp within [0, INITIAL_HP],
   * the countdown within [1, TURN_DURATION], only the letters A-Z guessed,
   * and none of them twice.
   */
  predicate Inv(s: GameState)
  {
    && HpInRange(s.players)
    && 1 <= s.timeLeft <= TURN_DURATION
    && UpperLetters(s.guessedLetters)
    && NoDuplicates(s.guessedLetters)
  }

  /** The seats of a match started by the matchmaking timeout: the local player first, the challenger second. */
  predicate TwoSeats(ps: seq<Player>)
  {
    |ps| == 2 && !ps[0].isBot && ps[1].isBot
  }

  // ---------------------------------------------------------------------
  // Players and hit points

  /** The mutation handlers' test for the local player: `p.id === account || p.id === 'local-player'`. */
  predicate IsLocal(p: Player, account: Option<string>)
  {
    (account.Some? && p.id == account.value) || p.id == LOCAL_PLAYER_ID
  }

  /** Which players an hp update applies to: the local player(s), or every player with a given id. */
  datatype Target = Local(account: Option<string>) | WithId(id: string)

  predicate Selects(t: Target, p: Player)
  {
    match t
    case Local(account) => IsLocal(p, account)
    case WithId(id) => p.id == id
  }

  /** A loss of `n` hp floored at 0 (`Math.max(0, hp - n)`), or a gain of one capped at INITIAL_HP. */
  datatype HpChange = Lose(n: nat) | GainOne

  function ApplyChange(c: HpChange, hp: int): (r: int)
    ensures c.Lose? ==> r >= 0 && (hp >= c.n ==> r == hp - c.n) && (hp < c.n ==> r == 0)
    ensures c.GainOne? ==> r <= INITIAL_HP && (hp < INITIAL_HP ==> r == hp + 1) && (hp >= INITIAL_HP ==> r == INITIAL_HP)
    ensures 0 <= hp <= INITIAL_HP ==> 0 <= r <= INITIAL_HP
  {
    match c
    case Lose(n) => Max(0, hp - n)
    case GainOne => Min(INITIAL_HP, hp + 1)
  }

  /** `after` is `before` with the change applied to exactly the selected players. */
  predicate HpChanged(before: seq<Player>, after: seq<Player>, t: Target, c: HpChange)
  {
    && |after| == |before|
    && forall i :: 0 <= i < |before| ==>
         after[i] == if Selects(t, before[i]) then before[i].(hp := ApplyChange(c, before[i].hp)) else before[i]
  }

  /** `players.map(p => selected ? { ...p, hp: ... } : p)`. */
  function UpdateHp(ps: seq<Player>, t: Target, c: HpChange): (r: seq<Player>)
    ensures HpChanged(ps, r, t, c)
    ensures HpInRange(ps) ==> HpInRange(r)
  {
    if ps == [] then []
    else
      var p := ps[0];
      [if Selects(t, p) then p.(hp := ApplyChange(c, p.hp)) else p] + UpdateHp(ps[1..], t, c)
  }

  /** An hp update keeps every seat and its bot flag. */
  lemma HpChangeKeepsSeats(before: seq<Player>, after: seq<Player>, t: Target, c: HpChange)
    requires HpChanged(before, after, t, c) && TwoSeats(before)
    ensures TwoSeats(after)
  {
    assert after[0].isBot == before[0].isBot && after[1].isBot == before[1].isBot;
  }

  /** `players.find(p => p.isBot === bot)` (with an absent flag read as false). */
  function Find(ps: seq<Player>, bot: bool): (r: Option<Player>)
    ensures r.None? <==> forall i :: 0 <= i < |ps| ==> ps[i].isBot != bot
    ensures r.Some? ==> exists i :: 0 <= i < |ps| && ps[i] == r.value && ps[i].isBot == bot &&
                                    forall j :: 0 <= j < i ==> ps[j].isBot != bot
  {
    if ps == [] then None
    else if ps[0].isBot == bot then Some(ps[0])
    else
      var r := Find(ps[1..], bot);
      assert r.Some? ==> exists i :: 1 <= i < |ps| && ps[i] == r.value && ps[i].isBot == bot &&
                                     forall j :: 0 <= j < i ==> ps[j].isBot != bot by {
        if r.Some? {
          var k :| 0 <= k < |ps[1..]| && ps[1..][k] == r.value && ps[1..][k].isBot == bot &&
                   forall j :: 0 <= j < k ==> ps[1..][j].isBot != bot;
          assert ps[k + 1] == r.value;
        }
      }
      r
  }

  function IdOf(p: Option<Player>): Option<string>
  {
    if p.Some? then Some(p.value.id) else None
  }

  // ---------------------------------------------------------------------
  // Letters

  predicate AppendsFresh(before: seq<char>, added: seq<char>)
  {
    NoDuplicates(added) && forall c :: c in added ==> c !in before
  }

  lemma AppendFreshKeepsDistinct(before: seq<char>, added: seq<char>)
    requires NoDuplicates(before) && AppendsFresh(before, added)
    ensures NoDuplicates(before + added)
  {
    var all := before + added;
    forall i, j | 0 <= i < j < |all| ensures all[i] != all[j] {
      if j >= |before| && i < |before| {
        assert all[j] == added[j - |before|];
        assert all[j] in added;
      } else if i >= |before| {
        assert all[i] == added[i - |before|] && all[j] == added[j - |before|];
      }
    }
  }

  lemma AppendUpperKeepsLetters(before: seq<char>, added: seq<char>)
    requires UpperLetters(before) && forall c :: c in added ==> 'A' <= c <= 'Z'
    ensures UpperLetters(before + added)
  {
    var all := before + added;
    forall i | 0 <= i < |all| ensures 'A' <= all[i] <= 'Z' {
      if i >= |before| {
        assert all[i] == added[i - |before|] && all[i] in added;
      }
    }
  }

  lemma AlphabetIsUpper()
    ensures UpperLetters(ALPHABET) && forall c :: c in ALPHABET ==> 'A' <= c <= 'Z'
  {
  }

  /** `vowels.filter(v => word.includes(v) && !guessed.has(v))`, in the order of `vs`. */
  function NewVowels(vs: seq<char>, word: string, guessed: seq<char>): (r: seq<char>)
    ensures forall c :: c in r <==> c in vs && c in word && c !in guessed
    ensures NoDuplicates(vs) ==> NoDuplicates(r)
  {
    if vs == [] then []
    else
      var rest := NewVowels(vs[1..], word, guessed);
      if vs[0] in word && vs[0] !in guessed then
        assert NoDuplicates(vs) ==> NoDuplicates([vs[0]] + rest) by {
          if NoDuplicates(vs) {
            assert NoDuplicates(vs[1..]) by {
              forall i, j | 0 <= i < j < |vs[1..]| ensures vs[1..][i] != vs[1..][j] {
                assert vs[1..][i] == vs[i + 1] && vs[1..][j] == vs[j + 1];
              }
            }
            var all := [vs[0]] + rest;
            forall i, j | 0 <= i < j < |all| ensures all[i] != all[j] {
              if i == 0 {
                assert all[j] == rest[j - 1] && all[j] in rest;
              } else {
                assert all[i] == rest[i - 1] && all[j] == rest[j - 1];
              }
            }
          }
        }
        [vs[0]] + rest
      else
        assert NoDuplicates(vs) ==> NoDuplicates(vs[1..]) by {
          if NoDuplicates(vs) {
            forall i, j | 0 <= i < j < |vs[1..]| ensures vs[1..][i] != vs[1..][j] {
              assert vs[1..][i] == vs[i + 1] && vs[1..][j] == vs[j + 1];
            }
          }
        }
        rest
  }

  /** `alphabet.split('').filter(l => !guessed.includes(l))`, in the order of `cs`. */
  function Unvisited(cs: seq<char>, guessed: seq<char>): (r: seq<char>)
    ensures forall c :: c in r <==> c in cs && c !in guessed
    ensures |r| <= |cs|
  {
    if cs == [] then []
    else (if cs[0] !in guessed then [cs[0]] else []) + Unvisited(cs[1..], guessed)
  }

  /** Every letter of a non-empty word has been guessed (`allGuessed`). */
  predicate AllGuessed(word: string, guessed: seq<char>)
  {
    |word| > 0 && forall i :: 0 <= i < |word| ==> word[i] in guessed
  }

  // ---------------------------------------------------------------------
  // Session set-up

  /** The session held before any match: in the Lobby, nothing seated. */
  function InitialState(now: int): (r: GameState)
    ensures r.status == Lobby && r.players == [] && r.guessedLetters == [] && r.winnerId == None
    ensures r.word == "" && r.category == "" && r.hint == "" && r.turnStartTime == now
    ensures r.timeLeft == TURN_DURATION && !r.isStunned && r.powerUps == PowerUpState(true, true)
    ensures Inv(r)
  {
    GameState(Lobby, "", "", "", [], [], None, now, TURN_DURATION, false, PowerUpState(true, true))
  }

  /** The shortened address shown as the player's name: first six characters, "...", last four. */
  function ShortAddress(a: string): (r: string)
    ensures |a| >= 10 ==> |r| == 13 && r[..6] == a[..6] && r[6..9] == "..." && r[9..] == a[|a| - 4..]
    ensures |a| <= 4 ==> r == a + "..." + a
  {
    a[..Min(6, |a|)] + "..." + a[Max(0, |a| - 4)..]
  }

  /** The player record seated for the signed-in account. */
  function Seat(account: string, avatar: string): (p: Player)
    ensures p.id == account && p.name == ShortAddress(account) && p.avatar == avatar && p.hp == INITIAL_HP
    ensures p.score == 0 && p.isReady && !p.isBot
  {
    Player(account, ShortAddress(account), avatar, INITIAL_HP, 0, true, false)
  }

  /** The challenger seated when matchmaking times out; its name depends on whether a room is set. */
  function Challenger(inRoom: bool, avatar: string): (p: Player)
    ensures p.id == CHALLENGER_ID && p.avatar == avatar && p.hp == INITIAL_HP
    ensures p.score == 0 && p.isReady && p.isBot
    ensures p.name == (if inRoom then "Room Opponent (Waiting...)" else "Cipher_Ghost.eth")
  {
    Player(CHALLENGER_ID, if inRoom then "Room Opponent (Waiting...)" else "Cipher_Ghost.eth",
           avatar, INITIAL_HP, 0, true, true)
  }

  /** The account is set and not empty (`if (!account) return;`). */
  predicate SignedIn(account: Option<string>)
  {
    account.Some? && account.value != ""
  }

  /** Lobby to Matchmaking with the local player alone in the seats; nothing happens without an account. */
  function StartMatchmaking(s: GameState, account: Option<string>, avatar: string): (r: GameState)
    ensures !SignedIn(account) ==> r == s
    ensures SignedIn(account) ==> r.status == Matchmaking && r.players == [Seat(account.value, avatar)]
    ensures SignedIn(account) ==> r.(status := s.status, players := s.players) == s
    ensures Inv(s) ==> Inv(r)
  {
    if !SignedIn(account) then s
    else s.(status := Matchmaking, players := [Seat(account.value, avatar)])
  }

  /**
   * A fresh match: every field is replaced. The players keep everything but
   * their hp, which becomes INITIAL_HP.
   */
  function StartGame(players: seq<Player>, wd: WordData, now: int): (r: GameState)
    ensures r.status == Playing && r.winnerId == None
    ensures r.word == wd.word && r.category == wd.category && r.hint == wd.hint
    ensures r.guessedLetters == [] && r.turnStartTime == now && r.timeLeft == TURN_DURATION
    ensures !r.isStunned && r.powerUps == PowerUpState(true, true)
    ensures |r.players| == |players|
    ensures forall i :: 0 <= i < |players| ==> r.players[i] == players[i].(hp := INITIAL_HP)
    ensures Inv(r)
  {
    GameState(Playing, wd.word, wd.category, wd.hint, [],
              seq(|players|, i requires 0 <= i < |players| => players[i].(hp := INITIAL_HP)),
              None, now, TURN_DURATION, false, PowerUpState(true, true))
  }

  /** Back to the Lobby: only the status changes. */
  function ResetToLobby(s: GameState): (r: GameState)
    ensures r.status == Lobby
    ensures r.(status := s.status) == s
    ensures Inv(s) ==> Inv(r)
  {
    s.(status := Lobby)
  }

  // ---------------------------------------------------------------------
  // Guesses and power-ups

  /** A guess changes the session only while Playing, not stunned, and for a letter not yet guessed. */
  predicate GuessAccepted(s: GameState, letter: char)
  {
    s.status == Playing && !s.isStunned && ToUpper(letter) !in s.guessedLetters
  }

  /**
   * handleGuess: appends the upper-cased letter; a letter missing from the
   * word costs the local player one hp. Nobody else is touched.
   */
  function Guess(s: GameState, account: Option<string>, letter: char): (r: GameState)
    ensures !GuessAccepted(s, letter) ==> r == s
    ensures GuessAccepted(s, letter) ==>
      && r.guessedLetters == s.guessedLetters + [ToUpper(letter)]
      && r.(guessedLetters := s.guessedLetters, players := s.players) == s
      && (ToUpper(letter) in s.word ==> r.players == s.players)
      && (ToUpper(letter) !in s.word ==> HpChanged(s.players, r.players, Local(account), Lose(1)))
    ensures Inv(s) && IsLetter(letter) ==> Inv(r)
  {
    var clean := ToUpper(letter);
    if s.status != Playing || s.isStunned then s
    else if clean in s.guessedLetters then s
    else
      var players := if clean in s.word then s.players else UpdateHp(s.players, Local(account), Lose(1));
      assert Inv(s) && IsLetter(letter) ==> NoDuplicates(s.guessedLetters + [clean]) && UpperLetters(s.guessedLetters + [clean]) by {
        if Inv(s) && IsLetter(letter) {
          AppendFreshKeepsDistinct(s.guessedLetters, [clean]);
          AppendUpperKeepsLetters(s.guessedLetters, [clean]);
        }
      }
      s.(guessedLetters := s.guessedLetters + [clean], players := players)
  }

  /** A single ASCII letter, either case (`/[a-z]/i` on a one-character key). */
  predicate IsLetterKey(key: string)
  {
    |key| == 1 && IsLetter(key[0])
  }

  /**
   * The keydown listener: while Playing, a one-letter key is passed to
   * handleGuess; every other key is ignored. Whatever is pressed, the
   * letters can only grow by one upper-case letter A-Z.
   */
  function KeyPressed(s: GameState, account: Option<string>, key: string): (r: GameState)
    ensures s.status != Playing || !IsLetterKey(key) ==> r == s
    ensures s.status == Playing && IsLetterKey(key) ==> r == Guess(s, account, key[0])
    ensures r.guessedLetters == s.guessedLetters
         || exists c :: 'A' <= c <= 'Z' && r.guessedLetters == s.guessedLetters + [c]
    ensures Inv(s) ==> Inv(r)
  {
    if s.status != Playing || !IsLetterKey(key) then s
    else
      var r := Guess(s, account, key[0]);
      assert GuessAccepted(s, key[0]) ==> 'A' <= ToUpper(key[0]) <= 'Z';
      r
  }

  datatype PowerUp = VowelScan | ShieldBoost

  /** A power-up takes effect only while Playing, not stunned, and while its one-shot flag is set. */
  predicate PowerUpFires(s: GameState, kind: PowerUp)
  {
    && s.status == Playing
    && !s.isStunned
    && match kind
       case VowelScan => s.powerUps.vowelScanAvailable
       case ShieldBoost => s.powerUps.shieldBoostAvailable
  }

  /**
   * usePowerUp. Vowel Scan reveals the word's vowels not yet guessed and
   * costs the local player two hp; Shield Boost heals one hp, takes ten
   * seconds off the countdown (never below one) and stuns. Each is one-shot.
   */
  function UsePowerUp(s: GameState, account: Option<string>, kind: PowerUp): (r: GameState)
    ensures !PowerUpFires(s, kind) ==> r == s
    ensures PowerUpFires(s, kind) && kind == VowelScan ==>
      && r.guessedLetters == s.guessedLetters + NewVowels(VOWELS, s.word, s.guessedLetters)
      && HpChanged(s.players, r.players, Local(account), Lose(2))
      && r.powerUps == s.powerUps.(vowelScanAvailable := false)
      && r.(guessedLetters := s.guessedLetters, players := s.players, powerUps := s.powerUps) == s
    ensures PowerUpFires(s, kind) && kind == ShieldBoost ==>
      && HpChanged(s.players, r.players, Local(account), GainOne)
      && r.timeLeft == Max(1, s.timeLeft - SHIELD_TIME_COST)
      && r.isStunned
      && r.powerUps == s.powerUps.(shieldBoostAvailable := false)
      && r.(players := s.players, timeLeft := s.timeLeft, isStunned := s.isStunned, powerUps := s.powerUps) == s
    ensures Inv(s) ==> Inv(r)
  {
    if s.status != Playing || s.isStunned then s
    else if kind == VowelScan && s.powerUps.vowelScanAvailable then
      var revealed := NewVowels(VOWELS, s.word, s.guessedLetters);
      assert Inv(s) ==> NoDuplicates(s.guessedLetters + revealed) && UpperLetters(s.guessedLetters + revealed) by {
        if Inv(s) {
          assert NoDuplicates(VOWELS);
          AppendFreshKeepsDistinct(s.guessedLetters, revealed);
          AppendUpperKeepsLetters(s.guessedLetters, revealed);
        }
      }
      s.(guessedLetters := s.guessedLetters + revealed,
         players := UpdateHp(s.players, Local(account), Lose(2)),
         powerUps := s.powerUps.(vowelScanAvailable := false))
    else if kind == ShieldBoost && s.powerUps.shieldBoostAvailable then
      s.(players := UpdateHp(s.players, Local(account), GainOne),
         timeLeft := Max(1, s.timeLeft - SHIELD_TIME_COST),
         isStunned := true,
         powerUps := s.powerUps.(shieldBoostAvailable := false))
    else s
  }

  /** The delayed callback scheduled by a Shield Boost request: clears the stun, whatever the state. */
  function ClearStun(s: GameState): (r: GameState)
    ensures !r.isStunned
    ensures r.(isStunned := s.isStunned) == s
    ensures Inv(s) ==> Inv(r)
  {
    s.(isStunned := false)
  }

  // ---------------------------------------------------------------------
  // Timers

  /**
   * One firing of the one-second interval: the countdown drops by one; at
   * one or below it wraps to TURN_DURATION and the local player loses one hp.
   */
  function Tick(s: GameState, account: Option<string>): (r: GameState)
    ensures s.timeLeft <= 1 ==>
      && r.timeLeft == TURN_DURATION
      && HpChanged(s.players, r.players, Local(account), Lose(1))
      && r.(timeLeft := s.timeLeft, players := s.players) == s
    ensures s.timeLeft > 1 ==> r.timeLeft == s.timeLeft - 1 && r.(timeLeft := s.timeLeft) == s
    ensures Inv(s) ==> Inv(r)
  {
    if s.timeLeft <= 1 then
      s.(timeLeft := TURN_DURATION, players := UpdateHp(s.players, Local(account), Lose(1)))
    else
      s.(timeLeft := s.timeLeft - 1)
  }

  /** A second of wall-clock time: the interval is installed only while the session is Playing. */
  function SecondElapsed(s: GameState, account: Option<string>): (r: GameState)
    ensures s.status != Playing ==> r == s
    ensures s.status == Playing ==> r == Tick(s, account)
    ensures Inv(s) ==> Inv(r)
  {
    if s.status == Playing then Tick(s, account) else s
  }

  /** The bot interval is installed only while Playing, outside a room, for a bot with hp left. */
  predicate BotActive(s: GameState, inRoom: bool)
  {
    && s.status == Playing
    && !inRoom
    && Find(s.players, true).Some?
    && Find(s.players, true).value.hp > 0
  }

  /**
   * One firing of the bot interval. `pick` is the random index into the
   * letters not yet guessed and `fires` the 6% draw. The bot guesses that
   * letter; a miss costs every player with the bot's id one hp.
   */
  function BotMove(s: GameState, inRoom: bool, pick: nat, fires: bool): (r: GameState)
    requires Unvisited(ALPHABET, s.guessedLetters) != [] ==> pick < |Unvisited(ALPHABET, s.guessedLetters)|
    ensures !BotActive(s, inRoom) || !fires || Unvisited(ALPHABET, s.guessedLetters) == [] ==> r == s
    ensures BotActive(s, inRoom) && fires && Unvisited(ALPHABET, s.guessedLetters) != [] ==>
      var letter := Unvisited(ALPHABET, s.guessedLetters)[pick];
      && letter in ALPHABET && letter !in s.guessedLetters
      && r.guessedLetters == s.guessedLetters + [letter]
      && r.(guessedLetters := s.guessedLetters, players := s.players) == s
      && (letter in s.word ==> r.players == s.players)
      && (letter !in s.word ==> HpChanged(s.players, r.players, WithId(Find(s.players, true).value.id), Lose(1)))
    ensures Inv(s) ==> Inv(r)
    ensures r.status == s.status && (TwoSeats(s.players) ==> TwoSeats(r.players))
  {
    var unvisited := Unvisited(ALPHABET, s.guessedLetters);
    if !BotActive(s, inRoom) || unvisited == [] || !fires then s
    else
      var letter := unvisited[pick];
      assert letter in unvisited;
      var bot := Find(s.players, true).value;
      var players := if letter in s.word then s.players else UpdateHp(s.players, WithId(bot.id), Lose(1));
      assert TwoSeats(s.players) ==> TwoSeats(players) by {
        if TwoSeats(s.players) && letter !in s.word {
          HpChangeKeepsSeats(s.players, players, WithId(bot.id), Lose(1));
        }
      }
      assert Inv(s) ==> NoDuplicates(s.guessedLetters + [letter]) && UpperLetters(s.guessedLetters + [letter]) by {
        if Inv(s) {
          AlphabetIsUpper();
          AppendFreshKeepsDistinct(s.guessedLetters, [letter]);
          AppendUpperKeepsLetters(s.guessedLetters, [letter]);
        }
      }
      s.(guessedLetters := s.guessedLetters + [letter], players := players)
  }

  // ---------------------------------------------------------------------
  // Win and loss

  /** A seated player with no hp left. */
  predicate Down(p: Option<Player>)
  {
    p.Some? && p.value.hp <= 0
  }

  /**
   * The win/loss effect, in its fixed order: a completed word wins; else the
   * local (non-bot) player at zero hp loses; else a bot at zero hp wins.
   * Only the status and the winner change, and only while Playing.
   */
  function EvaluateOutcome(s: GameState): (r: GameState)
    ensures r.(status := s.status, winnerId := s.winnerId) == s
    ensures s.status != Playing ==> r == s
    ensures s.status == Playing ==>
      var human, bot := Find(s.players, false), Find(s.players, true);
      && r.status in {Playing, Won, Lost}
      && (r.status == Won <==> AllGuessed(s.word, s.guessedLetters) || (!Down(human) && Down(bot)))
      && (r.status == Lost <==> !AllGuessed(s.word, s.guessedLetters) && Down(human))
      && (r.status == Won ==> r.winnerId == IdOf(human))
      && (r.status == Lost ==> r.winnerId == IdOf(bot))
      && (r.status == Playing ==> r == s)
    ensures Inv(s) ==> Inv(r)
  {
    if s.status != Playing then s
    else
      var human, bot := Find(s.players, false), Find(s.players, true);
      if AllGuessed(s.word, s.guessedLetters) then s.(status := Won, winnerId := IdOf(human))
      else if Down(human) then s.(status := Lost, winnerId := IdOf(bot))
      else if Down(bot) then s.(status := Won, winnerId := IdOf(human))
      else s
  }

  // ---------------------------------------------------------------------
  // Properties relating several operations

  /** Guessing the same key twice has the effect of guessing it once. */
  lemma GuessIdempotent(s: GameState, account: Option<string>, letter: char)
    ensures Guess(Guess(s, account, letter), account, letter) == Guess(s, account, letter)
  {
    var once := Guess(s, account, letter);
    if GuessAccepted(s, letter) {
      assert ToUpper(letter) in once.guessedLetters;
    }
  }

  /** After a Vowel Scan has taken effect, a second one changes nothing. */
  lemma VowelScanOneShot(s: GameState, account: Option<string>)
    requires PowerUpFires(s, VowelScan)
    ensures UsePowerUp(UsePowerUp(s, account, VowelScan), account, VowelScan) == UsePowerUp(s, account, VowelScan)
  {
  }

  /** After a Shield Boost has taken effect, a second one changes nothing (the first also stuns). */
  lemma ShieldBoostOneShot(s: GameState, account: Option<string>)
    requires PowerUpFires(s, ShieldBoost)
    ensures UsePowerUp(ClearStun(UsePowerUp(s, account, ShieldBoost)), account, ShieldBoost)
         == ClearStun(UsePowerUp(s, account, ShieldBoost))
  {
  }

  /** A Vowel Scan leaves every vowel of the word guessed. */
  lemma VowelScanRevealsAllVowels(s: GameState, account: Option<string>, v: char)
    requires PowerUpFires(s, VowelScan)
    requires v in VOWELS && v in s.word
    ensures v in UsePowerUp(s, account, VowelScan).guessedLetters
  {
    var r := UsePowerUp(s, account, VowelScan);
    if v !in s.guessedLetters {
      assert v in NewVowels(VOWELS, s.word, s.guessedLetters);
    }
  }

  /** While stunned, neither a guess nor a power-up changes anything. */
  lemma StunBlocksInput(s: GameState, account: Option<string>, letter: char, kind: PowerUp)
    requires s.isStunned
    ensures Guess(s, account, letter) == s && UsePowerUp(s, account, kind) == s
  {
  }

  /** A completed word wins even when the local player has just reached zero hp. */
  lemma WordCompletionTakesPriority(s: GameState)
    requires s.status == Playing && AllGuessed(s.word, s.guessedLetters)
    ensures EvaluateOutcome(s).status == Won
    ensures EvaluateOutcome(s).winnerId == IdOf(Find(s.players, false))
  {
  }

  /** The win/loss effect settles at once: running it again changes nothing. */
  lemma EvaluateOutcomeIdempotent(s: GameState)
    ensures EvaluateOutcome(EvaluateOutcome(s)) == EvaluateOutcome(s)
  {
  }

  /** Once the match is over, guesses, power-ups, bot moves and the clock leave the session as it is. */
  lemma FinishedSessionIsFrozen(s: GameState, account: Option<string>, letter: char, kind: PowerUp,
                                inRoom: bool, pick: nat, fires: bool)
    requires s.status == Won || s.status == Lost
    requires Unvisited(ALPHABET, s.guessedLetters) != [] ==> pick < |Unvisited(ALPHABET, s.guessedLetters)|
    ensures Guess(s, account, letter) == s
    ensures UsePowerUp(s, account, kind) == s
    ensures BotMove(s, inRoom, pick, fires) == s
    ensures SecondElapsed(s, account) == s
    ensures EvaluateOutcome(s) == s
  {
  }
}
