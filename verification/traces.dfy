/**
 * Whole runs of a match: a sequence of player inputs and timer firings,
 * each followed by the win/loss effect, which re-runs whenever the session
 * changes.
 */
module Traces {
  import opened Types
  import opened Engine

  /**
   * One event reaching the session: a key, a power-up button, a second of
   * the clock, the stun-clear callback, or a firing of the bot interval with
   * its random index and 6% draw. The bot interval is only installed outside
   * a room, so a firing is a bot move with no room set.
   */
  datatype Input = Key(letter: char) | Power(kind: PowerUp) | Second | StunCleared | BotTick(pick: nat, fires: bool)

  function Step(s: GameState, account: Option<string>, i: Input): (r: GameState)
    ensures Inv(s) ==> Inv(r)
    ensures i.Key? && !IsLetter(i.letter) ==> r == s
  {
    match i
    // the keydown listener and the on-screen keyboard pass only letters to handleGuess
    case Key(letter) => if IsLetter(letter) then Guess(s, account, letter) else s
    case Power(kind) => UsePowerUp(s, account, kind)
    case Second => SecondElapsed(s, account)
    case StunCleared => ClearStun(s)
    case BotTick(pick, fires) => BotFiring(s, pick, fires)
  }

  /**
   * A firing of the bot interval, which exists only outside a room.
   * `Math.floor(Math.random() * unvisited.length)` is always a valid index,
   * so any other `pick` is a firing that does nothing.
   */
  function BotFiring(s: GameState, pick: nat, fires: bool): (r: GameState)
    ensures Inv(s) ==> Inv(r)
    ensures s.guessedLetters <= r.guessedLetters
    ensures s.status != Playing ==> r == s
  {
    if pick < |Unvisited(ALPHABET, s.guessedLetters)| then BotMove(s, false, pick, fires) else s
  }

  /** The state after the inputs in order, with the win/loss effect settling after each. */
  function Run(s: GameState, account: Option<string>, inputs: seq<Input>): GameState
    decreases |inputs|
  {
    if inputs == [] then s
    else Run(EvaluateOutcome(Step(s, account, inputs[0])), account, inputs[1..])
  }

  /** Every hp stays within [0, INITIAL_HP], the countdown within [1, TURN_DURATION], and only distinct letters A-Z are guessed, along any run. */
  lemma {:induction false} RunKeepsInv(s: GameState, account: Option<string>, inputs: seq<Input>)
    requires Inv(s)
    ensures Inv(Run(s, account, inputs))
    decreases |inputs|
  {
    if inputs != [] {
      RunKeepsInv(EvaluateOutcome(Step(s, account, inputs[0])), account, inputs[1..]);
    }
  }

  /**
   * After a win or a loss nothing but the stun flag moves any more: the
   * word, the letters, the players, the status and the winner are final.
   */
  lemma {:induction false} FinishedRunIsFrozen(s: GameState, account: Option<string>, inputs: seq<Input>)
    requires s.status == Won || s.status == Lost
    ensures Run(s, account, inputs).(isStunned := s.isStunned) == s
    decreases |inputs|
  {
    if inputs != [] {
      var next := EvaluateOutcome(Step(s, account, inputs[0]));
      assert next.(isStunned := s.isStunned) == s;
      FinishedRunIsFrozen(next, account, inputs[1..]);
    }
  }

  /** Letters, once guessed, stay guessed: every run only appends to the list. */
  lemma {:induction false} RunOnlyAppendsLetters(s: GameState, account: Option<string>, inputs: seq<Input>)
    ensures s.guessedLetters <= Run(s, account, inputs).guessedLetters
    decreases |inputs|
  {
    if inputs != [] {
      var next := EvaluateOutcome(Step(s, account, inputs[0]));
      assert s.guessedLetters <= next.guessedLetters;
      RunOnlyAppendsLetters(next, account, inputs[1..]);
    }
  }

  /** A spent Vowel Scan stays spent: no input of a match sets its flag again. */
  lemma {:induction false} SpentVowelScanStaysSpent(s: GameState, account: Option<string>, inputs: seq<Input>)
    requires !s.powerUps.vowelScanAvailable
    ensures !Run(s, account, inputs).powerUps.vowelScanAvailable
    decreases |inputs|
  {
    if inputs != [] {
      var next := EvaluateOutcome(Step(s, account, inputs[0]));
      assert !next.powerUps.vowelScanAvailable;
      SpentVowelScanStaysSpent(next, account, inputs[1..]);
    }
  }

  /** A spent Shield Boost stays spent: no input of a match sets its flag again. */
  lemma {:induction false} SpentShieldBoostStaysSpent(s: GameState, account: Option<string>, inputs: seq<Input>)
    requires !s.powerUps.shieldBoostAvailable
    ensures !Run(s, account, inputs).powerUps.shieldBoostAvailable
    decreases |inputs|
  {
    if inputs != [] {
      var next := EvaluateOutcome(Step(s, account, inputs[0]));
      assert !next.powerUps.shieldBoostAvailable;
      SpentShieldBoostStaysSpent(next, account, inputs[1..]);
    }
  }

  /** Once a Vowel Scan has taken effect, another one changes nothing, however many inputs come between. */
  lemma VowelScanOncePerMatch(s: GameState, account: Option<string>, inputs: seq<Input>)
    requires PowerUpFires(s, VowelScan)
    ensures var later := Run(UsePowerUp(s, account, VowelScan), account, inputs);
            UsePowerUp(later, account, VowelScan) == later
  {
    SpentVowelScanStaysSpent(UsePowerUp(s, account, VowelScan), account, inputs);
  }

  /** Once a Shield Boost has taken effect, another one changes nothing, however many inputs come between. */
  lemma ShieldBoostOncePerMatch(s: GameState, account: Option<string>, inputs: seq<Input>)
    requires PowerUpFires(s, ShieldBoost)
    ensures var later := Run(UsePowerUp(s, account, ShieldBoost), account, inputs);
            UsePowerUp(later, account, ShieldBoost) == later
  {
    SpentShieldBoostStaysSpent(UsePowerUp(s, account, ShieldBoost), account, inputs);
  }

  // ---------------------------------------------------------------------
  // Two matches against the bot on the word "TIGER", for any signed-in account

  const TIGER: string := "TIGER"

  /** The match of `me` against the bot on "TIGER", with the letters guessed so far and the local player's hp. */
  function Tiger(me: string, guessed: seq<char>, hp: int): GameState
  {
    GameState(Playing, TIGER, "Animals", "Striped cat", guessed,
              [Seat(me, "me.svg").(hp := hp), Challenger(false, "ghost.svg")],
              None, 0, TURN_DURATION, false, PowerUpState(true, true))
  }

  /** Starting the match with the local player and the bot gives `Tiger(me, [], INITIAL_HP)`. */
  lemma TigerStarts(me: string)
    ensures StartGame([Seat(me, "me.svg"), Challenger(false, "ghost.svg")], WordData(TIGER, "Animals", "Striped cat"), 0)
         == Tiger(me, [], INITIAL_HP)
  {
    var r := StartGame([Seat(me, "me.svg"), Challenger(false, "ghost.svg")], WordData(TIGER, "Animals", "Striped cat"), 0);
    assert r.players == Tiger(me, [], INITIAL_HP).players;
  }

  lemma TigerSeats(me: string, guessed: seq<char>, hp: int)
    requires me != CHALLENGER_ID
    ensures Find(Tiger(me, guessed, hp).players, false) == Some(Seat(me, "me.svg").(hp := hp))
    ensures Find(Tiger(me, guessed, hp).players, true) == Some(Challenger(false, "ghost.svg"))
    ensures IsLocal(Tiger(me, guessed, hp).players[0], Some(me))
    ensures !IsLocal(Tiger(me, guessed, hp).players[1], Some(me))
  {
    assert CHALLENGER_ID != LOCAL_PLAYER_ID;
  }

  /** While the word is incomplete and the local player has hp left, the win/loss effect does nothing. */
  lemma TigerUndecided(me: string, guessed: seq<char>, hp: int)
    requires me != CHALLENGER_ID
    requires 0 < hp && ('T' !in guessed || 'R' !in guessed)
    ensures EvaluateOutcome(Tiger(me, guessed, hp)) == Tiger(me, guessed, hp)
  {
    assert TIGER[0] == 'T' && TIGER[4] == 'R';
    TigerSeats(me, guessed, hp);
  }

  lemma RunStep(s: GameState, account: Option<string>, inputs: seq<Input>)
    requires inputs != []
    ensures Run(s, account, inputs) == Run(EvaluateOutcome(Step(s, account, inputs[0])), account, inputs[1..])
  {
  }

  /** Running two input sequences one after the other is running their concatenation. */
  lemma {:induction false} RunAppend(s: GameState, account: Option<string>, first: seq<Input>, second: seq<Input>)
    ensures Run(s, account, first + second) == Run(Run(s, account, first), account, second)
    decreases |first|
  {
    if first == [] {
      assert first + second == second;
    } else {
      assert (first + second)[1..] == first[1..] + second;
      RunAppend(EvaluateOutcome(Step(s, account, first[0])), account, first[1..], second);
    }
  }

  /** Pressing the given keys, in order. */
  function Keys(cs: seq<char>): (r: seq<Input>)
    ensures |r| == |cs|
  {
    if cs == [] then [] else [Key(cs[0])] + Keys(cs[1..])
  }

  lemma KeysTail(cs: seq<char>)
    requires cs != []
    ensures Keys(cs)[0] == Key(cs[0]) && Keys(cs)[1..] == Keys(cs[1..])
  {
  }

  /** Distinct upper-case letters, none of them guessed yet. */
  predicate FreshLetters(cs: seq<char>, guessed: seq<char>)
  {
    && NoDuplicates(cs)
    && forall c :: c in cs ==> 'A' <= c <= 'Z' && c !in guessed
  }

  lemma FreshLettersTail(cs: seq<char>, guessed: seq<char>)
    requires cs != [] && FreshLetters(cs, guessed)
    ensures FreshLetters(cs[1..], guessed + [cs[0]])
    ensures 'A' <= cs[0] <= 'Z' && cs[0] !in guessed
    ensures forall c :: c in cs[1..] ==> c in cs
  {
    assert cs[0] in cs;
    forall i, j | 0 <= i < j < |cs[1..]| ensures cs[1..][i] != cs[1..][j] {
      assert cs[1..][i] == cs[i + 1] && cs[1..][j] == cs[j + 1];
    }
    forall c | c in cs[1..] ensures c in cs && c != cs[0] && c !in guessed + [cs[0]] {
      var k :| 0 <= k < |cs[1..]| && cs[1..][k] == c;
      assert cs[k + 1] == c;
    }
  }

  /** A key on a letter of "TIGER" other than R, not guessed before: the letter is added and the match goes on. */
  lemma TigerHit(me: string, guessed: seq<char>, hp: int, inputs: seq<Input>, c: char)
    requires me != CHALLENGER_ID && 0 < hp
    requires inputs != [] && inputs[0] == Key(c) && IsLetter(c)
    requires ToUpper(c) in TIGER && ToUpper(c) !in guessed && ToUpper(c) != 'R' && 'R' !in guessed
    ensures Run(Tiger(me, guessed, hp), Some(me), inputs) == Run(Tiger(me, guessed + [ToUpper(c)], hp), Some(me), inputs[1..])
  {
    var s := Tiger(me, guessed, hp);
    assert Step(s, Some(me), inputs[0]) == Tiger(me, guessed + [ToUpper(c)], hp);
    TigerUndecided(me, guessed + [ToUpper(c)], hp);
    RunStep(s, Some(me), inputs);
  }

  /** A key on a letter outside "TIGER", not guessed before, with hp to spare: the letter is added and one hp is lost. */
  lemma TigerMiss(me: string, guessed: seq<char>, hp: int, inputs: seq<Input>, c: char)
    requires me != CHALLENGER_ID && 1 < hp
    requires inputs != [] && inputs[0] == Key(c) && IsLetter(c)
    requires ToUpper(c) !in TIGER && ToUpper(c) !in guessed && 'T' !in guessed
    ensures Run(Tiger(me, guessed, hp), Some(me), inputs) == Run(Tiger(me, guessed + [ToUpper(c)], hp - 1), Some(me), inputs[1..])
  {
    var s := Tiger(me, guessed, hp);
    TigerMissGuess(me, guessed, hp, c);
    assert Step(s, Some(me), inputs[0]) == Tiger(me, guessed + [ToUpper(c)], hp - 1);
    assert TIGER[0] == 'T';
    TigerUndecided(me, guessed + [ToUpper(c)], hp - 1);
    RunStep(s, Some(me), inputs);
  }

  /** The match `Tiger(me, guessed, hp)` after the keys `cs` are pressed. */
  ghost function Play(me: string, guessed: seq<char>, hp: int, cs: seq<char>): GameState
  {
    Run(Tiger(me, guessed, hp), Some(me), Keys(cs))
  }

  /** Pressing the upper-case key `cs[0]` of a letter of "TIGER" other than R, not guessed before, as the first of `cs`. */
  lemma TigerHitKey(me: string, guessed: seq<char>, hp: int, cs: seq<char>, next: seq<char>, rest: seq<char>)
    requires me != CHALLENGER_ID && 0 < hp
    requires cs != [] && 'A' <= cs[0] <= 'Z' && cs[0] in TIGER && cs[0] != 'R' && cs[0] !in guessed && 'R' !in guessed
    requires next == guessed + [cs[0]] && rest == cs[1..]
    ensures Play(me, guessed, hp, cs) == Play(me, next, hp, rest)
  {
    KeysTail(cs);
    assert ToUpper(cs[0]) == cs[0];
    TigerHit(me, guessed, hp, Keys(cs), cs[0]);
  }

  /** Pressing the upper-case key `cs[0]` of a letter outside "TIGER", not guessed before, as the first of `cs`. */
  lemma TigerMissKey(me: string, guessed: seq<char>, hp: int, cs: seq<char>, next: seq<char>, rest: seq<char>, hpNext: int)
    requires me != CHALLENGER_ID && 1 < hp
    requires cs != [] && 'A' <= cs[0] <= 'Z' && cs[0] !in TIGER && cs[0] !in guessed && 'T' !in guessed
    requires next == guessed + [cs[0]] && rest == cs[1..] && hpNext == hp - 1
    ensures Play(me, guessed, hp, cs) == Play(me, next, hpNext, rest)
  {
    KeysTail(cs);
    assert ToUpper(cs[0]) == cs[0];
    TigerMiss(me, guessed, hp, Keys(cs), cs[0]);
  }

  /**
   * Upper-case keys on letters of "TIGER", none guessed before, that leave
   * the R unguessed: each is added, nobody is hurt. (`after` names the
   * resulting letter list.)
   */
  lemma {:induction false} TigerHits(me: string, guessed: seq<char>, hp: int, cs: seq<char>, after: seq<char>)
    requires me != CHALLENGER_ID && 0 < hp
    requires FreshLetters(cs, guessed)
    requires forall c :: c in cs ==> c in TIGER && c != 'R'
    requires 'R' !in guessed
    requires after == guessed + cs
    ensures Play(me, guessed, hp, cs) == Tiger(me, after, hp)
    decreases |cs|
  {
    if cs == [] {
      assert after == guessed;
    } else {
      var next, rest := guessed + [cs[0]], cs[1..];
      FreshLettersTail(cs, guessed);
      assert cs[0] in cs;
      TigerHitKey(me, guessed, hp, cs, next, rest);
      AppendHead(guessed, cs);
      TigerHits(me, next, hp, rest, after);
    }
  }

  /**
   * Upper-case keys on letters outside "TIGER", none guessed before, fewer
   * than the hp left: each is added and costs one hp. (`after` and
   * `hpAfter` name the resulting letter list and hp.)
   */
  lemma {:induction false} TigerMisses(me: string, guessed: seq<char>, hp: int, cs: seq<char>, after: seq<char>, hpAfter: int)
    requires me != CHALLENGER_ID && |cs| < hp
    requires FreshLetters(cs, guessed)
    requires forall c :: c in cs ==> c !in TIGER
    requires 'T' !in guessed
    requires after == guessed + cs && hpAfter == hp - |cs|
    ensures Play(me, guessed, hp, cs) == Tiger(me, after, hpAfter)
    decreases |cs|
  {
    if cs == [] {
      assert after == guessed && hpAfter == hp;
    } else {
      var next, rest, hpNext := guessed + [cs[0]], cs[1..], hp - 1;
      FreshLettersTail(cs, guessed);
      assert cs[0] in cs && TIGER[0] == 'T';
      TigerMissKey(me, guessed, hp, cs, next, rest, hpNext);
      AppendHead(guessed, cs);
      TigerMisses(me, next, hpNext, rest, after, hpAfter);
    }
  }

  lemma KeysAppend(xs: seq<char>, ys: seq<char>)
    ensures Keys(xs + ys) == Keys(xs) + Keys(ys)
    decreases |xs|
  {
    if xs == [] {
      assert xs + ys == ys;
    } else {
      assert (xs + ys)[1..] == xs[1..] + ys;
      KeysAppend(xs[1..], ys);
    }
  }

  /** Once the keys `xs` have led to the match `Tiger(me, after, hpAfter)`, the keys `ys` go on from there. */
  lemma PlayThen(me: string, guessed: seq<char>, hp: int, xs: seq<char>, ys: seq<char>, after: seq<char>, hpAfter: int, both: seq<char>)
    requires Play(me, guessed, hp, xs) == Tiger(me, after, hpAfter)
    requires both == xs + ys
    ensures Play(me, guessed, hp, both) == Play(me, after, hpAfter, ys)
  {
    KeysAppend(xs, ys);
    RunAppend(Tiger(me, guessed, hp), Some(me), Keys(xs), Keys(ys));
  }

  /** A key whose letter is not in "TIGER": the letter is added and the local player loses one hp. */
  lemma TigerMissGuess(me: string, guessed: seq<char>, hp: int, c: char)
    requires me != CHALLENGER_ID
    requires ToUpper(c) !in TIGER && ToUpper(c) !in guessed
    ensures Guess(Tiger(me, guessed, hp), Some(me), c) == Tiger(me, guessed + [ToUpper(c)], Max(0, hp - 1))
  {
    var next := Guess(Tiger(me, guessed, hp), Some(me), c);
    TigerSeats(me, guessed, hp);
    assert next.players == [Seat(me, "me.svg").(hp := Max(0, hp - 1)), Challenger(false, "ghost.svg")];
  }

  /** With every letter of "TIGER" but the R guessed, pressing R wins the match for the local player, and later keys change nothing. */
  lemma TigerCompletes(me: string, guessed: seq<char>, hp: int, cs: seq<char>)
    requires me != CHALLENGER_ID && 0 < hp
    requires 'R' !in guessed && forall i :: 0 <= i < |TIGER| - 1 ==> TIGER[i] in guessed
    requires cs != [] && cs[0] == 'R'
    ensures Play(me, guessed, hp, cs).status == Won
    ensures Play(me, guessed, hp, cs).winnerId == Some(me)
  {
    var s := Tiger(me, guessed, hp);
    var full := Tiger(me, guessed + ['R'], hp);
    KeysTail(cs);
    assert Step(s, Some(me), Key('R')) == full;
    TigerSeats(me, full.guessedLetters, hp);
    assert AllGuessed(TIGER, full.guessedLetters);
    var done := EvaluateOutcome(full);
    assert done.status == Won && done.winnerId == Some(me);
    RunStep(s, Some(me), Keys(cs));
    FinishedRunIsFrozen(done, Some(me), Keys(cs)[1..]);
  }

  /** With one hp left and the T unguessed, a key outside "TIGER" not guessed before loses the match to the bot. */
  lemma TigerLastMiss(me: string, guessed: seq<char>, cs: seq<char>)
    requires me != CHALLENGER_ID
    requires 'T' !in guessed
    requires |cs| == 1 && 'A' <= cs[0] <= 'Z' && cs[0] !in TIGER && cs[0] !in guessed
    ensures Play(me, guessed, 1, cs).status == Lost
    ensures Play(me, guessed, 1, cs).winnerId == Some(CHALLENGER_ID)
  {
    var s := Tiger(me, guessed, 1);
    var down := Tiger(me, guessed + cs, 0);
    KeysTail(cs);
    assert ToUpper(cs[0]) == cs[0] && guessed + [cs[0]] == guessed + cs;
    TigerMissGuess(me, guessed, 1, cs[0]);
    assert Step(s, Some(me), Keys(cs)[0]) == down;
    TigerSeats(me, down.guessedLetters, 0);
    assert !AllGuessed(TIGER, down.guessedLetters) by {
      assert TIGER[0] == 'T' && 'T' !in down.guessedLetters;
    }
    var done := EvaluateOutcome(down);
    assert done.status == Lost && done.winnerId == Some(CHALLENGER_ID);
    RunStep(s, Some(me), Keys(cs));
  }

  lemma FreshLettersSplit(cs: seq<char>, n: nat)
    requires FreshLetters(cs, []) && n <= |cs|
    ensures FreshLetters(cs[..n], [])
    ensures forall c :: c in cs[n..] ==> c !in cs[..n] && c in cs
    ensures cs[..n] + cs[n..] == cs
  {
    forall c | c in cs[n..] ensures c !in cs[..n] && c in cs {
      var j :| 0 <= j < |cs[n..]| && cs[n..][j] == c;
      assert cs[n + j] == c;
      forall i | 0 <= i < n ensures cs[..n][i] != c {
        assert cs[..n][i] == cs[i];
      }
    }
    forall c | c in cs[..n] ensures c in cs {
      var j :| 0 <= j < n && cs[..n][j] == c;
      assert cs[j] == c;
    }
  }

  /**
   * Whatever distinct wrong letters come first, fewer than the hp: once T, I,
   * G and E are found in any order, the R wins the match for the local player,
   * and whatever is pressed afterwards changes nothing.
   */
  lemma CompletingTheWordWins(me: string, misses: seq<char>, hits: seq<char>, rest: seq<char>, keys: seq<char>)
    requires me != CHALLENGER_ID
    requires FreshLetters(misses, []) && |misses| < INITIAL_HP && forall c :: c in misses ==> c !in TIGER
    requires FreshLetters(hits, misses) && forall c :: c in hits ==> c in TIGER && c != 'R'
    requires forall i :: 0 <= i < |TIGER| - 1 ==> TIGER[i] in hits
    requires keys == misses + hits + ['R'] + rest
    ensures Play(me, [], INITIAL_HP, keys).status == Won
    ensures Play(me, [], INITIAL_HP, keys).winnerId == Some(me)
  {
    var hp := INITIAL_HP - |misses|;
    var found, ending := misses + hits, ['R'] + rest;
    assert [] + misses == misses && TIGER[0] == 'T' && TIGER[4] == 'R';
    TigerMisses(me, [], INITIAL_HP, misses, misses, hp);
    TigerHits(me, misses, hp, hits, found);
    PlayThen(me, [], INITIAL_HP, misses, hits, misses, hp, found);
    Regroup(misses, hits, ['R'], rest, keys);
    PlayThen(me, [], INITIAL_HP, found, ending, found, hp, keys);
    FoundAllButR(misses, hits, found);
    TigerCompletes(me, found, hp, ending);
  }

  /**
   * Only a step for the solver: it states the regrouping of the keys once,
   * so that the scenario above does not have to prove it inline.
   */
  lemma Regroup(a: seq<char>, b: seq<char>, c: seq<char>, d: seq<char>, all: seq<char>)
    requires all == a + b + c + d
    ensures all == (a + b) + (c + d)
  {
  }

  /** Wrong letters followed by T, I, G and E in some order: every letter but the R is found. */
  lemma FoundAllButR(misses: seq<char>, hits: seq<char>, found: seq<char>)
    requires forall c :: c in misses ==> c !in TIGER
    requires forall c :: c in hits ==> c in TIGER && c != 'R'
    requires forall i :: 0 <= i < |TIGER| - 1 ==> TIGER[i] in hits
    requires found == misses + hits
    ensures 'R' !in found && forall i :: 0 <= i < |TIGER| - 1 ==> TIGER[i] in found
  {
    assert TIGER[4] == 'R';
  }

  /** Six distinct letters outside "TIGER" take the local player from six hp to none: the bot wins. */
  lemma SixMissesLose(me: string, misses: seq<char>)
    requires me != CHALLENGER_ID
    requires FreshLetters(misses, []) && |misses| == INITIAL_HP && forall c :: c in misses ==> c !in TIGER
    ensures Play(me, [], INITIAL_HP, misses).status == Lost
    ensures Play(me, [], INITIAL_HP, misses).winnerId == Some(CHALLENGER_ID)
  {
    var first, last := misses[..INITIAL_HP - 1], misses[INITIAL_HP - 1..];
    FreshLettersSplit(misses, INITIAL_HP - 1);
    assert [] + first == first && TIGER[0] == 'T' && last[0] in misses;
    TigerMisses(me, [], INITIAL_HP, first, first, 1);
    PlayThen(me, [], INITIAL_HP, first, last, first, 1, misses);
    TigerLastMiss(me, first, last);
  }
}
