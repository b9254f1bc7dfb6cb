# Verbyte match engine and player statistics

Verbyte is a browser word-guessing duel. The local player guesses the
letters of a hidden word, one key at a time, against a countdown and a
challenger. Each wrong letter and each expired 60-second turn costs the local
player one of six hit points (hp). A challenger played by the browser (the
bot) occasionally guesses too, and its wrong guesses cost it hp. Completing
the word wins. Running out of hp loses. Two one-shot power-ups change the
balance:
- Vowel Scan reveals the word's vowels for 2 hp.
- Shield Boost heals 1 hp, but costs ten seconds and a short stun.

This project models two parts of the code:
- The single-session game engine of `App.tsx`. Every
  `setGameState(prev => ...)` updater becomes a function from one `GameState`
  to the next.
- The four counters of `src/services/statsService.ts`.

The functions are proved against contracts that state what each handler does,
and lemmas relate several handlers.

Modules:

- `Types` (`types.dfy`): the records of `types.ts`, namely `GameStatus`,
  `Player`, `PowerUpState`, `GameState` and `WordData`. An optional
  `isBot`/`isStunned` is a `bool` whose absence reads as false. An optional
  `winnerId` is an `Option<string>`.
- `Engine` (`engine.dfy`): the guarded updaters.
  - Inputs: the wallet account (`Option<string>`), the fetched word, the
    clock value and the bot's random draws are all parameters.
  - `Inv` is what every reachable session keeps: every hp stays in
    [0, 6], `timeLeft` stays in [1, 60], and only the letters A-Z are
    guessed, none of them twice.
- `Session` (`session.dfy`): the `useState` cell as the class `GameSession`.
  - Each input handler or timer firing is a method that replaces `state`
    with the engine's next state.
  - The class invariant is `Inv`, plus: while a match is in progress or
    over (Playing, Won, Lost), it has exactly two seats, the local player
    first and the bot second. Matchmaking and the Lobby seat only the
    local player, or keep the seats of the last match.
- `Traces` (`traces.dfy`): whole runs of key presses, power-ups, clock
  seconds, stun clears and bot-timer firings. The win/loss effect settles
  after each input.
  - Properties of every run: the invariant holds, letters only grow, and a
    finished match is frozen.
  - Two complete matches against the bot on the word "TIGER". The local
    player's account is any id other than the challenger's, and keys are
    distinct upper-case letters not guessed before.
    - Win: fewer than six wrong letters, then T, I, G and E in any order,
      then R, followed by any keys.
    - Loss: six wrong letters.
    Runs that press lower-case keys or mix hits in among the misses are
    not covered by these two lemmas. The per-run properties above still
    apply to them.
- `DiagnosticLog` (`logs.dfy`): the bounded log of `addLog`.
- `Stats` (`stats.dfy`): the pure counter update, a summary lemma over a
  whole match history, and the storage slot as the class `StatsStore`.

Notes on the code that shape the model:
- `updateStats` is never called from `App.tsx`, so the engine does not
  record wins or losses in the statistics.
- `guessedLetters` is a list that handlers append to, not a set. The model
  keeps the list and proves that it holds no duplicates.
- Nothing in `App.tsx` talks to a room ledger. It only remembers whether a
  room id is set, and a set room id switches the bot off.
- The bot fires when `Math.random() > 0.94` and picks its letter by a
  random index into the unguessed letters. Both draws are parameters here.

## Model

| member | source | states |
|---|---|---|
| Engine.ToUpper | App.tsx:186 | `toUpperCase` on one character maps a-z to A-Z and leaves every other character as it is; the result is never a lower-case ASCII letter |
| Engine.ApplyChange | App.tsx:199 | a loss of n hp is floored at 0 (`Math.max(0, hp - n)`), a gain of one is capped at INITIAL_HP (`Math.min`), and either keeps an hp in [0, 6] within [0, 6] |
| Engine.UpdateHp | App.tsx:223 | the `players.map` of the hp updaters: same length, every selected player gets the changed hp, every other player is unchanged, and hp stays in range |
| Engine.Find | App.tsx:308-309 | `players.find(p => p.isBot === bot)` is None exactly when no player matches, and otherwise the first matching player |
| Engine.NewVowels | App.tsx:215-217 | a vowel is revealed iff it is in the word and not yet guessed; the revealed list has no duplicates |
| Engine.Unvisited | App.tsx:287-288 | a letter is offered to the bot iff it is in the alphabet and not yet guessed |
| Engine.InitialState | App.tsx:29-43 | the app starts in the Lobby with an empty word, category and hint, nobody seated, no letters, no winner, the given start time, a full countdown, no stun and both power-ups available, and satisfies the invariant |
| Engine.Seat | App.tsx:160-167 | the signed-in player is seated with the account as id, the shortened address as name (first six characters, "...", last four), the chosen avatar, INITIAL_HP, score 0, ready and not a bot |
| Engine.Challenger | App.tsx:172-180 | the challenger has id "onchain-challenger", full hp, is ready and a bot, and is named "Room Opponent (Waiting...)" in a room and "Cipher_Ghost.eth" otherwise |
| Engine.StartMatchmaking | App.tsx:158-168 | without an account nothing changes; otherwise the status becomes Matchmaking with only the local player seated and every other field is kept |
| Engine.StartGame | App.tsx:138-152 | a fresh match: Playing, the fetched word, category and hint, no letters, no winner, every player at INITIAL_HP and otherwise unchanged, full countdown, no stun, both power-ups available; the invariant holds |
| Engine.ResetToLobby | App.tsx:344 | only the status changes, to Lobby, and the invariant is kept |
| Engine.Guess | App.tsx:185-206 | no change unless Playing, not stunned and the upper-cased letter is new; otherwise exactly that letter is appended, a hit leaves the players alone, a miss costs exactly the local player(s) one hp floored at 0, nothing else changes, and for a letter key the invariant is kept |
| Engine.KeyPressed | App.tsx:250-259 | outside Playing or for anything but a one-letter key nothing changes, otherwise the key is guessed; whatever the key, the letters grow by at most one upper-case letter A-Z; the invariant is kept |
| Engine.UsePowerUp | App.tsx:210-240 | no change unless Playing, not stunned and the flag is set; Vowel Scan appends exactly the new vowels, costs the local player 2 hp floored at 0 and clears its flag; Shield Boost heals the local player by one capped at 6, sets the countdown to max(1, t - 10), stuns and clears its flag; nothing else changes and the invariant is kept |
| Engine.ClearStun | App.tsx:244 | the stun is cleared unconditionally, nothing else changes, and the invariant is kept |
| Engine.Tick | App.tsx:265-273 | at one second or less the countdown restarts at 60 and the local player loses one hp floored at 0; otherwise the countdown drops by exactly one and nothing else changes; the invariant is kept |
| Engine.SecondElapsed | App.tsx:262-277 | the clock only acts while Playing, where it is one tick |
| Engine.BotMove | App.tsx:280-298 | no change unless Playing, outside a room, with a bot that has hp left, a successful draw and a letter left; otherwise one unguessed letter of the alphabet is appended, a miss costs exactly the players with the bot's id one hp floored at 0, nothing else changes, and the invariant is kept |
| Engine.EvaluateOutcome | App.tsx:306-321 | only status and winner change, and only while Playing: Won iff the non-empty word is complete, or the local player still has hp and the bot has none; Lost iff the word is incomplete and the local player has no hp; the winner is the local player on Won and the bot on Lost |
| Engine.GuessIdempotent | App.tsx:189 | guessing the same key twice has the effect of guessing it once |
| Engine.VowelScanOneShot | App.tsx:214-224 | once a Vowel Scan has taken effect a second one straight after changes nothing (for any run of inputs in between, see Traces.VowelScanOncePerMatch) |
| Engine.ShieldBoostOneShot | App.tsx:228-235 | once a Shield Boost has taken effect and its stun has cleared, a second one straight after changes nothing (for any run of inputs in between, see Traces.ShieldBoostOncePerMatch) |
| Engine.VowelScanRevealsAllVowels | App.tsx:217-222 | after a Vowel Scan every vowel of the word is among the guessed letters |
| Engine.StunBlocksInput | App.tsx:188 | while stunned neither a guess nor a power-up changes the session |
| Engine.WordCompletionTakesPriority | App.tsx:312-313 | a complete word wins for the local player even when the local player has no hp left |
| Engine.EvaluateOutcomeIdempotent | App.tsx:307 | the win/loss effect settles at once: a second run changes nothing |
| Engine.FinishedSessionIsFrozen | App.tsx:307 | after a win or a loss, guesses, power-ups, bot moves, the clock and the win/loss effect leave the session as it is |
| Session.GameSession.constructor | App.tsx:29-43 | the cell starts at the initial Lobby state, with the given account and room flag, and satisfies the invariant |
| Session.GameSession.StartMatchmaking | App.tsx:158-183 | the state moves as the engine's StartMatchmaking says; exactly when an account is set, it returns what the timeout's closure captures: the player record it seats and the room flag as it is now |
| Session.GameSession.MatchmakingTimeout | App.tsx:160-182 | from any status, the state becomes the engine's fresh match with exactly two seats: the player captured by StartMatchmaking first, then the challenger named after the room flag captured then (not the current one), keeping the invariant |
| Session.GameSession.CreateRoom | App.tsx:126-133 | from the Lobby only, a room id is set, which switches the bot off, and the session record is untouched |
| Session.GameSession.Guess | App.tsx:185-206 | for a letter (the on-screen keys send A-Z, GameUI.tsx passes nothing else), the state moves as the engine's Guess says, keeping the invariant |
| Session.GameSession.KeyDown | App.tsx:250-259 | the state moves as the engine's KeyPressed says, keeping the invariant |
| Session.GameSession.UsePowerUp | App.tsx:210-248 | the state moves as the engine's UsePowerUp says, and the stun-clearing callback is scheduled exactly for a Shield Boost request |
| Session.GameSession.ClearStun | App.tsx:242-246 | the state moves as the engine's ClearStun says, keeping the invariant |
| Session.GameSession.SecondElapsed | App.tsx:262-277 | the state moves as the engine's SecondElapsed says, keeping the invariant |
| Session.GameSession.BotTurn | App.tsx:280-303 | the state moves as the engine's BotMove says, keeping the invariant |
| Session.GameSession.EvaluateOutcome | App.tsx:305-322 | the state moves as the engine's EvaluateOutcome says, keeping the invariant |
| Session.GameSession.ReturnToLobby | App.tsx:343-347 | only the status changes, to Lobby, and the room id is dropped |
| Traces.Step | App.tsx:185-298 | every single input (key, power-up, second, stun clear, bot-timer firing) keeps the invariant; a key other than a letter never reaches handleGuess and changes nothing |
| Traces.RunKeepsInv | App.tsx:194-321 | along any run of inputs, bot moves included, every hp stays in [0, 6], the countdown in [1, 60], and only the letters A-Z are guessed, none twice |
| Traces.FinishedRunIsFrozen | App.tsx:306-321 | once a match is won or lost, no run of inputs (bot moves included) changes anything but the stun flag |
| Traces.RunOnlyAppendsLetters | App.tsx:205 | the guessed letters of any run extend those it started from |
| Traces.SpentVowelScanStaysSpent | App.tsx:224 | once the Vowel Scan flag is cleared, no run of inputs sets it again |
| Traces.SpentShieldBoostStaysSpent | App.tsx:235 | once the Shield Boost flag is cleared, no run of inputs sets it again |
| Traces.VowelScanOncePerMatch | App.tsx:214-224 | after a Vowel Scan has taken effect, another one changes nothing, whatever inputs come between |
| Traces.ShieldBoostOncePerMatch | App.tsx:228-235 | after a Shield Boost has taken effect, another one changes nothing, whatever inputs come between |
| Traces.RunAppend | App.tsx:194 | running two input sequences in turn is running their concatenation |
| Traces.TigerStarts | App.tsx:138-152 | starting a match on "TIGER" with the local player and the bot gives the match the scenarios play |
| Traces.TigerHits | App.tsx:194-205 | distinct new keys on letters of "TIGER" other than R are each appended and cost nobody hp |
| Traces.TigerMisses | App.tsx:198-199 | distinct new keys outside "TIGER", fewer than the hp left, are each appended and each cost the local player one hp |
| Traces.TigerCompletes | App.tsx:312-313 | with every letter but the R found, pressing R wins the match for the local player, whatever is pressed afterwards |
| Traces.TigerLastMiss | App.tsx:315-316 | at one hp, a new wrong letter loses the match to the challenger |
| Traces.CompletingTheWordWins | App.tsx:306-321 | from a fresh match, any fewer than six distinct wrong letters, then T, I, G and E in any order, then R, win the match for the local player |
| Traces.SixMissesLose | App.tsx:306-321 | from a fresh match, any six distinct wrong letters lose the match, and the challenger is the winner |
| DiagnosticLog.AddLog | App.tsx:45-47 | the log grows by one up to ten entries, ends with the new entry, and is exactly the last ten of the old entries followed by the new one |
| DiagnosticLog.AddAllKeepsLastTen | App.tsx:46 | adding any number of entries one by one leaves exactly the last ten of all entries, in order |
| Stats.Recorded | src/services/statsService.ts:27-39 | one more game; a win adds one win and extends the streak with losses unchanged; a loss adds one loss and resets the streak with wins unchanged |
| Stats.RecordKeepsConsistent | src/services/statsService.ts:31-39 | games == wins + losses and 0 <= streak <= wins are preserved by every update |
| Stats.RecordAllSummarises | src/services/statsService.ts:11-16 | from the all-zero default, the counters are the number of games, of wins, of losses, and the length of the final run of wins |
| Stats.HistoryIsConsistent | src/services/statsService.ts:11-16 | counters recorded from the default are consistent after any history |
| Stats.StatsStore.GetStats | src/services/statsService.ts:18-25 | the saved counters when there are some, and the all-zero default when nothing is stored or it cannot be read |
| Stats.StatsStore.UpdateStats | src/services/statsService.ts:27-43 | the returned counters are the update of what was read, they are what is stored, and the next read yields them |

## Left out

- The wallet: connecting, signing, switching networks and listening for account or chain changes (App.tsx:59-124). This is browser-wallet I/O. The account is a field of the session.
- Creating a private room (App.tsx:126-133) draws a random code and rewrites the page address. The model only keeps whether a room id is set (`Session.GameSession.CreateRoom`). Opening the page with a room code in its address is the constructor's room flag.
- On-chain claims are in `src/services/GaslessRelayer.ts` and `components/GameUI.tsx`, and neither is part of this model.
- Word fetching: `fetchRandomWord` (services/geminiService.ts:169-173) waits 600 ms, then picks uniformly from a fixed local word list. No remote call is involved. The word is a parameter of `StartGame`.
- Taunt fetching: `fetchCipherTaunt` (services/geminiService.ts:175-185) is a remote AI call. On failure it returns the constant "SYSTEM_ERROR: COUNTER_MEASURES_ACTIVE.". The taunt never reaches the game state, so it is dropped.
- Timer scheduling: `setTimeout` and `setInterval` at App.tsx:171, 243, 264 and 286. Each firing is an explicit operation that the caller invokes.
  - The turn interval and the bot interval are cleared when their effect re-runs or the match leaves Playing (App.tsx:275, 300). Their operations are guarded on Playing to match.
  - The stun-clear timeout (App.tsx:243) and the 3.5-second matchmaking timeout (App.tsx:171) are never cancelled.
  - A stray stun clear can therefore reach any later state. `ClearStun` acts unconditionally.
  - A stray matchmaking timeout can start a match after the player has gone back to the Lobby. `Session.GameSession.MatchmakingTimeout` allows this from any status. It seats the player and names the challenger from the values captured when matchmaking started, even if the room flag has changed since.
- The bot's avatar URL uses the room id and `Date.now()`, and the start time is `Date.now()`. Both are parameters.
- Session.GameSession.BotTurn: the source chooses the bot's letter from a render-time snapshot of the letters (App.tsx:288) and appends it to the current ones (App.tsx:296). In the source a letter guessed in between could be appended twice. The model chooses from the current letters.
- Engine.Guess: the source checks the status, the stun and the letters against the render-time snapshot (App.tsx:188-189) and applies the update to the current state. The model checks and updates one state, so it does not capture a guess that slips in after a change the render has not seen yet.
- Engine.EvaluateOutcome: likewise evaluated on one state. The source decides on the render-time snapshot and then writes the status and winner without checking the status again.
- Engine.ToUpper: only the ASCII letters are upper-cased. The keys that reach the engine are letters. Other Unicode case mappings are not modelled.
- Engine.IsLocal and Engine.Find: the hp updates select the local player by id, while the win check selects by the bot flag. Both are kept as written, and no assumption ties them together.
- The log messages written by the handlers, and the log reset in `startGame` (App.tsx:153), are not modelled. `DiagnosticLog.AddLog` models the bounded append itself.
- Stats: JSON parsing. A stored value that parses is taken as the four counters. A value that parses to something else, or that holds non-integers, is not modelled. JavaScript number precision is not modelled either, since counters are unbounded integers.
- The account is fixed for the life of a `GameSession`. In the source, the disconnect button (`setAccount(null)`, App.tsx:387) can clear it mid-match. From then on `p.id === account` no longer matches the seated player, so wrong guesses, Vowel Scans and expired turns stop costing hp. That change of account is not modelled.
- Stats.StatsStore.UpdateStats: the write is assumed to succeed. `localStorage.setItem` (statsService.ts:41) is outside any `try`. When storage is unavailable or full it throws, and `updateStats` raises instead of returning. The model always stores and returns the new counters. A read that throws is covered: it falls into `getStats`' catch, modelled as `Unreadable`.
- Rendering, the on-screen keyboard's colours, the lobby and the matchmaking screen are not modelled.
