# Easy-mode typing session

This is a Dafny model of the easy-mode typing game. A player presses Start and watches a 3-2-1 countdown. Then they have a 90-second round in which they type a displayed word one character at a time. Every correctly typed character earns one point and moves the cursor on. At the word's last position a replacement word is requested. When the round ends, the score is saved under the stored username and the ranking view is shown. The Back button asks for confirmation once the round has started. If confirmed, it saves and goes to the ranking view; before the round it goes straight home.

The component keeps its state in eight fields: `word`, `currentIndex`, `score`, `typedCorrectly`, `timeLeft`, `gameOver`, `gameStarted` and `countdown`. These become the fields of the class `Session.EasyMode`. Each event becomes one method:

- a key press: `KeyDown`;
- the Start button: `HandleStart`;
- a pre-game interval tick: `CountdownTick`, which calls `StartGame`;
- a round-timer tick: `RoundTick`;
- a requested word arriving or failing: `FirstWordArrives`, `FirstWordFails`, `ReplacementArrives`, `ReplacementFails`;
- the Back button: `HandleBack`.

Each method reads the current state.

Side effects are not performed; they are returned. A word request is a returned `bool`. A score submission and a navigation are a returned `Intent`. The asynchronous results are method parameters: the new word, the stored username (`Option<string>`) and the user's answer to the confirmation.

Ghost fields record the environment so that each event has an honest precondition:
- the number of live pre-game intervals;
- the requests for words not yet resolved;
- the points earned on words already replaced.

`Valid()` is the session invariant that every event preserves:
- the index stays within the word;
- the flags have the word's length and mark exactly the typed prefix;
- the score equals the number of positions ever marked as typed;
- `timeLeft` stays in 0..90, and reaching 0 means game over;
- the countdown is at or below 0 exactly when the round has started, so a 0 is never displayed.

Pure modules hold the parts that compute rather than change state:
- `Matcher`: the match rule and the flag counting;
- `Timers`: one tick of each timer, and the lemmas that each timer fires exactly once;
- `ScoreSink`: the username gate, the round-end request and the Back decision.

`Scenarios` replays whole play-throughs through the class's contracts.

Behaviour of the code worth noting:
- A replacement word is requested on ANY key except Backspace pressed while the index is on the word's last position. This includes a wrong key, and the untyped last letter is then lost. The request is not tied to a completed match.
- There is no "awaiting word" sub-state. Once the index reaches the end of the word, keys simply stop matching and requesting until a replacement arrives.
- Back has no submit-once guard and does not end the session. Every confirmed Back saves again, including after the round-end save.
- During the countdown, `gameStarted` is still false, so Back goes home without saving.
- A username that is stored but empty counts as absent, following JavaScript truthiness, so nothing is saved.
- Start stays available during the countdown. Pressing it again adds a second interval, which goes on lowering the countdown below 0 after the round has started. The display never shows this.
- Backspace is swallowed only while the round runs.

## Model

| member | source | states |
|---|---|---|
| Matcher.Matches | src/components/EasyMode.tsx:45-48 | a key matches iff the index is inside the word and the key equals the character there; past the end nothing matches, and Backspace never does |
| Matcher.Unset | src/components/EasyMode.tsx:64 | fresh flags have the new word's length and none is set |
| Matcher.CountTypedMark | src/components/EasyMode.tsx:51-55 | marking one untyped position raises the count of typed positions by exactly one |
| Matcher.CountTypedPrefix | src/components/EasyMode.tsx:52-53 | flags set on exactly the first k positions count k (fresh flags count 0) |
| Timers.StartCalledOnce | src/components/EasyMode.tsx:84-94 | over any number of pre-game ticks from value c, startGame is called exactly once (on tick c) when c >= 1 and the ticks reach it, and never otherwise |
| Timers.RoundRunsDown | src/components/EasyMode.tsx:20-28 | after n ticks of a started round the time left is t - n, floored at 0 and never negative; the round ends exactly once, on tick t |
| ScoreSink.SaveRequest | src/components/EasyMode.tsx:125-137 | a submission is made iff a non-empty username is stored, and it carries that username and the current score |
| ScoreSink.ExpiryIntent | src/components/EasyMode.tsx:25-27 | reaching 0 always goes to the ranking view, after a save that happens iff a username is present |
| ScoreSink.BackIntent | src/components/EasyMode.tsx:113-123 | once started or over: confirming saves and goes to the ranking view, declining does nothing; otherwise it goes home without saving; any save is followed by the ranking view |
| Session.EasyMode.constructor | src/components/EasyMode.tsx:9-16 | the initial state (empty word, index 0, score 0, no flags, 90 s, not started, not over, countdown 3) satisfies the invariant |
| Session.EasyMode.KeyDown | src/components/EasyMode.tsx:37-71 | keys outside a running round change nothing; Backspace is swallowed; a matching key raises score and index by exactly 1 and sets that one flag; any other key changes nothing; a word is requested iff the index is on the last position; the invariant is kept |
| Session.EasyMode.HandleStart | src/components/EasyMode.tsx:80-82 | Start only schedules one more pre-game interval; no state field changes |
| Session.EasyMode.CountdownTick | src/components/EasyMode.tsx:84-94 | the new countdown and whether startGame runs are exactly one `PreGameStep` of the old value: it drops by 1; startGame runs, starts the round and requests the first word iff the previous value was 1, and that interval is cleared |
| Session.EasyMode.StartGame | src/components/EasyMode.tsx:96-111 | a no-op when already started; otherwise it starts the round with 90 s and requests the first word |
| Session.EasyMode.FirstWordArrives | src/components/EasyMode.tsx:101-105 | the first word and fresh flags of its length are set; the index stays 0; the invariant is kept |
| Session.EasyMode.FirstWordFails | src/components/EasyMode.tsx:106-108 | a failed first fetch changes no state field |
| Session.EasyMode.ReplacementArrives | src/components/EasyMode.tsx:59-64 | the new word, index 0 and fresh unset flags of the new length are set; the score is kept in full |
| Session.EasyMode.ReplacementFails | src/components/EasyMode.tsx:65-67 | a failed replacement fetch keeps the old word, index and flags |
| Session.EasyMode.RoundTick | src/components/EasyMode.tsx:20-28 | the new time and whether the round ends are exactly one `RoundStep` of the old state: the time drops by 1 only while the round runs, so it never goes negative; the tick reaching 0 sets game over and requests save-then-ranking exactly once; other ticks request nothing |
| Session.EasyMode.HandleBack | src/components/EasyMode.tsx:113-127 | Back changes no state and returns the Back decision for the current state and score |
| Session.EasyMode.ScoreCountsProgress | src/components/EasyMode.tsx:46-55 | the score is the number of characters typed on replaced words plus the index on the current word |
| Scenarios.StartedWith | src/components/EasyMode.tsx:80-105 | Start, three ticks and the first word's arrival yield a running round on that word with score 0 and 90 s |
| Scenarios.CountdownScenario | src/components/EasyMode.tsx:84-99 | the visible countdown is exactly 3, 2, 1; the third tick starts the round and requests the first word |
| Scenarios.TypeCat | src/components/EasyMode.tsx:45-69 | typing c, a, t on "cat" takes score and index through 1, 2, 3, requests a word on the third key only, and sets every flag |
| Scenarios.WrongThenRight | src/components/EasyMode.tsx:45-56 | on "cat", a wrong key leaves (score, index) at (0, 0); then "c" takes it to (1, 1) |
| Scenarios.WrongKeyAtLastPosition | src/components/EasyMode.tsx:58-64 | a wrong key on the last position still requests a word; on arrival the index is 0 and the score stays 2 |
| Scenarios.BackspaceAtLastPosition | src/components/EasyMode.tsx:40-43 | Backspace on the last position is prevented, requests nothing and keeps the index |
| Scenarios.KeysAfterWordEnd | src/components/EasyMode.tsx:46-58 | after the whole word is typed, a further key neither scores nor requests |
| Scenarios.DoubleStart | src/components/EasyMode.tsx:80-99 | with Start pressed twice, over n ticks startGame runs exactly as often as `StartCalls` counts (once, on the third tick, if n >= 3) and the countdown ends at 3 - n |
| Scenarios.PlayRound | src/components/EasyMode.tsx:20-28 | over any 90 or more ticks, the time ends at 0 and exactly one tick asks for save-then-ranking |
| Scenarios.BackButton | src/components/EasyMode.tsx:113-123 | Back during the countdown goes home without saving; after game over, two confirmed Backs each save |

## Left out

- Rendering and styling are not modelled. The green or white colour of a character is only a view of its flag.
- The countdown display uses `!gameStarted`, and the Start and ranking buttons are shown only before the round starts. These are display conditions, not modelled, and Start is modelled as available at any time. The ranking button only navigates.
- Real timers are not modelled: `setInterval`, `clearInterval` and effect cleanup. Each tick is a method call. A tick is delivered only by a live interval, which the ghost interval count tracks.
- The word source `getRandomWord` is an opaque asynchronous call and is not part of this model. Its success is the arrival event carrying the word, and its failure is the fail event. Only the `console.error` logging is left out.
- The HTTP POST to the score endpoint, the `localStorage` lookup, `window.confirm` and `navigate` are I/O. The username and the confirmation are parameters; the save and the navigation are returned as an `Intent`. The POST's own failure is caught and logged, and it never blocks navigation.
- Interleavings of several fetches or saves in flight are not modelled. Each resolution is one atomic event.
- React's stale closures are not modelled. Examples are the first `startGame` captured by `startCountdown`, and line 53 writing the flag at the index captured when the handler was registered. Each event reads the current state. Because the countdown strictly decreases, exactly one tick ever calls startGame, so its guard against a second start never fires.
- Strings are sequences of Unicode characters, while JavaScript indexes UTF-16 code units. In the component, a character outside the Basic Multilingual Plane can never be matched: `e.key` holds both surrogates and `word[i]` only one. So a word containing one can never be completed. The model matches such a character as one character.
- Flags: `typedCorrectly` holds `null` or `true` in the source. Here it holds `false` or `true`, since only `=== true` is ever tested.
- Numbers: scores and counters are unbounded integers. JavaScript numbers are doubles, but these counts never approach their exact-integer range.
