/** The easy-mode typing session: the component's state fields and the events
    that change them (key presses, the Start button, the two timers' ticks,
    the arrival or failure of a requested word, and the Back button). Each
    event reads the current state. Timers, word fetches and score saves are
    outside the model: a tick or an arrival is a method call, and a request
    is a returned value. */
module Session {
  import opened Wrappers
  import opened Matcher
  import opened Timers
  import opened ScoreSink

  class EasyMode {
    var word: string
    var currentIndex: int
    var score: int
    var typedCorrectly: seq<bool>
    var timeLeft: int
    var gameOver: bool
    var gameStarted: bool
    var countdown: int

    /** Pre-game intervals still running: each press of Start schedules one. */
    ghost var countdownTimers: nat
    /** The word request made by startGame has not resolved yet. */
    ghost var firstWordPending: bool
    /** Replacement-word requests made by the key handler that have not resolved yet. */
    ghost var wordRequestsPending: nat
    /** Characters typed correctly in words that have since been replaced. */
    ghost var scoredOnEarlierWords: nat

    /** The session invariant: the index stays within the word, the flags have
        the word's length and mark exactly the typed prefix, the score counts
        every position ever marked, the round time stays in 0..90 and reaching 0
        is game over, and the countdown is at or below 0 exactly once the round
        has started (so 0 is never shown). */
    ghost predicate Valid()
      reads this
    {
      && 0 <= currentIndex <= |word|
      && |typedCorrectly| == |word|
      && TypedPrefix(typedCorrectly, currentIndex)
      && score == scoredOnEarlierWords + CountTyped(typedCorrectly)
      && 0 <= timeLeft <= ROUND_SECONDS
      && (gameOver <==> timeLeft == 0)
      && (!gameStarted ==> timeLeft == ROUND_SECONDS)
      && (gameStarted <==> countdown <= 0)
      && countdown <= COUNTDOWN_START
      && (!gameStarted && countdownTimers == 0 ==> countdown == COUNTDOWN_START)
      && (firstWordPending ==> gameStarted && word == [] && wordRequestsPending == 0)
      && (!gameStarted ==> word == [] && score == 0 && !firstWordPending && wordRequestsPending == 0)
    }

    /** The component on mount. */
    constructor ()
      ensures Valid()
      ensures word == [] && currentIndex == 0 && score == 0 && typedCorrectly == []
      ensures timeLeft == ROUND_SECONDS && !gameOver && !gameStarted && countdown == COUNTDOWN_START
      ensures countdownTimers == 0 && !firstWordPending && wordRequestsPending == 0
    {
      word, currentIndex, score, typedCorrectly := "", 0, 0, [];
      timeLeft, gameOver, gameStarted, countdown := ROUND_SECONDS, false, false, COUNTDOWN_START;
      countdownTimers, firstWordPending, wordRequestsPending := 0, false, 0;
      scoredOnEarlierWords := 0;
    }

    /** Keys are handled only while the round runs. */
    predicate Playing()
      reads this
    {
      gameStarted && !gameOver
    }

    /** The key is handled and equals the expected character. */
    predicate Accepts(key: string)
      reads this
    {
      Playing() && key != Backspace && Matches(key, word, currentIndex)
    }

    /** The key is handled and arrives while the index is on the word's last
        position: a replacement word is requested, whether or not the key matches. */
    predicate RequestsWord(key: string)
      reads this
    {
      Playing() && key != Backspace && currentIndex + 1 == |word|
    }

    /** handleKeyDown. */
    method KeyDown(key: string) returns (requestWord: bool, preventDefault: bool)
      requires Valid()
      modifies this`score, this`currentIndex, this`typedCorrectly, this`wordRequestsPending
      ensures Valid()
      ensures preventDefault <==> old(Playing()) && key == Backspace
      ensures requestWord <==> old(RequestsWord(key))
      ensures old(Accepts(key)) ==>
                && score == old(score) + 1
                && currentIndex == old(currentIndex) + 1
                && typedCorrectly == old(typedCorrectly)[old(currentIndex) := true]
      ensures !old(Accepts(key)) ==>
                && score == old(score)
                && currentIndex == old(currentIndex)
                && typedCorrectly == old(typedCorrectly)
      ensures wordRequestsPending == old(wordRequestsPending) + (if requestWord then 1 else 0)
    {
      requestWord, preventDefault := false, false;
      if !gameStarted || gameOver {
        return;
      }
      if key == Backspace {
        preventDefault := true;
        return;
      }
      var at := currentIndex;
      if Matches(key, word, at) {
        CountTypedMark(typedCorrectly, at);
        score := score + 1;
        currentIndex := at + 1;
        typedCorrectly := typedCorrectly[at := true];
      }
      if at + 1 == |word| {
        requestWord := true;
        wordRequestsPending := wordRequestsPending + 1;
      }
    }

    /** handleStart: schedules one more pre-game interval; no state field changes. */
    method HandleStart()
      requires Valid()
      modifies this`countdownTimers
      ensures Valid()
      ensures countdownTimers == old(countdownTimers) + 1
    {
      countdownTimers := countdownTimers + 1;
    }

    /** One tick of a pre-game interval: the countdown drops by one, and the
        tick that lowers it from 1 clears its interval and calls startGame. */
    method CountdownTick() returns (requestWord: bool)
      requires Valid() && countdownTimers > 0
      modifies this`countdown, this`countdownTimers, this`gameStarted, this`timeLeft, this`firstWordPending
      ensures Valid()
      ensures countdown == PreGameStep(old(countdown)).next == old(countdown) - 1
      ensures requestWord == PreGameStep(old(countdown)).fires == (old(countdown) == 1)
      ensures countdownTimers == old(countdownTimers) - (if requestWord then 1 else 0)
      ensures gameStarted <==> old(gameStarted) || requestWord
      ensures requestWord ==> timeLeft == ROUND_SECONDS && firstWordPending
      ensures !requestWord ==> timeLeft == old(timeLeft) && firstWordPending == old(firstWordPending)
    {
      var step := PreGameStep(countdown);
      requestWord := false;
      if step.fires {
        countdownTimers := countdownTimers - 1;
        requestWord := StartGame();
      }
      countdown := step.next;
    }

    /** startGame: a no-op once the round has started; otherwise it starts the
        round with the full time and requests the first word. It is only the
        inner step of CountdownTick, which re-establishes Valid() around it; on
        its own it does not keep the invariant (the countdown is not lowered). */
    method StartGame() returns (requestWord: bool)
      modifies this`gameStarted, this`timeLeft, this`firstWordPending
      ensures gameStarted
      ensures requestWord <==> !old(gameStarted)
      ensures requestWord ==> timeLeft == ROUND_SECONDS && firstWordPending
      ensures !requestWord ==> timeLeft == old(timeLeft) && firstWordPending == old(firstWordPending)
    {
      if gameStarted {
        return false;
      }
      gameStarted := true;
      timeLeft := ROUND_SECONDS;
      firstWordPending := true;
      return true;
    }

    /** The first word arrives: the word and fresh flags are set; the index,
        still 0, is left as it is. */
    method FirstWordArrives(newWord: string)
      requires Valid() && firstWordPending
      modifies this`word, this`typedCorrectly, this`firstWordPending
      ensures Valid()
      ensures word == newWord && typedCorrectly == Unset(|newWord|) && currentIndex == 0
      ensures !firstWordPending
    {
      CountTypedPrefix(Unset(|newWord|), 0);
      word := newWord;
      typedCorrectly := Unset(|newWord|);
      firstWordPending := false;
    }

    /** The first word request fails: the error is only logged. */
    method FirstWordFails()
      requires Valid() && firstWordPending
      modifies this`firstWordPending
      ensures Valid()
      ensures !firstWordPending
    {
      firstWordPending := false;
    }

    /** A replacement word arrives: the word, the index and the flags are
        replaced; the score is kept, all of it now earned on earlier words. */
    method ReplacementArrives(newWord: string)
      requires Valid() && wordRequestsPending > 0
      modifies this`word, this`currentIndex, this`typedCorrectly, this`wordRequestsPending,
               this`scoredOnEarlierWords
      ensures Valid()
      ensures word == newWord && currentIndex == 0 && typedCorrectly == Unset(|newWord|)
      ensures scoredOnEarlierWords == score
      ensures wordRequestsPending == old(wordRequestsPending) - 1
    {
      CountTypedPrefix(Unset(|newWord|), 0);
      scoredOnEarlierWords := scoredOnEarlierWords + CountTyped(typedCorrectly);
      word := newWord;
      currentIndex := 0;
      typedCorrectly := Unset(|newWord|);
      wordRequestsPending := wordRequestsPending - 1;
    }

    /** A replacement word request fails: the error is only logged and the old
        word stays. */
    method ReplacementFails()
      requires Valid() && wordRequestsPending > 0
      modifies this`wordRequestsPending
      ensures Valid()
      ensures wordRequestsPending == old(wordRequestsPending) - 1
    {
      wordRequestsPending := wordRequestsPending - 1;
    }

    /** One tick of the round timer. It lowers the time only while the round
        runs; the tick that reaches 0 ends the game and asks for the score to
        be saved and the ranking view shown. */
    method RoundTick(username: Option<string>) returns (r: Intent)
      requires Valid()
      modifies this`timeLeft, this`gameOver
      ensures Valid()
      ensures timeLeft == RoundStep(old(gameStarted), old(timeLeft)).next
      ensures (r != NO_INTENT) == RoundStep(old(gameStarted), old(timeLeft)).fires
      ensures old(Playing()) ==> timeLeft == old(timeLeft) - 1
      ensures !old(Playing()) ==> timeLeft == old(timeLeft) && gameOver == old(gameOver) && r == NO_INTENT
      ensures gameOver <==> old(gameOver) || (old(Playing()) && old(timeLeft) == 1)
      ensures r == if old(Playing()) && old(timeLeft) == 1 then ExpiryIntent(username, score) else NO_INTENT
    {
      var step := RoundStep(gameStarted, timeLeft);
      timeLeft := step.next;
      r := NO_INTENT;
      if step.fires {
        gameOver := true;
        r := ExpiryIntent(username, score);
      }
    }

    /** handleBack: changes no state field and returns the Back decision for
        the current state. */
    method HandleBack(confirmed: bool, username: Option<string>) returns (r: Intent)
      ensures r == BackIntent(gameStarted, gameOver, confirmed, username, score)
    {
      r := BackIntent(gameStarted, gameOver, confirmed, username, score);
    }

    /** The score is the number of characters typed on earlier words plus the
        progress on the current one. */
    lemma ScoreCountsProgress()
      requires Valid()
      ensures score == scoredOnEarlierWords + currentIndex
    {
      CountTypedPrefix(typedCorrectly, currentIndex);
    }
  }
}
