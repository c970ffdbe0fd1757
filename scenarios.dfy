/** Clients of the session that replay whole play-throughs, in the manner of
    a test harness: each result is proved from the event methods' contracts. */
module Scenarios {
  import opened Wrappers
  import opened Matcher
  import opened Timers
  import opened ScoreSink
  import opened Session

  /** A session that has counted down and received its first word w. */
  method StartedWith(w: string) returns (s: EasyMode)
    ensures fresh(s) && s.Valid() && s.Playing()
    ensures s.word == w && s.currentIndex == 0 && s.score == 0 && s.typedCorrectly == Unset(|w|)
    ensures s.timeLeft == ROUND_SECONDS && s.wordRequestsPending == 0
  {
    s := new EasyMode();
    s.HandleStart();
    var _ := s.CountdownTick();
    var _ := s.CountdownTick();
    var _ := s.CountdownTick();
    s.FirstWordArrives(w);
  }

  /** Start, then three pre-game ticks: while the countdown is visible it shows
      3, 2, 1; the third tick starts the round and requests the first word. */
  method CountdownScenario() returns (shown: seq<int>, requests: seq<bool>, started: bool)
    ensures shown == [3, 2, 1] && requests == [false, false, true] && started
  {
    var s := new EasyMode();
    s.HandleStart();
    shown := [s.countdown];
    var r1 := s.CountdownTick();
    if !s.gameStarted { shown := shown + [s.countdown]; }
    var r2 := s.CountdownTick();
    if !s.gameStarted { shown := shown + [s.countdown]; }
    var r3 := s.CountdownTick();
    requests, started := [r1, r2, r3], s.gameStarted;
  }

  /** Typing "cat" on the word "cat": score and index go 1, 2, 3; the third key
      requests a new word; every flag is then set. */
  method TypeCat() returns (scores: seq<int>, indices: seq<int>, requests: seq<bool>, flags: seq<bool>)
    ensures scores == [1, 2, 3] && indices == [1, 2, 3]
    ensures requests == [false, false, true] && flags == [true, true, true]
  {
    var s := StartedWith("cat");
    var q1, _ := s.KeyDown("c");
    var k1, i1 := s.score, s.currentIndex;
    var q2, _ := s.KeyDown("a");
    var k2, i2 := s.score, s.currentIndex;
    var q3, _ := s.KeyDown("t");
    scores, indices, requests, flags := [k1, k2, s.score], [i1, i2, s.currentIndex], [q1, q2, q3], s.typedCorrectly;
  }

  /** A wrong key then the right one on "cat": only the second key changes the
      state; the score ends at 1 and the index at 1. */
  method WrongThenRight() returns (afterWrong: (int, int), afterRight: (int, int))
    ensures afterWrong == (0, 0) && afterRight == (1, 1)
  {
    var s := StartedWith("cat");
    var _, _ := s.KeyDown("x");
    afterWrong := (s.score, s.currentIndex);
    var _, _ := s.KeyDown("c");
    afterRight := (s.score, s.currentIndex);
  }

  /** A wrong key on the last position of "cat" still requests a new word; when
      it arrives the untyped last letter is lost and the score is kept. */
  method WrongKeyAtLastPosition() returns (request: bool, scoreBefore: int, scoreAfter: int, index: int)
    ensures request && scoreBefore == 2 && scoreAfter == 2 && index == 0
  {
    var s := StartedWith("cat");
    var _, _ := s.KeyDown("c");
    var _, _ := s.KeyDown("a");
    var prevented;
    request, prevented := s.KeyDown("x");
    scoreBefore := s.score;
    s.ReplacementArrives("dog");
    scoreAfter, index := s.score, s.currentIndex;
  }

  /** Backspace on the last position is swallowed before the request check: it
      neither changes the state nor requests a word. */
  method BackspaceAtLastPosition() returns (request: bool, prevented: bool, index: int)
    ensures !request && prevented && index == 2
  {
    var s := StartedWith("cat");
    var _, _ := s.KeyDown("c");
    var _, _ := s.KeyDown("a");
    request, prevented := s.KeyDown(Backspace);
    index := s.currentIndex;
  }

  /** Once the whole word is typed and no replacement has arrived, further keys
      neither match nor request. */
  method KeysAfterWordEnd() returns (request: bool, score: int)
    ensures !request && score == 3
  {
    var s := StartedWith("cat");
    var _, _ := s.KeyDown("c");
    var _, _ := s.KeyDown("a");
    var _, _ := s.KeyDown("t");
    var prevented;
    request, prevented := s.KeyDown("t");
    score := s.score;
  }

  /** A whole round of n ticks (n at least 90): the time runs down to 0 without
      going below, and exactly one tick ends the round and asks to save. */
  method PlayRound(username: Option<string>, n: nat) returns (ended: seq<Intent>, timeLeft: int)
    requires n >= ROUND_SECONDS
    ensures ended == [ExpiryIntent(username, 0)] && timeLeft == 0
  {
    var s := StartedWith("cat");
    ended := [];
    var i := 0;
    while i < n
      invariant 0 <= i <= n
      invariant s.Valid() && s.gameStarted && s.score == 0
      invariant s.timeLeft == if i <= ROUND_SECONDS then ROUND_SECONDS - i else 0
      invariant ended == if i < ROUND_SECONDS then [] else [ExpiryIntent(username, 0)]
    {
      var r := s.RoundTick(username);
      if r != NO_INTENT {
        ended := ended + [r];
      }
      i := i + 1;
    }
    timeLeft := s.timeLeft;
  }

  /** Back during the countdown goes home without saving; Back after the round
      ended saves again each time it is confirmed. */
  method BackButton(username: string) returns (early: Intent, first: Intent, second: Intent)
    requires username != ""
    ensures early == Intent(None, Some(Home))
    ensures first == second == Intent(Some(ScorePost(username, 0)), Some(Ranking))
  {
    var s := new EasyMode();
    s.HandleStart();
    var _ := s.CountdownTick();
    early := s.HandleBack(true, Some(username));
    s := StartedWith("cat");
    while s.timeLeft > 0
      invariant s.Valid() && s.gameStarted && s.score == 0
      decreases s.timeLeft
    {
      var _ := s.RoundTick(None);
    }
    first := s.HandleBack(true, Some(username));
    second := s.HandleBack(true, Some(username));
  }

  /** Start pressed twice, then n pre-game ticks of the shared countdown:
      startGame runs (and requests the first word) on exactly one tick, the
      third, and the countdown keeps falling below 0 unseen. */
  method DoubleStart(n: nat) returns (requests: nat, countdown: int, started: bool)
    ensures requests == StartCalls(COUNTDOWN_START, n) == (if n >= 3 then 1 else 0)
    ensures countdown == 3 - n && (started <==> n >= 3)
  {
    var s := new EasyMode();
    s.HandleStart();
    s.HandleStart();
    requests := 0;
    var i := 0;
    while i < n
      invariant 0 <= i <= n
      invariant s.Valid() && s.countdown == 3 - i
      invariant s.countdownTimers == if i < 3 then 2 else 1
      invariant requests == if i >= 3 then 1 else 0
      invariant s.gameStarted <==> i >= 3
    {
      var r := s.CountdownTick();
      if r {
        requests := requests + 1;
      }
      i := i + 1;
    }
    StartCalledOnce(COUNTDOWN_START, n);
    countdown, started := s.countdown, s.gameStarted;
  }
}
