/** What the session asks of the outside world when a round ends or the Back
    button is pressed: a score submission and a navigation. */
module ScoreSink {
  import opened Wrappers

  /** The two views the session navigates to: `/` and `/easyranking`. */
  datatype Route = Home | Ranking

  /** The body of one score submission, `{username, score}`, POSTed to
      `http://localhost:5000/api/scores/easy`. */
  datatype ScorePost = ScorePost(username: string, score: int)

  /** The side effects requested by one event, in order: first the save, then the navigation. */
  datatype Intent = Intent(save: Option<ScorePost>, route: Option<Route>)

  const NO_INTENT: Intent := Intent(None, None)

  /** JavaScript truthiness of a stored username: missing and empty are both false. */
  predicate HasUsername(username: Option<string>)
  {
    username.Some? && username.value != ""
  }

  /** saveScore: a submission of the current score is made exactly when a
      non-empty username is stored, and carries that username. */
  function SaveRequest(username: Option<string>, score: int): (r: Option<ScorePost>)
    ensures r.Some? <==> HasUsername(username)
    ensures r.Some? ==> r.value.username == username.value && r.value.score == score
  {
    if HasUsername(username) then Some(ScorePost(username.value, score)) else None
  }

  /** The round-timer effect on reaching 0: save, then go to the ranking view
      whether or not the save happened. */
  function ExpiryIntent(username: Option<string>, score: int): (r: Intent)
    ensures r.route == Some(Ranking)
    ensures r.save.Some? <==> HasUsername(username)
    ensures r.save.Some? ==> r.save.value == ScorePost(username.value, score)
  {
    Intent(SaveRequest(username, score), Some(Ranking))
  }

  /** handleBack: once the round has started (or ended) the user is asked to
      confirm; confirming saves and goes to the ranking view, declining does
      nothing; before the round it goes home without saving. */
  function BackIntent(gameStarted: bool, gameOver: bool, confirmed: bool,
                      username: Option<string>, score: int): (r: Intent)
    ensures (gameStarted || gameOver) && confirmed ==>
              r.route == Some(Ranking) && r.save == SaveRequest(username, score)
    ensures (gameStarted || gameOver) && !confirmed ==> r == NO_INTENT
    ensures !(gameStarted || gameOver) ==> r == Intent(None, Some(Home))
    ensures r.save.Some? ==> HasUsername(username) && r.route == Some(Ranking)
  {
    if gameStarted || gameOver then
      if confirmed then Intent(SaveRequest(username, score), Some(Ranking)) else NO_INTENT
    else
      Intent(None, Some(Home))
  }
}
