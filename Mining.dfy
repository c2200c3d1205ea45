/**
 * The mining session engine of App.tsx: starting a session, and the once-a-second
 * poll that credits `miningDuration * miningRate` when the session has lasted
 * `miningDuration` seconds and returns the session to idle.
 */
module Mining {
  import opened Wrappers
  import opened Types

  /** The session shape the rest of the app expects: a start time exactly while active. */
  predicate Consistent(s: MiningSession) {
    s.isActive <==> s.startTime.Some?
  }

  /** The engine's interval exists only while the session is active and its start
      time is truthy (a start time of `0` counts as absent). */
  predicate EngineRunning(s: MiningSession) {
    s.isActive && s.startTime.Some? && s.startTime.value != 0
  }

  /** Seconds since `start`, as the engine computes them: a real quotient, not floored. */
  function ElapsedSeconds(start: int, now: int): real {
    (now - start) as real / 1000.0
  }

  /** What one finished session is worth: duration (seconds) times rate. */
  function SessionReward(c: AppConfig): real {
    c.miningDuration as real * c.miningRate
  }

  /** A poll at `now` finds the running session over. */
  predicate Completes(u: UserState, c: AppConfig, now: int) {
    EngineRunning(u.miningSession)
    && ElapsedSeconds(u.miningSession.startTime.value, now) >= c.miningDuration as real
  }

  /** The state after a session is credited: reward added, session idle. */
  function Complete(u: UserState, c: AppConfig): UserState {
    u.(points := u.points + SessionReward(c), miningSession := IdleSession)
  }

  /** One poll of the engine at time `now` (App.tsx:217-236). */
  function Tick(u: UserState, c: AppConfig, now: int): (r: UserState)
    ensures r.username == u.username && r.referrals == u.referrals && r.tasks == u.tasks
    ensures r.points == u.points + (if Completes(u, c, now) then SessionReward(c) else 0.0)
    ensures r.miningSession == if Completes(u, c, now) then IdleSession else u.miningSession
    ensures Consistent(u.miningSession) ==> Consistent(r.miningSession)
  {
    if Completes(u, c, now) then Complete(u, c) else u
  }

  /** The `POST /api/earn` body the completing poll sends (App.tsx:224-229):
      only when the poll credits the session and the client is linked. */
  function CompletionEarnRequest(u: UserState, c: AppConfig, now: int, backend: Backend): (r: Option<EarnRequest>)
    ensures r.Some? <==> Completes(u, c, now) && backend.Linked()
    ensures r.Some? ==> r.value.amount == SessionReward(c) && r.value.reason == "mining"
                        && Some(r.value.tgId) == backend.tgId
  {
    if Completes(u, c, now) && backend.Linked() then Some(EarnRequest(backend.tgId.value, SessionReward(c), "mining"))
    else None
  }

  /** `handleStartMining`: no guard; the session becomes active from `now`, even if it already was. */
  function StartMining(u: UserState, now: int): (r: UserState)
    ensures r.miningSession.isActive && r.miningSession.startTime == Some(now)
    ensures Consistent(r.miningSession)
    ensures r.username == u.username && r.points == u.points
    ensures r.referrals == u.referrals && r.tasks == u.tasks
  {
    u.(miningSession := MiningSession(true, Some(now)))
  }

  /** A successive series of polls with one configuration. */
  function RunTicks(u: UserState, c: AppConfig, times: seq<int>): UserState
    decreases |times|
  {
    if times == [] then u else RunTicks(Tick(u, c, times[0]), c, times[1..])
  }

  /** Before the duration has passed a poll changes nothing. */
  lemma TickBeforeDurationIsNoop(u: UserState, c: AppConfig, now: int)
    requires EngineRunning(u.miningSession)
    requires ElapsedSeconds(u.miningSession.startTime.value, now) < c.miningDuration as real
    ensures Tick(u, c, now) == u
  {
  }

  /** The credit does not depend on how late the completing poll comes. */
  lemma CreditIndependentOfLateness(u: UserState, c: AppConfig, now1: int, now2: int)
    requires Completes(u, c, now1) && Completes(u, c, now2)
    ensures Tick(u, c, now1) == Tick(u, c, now2) == Complete(u, c)
  {
  }

  /** Once a session is credited, further polls credit nothing. */
  lemma NoCreditAfterCompletion(u: UserState, c: AppConfig, now1: int, now2: int)
    requires Completes(u, c, now1)
    ensures Tick(Tick(u, c, now1), c, now2) == Tick(u, c, now1)
  {
  }

  /** However the polls are spaced, a session is credited exactly once: the run
      ends credited if some poll reached the duration, and unchanged otherwise. */
  lemma {:induction false} RunCreditsAtMostOnce(u: UserState, c: AppConfig, times: seq<int>)
    ensures RunTicks(u, c, times)
         == if exists i :: 0 <= i < |times| && Completes(u, c, times[i]) then Complete(u, c) else u
    decreases |times|
  {
    if times != [] {
      var rest := times[1..];
      if Completes(u, c, times[0]) {
        var v := Complete(u, c);
        RunCreditsAtMostOnce(v, c, rest);
        assert !EngineRunning(v.miningSession);
        assert forall i :: 0 <= i < |rest| ==> !Completes(v, c, rest[i]);
      } else {
        RunCreditsAtMostOnce(u, c, rest);
        assert forall i :: 0 <= i < |rest| ==> rest[i] == times[i + 1];
        if exists i :: 0 <= i < |times| && Completes(u, c, times[i]) {
          var i :| 0 <= i < |times| && Completes(u, c, times[i]);
          assert Completes(u, c, rest[i - 1]);
        }
      }
    }
  }

  /** Polls that keep coming after the duration still credit the reward once. */
  lemma PointsAfterRun(u: UserState, c: AppConfig, times: seq<int>)
    ensures RunTicks(u, c, times).points == u.points
         || RunTicks(u, c, times).points == u.points + SessionReward(c)
  {
    RunCreditsAtMostOnce(u, c, times);
  }

  /** The `/api/earn` requests a series of polls sends, in order. */
  function EarnRequests(u: UserState, c: AppConfig, times: seq<int>, backend: Backend): seq<EarnRequest>
    decreases |times|
  {
    if times == [] then []
    else
      var sent := CompletionEarnRequest(u, c, times[0], backend);
      (if sent.Some? then [sent.value] else []) + EarnRequests(Tick(u, c, times[0]), c, times[1..], backend)
  }

  /** A session that is not running sends nothing, however many polls come. */
  lemma {:induction false} IdleSendsNothing(u: UserState, c: AppConfig, times: seq<int>, backend: Backend)
    requires !EngineRunning(u.miningSession)
    ensures EarnRequests(u, c, times, backend) == []
    decreases |times|
  {
    if times != [] {
      IdleSendsNothing(u, c, times[1..], backend);
    }
  }

  /** The backend is told about a session at most once, with the credited amount. */
  lemma {:induction false} AtMostOneEarnRequest(u: UserState, c: AppConfig, times: seq<int>, backend: Backend)
    ensures |EarnRequests(u, c, times, backend)| <= 1
    ensures forall i :: 0 <= i < |EarnRequests(u, c, times, backend)| ==>
              EarnRequests(u, c, times, backend)[i].amount == SessionReward(c)
    decreases |times|
  {
    if times != [] {
      if Completes(u, c, times[0]) {
        IdleSendsNothing(Complete(u, c), c, times[1..], backend);
      } else {
        AtMostOneEarnRequest(u, c, times[1..], backend);
      }
    }
  }

  /** Starting again while active moves the start time: a poll that would have
      completed the old session no longer does, and nothing is credited. */
  lemma RestartForfeitsDueCredit(u: UserState, c: AppConfig, restart: int, now: int)
    requires Completes(u, c, now)
    requires restart != 0 && now - restart < 1000 * c.miningDuration
    ensures !Completes(StartMining(u, restart), c, now)
    ensures Tick(StartMining(u, restart), c, now).points == u.points
  {
    assert (now - restart) as real < (1000 * c.miningDuration) as real;
  }

  /** rate 10 per second, 60 seconds: one credit of 600, and a later poll adds nothing. */
  lemma ExampleSixtySeconds(u: UserState)
    requires u.points == 0.0
    ensures var c := DefaultConfig.(miningRate := 10.0, miningDuration := 60);
            var started := StartMining(u, 1000);
            var done := Tick(started, c, 61000);
            Tick(started, c, 60999).points == 0.0
            && done.points == 600.0 && !done.miningSession.isActive
            && Tick(done, c, 62000).points == 600.0
  {
  }
}
