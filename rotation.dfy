/**
 * The attendee's rotating-QR controller (useRotatingQR.ts): a state record
 * replaced on every tick and fetch, plus the session it holds. The timers of
 * the hook become explicit calls: `Tick` is one second of the rotation
 * interval, `SyncTick` one firing of the sync interval. The network answer of
 * a session fetch and the clock are parameters.
 */
module RotatingQr {
  import opened Common
  import opened Jwt
  import Backoffice

  /** The hook's state record; `lastSync` is the epoch second of the last successful fetch. */
  datatype QrState = QrState(
    currentJwt: string,
    timeRemaining: int,
    isOnline: bool,
    lastSync: Option<int>,
    error: Option<string>,
    isLoading: bool)

  type SessionInfo = Backoffice.SessionInfo

  /** What `getTicketSession` settled with: the session, or a rejection (with its message when it was an `Error`). */
  datatype FetchOutcome = Fetched(info: SessionInfo) | FetchFailed(thrown: Option<string>)

  const DefaultTtlSeconds: int := 20
  const DefaultSyncIntervalMs: int := 60000
  const DefaultClockSkewSeconds: int := 0

  /** The state the hook starts in. */
  function InitialState(ttl: int): (s: QrState)
    ensures s.currentJwt == "" && s.timeRemaining == ttl && !s.isOnline
    ensures s.lastSync.None? && s.error.None? && s.isLoading
  {
    QrState("", ttl, false, None, None, true)
  }

  /** `error instanceof Error ? error.message : fallback`. */
  function ErrorText(thrown: Option<string>, fallback: string): string {
    thrown.GetOr(fallback)
  }

  /** The prefix of every fetch failure shown to the attendee. */
  const ConnectionErrorPrefix: string := "Error de conexión: "

  /** The message of a rejection that was not an `Error`. */
  const UnknownError: string := "Error desconocido"

  /**
   * The state `fetchSession` leaves behind: online and synced at `now` after
   * a session arrived, offline with the connection error otherwise; the token
   * and its countdown are never touched.
   */
  function AfterFetch(s: QrState, outcome: FetchOutcome, now: int): (t: QrState)
    ensures t.currentJwt == s.currentJwt && t.timeRemaining == s.timeRemaining && !t.isLoading
    ensures t.isOnline <==> outcome.Fetched?
    ensures outcome.Fetched? ==> t.lastSync == Some(now) && t.error.None?
    ensures outcome.FetchFailed? ==>
              t.lastSync == s.lastSync && t.error == Some(ConnectionErrorPrefix + ErrorText(outcome.thrown, UnknownError))
  {
    match outcome
    case Fetched(_) => s.(error := None, isOnline := true, lastSync := Some(now), isLoading := false)
    case FetchFailed(thrown) =>
      s.(error := Some(ConnectionErrorPrefix + ErrorText(thrown, UnknownError)), isOnline := false, isLoading := false)
  }

  /**
   * The state `generateNewJWT` leaves behind once a session is held: the new
   * token with a full countdown and no error, or only the error when token
   * creation threw; connectivity, sync time and loading are never touched.
   */
  function AfterGenerate(s: QrState, created: Result<string>, ttl: int): (t: QrState)
    ensures t.isOnline == s.isOnline && t.lastSync == s.lastSync && t.isLoading == s.isLoading
    ensures created.Ok? ==> t.currentJwt == created.value && t.timeRemaining == ttl && t.error.None?
    ensures created.Throws? ==>
              t.currentJwt == s.currentJwt && t.timeRemaining == s.timeRemaining && t.error == Some(created.message)
  {
    match created
    case Ok(token) => s.(currentJwt := token, timeRemaining := ttl, error := None)
    case Throws(message) => s.(error := Some(message))
  }

  /** The token `generateNewJWT` returns: the created one, or `null` when creation threw. */
  function Returned(created: Result<string>): (jwt: Option<string>)
    ensures jwt.Some? <==> created.Ok?
    ensures jwt.Some? ==> jwt.value == created.value
  {
    match created
    case Ok(token) => Some(token)
    case Throws(_) => None
  }

  /**
   * A session fetch followed by a generation, as the mount effect and
   * `retry` run them: after a session arrives the attendee is online and
   * synced, and sees either a fresh token with a full countdown and no error,
   * or the old token with the creation error.
   */
  lemma FetchThenGenerate(s: QrState, info: SessionInfo, created: Result<string>, ttl: int, now: int)
    ensures var t := AfterGenerate(AfterFetch(s, Fetched(info), now), created, ttl);
            && t.isOnline && t.lastSync == Some(now) && !t.isLoading
            && (created.Ok? ==> t == s.(currentJwt := created.value, timeRemaining := ttl, error := None,
                                        isOnline := true, lastSync := Some(now), isLoading := false))
            && (created.Throws? ==> t == s.(error := Some(created.message),
                                            isOnline := true, lastSync := Some(now), isLoading := false))
  {
  }

  // ---------------------------------------------------------------------------
  // The countdown

  /** One firing of the rotation interval: the new `timeRemaining`, and whether a regeneration was scheduled. */
  datatype Step = Step(remaining: int, regenerate: bool)

  /**
   * The updater at lines 130-140: count down one second; a count that would
   * reach zero or below is reset to the TTL and schedules one regeneration.
   */
  function Countdown(timeRemaining: int, ttl: int): (s: Step)
    ensures s.regenerate <==> timeRemaining <= 1
    ensures 1 <= timeRemaining <= ttl ==> 1 <= s.remaining <= ttl
    ensures ttl < 1 && timeRemaining == ttl ==> s.remaining == ttl && s.regenerate
  {
    var next := timeRemaining - 1;
    if next <= 0 then Step(ttl, true) else Step(next, false)
  }

  /** The bound the countdown keeps: in `[1, ttl]`, or pinned at `ttl` when that is below 1. */
  predicate CountdownBound(timeRemaining: int, ttl: int) {
    if ttl >= 1 then 1 <= timeRemaining <= ttl else timeRemaining == ttl
  }

  /** `n` firings of the rotation interval from `timeRemaining`: where the count ends and how many regenerations were scheduled. */
  datatype Run = Run(remaining: int, regenerations: nat)

  function Ticks(timeRemaining: int, ttl: int, n: nat): (r: Run)
    ensures CountdownBound(timeRemaining, ttl) ==> CountdownBound(r.remaining, ttl)
    ensures r.regenerations <= n
    decreases n
  {
    if n == 0 then Run(timeRemaining, 0)
    else
      var step := Countdown(timeRemaining, ttl);
      var rest := Ticks(step.remaining, ttl, n - 1);
      Run(rest.remaining, rest.regenerations + if step.regenerate then 1 else 0)
  }

  /** Running `a` ticks and then `b` more is running `a + b` ticks. */
  lemma {:induction false} TicksCompose(timeRemaining: int, ttl: int, a: nat, b: nat)
    ensures var first := Ticks(timeRemaining, ttl, a);
            var second := Ticks(first.remaining, ttl, b);
            Ticks(timeRemaining, ttl, a + b) == Run(second.remaining, first.regenerations + second.regenerations)
    decreases a
  {
    if a > 0 {
      var step := Countdown(timeRemaining, ttl);
      TicksCompose(step.remaining, ttl, a - 1, b);
      assert a + b - 1 == (a - 1) + b;
    }
  }

  /** From a count `t` in `[1, ttl]`, the first `t - 1` ticks only count down. */
  lemma {:induction false} TicksCountDown(t: int, ttl: int, n: nat)
    requires 1 <= t <= ttl && n < t
    ensures Ticks(t, ttl, n) == Run(t - n, 0)
    decreases n
  {
    if n > 0 {
      TicksCountDown(t, ttl, n - 1);
      TicksCompose(t, ttl, n - 1, 1);
    }
  }

  /** From a count `t` in `[1, ttl]`, tick `t` schedules the one regeneration and restores the full TTL. */
  lemma TicksUntilRotation(t: int, ttl: int)
    requires 1 <= t <= ttl
    ensures Ticks(t, ttl, t) == Run(ttl, 1)
  {
    TicksCountDown(t, ttl, t - 1);
    TicksCompose(t, ttl, t - 1, 1);
  }

  /** With a positive TTL, `k * ttl` ticks from a fresh count schedule exactly `k` regenerations and end on a fresh count. */
  lemma {:induction false} RotationPeriod(ttl: int, k: nat)
    requires ttl >= 1
    ensures Ticks(ttl, ttl, k * ttl) == Run(ttl, k)
    decreases k
  {
    if k > 0 {
      RotationPeriod(ttl, k - 1);
      assert k * ttl == (k - 1) * ttl + ttl;
      TicksCompose(ttl, ttl, (k - 1) * ttl, ttl);
      TicksUntilRotation(ttl, ttl);
    }
  }

  // ---------------------------------------------------------------------------
  // The controller

  class Controller {
    const platform: Platform
    const ticketId: string
    const eventId: string
    const ttl: int
    const syncIntervalMs: int
    const skew: int
    var state: QrState
    var session: Option<SessionInfo>

    /** The bound on the countdown, and: online, or showing a token, only with a session held. */
    predicate Valid()
      reads this
    {
      && CountdownBound(state.timeRemaining, ttl)
      && (state.isOnline ==> session.Some?)
      && (state.currentJwt != "" ==> session.Some?)
    }

    /** The hook's first render; a TTL, sync interval or skew left undefined takes its default. */
    constructor (p: Platform, ticketId: string, eventId: string,
                 qrTtlSeconds: Option<int>, syncIntervalMs: Option<int>, clockSkewSeconds: Option<int>)
      ensures this.platform == p && this.ticketId == ticketId && this.eventId == eventId
      ensures ttl == qrTtlSeconds.GetOr(DefaultTtlSeconds)
      ensures this.syncIntervalMs == syncIntervalMs.GetOr(DefaultSyncIntervalMs)
      ensures skew == clockSkewSeconds.GetOr(DefaultClockSkewSeconds)
      ensures state == InitialState(ttl) && session.None?
      ensures Valid()
    {
      platform := p;
      this.ticketId := ticketId;
      this.eventId := eventId;
      ttl := qrTtlSeconds.GetOr(DefaultTtlSeconds);
      this.syncIntervalMs := syncIntervalMs.GetOr(DefaultSyncIntervalMs);
      skew := clockSkewSeconds.GetOr(DefaultClockSkewSeconds);
      state := InitialState(qrTtlSeconds.GetOr(DefaultTtlSeconds));
      session := None;
    }

    /** `createRotatingQR` for this ticket with session key `key`, the clock reading `now`. */
    function Created(key: string, now: int): Result<string> {
      CreateRotatingQr(platform, ticketId, eventId, key, ttl, skew, now)
    }

    /**
     * `fetchSession`: on success hold the session and go online; on failure
     * go offline with the connection error, keeping whatever session was held.
     */
    method FetchSession(outcome: FetchOutcome, now: int) returns (success: bool)
      requires Valid()
      modifies this
      ensures Valid()
      ensures success <==> outcome.Fetched?
      ensures session == if outcome.Fetched? then Some(outcome.info) else old(session)
      ensures state == AfterFetch(old(state), outcome, now)
    {
      match outcome
      case Fetched(info) =>
        session := Some(info);
        state := state.(error := None, isOnline := true, lastSync := Some(now), isLoading := false);
        success := true;
      case FetchFailed(thrown) =>
        state := state.(error := Some(ConnectionErrorPrefix + ErrorText(thrown, UnknownError)),
                        isOnline := false, isLoading := false);
        success := false;
    }

    /**
     * `generateNewJWT` at epoch second `now`: nothing without a session;
     * otherwise a fresh token with a full countdown, or only the error on failure.
     */
    method GenerateNewJwt(now: int) returns (jwt: Option<string>)
      requires Valid()
      modifies this
      ensures Valid() && session == old(session)
      ensures old(session).None? ==> jwt.None? && state == old(state)
      ensures old(session).Some? ==>
                var created := Created(old(session).value.sessionKey, now);
                jwt == Returned(created) && state == AfterGenerate(old(state), created, ttl)
    {
      if session.None? {
        return None;
      }
      var created := CreateRotatingQr(platform, ticketId, eventId, session.value.sessionKey, ttl, skew, now);
      match created
      case Ok(token) =>
        state := state.(currentJwt := token, timeRemaining := ttl, error := None);
        jwt := Some(token);
      case Throws(message) =>
        state := state.(error := Some(message));
        jwt := None;
    }

    /**
     * One second of the rotation interval, which runs only while a session is
     * held; `regenerate` says a regeneration was scheduled.
     */
    method Tick() returns (regenerate: bool)
      requires Valid()
      modifies this
      ensures Valid() && session == old(session)
      ensures old(session).None? ==> !regenerate && state == old(state)
      ensures old(session).Some? ==>
                var step := Countdown(old(state).timeRemaining, ttl);
                regenerate == step.regenerate && state == old(state).(timeRemaining := step.remaining)
    {
      if session.None? {
        return false;
      }
      var next := state.timeRemaining - 1;
      if next <= 0 {
        state := state.(timeRemaining := ttl);
        regenerate := true;
      } else {
        state := state.(timeRemaining := next);
        regenerate := false;
      }
    }

    /** One firing of the sync interval: re-fetch only while online; offline it does nothing. */
    method SyncTick(outcome: FetchOutcome, now: int)
      requires Valid()
      modifies this
      ensures Valid()
      ensures !old(state.isOnline) ==> state == old(state) && session == old(session)
      ensures old(state.isOnline) ==>
                && state == AfterFetch(old(state), outcome, now)
                && session == if outcome.Fetched? then Some(outcome.info) else old(session)
    {
      if state.isOnline {
        var _ := FetchSession(outcome, now);
      }
    }

    /** The mount effect: fetch, and generate only when the fetch succeeded. */
    method Initialize(outcome: FetchOutcome, now: int) returns (jwt: Option<string>)
      requires Valid()
      modifies this
      ensures Valid()
      ensures outcome.FetchFailed? ==>
                jwt.None? && session == old(session) && state == AfterFetch(old(state), outcome, now)
      ensures outcome.Fetched? ==>
                var created := Created(outcome.info.sessionKey, now);
                && session == Some(outcome.info)
                && jwt == Returned(created)
                && state == AfterGenerate(AfterFetch(old(state), outcome, now), created, ttl)
    {
      var success := FetchSession(outcome, now);
      jwt := None;
      if success {
        jwt := GenerateNewJwt(now);
      }
    }

    /**
     * `retry`: clear the error and show loading, then fetch, and generate only
     * when the fetch succeeded. This is the one way back online once offline.
     */
    method Retry(outcome: FetchOutcome, now: int) returns (jwt: Option<string>)
      requires Valid()
      modifies this
      ensures Valid()
      ensures outcome.FetchFailed? ==>
                && jwt.None? && session == old(session)
                && state == AfterFetch(old(state).(error := None, isLoading := true), outcome, now)
      ensures outcome.Fetched? ==>
                var created := Created(outcome.info.sessionKey, now);
                && session == Some(outcome.info)
                && jwt == Returned(created)
                && state == AfterGenerate(AfterFetch(old(state).(error := None, isLoading := true), outcome, now), created, ttl)
    {
      state := state.(error := None, isLoading := true);
      var success := FetchSession(outcome, now);
      jwt := None;
      if success {
        jwt := GenerateNewJwt(now);
      }
    }

    /** `forceRotate`: regenerate from the held session without fetching. */
    method ForceRotate(now: int) returns (jwt: Option<string>)
      requires Valid()
      modifies this
      ensures Valid() && session == old(session)
      ensures old(session).None? ==> jwt.None? && state == old(state)
      ensures old(session).Some? ==>
                var created := Created(old(session).value.sessionKey, now);
                jwt == Returned(created) && state == AfterGenerate(old(state), created, ttl)
    {
      jwt := GenerateNewJwt(now);
    }
  }

  /**
   * The token the controller shows stays unexpired, by the client's own
   * check, through the countdown it starts: generated at `now` with TTL
   * `ttl`, it is not expired at any second before `now + ttl`.
   */
  lemma ShownTokenFreshDuringCountdown(p: Platform, ticketId: string, eventId: string, key: string,
                                       ttl: int, skew: int, now: int, token: string, elapsed: nat)
    requires Sound(p) && CreateRotatingQr(p, ticketId, eventId, key, ttl, skew, now) == Ok(token)
    requires elapsed < ttl
    ensures IsExpired(p, token, now + elapsed) == Ok(false)
  {
    RotatingTokenExpiry(p, ticketId, eventId, key, ttl, skew, now, token, now + elapsed);
  }
}
