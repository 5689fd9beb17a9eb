/** Login sessions: an idle window that requests extend, throttled to one write a minute, inside
    an absolute window. Times are milliseconds; `now` is a parameter, and each validation is one
    atomic step. SHA-256 is taken as injective, so rows are keyed by the raw token. */
module Sessions {
  import opened Tables

  const IDLE_TIMEOUT := 30 * 60 * 1000
  const ABSOLUTE_TIMEOUT := 8 * 60 * 60 * 1000
  const TOUCH_THROTTLE := 60 * 1000

  type Token = Text

  datatype Session = Session(userId: Uuid, createdAt: nat, lastActivityAt: nat, idleExpiresAt: nat,
                             absoluteExpiresAt: nat, revokedAt: Option<nat>)

  function NewSession(userId: Uuid, now: nat): Session {
    Session(userId, now, now, now + IDLE_TIMEOUT, now + ABSOLUTE_TIMEOUT, None)
  }

  /** The WHERE clause of the lookup. */
  predicate Live(s: Session, now: nat) {
    s.revokedAt.None? && s.idleExpiresAt > now && s.absoluteExpiresAt > now
  }

  function Touched(s: Session, now: nat): Session {
    if now - s.lastActivityAt < TOUCH_THROTTLE then s
    else s.(lastActivityAt := now, idleExpiresAt := now + IDLE_TIMEOUT)
  }

  function Revoked(s: Session, now: nat): Session {
    if s.revokedAt.None? then s.(revokedAt := Some(now)) else s
  }

  class SessionService {
    var sessions: map<Token, Session>

    constructor ()
      ensures sessions == map[]
    {
      sessions := map[];
    }

    method CreateSession(userId: Uuid, token: Token, now: nat) returns (created: Session)
      requires token !in sessions
      modifies this
      ensures created == Session(userId, now, now, now + 30 * 60 * 1000, now + 8 * 60 * 60 * 1000, None)
      ensures sessions == old(sessions)[token := created]
      ensures sessions == Handled(old(sessions), Create(token, userId, now))
    {
      created := Session(userId, now, now, now + IDLE_TIMEOUT, now + ABSOLUTE_TIMEOUT, None);
      sessions := sessions[token := created];
    }

    /** Returns the row as it was read, before the touch. */
    method ValidateToken(token: Token, now: nat) returns (row: Option<Session>)
      modifies this
      ensures row == if token in old(sessions) && Live(old(sessions)[token], now) then Some(old(sessions)[token])
                     else None
      ensures sessions == Handled(old(sessions), Validate(token, now))
    {
      if token !in sessions || !Live(sessions[token], now) {
        return None;
      }
      row := Some(sessions[token]);
      Touch(token, row.value, now);
    }

    method Touch(token: Token, session: Session, now: nat)
      requires token in sessions && sessions[token] == session
      modifies this
      ensures sessions == old(sessions)[token := Touched(session, now)]
    {
      var elapsedSinceLastActivity := now - session.lastActivityAt;
      if elapsedSinceLastActivity < TOUCH_THROTTLE {
        return;
      }
      sessions := sessions[token := session.(lastActivityAt := now, idleExpiresAt := now + IDLE_TIMEOUT)];
    }

    method RevokeByToken(token: Token, now: nat)
      modifies this
      ensures sessions == Handled(old(sessions), Revoke(token, now))
    {
      if token in sessions && sessions[token].revokedAt.None? {
        sessions := sessions[token := sessions[token].(revokedAt := Some(now))];
      }
    }
  }

  // ----- runs -----

  datatype Event =
    | Create(token: Token, userId: Uuid, at: nat)
    | Validate(token: Token, at: nat)
    | Revoke(token: Token, at: nat)

  function Seen(s: Session, e: Event): Session {
    match e
    case Create(_, _, _) => s
    case Validate(_, at) => if Live(s, at) then Touched(s, at) else s
    case Revoke(_, at) => Revoked(s, at)
  }

  /** One event on the whole table. Random tokens do not collide: a second `Create` is ignored. */
  function Handled(sessions: map<Token, Session>, e: Event): map<Token, Session> {
    if e.token in sessions then sessions[e.token := Seen(sessions[e.token], e)]
    else if e.Create? then sessions[e.token := NewSession(e.userId, e.at)]
    else sessions
  }

  function Table(events: seq<Event>): map<Token, Session> {
    if events == [] then map[] else Handled(Table(events[..|events| - 1]), events[|events| - 1])
  }

  /** The request at position `i` of the run was let in. */
  predicate Accepted(events: seq<Event>, i: nat) {
    && i < |events| && events[i].Validate?
    && events[i].token in Table(events[..i]) && Live(Table(events[..i])[events[i].token], events[i].at)
  }

  /** The clock never runs backwards. */
  ghost predicate Ordered(events: seq<Event>) {
    forall i, j | 0 <= i < j < |events| :: events[i].at <= events[j].at
  }

  /** `i` is where the token's session was created. */
  predicate CreatedAt(events: seq<Event>, token: Token, i: nat) {
    i < |events| && events[i].Create? && events[i].token == token && token !in Table(events[..i])
  }

  ghost predicate RevokedIn(events: seq<Event>, token: Token, i: nat, n: nat) {
    exists k :: i < k < n && k < |events| && events[k].Revoke? && events[k].token == token
  }

  /** The latest moment before position `n` at which the session was created or let in. */
  ghost function LastSeen(events: seq<Event>, token: Token, i: nat, n: nat): nat
    requires i < n <= |events|
    decreases n
  {
    if n == i + 1 then events[i].at
    else if events[n - 1].token == token && Accepted(events, n - 1) then events[n - 1].at
    else LastSeen(events, token, i, n - 1)
  }

  /** What a row says of a session created at `created` and last let in at `last`. The stored
      activity time lags the true one by less than the throttle. */
  ghost predicate Tracked(s: Session, created: nat, last: nat, revoked: bool) {
    && s.createdAt == created && s.absoluteExpiresAt == created + ABSOLUTE_TIMEOUT
    && s.idleExpiresAt == s.lastActivityAt + IDLE_TIMEOUT
    && s.lastActivityAt <= last < s.lastActivityAt + TOUCH_THROTTLE
    && (s.revokedAt.Some? <==> revoked)
  }

  lemma SeenTracks(s: Session, created: nat, last: nat, revoked: bool, e: Event)
    requires Tracked(s, created, last, revoked) && last <= e.at
    ensures Tracked(Seen(s, e), created, if e.Validate? && Live(s, e.at) then e.at else last, revoked || e.Revoke?)
  {
  }

  ghost predicate Tracks(events: seq<Event>, token: Token, i: nat, n: nat)
    requires i < n <= |events|
  {
    && token in Table(events[..n])
    && Tracked(Table(events[..n])[token], events[i].at, LastSeen(events, token, i, n), RevokedIn(events, token, i, n))
    && LastSeen(events, token, i, n) <= events[n - 1].at
  }

  lemma TableStep(events: seq<Event>, n: nat)
    requires n < |events|
    ensures Table(events[..n + 1]) == Handled(Table(events[..n]), events[n])
  {
    assert events[..n + 1][..n] == events[..n];
  }

  lemma RevokedStep(events: seq<Event>, token: Token, i: nat, n: nat)
    requires i < n < |events|
    ensures RevokedIn(events, token, i, n + 1)
            <==> RevokedIn(events, token, i, n) || (events[n].Revoke? && events[n].token == token)
  {
  }

  lemma FirstRowTracks(events: seq<Event>, token: Token, i: nat)
    requires CreatedAt(events, token, i)
    ensures Tracks(events, token, i, i + 1)
  {
    TableStep(events, i);
  }

  lemma NextRowTracks(events: seq<Event>, token: Token, i: nat, n: nat)
    requires i < n < |events| && Tracks(events, token, i, n) && events[n - 1].at <= events[n].at
    ensures Tracks(events, token, i, n + 1)
  {
    TableStep(events, n);
    RevokedStep(events, token, i, n);
    var s, last := Table(events[..n])[token], LastSeen(events, token, i, n);
    if events[n].token == token {
      SeenTracks(s, events[i].at, last, RevokedIn(events, token, i, n), events[n]);
    }
  }

  lemma {:induction false} RowTracks(events: seq<Event>, token: Token, i: nat, n: nat)
    requires Ordered(events) && CreatedAt(events, token, i) && i < n <= |events|
    ensures Tracks(events, token, i, n)
    decreases n
  {
    if n == i + 1 {
      FirstRowTracks(events, token, i);
    } else {
      RowTracks(events, token, i, n - 1);
      NextRowTracks(events, token, i, n - 1);
    }
  }

  // ----- whose session it is -----

  /** When the session was first revoked. */
  ghost function FirstRevocation(events: seq<Event>, token: Token, i: nat, n: nat): Option<nat>
    requires i < n <= |events|
    decreases n
  {
    if n == i + 1 then None
    else
      var before := FirstRevocation(events, token, i, n - 1);
      if before.None? && events[n - 1].Revoke? && events[n - 1].token == token then Some(events[n - 1].at) else before
  }

  /** The parts of a row that no request changes, and its revocation. */
  ghost predicate Belongs(s: Session, userId: Uuid, created: nat, revoked: Option<nat>) {
    && s.userId == userId && s.createdAt == created && s.absoluteExpiresAt == created + 8 * 60 * 60 * 1000
    && s.revokedAt == revoked
  }

  lemma SeenBelongs(s: Session, userId: Uuid, created: nat, revoked: Option<nat>, e: Event)
    requires Belongs(s, userId, created, revoked)
    ensures Belongs(Seen(s, e), userId, created, if revoked.None? && e.Revoke? then Some(e.at) else revoked)
  {
  }

  /** Whatever came in between, on this token or any other, a token's row is its creator's: the
      user, the creation time, the absolute expiry and the first revocation time. */
  lemma {:induction false} RowBelongs(events: seq<Event>, token: Token, i: nat, n: nat)
    requires CreatedAt(events, token, i) && i < n <= |events|
    ensures token in Table(events[..n])
    ensures Belongs(Table(events[..n])[token], events[i].userId, events[i].at, FirstRevocation(events, token, i, n))
    decreases n
  {
    TableStep(events, n - 1);
    if n > i + 1 {
      RowBelongs(events, token, i, n - 1);
      if events[n - 1].token == token {
        SeenBelongs(Table(events[..n - 1])[token], events[i].userId, events[i].at,
                    FirstRevocation(events, token, i, n - 1), events[n - 1]);
      }
    }
  }

  /** Every row was created by some event. */
  lemma {:induction false} RowWasCreated(events: seq<Event>, token: Token, n: nat) returns (i: nat)
    requires n <= |events| && token in Table(events[..n])
    ensures i < n && CreatedAt(events, token, i)
    decreases n
  {
    assert n > 0;
    TableStep(events, n - 1);
    if token in Table(events[..n - 1]) {
      i := RowWasCreated(events, token, n - 1);
    } else {
      i := n - 1;
    }
  }

  /** A request that is let in is let in as the user its token was created for. */
  lemma AcceptedAsItsUser(events: seq<Event>, n: nat) returns (i: nat)
    requires Accepted(events, n)
    ensures i < n && CreatedAt(events, events[n].token, i)
    ensures Table(events[..n])[events[n].token].userId == events[i].userId
  {
    i := RowWasCreated(events, events[n].token, n);
    RowBelongs(events, events[n].token, i, n);
  }

  /** A token is created once. */
  lemma CreatedOnce(events: seq<Event>, token: Token, i: nat, j: nat)
    requires CreatedAt(events, token, i) && CreatedAt(events, token, j)
    ensures i == j
  {
    if i < j {
      RowBelongs(events, token, i, j);
    } else if j < i {
      RowBelongs(events, token, j, i);
    }
  }

  // ----- the windows -----

  /** A request is let in only if nobody revoked the session before, less than 8 hours after its
      creation and less than 30 minutes after it was created or last let in. */
  lemma AcceptedIsInWindow(events: seq<Event>, token: Token, i: nat, n: nat)
    requires Ordered(events) && CreatedAt(events, token, i) && i < n
    requires Accepted(events, n) && events[n].token == token
    ensures !RevokedIn(events, token, i, n)
    ensures events[n].at < events[i].at + 8 * 60 * 60 * 1000
    ensures events[n].at < LastSeen(events, token, i, n) + 30 * 60 * 1000
  {
    RowTracks(events, token, i, n);
  }

  /** A client that never pauses for more than 29 minutes is let in until the session is 8 hours
      old or revoked. */
  lemma SteadyClientIsAccepted(events: seq<Event>, token: Token, i: nat, n: nat)
    requires Ordered(events) && CreatedAt(events, token, i) && i < n < |events|
    requires events[n].Validate? && events[n].token == token && !RevokedIn(events, token, i, n)
    requires events[n].at < events[i].at + ABSOLUTE_TIMEOUT
    requires events[n].at <= LastSeen(events, token, i, n) + IDLE_TIMEOUT - TOUCH_THROTTLE
    ensures Accepted(events, n)
  {
    RowTracks(events, token, i, n);
  }

  /** The client's own requests, as seen by the client: each comes at most 29 minutes after the
      one before it, or after the creation. */
  ghost predicate Steady(events: seq<Event>, token: Token, i: nat) {
    i < |events| &&
    forall k {:trigger Previous(events, token, i, k)} | i < k < |events| && events[k].Validate?
               && events[k].token == token ::
      events[k].at <= Previous(events, token, i, k) + IDLE_TIMEOUT - TOUCH_THROTTLE
  }

  /** When the client last asked before position `n`, whatever the answer. */
  ghost function Previous(events: seq<Event>, token: Token, i: nat, n: nat): nat
    requires i < n <= |events|
    decreases n
  {
    if n == i + 1 then events[i].at
    else if events[n - 1].token == token && events[n - 1].Validate? then events[n - 1].at
    else Previous(events, token, i, n - 1)
  }

  lemma RevokedEarlier(events: seq<Event>, token: Token, i: nat, k: nat, n: nat)
    requires k <= n && !RevokedIn(events, token, i, n)
    ensures !RevokedIn(events, token, i, k)
  {
  }

  lemma {:induction false} SteadySeen(events: seq<Event>, token: Token, i: nat, n: nat)
    requires Ordered(events) && CreatedAt(events, token, i) && i < n <= |events| && Steady(events, token, i)
    requires !RevokedIn(events, token, i, n) && events[n - 1].at < events[i].at + ABSOLUTE_TIMEOUT
    ensures Previous(events, token, i, n) == LastSeen(events, token, i, n)
    decreases n
  {
    if n > i + 1 {
      RevokedEarlier(events, token, i, n - 1, n);
      assert events[n - 2].at <= events[n - 1].at;
      SteadySeen(events, token, i, n - 1);
      if events[n - 1].Validate? && events[n - 1].token == token {
        SteadyClientIsAccepted(events, token, i, n - 1);
      } else {
        NotAskedNotSeen(events, token, n - 1);
      }
    }
  }

  lemma NotAskedNotSeen(events: seq<Event>, token: Token, k: nat)
    requires k < |events| && !(events[k].Validate? && events[k].token == token)
    ensures !(events[k].token == token && Accepted(events, k))
  {
  }

  /** No request of a steady client is ever turned away before absolute expiry or revocation. */
  lemma SteadyClientNeverRejected(events: seq<Event>, token: Token, i: nat, n: nat)
    requires Ordered(events) && CreatedAt(events, token, i) && Steady(events, token, i)
    requires i < n < |events| && events[n].Validate? && events[n].token == token
    requires !RevokedIn(events, token, i, n) && events[n].at < events[i].at + ABSOLUTE_TIMEOUT
    ensures Accepted(events, n)
  {
    SteadySeen(events, token, i, n);
    SteadyClientIsAccepted(events, token, i, n);
  }

  // ----- rejection is final -----

  /** The row is there and fails the lookup. */
  predicate Dead(sessions: map<Token, Session>, token: Token, now: nat) {
    token in sessions && !Live(sessions[token], now)
  }

  lemma DeadStep(sessions: map<Token, Session>, token: Token, e: Event, next: nat)
    requires Dead(sessions, token, e.at) && e.at <= next
    ensures Dead(Handled(sessions, e), token, next)
  {
  }

  /** Once a session's row fails the lookup it fails every later one. */
  lemma {:induction false} RejectedStays(events: seq<Event>, token: Token, k: nat, n: nat)
    requires Ordered(events) && k < n < |events| && Dead(Table(events[..k]), token, events[k].at)
    ensures Dead(Table(events[..n]), token, events[n].at)
    decreases n
  {
    if n > k + 1 {
      RejectedStays(events, token, k, n - 1);
    }
    TableStep(events, n - 1);
    DeadStep(Table(events[..n - 1]), token, events[n - 1], events[n].at);
  }

  /** A session that has been turned away is never let in again. */
  lemma RejectionIsFinal(events: seq<Event>, token: Token, i: nat, k: nat, n: nat)
    requires Ordered(events) && CreatedAt(events, token, i) && i < k < n < |events|
    requires events[k].Validate? && events[k].token == token && !Accepted(events, k)
    requires events[n].token == token
    ensures !Accepted(events, n)
  {
    RowTracks(events, token, i, k);
    RejectedStays(events, token, k, n);
  }

  // ----- the 29 minutes are exact -----

  /** A pause of `gap` after the last acceptance is safe in every history. */
  ghost predicate SafeGap(gap: nat) {
    forall events, token, i, n | PauseOf(events, token, i, n, gap) :: Accepted(events, n)
  }

  ghost predicate PauseOf(events: seq<Event>, token: Token, i: nat, n: nat, gap: nat) {
    && Ordered(events) && CreatedAt(events, token, i) && i < n < |events|
    && events[n].Validate? && events[n].token == token && !RevokedIn(events, token, i, n)
    && events[n].at < events[i].at + ABSOLUTE_TIMEOUT
    && events[n].at == LastSeen(events, token, i, n) + gap
  }

  function LatePause(gap: nat): seq<Event> {
    [Create([], 0, 0), Validate([], TOUCH_THROTTLE - 1), Validate([], TOUCH_THROTTLE - 1 + gap)]
  }

  function OnePause(gap: nat): seq<Event> {
    [Create([], 0, 0), Validate([], gap)]
  }

  lemma LatePauseIsRejected(gap: nat)
    requires IDLE_TIMEOUT - TOUCH_THROTTLE < gap && TOUCH_THROTTLE - 1 + gap < ABSOLUTE_TIMEOUT
    ensures PauseOf(LatePause(gap), [], 0, 2, gap) && !Accepted(LatePause(gap), 2)
  {
    var events := LatePause(gap);
    TableStep(events, 0);
    TableStep(events, 1);
    assert Table(events[..0]) == map[];
    assert Accepted(events, 1);
    assert LastSeen(events, [], 0, 2) == TOUCH_THROTTLE - 1;
  }

  lemma OnePauseIsRejected(gap: nat)
    requires IDLE_TIMEOUT <= gap < ABSOLUTE_TIMEOUT
    ensures PauseOf(OnePause(gap), [], 0, 1, gap) && !Accepted(OnePause(gap), 1)
  {
    var events := OnePause(gap);
    TableStep(events, 0);
    assert Table(events[..0]) == map[];
    assert LastSeen(events, [], 0, 1) == 0;
  }

  /** The idle promise a client can rely on is exactly 29 minutes, the idle window less the touch
      throttle, although the window itself is 30: a pause is safe whatever came before it if and
      only if it is at most that long (or so long that the session is over anyway). */
  lemma SafeGapIsTwentyNineMinutes(gap: nat)
    ensures SafeGap(gap) <==> gap <= 29 * 60 * 1000 || gap >= 8 * 60 * 60 * 1000
  {
    if gap <= IDLE_TIMEOUT - TOUCH_THROTTLE || gap >= ABSOLUTE_TIMEOUT {
      forall events, token, i, n | PauseOf(events, token, i, n, gap) ensures Accepted(events, n) {
        RowTracks(events, token, i, n);
        CreationFirst(events, token, i, n);
        SteadyClientIsAccepted(events, token, i, n);
      }
    } else if TOUCH_THROTTLE - 1 + gap < ABSOLUTE_TIMEOUT {
      LatePauseIsRejected(gap);
    } else {
      OnePauseIsRejected(gap);
    }
  }

  lemma {:induction false} CreationFirst(events: seq<Event>, token: Token, i: nat, n: nat)
    requires Ordered(events) && i < n <= |events|
    ensures events[i].at <= LastSeen(events, token, i, n)
    decreases n
  {
    if n > i + 1 {
      CreationFirst(events, token, i, n - 1);
    }
  }
}
