/** The credential pool: the process-wide session state shared by the mobile
    server (mobile-backend/server.js) and the serverless handler
    (aws-lambda-handler.js), which hold the same globals and the same
    `rotateSession` / `checkSessionRotation` code.

    `PoolState` and the functions over it are the specification; the class
    `CredentialPool` holds the globals and its methods are proved against
    those functions. */
module Pool {
  import opened Basics
  import opened Upstream

  /** Which of the two servers holding this pool runs the code: the mobile
      server or the serverless handler. Their request logic differs in a
      few branches. */
  datatype Backend = Mobile | Lambda

  /** Consecutive failures after which `checkSessionRotation` rotates. */
  const MaxFailuresBeforeRotation: nat := 3

  // ---------------------------------------------------------------------
  // Building the session list from the configuration

  /** The characters `String.prototype.trim` strips: ECMAScript's
      WhiteSpace (tab, vertical tab, form feed, the byte-order mark and the
      Unicode space separators) and its LineTerminators. */
  predicate IsSpace(c: char) {
    || c == '\t' || c == '\U{000B}' || c == '\U{000C}' || c == '\U{FEFF}'
    || c == ' ' || c == '\U{00A0}' || c == '\U{1680}' || '\U{2000}' <= c <= '\U{200A}'
    || c == '\U{202F}' || c == '\U{205F}' || c == '\U{3000}'
    || c == '\n' || c == '\r' || c == '\U{2028}' || c == '\U{2029}'
  }

  function TrimStart(s: string): (r: string)
    ensures |r| <= |s| && r == s[|s| - |r|..]
    ensures r != [] ==> !IsSpace(r[0])
  {
    if s != [] && IsSpace(s[0]) then TrimStart(s[1..]) else s
  }

  function TrimEnd(s: string): (r: string)
    ensures |r| <= |s| && r == s[..|r|]
    ensures r != [] ==> !IsSpace(r[|r| - 1])
  {
    if s != [] && IsSpace(s[|s| - 1]) then TrimEnd(s[..|s| - 1]) else s
  }

  /** `String.prototype.trim`. */
  function Trim(s: string): string { TrimEnd(TrimStart(s)) }

  /** `s.split(',')`: the pieces between commas, empty pieces included. */
  function SplitComma(s: string): (r: seq<string>)
    ensures |r| >= 1
  {
    if s == [] then [""]
    else
      var rest := SplitComma(s[1..]);
      if s[0] == ',' then [""] + rest else [[s[0]] + rest[0]] + rest[1..]
  }

  /** `uniqueSessions`: the primary session (when configured, i.e. not
      empty), then the trimmed comma-separated backups (when configured),
      duplicates removed. */
  function ConfiguredSessions(primary: string, backups: string): seq<string>
  {
    var fromPrimary := if primary != "" then [primary] else [];
    var pieces := SplitComma(backups);
    var fromBackups := if backups != "" then seq(|pieces|, i requires 0 <= i < |pieces| => Trim(pieces[i])) else [];
    Dedup(fromPrimary + fromBackups)
  }

  /** The pool lists every configured session once, and the primary, when
      configured, is the first (and so the active) one. */
  lemma ConfiguredSessionsFacts(primary: string, backups: string)
    ensures var s := ConfiguredSessions(primary, backups);
      && NoDuplicates(s)
      && (primary != "" ==> s != [] && s[0] == primary)
      && (primary == "" && backups == "" ==> s == [])
  {
    var fromPrimary := if primary != "" then [primary] else [];
    var pieces := SplitComma(backups);
    var fromBackups := if backups != "" then seq(|pieces|, i requires 0 <= i < |pieces| => Trim(pieces[i])) else [];
    DedupFacts(fromPrimary + fromBackups);
  }

  // ---------------------------------------------------------------------
  // The pool as a value

  datatype PoolState = PoolState(
    sessions: seq<string>,        // contentSession.availableSessions
    rotationEnabled: bool,        // contentSession.rotationEnabled
    index: nat,                   // currentSessionIndex
    failures: nat,                // sessionFailureCount
    cookies: string,              // contentSession.cookies
    current: Option<string>)      // contentSession.currentSession

  /** A consistent pool: rotation is on exactly with two or more sessions,
      and the index is in range with the cookie naming its session. The
      current session is not part of it: start-up records none for an
      empty first session, and rotation (`RotateFacts`) sets it to the
      session at the new index. */
  ghost predicate ValidState(p: PoolState) {
    && p.rotationEnabled == (|p.sessions| > 1)
    && (p.sessions == [] ==> p.index == 0 && p.cookies == "" && p.current == None)
    && (p.sessions != [] ==>
          p.index < |p.sessions| && p.cookies == CookieFor(p.sessions[p.index]))
  }

  /** `uniqueSessions[0] || null`: the first session, unless there is none
      or it is the empty string, which is falsy. */
  function FirstCurrent(s: seq<string>): Option<string>
  {
    if s != [] && s[0] != "" then Some(s[0]) else None
  }

  /** The pool right after start-up. */
  function InitialPool(primary: string, backups: string): PoolState
  {
    var s := ConfiguredSessions(primary, backups);
    PoolState(s, |s| > 1, 0, 0, if s != [] then CookieFor(s[0]) else "", FirstCurrent(s))
  }

  /** Start-up gives a consistent pool on the first session; the current
      session is recorded unless the first session is the empty string
      (or there is none). */
  lemma InitialPoolValid(primary: string, backups: string)
    ensures var p := InitialPool(primary, backups);
      && ValidState(p) && p.sessions == ConfiguredSessions(primary, backups)
      && p.index == 0 && p.failures == 0
      && (p.rotationEnabled <==> |p.sessions| >= 2)
      && (p.current == None <==> p.sessions == [] || p.sessions[0] == "")
      && (p.current != None ==> p.current == Some(p.sessions[0]))
  {
  }

  /** With no primary session and a backup list whose first piece is
      blank (",abc" or " ,abc"), the first session is "" and no current
      session is recorded, though the cookie header names the empty
      session. */
  lemma BlankFirstBackupHasNoCurrent(backups: string)
    requires backups != "" && Trim(SplitComma(backups)[0]) == ""
    ensures var p := InitialPool("", backups);
      p.sessions != [] && p.sessions[0] == "" && p.cookies == CookieFor("") && p.current == None
  {
    var pieces := SplitComma(backups);
    var fromBackups := seq(|pieces|, i requires 0 <= i < |pieces| => Trim(pieces[i]));
    assert [] + fromBackups == fromBackups;
    DedupFacts(fromBackups);
  }

  /** A list that starts with a comma has an empty first piece. */
  lemma LeadingCommaBlank(backups: string)
    requires backups != "" && backups[0] == ','
    ensures Trim(SplitComma(backups)[0]) == ""
  {
  }

  /** `rotateSession()`: with fewer than two sessions nothing changes;
      otherwise the next session (wrapping) becomes active and the failure
      count is cleared. */
  function Rotation(p: PoolState): (bool, PoolState)
  {
    if |p.sessions| <= 1 then (false, p)
    else
      var i := (p.index + 1) % |p.sessions|;
      (true, p.(index := i, cookies := CookieFor(p.sessions[i]), current := Some(p.sessions[i]), failures := 0))
  }

  /** `checkSessionRotation()`: count one more failure; rotate once the
      count has reached the threshold and rotation is enabled. */
  function FailureCheck(p: PoolState): (bool, PoolState)
  {
    var q := p.(failures := p.failures + 1);
    if q.failures >= MaxFailuresBeforeRotation && q.rotationEnabled then Rotation(q) else (false, q)
  }

  /** `sessionFailureCount = 0` after a successful request. */
  function Succeeded(p: PoolState): PoolState { p.(failures := 0) }

  /** Rotation keeps the pool consistent, moves to the next index modulo the
      pool size and clears the failure count; with fewer than two sessions
      it changes nothing and reports false. */
  lemma RotateFacts(p: PoolState)
    requires ValidState(p)
    ensures ValidState(Rotation(p).1)
    ensures Rotation(p).1.sessions == p.sessions
    ensures Rotation(p).0 <==> |p.sessions| >= 2
    ensures !Rotation(p).0 ==> Rotation(p).1 == p
    ensures Rotation(p).0 ==> Rotation(p).1.index == (p.index + 1) % |p.sessions| && Rotation(p).1.failures == 0
    ensures Rotation(p).0 ==> Rotation(p).1.current == Some(p.sessions[Rotation(p).1.index])
  {
  }

  /** `checkSessionRotation` always counts the failure; it rotates exactly
      when the new count reaches the threshold and the pool has at least two
      sessions, and otherwise leaves the active session alone. The pool
      stays consistent. */
  lemma FailureCheckFacts(p: PoolState)
    requires ValidState(p)
    ensures ValidState(FailureCheck(p).1) && FailureCheck(p).1.sessions == p.sessions
    ensures FailureCheck(p).0 <==> p.failures + 1 >= MaxFailuresBeforeRotation && |p.sessions| >= 2
    ensures !FailureCheck(p).0 ==> FailureCheck(p).1 == p.(failures := p.failures + 1)
    ensures FailureCheck(p).0 ==>
      && FailureCheck(p).1.index == (p.index + 1) % |p.sessions| && FailureCheck(p).1.failures == 0
      && FailureCheck(p).1.current == Some(p.sessions[FailureCheck(p).1.index])
    ensures ValidState(Succeeded(p))
  {
    RotateFacts(p.(failures := p.failures + 1));
  }

  lemma CookieInjective(a: string, b: string)
    ensures CookieFor(a) == CookieFor(b) ==> a == b
  {
    if CookieFor(a) == CookieFor(b) {
      assert a == CookieFor(a)[10..];
      assert b == CookieFor(b)[10..];
    }
  }

  /** In a pool without duplicates a rotation always switches to a
      different session cookie. */
  lemma RotationSwitchesCookie(p: PoolState)
    requires ValidState(p) && NoDuplicates(p.sessions) && |p.sessions| >= 2
    ensures Rotation(p).1.cookies != p.cookies
  {
    CookieInjective(p.sessions[(p.index + 1) % |p.sessions|], p.sessions[p.index]);
    var n := |p.sessions|;
    var i := (p.index + 1) % n;
    assert i != p.index;
    var a, b := p.sessions[i], p.sessions[p.index];
    assert a != b;
  }

  /** `contentSession.currentSession` is the session at the index, except
      at start-up with an empty first session, when it is null. */
  ghost predicate TracksCurrent(p: PoolState) {
    && (p.sessions == [] ==> p.current == None)
    && (p.sessions != [] ==>
          p.index < |p.sessions|
          && (p.current == Some(p.sessions[p.index]) || (p.index == 0 && p.sessions[0] == "" && p.current == None)))
  }

  /** Start-up establishes the current-session invariant, and rotating,
      counting a failure and clearing the count keep it. */
  lemma CurrentTracked(primary: string, backups: string, p: PoolState)
    requires ValidState(p) && TracksCurrent(p)
    ensures TracksCurrent(InitialPool(primary, backups))
    ensures TracksCurrent(Rotation(p).1) && TracksCurrent(FailureCheck(p).1) && TracksCurrent(Succeeded(p))
  {
    RotateFacts(p);
    FailureCheckFacts(p);
  }

  /** `k` rotations in a row. */
  function RotateTimes(p: PoolState, k: nat): PoolState
  {
    if k == 0 then p else Rotation(RotateTimes(p, k - 1)).1
  }

  /** Rotating a pool of at most one session any number of times is a
      no-op. */
  lemma {:induction false} RotateSmallPoolIsNoop(p: PoolState, k: nat)
    requires |p.sessions| <= 1
    ensures RotateTimes(p, k) == p
  {
    if k > 0 {
      RotateSmallPoolIsNoop(p, k - 1);
    }
  }

  /** `k` rotations of a pool of at least two sessions advance the index by
      `k` modulo the pool size; `n` rotations come back to the start. */
  lemma {:induction false} RotateTimesIndex(p: PoolState, k: nat)
    requires ValidState(p) && |p.sessions| >= 2
    ensures ValidState(RotateTimes(p, k)) && RotateTimes(p, k).sessions == p.sessions
    ensures RotateTimes(p, k).index == (p.index + k) % |p.sessions|
  {
    if k > 0 {
      RotateTimesIndex(p, k - 1);
      var prev := RotateTimes(p, k - 1);
      RotateFacts(prev);
      IndexAdvance(p.index, k, |p.sessions|, prev.index, RotateTimes(p, k).index);
    }
  }

  /** One more step past `i + (k - 1)` lands on `i + k`, modulo `n`. */
  lemma IndexAdvance(i: nat, k: nat, n: nat, before: nat, after: nat)
    requires n > 0 && k > 0 && before == (i + (k - 1)) % n && after == (before + 1) % n
    ensures after == (i + k) % n
  {
    ModSucc(i + (k - 1), n);
  }

  lemma RotateFullCircle(p: PoolState)
    requires ValidState(p) && |p.sessions| >= 2
    ensures RotateTimes(p, |p.sessions|).index == p.index
    ensures RotateTimes(p, |p.sessions|).cookies == p.cookies
  {
    RotateTimesIndex(p, |p.sessions|);
    var n := |p.sessions|;
    ModUnique(p.index + n, n, 1, p.index);
  }

  /** `k` failed requests in a row, each reported to checkSessionRotation. */
  function FailTimes(p: PoolState, k: nat): PoolState
  {
    if k == 0 then p else FailureCheck(FailTimes(p, k - 1)).1
  }

  /** With rotation disabled the failure count just keeps growing, and the
      active session never changes. */
  lemma {:induction false} FailuresAccumulateWithoutRotation(p: PoolState, k: nat)
    requires !p.rotationEnabled
    ensures FailTimes(p, k) == p.(failures := p.failures + k)
  {
    if k > 0 {
      FailuresAccumulateWithoutRotation(p, k - 1);
    }
  }

  /** From a clean count with rotation enabled, the first two failures do
      not rotate and the third does, leaving the count at zero on the next
      session. */
  lemma ThirdFailureRotates(p: PoolState)
    requires ValidState(p) && p.rotationEnabled && p.failures == 0
    ensures !FailureCheck(p).0 && !FailureCheck(FailTimes(p, 1)).0
    ensures FailureCheck(FailTimes(p, 2)).0
    ensures FailTimes(p, 3).failures == 0
    ensures FailTimes(p, 3) == Rotation(p).1
  {
    TwoFailures(p);
    var q := FailTimes(p, 2);
    assert FailureCheck(q) == Rotation(q.(failures := 3));
    RotationIgnoresCount(q.(failures := 3), p);
  }

  /** Rotation does not depend on the failure count it clears. */
  lemma RotationIgnoresCount(p: PoolState, q: PoolState)
    requires p.(failures := 0) == q.(failures := 0)
    ensures Rotation(p).0 == Rotation(q).0 && Rotation(p).1 == Rotation(q).1.(failures := Rotation(p).1.failures)
    ensures |p.sessions| >= 2 ==> Rotation(p).1 == Rotation(q).1
  {
    assert p.sessions == q.sessions && p.index == q.index;
  }

  /** The first two failures from a clean count only count. */
  lemma TwoFailures(p: PoolState)
    requires p.failures == 0
    ensures !FailureCheck(p).0 && !FailureCheck(FailTimes(p, 1)).0
    ensures FailTimes(p, 1) == p.(failures := 1) && FailTimes(p, 2) == p.(failures := 2)
  {
    assert FailTimes(p, 0) == p;
  }

  /** A success in between restarts the count: two failures, a success and
      one more failure do not rotate. */
  lemma SuccessRestartsCount(p: PoolState)
    requires ValidState(p) && p.failures == 0
    ensures var q := Succeeded(FailTimes(p, 2));
      !FailureCheck(q).0 && FailureCheck(q).1.index == p.index && FailureCheck(q).1.failures == 1
  {
    assert FailTimes(p, 0) == p;
    var p1 := FailTimes(p, 1);
    assert p1 == p.(failures := 1);
    assert FailTimes(p, 2) == FailureCheck(p1).1 == p.(failures := 2);
  }

  // ---------------------------------------------------------------------
  // The globals

  class CredentialPool {
    const sessions: seq<string>
    const rotationEnabled: bool
    var index: nat
    var failures: nat
    var cookies: string
    var current: Option<string>
    /** contentSession.authenticated: some session is configured. */
    var authenticated: bool

    function State(): PoolState
      reads this
    {
      PoolState(sessions, rotationEnabled, index, failures, cookies, current)
    }

    ghost predicate Valid()
      reads this
    {
      ValidState(State()) && authenticated == (sessions != [])
    }

    /** Module start-up from PIXIV_PHPSESSID and PIXIV_BACKUP_SESSIONS
        (empty when unset). */
    constructor (primary: string, backups: string)
      ensures Valid() && State() == InitialPool(primary, backups)
      ensures sessions == ConfiguredSessions(primary, backups)
    {
      var s := ConfiguredSessions(primary, backups);
      sessions := s;
      rotationEnabled := |s| > 1;
      index := 0;
      failures := 0;
      cookies := if s != [] then CookieFor(s[0]) else "";
      current := if s != [] && s[0] != "" then Some(s[0]) else None;
      authenticated := |s| > 0;
    }

    method Rotate() returns (rotated: bool)
      requires Valid()
      modifies this
      ensures Valid() && (rotated, State()) == Rotation(old(State()))
      ensures authenticated == old(authenticated)
    {
      if |sessions| <= 1 {
        return false;
      }
      index := (index + 1) % |sessions|;
      var next := sessions[index];
      current := Some(next);
      cookies := CookieFor(next);
      failures := 0;
      rotated := true;
    }

    method CheckRotation() returns (rotated: bool)
      requires Valid()
      modifies this
      ensures Valid() && (rotated, State()) == FailureCheck(old(State()))
      ensures authenticated == old(authenticated)
    {
      failures := failures + 1;
      if failures >= MaxFailuresBeforeRotation && rotationEnabled {
        rotated := Rotate();
        return;
      }
      rotated := false;
    }

    method ResetFailures()
      requires Valid()
      modifies this
      ensures Valid() && State() == Succeeded(old(State()))
      ensures authenticated == old(authenticated)
    {
      failures := 0;
    }
  }
}
