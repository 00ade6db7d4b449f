/** Catalogue resolution on the two servers: reading a profile reply into
    the newest-first list of a user's artworks (`processUserArtworksResponse`)
    and fetching that reply with the pool's cookie (`getUserArtworks`). */
module Catalogue {
  import opened Basics
  import opened Upstream
  import opened Pool

  /** `{id, url, title}` as the servers hand an artwork around. */
  datatype ArtworkRef = ArtworkRef(id: Id, url: string, title: string)

  function ArtworkTitle(id: string): string { "Artwork " + id }

  function RefFor(id: Id): ArtworkRef { ArtworkRef(id, ArtworkPageUrl(id), ArtworkTitle(id)) }

  /** The ids of a list of refs, in order. */
  function IdsOf(refs: seq<ArtworkRef>): seq<Id>
  {
    if refs == [] then [] else [refs[0].id] + IdsOf(refs[1..])
  }

  function RefsFor(ids: seq<Id>): (r: seq<ArtworkRef>)
    ensures |r| == |ids| && forall i :: 0 <= i < |ids| ==> r[i] == RefFor(ids[i])
  {
    seq(|ids|, i requires 0 <= i < |ids| => RefFor(ids[i]))
  }

  /** One ref per id: the ids read back from the refs in the same order,
      two refs are equal exactly when their ids are, and each ref's page
      URL and title are those of its id. */
  lemma RefsForReadBack(ids: seq<Id>)
    ensures var r := RefsFor(ids);
      && IdsOf(r) == ids
      && (forall i, j :: 0 <= i < |r| && 0 <= j < |r| ==> (r[i] == r[j] <==> ids[i] == ids[j]))
      && (forall i :: 0 <= i < |r| ==> r[i].url == ArtworkPageUrl(ids[i]) && r[i].title == ArtworkTitle(ids[i]))
  {
    IdsReadBack(RefsFor(ids), ids);
  }

  lemma {:induction false} IdsReadBack(r: seq<ArtworkRef>, ids: seq<Id>)
    requires |r| == |ids| && forall i :: 0 <= i < |r| ==> r[i].id == ids[i]
    ensures IdsOf(r) == ids
  {
    if r != [] {
      IdsReadBack(r[1..], ids[1..]);
    }
  }

  /** `parseInt` of an id (exact below 2^53, see `DecimalValue`). */
  function IdValue(id: Id): int { DecimalValue(id) }

  /** `Object.keys(data.body.illusts)` when `data.body.illusts` is truthy,
      and nothing otherwise. The empty array the site sends for a profile
      without artworks is truthy and has no keys. */
  function ListedIds(json: Option<Json>): seq<Id>
  {
    if json.Some? && json.value.body.Record? && json.value.body.illusts.IllustKeys?
    then json.value.body.illusts.ids
    else []
  }

  /** The ids, newest (numerically largest) first; ties keep their order. */
  function NewestFirst(ids: seq<Id>): seq<Id> { SortDesc(ids, IdValue) }

  const DefaultUserLimit: nat := 25
  const MaxUserLimit: nat := 50

  /** `Math.min(limit || 25, 50)`. */
  function SafeLimit(limit: nat): (n: nat)
    ensures 1 <= n <= MaxUserLimit
    ensures limit == 0 ==> n == DefaultUserLimit
    ensures 0 < limit <= MaxUserLimit ==> n == limit
  {
    Min(if limit == 0 then DefaultUserLimit else limit, MaxUserLimit)
  }

  const NoArtworksMessage := "No artworks found for this user"

  /** `processUserArtworksResponse(data, userId, limit)`; the same code in
      both servers. `json` is `None` when the body is not JSON (then
      `data` is a string and neither `error` nor `body` is set). */
  function ProcessUserArtworks(json: Option<Json>, limit: nat): Result<seq<ArtworkRef>>
  {
    if json.Some? && json.value.error then Err(JsApiMessage(json.value.message))
    else
      var ids := NewestFirst(ListedIds(json));
      if ids == [] then Err(NoArtworksMessage)
      else Ok(RefsFor(PrefixTo(ids, SafeLimit(limit))))
  }

  /** The error cases: the reply's error flag (its message, or "API
      error"), and an empty id set. */
  lemma ProcessUserArtworksErrors(json: Option<Json>, limit: nat)
    ensures ProcessUserArtworks(json, limit).Err? <==>
      (json.Some? && json.value.error) || ListedIds(json) == []
    ensures json.Some? && json.value.error ==>
      ProcessUserArtworks(json, limit) == Err(JsApiMessage(json.value.message))
    ensures !(json.Some? && json.value.error) && ListedIds(json) == [] ==>
      ProcessUserArtworks(json, limit) == Err(NoArtworksMessage)
  {
    SortDescFacts(ListedIds(json), IdValue);
    if |NewestFirst(ListedIds(json))| == 0 {
      assert |ListedIds(json)| == 0;
    }
  }

  /** On success: the first min(count, SafeLimit(limit)) ids of the
      numerically descending order, each with its page URL and title, and
      drawn only from the listed ids. */
  lemma ProcessUserArtworksSuccess(json: Option<Json>, limit: nat)
    requires ProcessUserArtworks(json, limit).Ok?
    ensures var r := ProcessUserArtworks(json, limit).value;
      var sorted := NewestFirst(ListedIds(json));
      && |r| == Min(|ListedIds(json)|, SafeLimit(limit))
      && 1 <= |r| <= MaxUserLimit
      && (forall i :: 0 <= i < |r| ==> r[i] == RefFor(sorted[i]))
      && (forall i, j :: 0 <= i < j < |r| ==> IdValue(r[i].id) >= IdValue(r[j].id))
      && (forall i :: 0 <= i < |r| ==> r[i].id in ListedIds(json))
  {
    var ids := ListedIds(json);
    var sorted := NewestFirst(ids);
    SortDescFacts(ids, IdValue);
    PrefixToIsPrefix(sorted, SafeLimit(limit));
    var pre := PrefixTo(sorted, SafeLimit(limit));
    var r := ProcessUserArtworks(json, limit).value;
    assert r == RefsFor(pre);
    forall i | 0 <= i < |r| ensures r[i].id in ids {
      assert sorted[i] in multiset(sorted);
    }
  }

  // ---------------------------------------------------------------------
  // getUserArtworks on the two servers

  /** What one call did: its result, the pool after it, the number of
      replies consumed, and the pauses and requests it added. */
  datatype UserRun = UserRun(
    result: Result<seq<ArtworkRef>>, pool: PoolState, served: nat,
    waits: seq<nat>, sent: seq<Request>)

  const MobileRateLimitMessage := "Rate limited - please try again in a few minutes"
  const LambdaRateLimitMessage := "Rate limited - please try again later"
  const NoBackupMessage := "Rate limited and no backup sessions available"

  function FetchFailedMessage(status: nat): string { "Failed to fetch user data: " + Decimal(status) }

  function RetryFailedMessage(status: nat): string
  {
    "Failed to fetch user data after rotation: " + Decimal(status)
  }

  /** The `catch` of `getUserArtworks`: a thrown 429 counts a failure and
      becomes the backend's rate-limit message; anything else propagates. */
  function CatchUserError(b: Backend, o: Outcome, p: PoolState): (Result<seq<ArtworkRef>>, PoolState)
    requires o.Raise?
  {
    if IsRateLimitRaise(o) then
      (Err(if b == Mobile then MobileRateLimitMessage else LambdaRateLimitMessage), FailureCheck(p).1)
    else (Err(o.message), p)
  }

  /** `getUserArtworks(userId, limit)` against replies `script(k)`,
      `script(k + 1)`, ... with the pool `p`. */
  function UserArtworksRun(b: Backend, script: nat -> Outcome, k: nat, p: PoolState, userId: Id, limit: nat): UserRun
  {
    var first := Request(UserProfile(userId), p.cookies);
    var o := script(k);
    if o.Raise? then ThrownRun(b, o, p, k + 1, [1000], [first])
    else if o.status == TooManyRequests then RateLimitedRun(b, script, k, p, userId, limit)
    else if o.status != 200 then
      UserRun(Err(FetchFailedMessage(o.status)), if b == Mobile then FailureCheck(p).1 else p,
              k + 1, [1000], [first])
    else
      UserRun(ProcessUserArtworks(o.json, limit), Succeeded(p), k + 1, [1000], [first])
  }

  /** A request that threw, handled by the `catch`. */
  function ThrownRun(b: Backend, o: Outcome, p: PoolState, served: nat, waits: seq<nat>, sent: seq<Request>): UserRun
    requires o.Raise?
  {
    var (res, p') := CatchUserError(b, o, p);
    UserRun(res, p', served, waits, sent)
  }

  /** The rest of the call after a 429 reply to the first request: a
      rotation buys one retry with the new cookie after 3 s. */
  function RateLimitedRun(b: Backend, script: nat -> Outcome, k: nat, p: PoolState, userId: Id, limit: nat): UserRun
  {
    var first := Request(UserProfile(userId), p.cookies);
    var (rotated, p1) := FailureCheck(p);
    if rotated then
      var o2 := script(k + 1);
      var reqs := [first, Request(UserProfile(userId), p1.cookies)];
      if o2.Raise? then ThrownRun(b, o2, p1, k + 2, [1000, 3000], reqs)
      else if b == Mobile && o2.status != 200 then
        UserRun(Err(RetryFailedMessage(o2.status)), p1, k + 2, [1000, 3000], reqs)
      else
        UserRun(ProcessUserArtworks(o2.json, limit), p1, k + 2, [1000, 3000], reqs)
    else
      var msg := if b == Mobile then NoBackupMessage else FetchFailedMessage(TooManyRequests);
      UserRun(Err(msg), p1, k + 1, [1000], [first])
  }

  /** The pool, the site's counter and logs, and the result are those of
      `run`, with the logs extended from `w0` and `s0`. */
  ghost predicate UserApplied(run: UserRun, w0: seq<nat>, s0: seq<Request>, r: Result<seq<ArtworkRef>>,
                              q: PoolState, served: nat, waits: seq<nat>, sent: seq<Request>)
  {
    r == run.result && q == run.pool && served == run.served && waits == w0 + run.waits && sent == s0 + run.sent
  }

  /** At most one retry: one or two profile requests, the first with the
      pool's cookie, one reply consumed per request, and the pool stays
      consistent. */
  lemma UserArtworksShape(b: Backend, script: nat -> Outcome, k: nat, p: PoolState, userId: Id, limit: nat)
    requires ValidState(p)
    ensures var run := UserArtworksRun(b, script, k, p, userId, limit);
      && 1 <= |run.sent| <= 2 && run.served == k + |run.sent|
      && run.sent[0] == Request(UserProfile(userId), p.cookies)
      && run.waits[0] == 1000
      && ValidState(run.pool)
  {
    FailureCheckFacts(p);
    if script(k).Reply? && script(k).status == TooManyRequests {
      RateLimitedShape(b, script, k, p, userId, limit);
    }
  }

  lemma RateLimitedShape(b: Backend, script: nat -> Outcome, k: nat, p: PoolState, userId: Id, limit: nat)
    requires ValidState(p)
    ensures var run := RateLimitedRun(b, script, k, p, userId, limit);
      && 1 <= |run.sent| <= 2 && run.served == k + |run.sent|
      && run.sent[0] == Request(UserProfile(userId), p.cookies)
      && run.waits[0] == 1000
      && ValidState(run.pool)
  {
    FailureCheckFacts(p);
    FailureCheckFacts(FailureCheck(p).1);
  }

  /** A 200 reply clears the failure count and is read by
      `processUserArtworksResponse`. */
  lemma UserArtworksSuccessResets(b: Backend, script: nat -> Outcome, k: nat, p: PoolState, userId: Id, limit: nat)
    requires script(k).Reply? && script(k).status == 200
    ensures var run := UserArtworksRun(b, script, k, p, userId, limit);
      run.pool.failures == 0 && run.pool == p.(failures := 0)
      && run.result == ProcessUserArtworks(script(k).json, limit)
      && |run.sent| == 1
  {
  }

  /** A 429 reply that makes the pool rotate is retried exactly once, with
      the new session's cookie after a 3 s pause; the serverless handler
      reads the retry's body whatever its status, the mobile server only
      after a 200. */
  lemma RateLimitedProfileRetriedOnce(b: Backend, script: nat -> Outcome, k: nat, p: PoolState, userId: Id, limit: nat)
    requires IsRateLimitReply(script(k)) && FailureCheck(p).0
    requires script(k + 1).Reply?
    ensures var run := UserArtworksRun(b, script, k, p, userId, limit);
      && |run.sent| == 2 && run.waits == [1000, 3000]
      && run.sent[1].cookie == FailureCheck(p).1.cookies
      && run.pool == FailureCheck(p).1
      && (b == Lambda || script(k + 1).status == 200 ==>
            run.result == ProcessUserArtworks(script(k + 1).json, limit))
      && (b == Mobile && script(k + 1).status != 200 ==> run.result.Err?)
  {
  }

  /** A 429 reply without a rotation fails at once; the failure was still
      counted. */
  lemma RateLimitedProfileWithoutRotation(b: Backend, script: nat -> Outcome, k: nat, p: PoolState, userId: Id, limit: nat)
    requires IsRateLimitReply(script(k)) && !FailureCheck(p).0
    ensures var run := UserArtworksRun(b, script, k, p, userId, limit);
      && |run.sent| == 1 && run.result.Err?
      && run.pool == p.(failures := p.failures + 1)
  {
  }

  /** Any other non-200 reply fails; only the mobile server counts it. */
  lemma OtherFailureCounting(b: Backend, script: nat -> Outcome, k: nat, p: PoolState, userId: Id, limit: nat)
    requires script(k).Reply? && script(k).status != 200 && script(k).status != TooManyRequests
    ensures var run := UserArtworksRun(b, script, k, p, userId, limit);
      && run.result == Err(FetchFailedMessage(script(k).status))
      && run.pool == (if b == Mobile then FailureCheck(p).1 else p)
  {
  }

  /** A thrown 429 counts one failure and reports the rate-limit message. */
  lemma ThrownRateLimitCounted(b: Backend, script: nat -> Outcome, k: nat, p: PoolState, userId: Id, limit: nat)
    requires IsRateLimitRaise(script(k))
    ensures var run := UserArtworksRun(b, script, k, p, userId, limit);
      && run.result == Err(if b == Mobile then MobileRateLimitMessage else LambdaRateLimitMessage)
      && run.pool == FailureCheck(p).1 && |run.sent| == 1
  {
  }

  /** `getUserArtworks`, run against the pool's globals and the site. */
  method GetUserArtworks(b: Backend, pool: CredentialPool, site: Site, userId: Id, limit: nat)
    returns (r: Result<seq<ArtworkRef>>)
    requires pool.Valid()
    modifies pool, site
    ensures pool.Valid() && pool.authenticated == old(pool.authenticated)
    ensures var run := UserArtworksRun(b, site.script, old(site.served), old(pool.State()), userId, limit);
      && r == run.result && pool.State() == run.pool && site.served == run.served
      && site.waits == old(site.waits) + run.waits && site.sent == old(site.sent) + run.sent
  {
    ghost var k0, p0, w0, s0 := site.served, pool.State(), site.waits, site.sent;
    var cookie := pool.cookies;
    site.Pause(1000);
    var o := site.Fetch(UserProfile(userId), cookie);
    r := ReadProfile(b, pool, site, userId, limit, o, k0, p0, w0, s0);
  }

  /** The handling of the first reply `o`. */
  method ReadProfile(b: Backend, pool: CredentialPool, site: Site, userId: Id, limit: nat, o: Outcome,
                     ghost k0: nat, ghost p0: PoolState, ghost w0: seq<nat>, ghost s0: seq<Request>)
    returns (r: Result<seq<ArtworkRef>>)
    requires pool.Valid() && pool.State() == p0 && o == site.script(k0) && site.served == k0 + 1
    requires site.waits == w0 + [1000] && site.sent == s0 + [Request(UserProfile(userId), p0.cookies)]
    modifies pool, site
    ensures pool.Valid() && pool.authenticated == old(pool.authenticated)
    ensures UserApplied(UserArtworksRun(b, site.script, k0, p0, userId, limit), w0, s0,
                        r, pool.State(), site.served, site.waits, site.sent)
  {
    if o.Raise? {
      r := HandleUserError(b, o, pool);
    } else if o.status == TooManyRequests {
      r := RetryProfile(b, pool, site, userId, limit, k0, p0, w0, s0);
    } else if o.status != 200 {
      if b == Mobile {
        var _ := pool.CheckRotation();
      }
      r := Err(FetchFailedMessage(o.status));
    } else {
      pool.ResetFailures();
      r := ProcessUserArtworks(o.json, limit);
    }
  }

  /** After a 429 reply: count the failure and, when the pool rotates,
      retry once with the new cookie. */
  method RetryProfile(b: Backend, pool: CredentialPool, site: Site, userId: Id, limit: nat,
                      ghost k0: nat, ghost p0: PoolState, ghost w0: seq<nat>, ghost s0: seq<Request>)
    returns (r: Result<seq<ArtworkRef>>)
    requires pool.Valid() && pool.State() == p0 && site.served == k0 + 1
    requires site.waits == w0 + [1000] && site.sent == s0 + [Request(UserProfile(userId), p0.cookies)]
    modifies pool, site
    ensures pool.Valid() && pool.authenticated == old(pool.authenticated)
    ensures UserApplied(RateLimitedRun(b, site.script, k0, p0, userId, limit), w0, s0,
                        r, pool.State(), site.served, site.waits, site.sent)
  {
    var rotated := pool.CheckRotation();
    if rotated {
      site.Pause(3000);
      var o2 := site.Fetch(UserProfile(userId), pool.cookies);
      AppendAssoc(w0, [1000], [3000]);
      AppendAssoc(s0, [Request(UserProfile(userId), p0.cookies)], [Request(UserProfile(userId), pool.cookies)]);
      if o2.Raise? {
        r := HandleUserError(b, o2, pool);
      } else if b == Mobile && o2.status != 200 {
        r := Err(RetryFailedMessage(o2.status));
      } else {
        r := ProcessUserArtworks(o2.json, limit);
      }
    } else {
      r := Err(if b == Mobile then NoBackupMessage else FetchFailedMessage(TooManyRequests));
    }
  }

  /** The `catch` block applied to the pool's globals. */
  method HandleUserError(b: Backend, o: Outcome, pool: CredentialPool) returns (r: Result<seq<ArtworkRef>>)
    requires o.Raise? && pool.Valid()
    modifies pool
    ensures pool.Valid() && pool.authenticated == old(pool.authenticated)
    ensures (r, pool.State()) == CatchUserError(b, o, old(pool.State()))
  {
    if IsRateLimitRaise(o) {
      var _ := pool.CheckRotation();
      r := Err(if b == Mobile then MobileRateLimitMessage else LambdaRateLimitMessage);
    } else {
      r := Err(o.message);
    }
  }
}
