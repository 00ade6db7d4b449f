/** `getArtworkImages(artworkId, retryCount)` on the two servers: fetch the
    artwork's detail (and, for a multi-page artwork, its page list) and
    return the original-image URLs, retrying a rate-limited request first
    with a rotated session and then with growing pauses, at most up to
    `retryCount` 2. The function never throws: every failure ends in [].

    `Attempt` is the specification, one call per `retryCount`; the method
    `GetArtworkImages` runs the same steps against the pool's globals and
    the site and is proved equal to it. */
module Images {
  import opened Basics
  import opened Upstream
  import opened Pool

  /** `page.urls.original` of each page where it is truthy, in page order. */
  function PageOriginals(pages: seq<Page>): seq<string>
  {
    if pages == [] then []
    else (if Truthy(pages[0].original) then [pages[0].original.value] else []) + PageOriginals(pages[1..])
  }

  /** Exactly the truthy originals are kept, no more than one per page, and
      the pages' order is kept across any split of the list. */
  lemma {:induction false} PageOriginalsFacts(pages: seq<Page>)
    ensures |PageOriginals(pages)| <= |pages|
    ensures forall u :: u in PageOriginals(pages) <==> Page(Some(u)) in pages && u != ""
  {
    if pages != [] {
      PageOriginalsFacts(pages[1..]);
      assert pages == [pages[0]] + pages[1..];
    }
  }

  lemma {:induction false} PageOriginalsAppend(a: seq<Page>, b: seq<Page>)
    ensures PageOriginals(a + b) == PageOriginals(a) + PageOriginals(b)
  {
    if a != [] {
      PageOriginalsAppend(a[1..], b);
      assert (a + b)[1..] == a[1..] + b;
    } else {
      assert a + b == b;
    }
  }

  /** The longest backoff pause, in milliseconds. */
  const MaxBackoff: nat := 10000
  /** The highest `retryCount` a call can reach. */
  const MaxRetry: nat := 2

  /** The pause before every detail request. */
  function BaseDelay(retry: nat): nat { 1000 + 500 * retry }

  /** The pause before a retry that follows a backoff. */
  function Backoff(retry: nat): nat { Min((retry + 1) * 3000, MaxBackoff) }

  /** What the rate-limit branch decides: retry after a pause with the
      pool as it now is, or give up. */
  datatype Decision = Retry(wait: nat, pool: PoolState) | GiveUp(pool: PoolState)

  /** The rate-limit branch, for a 429 reply (`thrown` false) or a thrown
      429 (`thrown` true): at `retryCount` 0 the failure is counted and a
      rotation retries after 2 s; otherwise the serverless handler gives up
      on a thrown 429, and both retry after `Backoff` while `retryCount` < 2. */
  function RateLimitDecision(b: Backend, p: PoolState, retry: nat, thrown: bool): (d: Decision)
    ensures d.Retry? ==> retry < MaxRetry
  {
    var (rotated, p1) := if retry == 0 then FailureCheck(p) else (false, p);
    if rotated then Retry(2000, p1)
    else if b == Lambda && thrown then GiveUp(p1)
    else if retry < MaxRetry then Retry(Backoff(retry), p1)
    else GiveUp(p1)
  }

  /** What a call did: the URLs, the pool after it, the number of replies
      consumed, and the pauses and requests it added. */
  datatype ImagesRun = ImagesRun(
    images: seq<string>, pool: PoolState, served: nat, waits: seq<nat>, sent: seq<Request>)

  /** One attempt either ends the call or asks for the next `retryCount`
      with the given pool, after the given pauses and requests. */
  datatype Step =
    | Finished(run: ImagesRun)
    | Again(next: PoolState, served: nat, waits: seq<nat>, sent: seq<Request>)

  function RateLimited(b: Backend, p: PoolState, retry: nat, thrown: bool,
                       served: nat, waits: seq<nat>, sent: seq<Request>): (s: Step)
    ensures s.Again? ==> retry < MaxRetry
  {
    match RateLimitDecision(b, p, retry, thrown)
    case Retry(w, p') => Again(p', served, waits + [w], sent)
    case GiveUp(p') => Finished(ImagesRun([], p', served, waits, sent))
  }

  /** The page-list request of an attempt, answered by `po`; `p1` is the
      pool after the detail reply cleared the failure count, and `waits` and
      `sent` are the attempt's pauses and requests so far. */
  function PagesStep(b: Backend, po: Outcome, served: nat, p1: PoolState, retry: nat,
                     waits: seq<nat>, sent: seq<Request>): (s: Step)
    ensures s.Again? ==> retry < MaxRetry
  {
    if IsRateLimitRaise(po) then
      RateLimited(b, p1, retry, true, served, waits, sent)
    else if po.Raise? then
      Finished(ImagesRun([], FailureCheck(p1).1, served, waits, sent))
    else if po.status != 200 || (po.json.Some? && po.json.value.error) then
      Finished(ImagesRun([], p1, served, waits, sent))
    else if po.json.Some? && po.json.value.body.PageList? then
      Finished(ImagesRun(PageOriginals(po.json.value.body.pages), p1, served, waits, sent))
    else
      // `body.forEach` on a body that is not an array throws a TypeError,
      // which the catch block counts as a failure
      Finished(ImagesRun([], FailureCheck(p1).1, served, waits, sent))
  }

  /** One attempt at `retryCount` = `retry`, reading replies from
      `script(k)` on. The client (and so the cookie) is the pool's at the
      start of the attempt. */
  function AttemptStep(b: Backend, script: nat -> Outcome, k: nat, p: PoolState, id: Id, retry: nat): (s: Step)
    ensures s.Again? ==> retry < MaxRetry
  {
    var pre := [BaseDelay(retry)];
    var detail := [Request(IllustDetail(id), p.cookies)];
    var o := script(k);
    if IsRateLimitReply(o) || IsRateLimitRaise(o) then
      RateLimited(b, p, retry, o.Raise?, k + 1, pre, detail)
    else if o.Raise? || o.status != 200 then
      // a failed request counts as a session failure
      Finished(ImagesRun([], FailureCheck(p).1, k + 1, pre, detail))
    else if o.json.Some? && o.json.value.error then
      Finished(ImagesRun([], p, k + 1, pre, detail))
    else
      DetailStep(b, script, k, p, id, retry, DetailBody(o))
  }

  /** The body of a JSON reply, nothing for anything else. */
  function DetailBody(o: Outcome): Body
  {
    if o.Reply? && o.json.Some? then o.json.value.body else NoBody
  }

  /** The rest of an attempt once the detail reply was a 200 without the
      error flag: the failure count is cleared and `body` is read. */
  function DetailStep(b: Backend, script: nat -> Outcome, k: nat, p: PoolState, id: Id, retry: nat, body: Body): (s: Step)
    ensures s.Again? ==> retry < MaxRetry
  {
    var pre := [BaseDelay(retry)];
    var detail := [Request(IllustDetail(id), p.cookies)];
    var p1 := Succeeded(p);
    if body.Record? && Truthy(body.original) then
      Finished(ImagesRun([body.original.value], p1, k + 1, pre, detail))
    else if body.Record? && body.pageCount > 1 then
      PagesStep(b, script(k + 1), k + 2, p1, retry,
                [BaseDelay(retry), 500], [Request(IllustDetail(id), p.cookies), Request(IllustPages(id), p.cookies)])
    else
      Finished(ImagesRun([], p1, k + 1, pre, detail))
  }

  /** `getArtworkImages(id, retry)`: attempts until one finishes. */
  function Attempt(b: Backend, script: nat -> Outcome, k: nat, p: PoolState, id: Id, retry: nat): ImagesRun
    requires retry <= MaxRetry
    decreases MaxRetry - retry
  {
    match AttemptStep(b, script, k, p, id, retry)
    case Finished(r) => r
    case Again(p', n, w, s) =>
      var r := Attempt(b, script, n, p', id, retry + 1);
      ImagesRun(r.images, r.pool, r.served, w + r.waits, s + r.sent)
  }

  // ---------------------------------------------------------------------
  // Properties of the specification

  function CountDetail(sent: seq<Request>): nat
  {
    if sent == [] then 0 else (if sent[0].endpoint.IllustDetail? then 1 else 0) + CountDetail(sent[1..])
  }

  lemma {:induction false} CountDetailAppend(a: seq<Request>, b: seq<Request>)
    ensures CountDetail(a + b) == CountDetail(a) + CountDetail(b)
  {
    if a != [] {
      CountDetailAppend(a[1..], b);
      assert (a + b)[1..] == a[1..] + b;
    } else {
      assert a + b == b;
    }
  }

  /** The counters a step leaves behind, whichever way it ends. */
  function StepPool(st: Step): PoolState { if st.Finished? then st.run.pool else st.next }
  function StepServed(st: Step): nat { if st.Finished? then st.run.served else st.served }
  function StepWaits(st: Step): seq<nat> { if st.Finished? then st.run.waits else st.waits }
  function StepSent(st: Step): seq<Request> { if st.Finished? then st.run.sent else st.sent }

  /** One attempt: a detail request, possibly followed by a page request,
      both with the cookie of the pool the attempt started with, one reply
      consumed per request, the base pause first, and a consistent pool. */
  ghost predicate StepShaped(st: Step, k: nat, p: PoolState, id: Id, retry: nat) {
    var detail := Request(IllustDetail(id), p.cookies);
    && (|| (StepSent(st) == [detail] && StepServed(st) == k + 1)
        || (StepSent(st) == [detail, Request(IllustPages(id), p.cookies)] && StepServed(st) == k + 2))
    && StepWaits(st) != [] && StepWaits(st)[0] == BaseDelay(retry)
    && ValidState(StepPool(st))
  }

  lemma RateLimitedShape(b: Backend, p: PoolState, retry: nat, thrown: bool,
                         served: nat, waits: seq<nat>, sent: seq<Request>)
    requires ValidState(p)
    ensures var st := RateLimited(b, p, retry, thrown, served, waits, sent);
      StepServed(st) == served && StepSent(st) == sent && StepWaits(st)[..|waits|] == waits
      && |StepWaits(st)| >= |waits| && ValidState(StepPool(st))
  {
    FailureCheckFacts(p);
  }

  lemma PagesStepShape(b: Backend, po: Outcome, k: nat, p: PoolState, id: Id, retry: nat)
    requires ValidState(p)
    ensures StepShaped(PagesStep(b, po, k + 2, Succeeded(p), retry, [BaseDelay(retry), 500],
                                 [Request(IllustDetail(id), p.cookies), Request(IllustPages(id), p.cookies)]),
                       k, p, id, retry)
  {
    FailureCheckFacts(p);
    FailureCheckFacts(Succeeded(p));
    RateLimitedShape(b, Succeeded(p), retry, true, k + 2, [BaseDelay(retry), 500],
                     [Request(IllustDetail(id), p.cookies), Request(IllustPages(id), p.cookies)]);
  }

  lemma DetailStepShape(b: Backend, script: nat -> Outcome, k: nat, p: PoolState, id: Id, retry: nat, body: Body)
    requires ValidState(p)
    ensures StepShaped(DetailStep(b, script, k, p, id, retry, body), k, p, id, retry)
  {
    FailureCheckFacts(p);
    if body.Record? && Truthy(body.original) {
    } else if body.Record? && body.pageCount > 1 {
      PagesStepShape(b, script(k + 1), k, p, id, retry);
    }
  }

  lemma AttemptStepShape(b: Backend, script: nat -> Outcome, k: nat, p: PoolState, id: Id, retry: nat)
    requires ValidState(p)
    ensures StepShaped(AttemptStep(b, script, k, p, id, retry), k, p, id, retry)
  {
    FailureCheckFacts(p);
    var o := script(k);
    RateLimitedShape(b, p, retry, o.Raise?, k + 1, [BaseDelay(retry)], [Request(IllustDetail(id), p.cookies)]);
    DetailStepShape(b, script, k, p, id, retry, DetailBody(o));
  }

  lemma StepDetailCount(st: Step, k: nat, p: PoolState, id: Id, retry: nat)
    requires StepShaped(st, k, p, id, retry)
    ensures CountDetail(StepSent(st)) == 1 && 1 <= |StepSent(st)| <= 2 && StepServed(st) == k + |StepSent(st)|
  {
    var s := StepSent(st);
    if |s| == 2 {
      assert s[1..][1..] == [];
      assert CountDetail(s[1..]) == 0;
    } else {
      assert s[1..] == [];
    }
  }

  /** `getArtworkImages` never sends more than 3 detail requests (one per
      `retryCount` from the starting one up to 2), at most one page request
      per detail request, consumes one reply per request, always starts with
      the pause 1000 + 500 * retryCount, and leaves the pool consistent. */
  lemma {:induction false} AttemptBounds(b: Backend, script: nat -> Outcome, k: nat, p: PoolState, id: Id, retry: nat)
    requires retry <= MaxRetry && ValidState(p)
    ensures var r := Attempt(b, script, k, p, id, retry);
      && 1 <= CountDetail(r.sent) <= MaxRetry + 1 - retry
      && |r.sent| <= 2 * (MaxRetry + 1 - retry)
      && r.served == k + |r.sent|
      && r.waits != [] && r.waits[0] == BaseDelay(retry)
      && ValidState(r.pool)
  {
    AttemptRequests(b, script, k, p, id, retry);
    AttemptPauseAndPool(b, script, k, p, id, retry);
  }

  /** The request counts of `AttemptBounds`. */
  lemma {:induction false} AttemptRequests(b: Backend, script: nat -> Outcome, k: nat, p: PoolState, id: Id, retry: nat)
    requires retry <= MaxRetry && ValidState(p)
    ensures var r := Attempt(b, script, k, p, id, retry);
      && 1 <= CountDetail(r.sent) <= MaxRetry + 1 - retry
      && |r.sent| <= 2 * (MaxRetry + 1 - retry)
      && r.served == k + |r.sent|
    decreases MaxRetry - retry
  {
    AttemptStepShape(b, script, k, p, id, retry);
    var st := AttemptStep(b, script, k, p, id, retry);
    StepDetailCount(st, k, p, id, retry);
    AttemptUnfold(b, script, k, p, id, retry);
    if st.Again? {
      AttemptRequests(b, script, st.served, st.next, id, retry + 1);
      var r := Attempt(b, script, st.served, st.next, id, retry + 1);
      CombineBounds(st.sent, r.sent, MaxRetry - retry);
    }
  }

  /** The first pause and the pool's consistency of `AttemptBounds`. */
  lemma {:induction false} AttemptPauseAndPool(b: Backend, script: nat -> Outcome, k: nat, p: PoolState, id: Id, retry: nat)
    requires retry <= MaxRetry && ValidState(p)
    ensures var r := Attempt(b, script, k, p, id, retry);
      r.waits != [] && r.waits[0] == BaseDelay(retry) && ValidState(r.pool)
    decreases MaxRetry - retry
  {
    AttemptStepShape(b, script, k, p, id, retry);
    var st := AttemptStep(b, script, k, p, id, retry);
    AttemptUnfold(b, script, k, p, id, retry);
    if st.Again? {
      AttemptPauseAndPool(b, script, st.served, st.next, id, retry + 1);
    }
  }

  /** A step's requests followed by those of the later attempts. */
  lemma CombineBounds(s1: seq<Request>, s2: seq<Request>, n: nat)
    requires CountDetail(s1) == 1 && |s1| <= 2 && 1 <= CountDetail(s2) <= n && |s2| <= 2 * n
    ensures 1 <= CountDetail(s1 + s2) <= n + 1 && |s1 + s2| <= 2 * (n + 1)
  {
    CountDetailAppend(s1, s2);
  }

  /** `Attempt` in terms of its first step. */
  lemma AttemptUnfold(b: Backend, script: nat -> Outcome, k: nat, p: PoolState, id: Id, retry: nat)
    requires retry <= MaxRetry
    ensures var st := AttemptStep(b, script, k, p, id, retry);
      && (st.Finished? ==> Attempt(b, script, k, p, id, retry) == st.run)
      && (st.Again? ==> var r := Attempt(b, script, st.served, st.next, id, retry + 1);
            Attempt(b, script, k, p, id, retry) == ImagesRun(r.images, r.pool, r.served, st.waits + r.waits, st.sent + r.sent))
  {
  }

  /** A detail reply with a truthy `urls.original` gives exactly that URL,
      after one request, and clears the failure count. */
  lemma SingleOriginal(b: Backend, script: nat -> Outcome, k: nat, p: PoolState, id: Id, retry: nat, j: Json)
    requires retry <= MaxRetry
    requires script(k).Reply? && script(k).status == 200 && script(k).json == Some(j) && !j.error
    requires j.body.Record? && Truthy(j.body.original)
    ensures var r := Attempt(b, script, k, p, id, retry);
      r.images == [j.body.original.value] && r.pool == Succeeded(p)
      && r.sent == [Request(IllustDetail(id), p.cookies)] && r.waits == [BaseDelay(retry)]
  {
  }

  /** Without an original, a detail body with more than one page fetches
      the page list after a further 500 ms and gives its originals in page
      order, skipping pages without one. */
  lemma MultiPage(b: Backend, script: nat -> Outcome, k: nat, p: PoolState, id: Id, retry: nat, j: Json, pj: Json)
    requires retry <= MaxRetry
    requires script(k).Reply? && script(k).status == 200 && script(k).json == Some(j) && !j.error
    requires j.body.Record? && !Truthy(j.body.original) && j.body.pageCount > 1
    requires script(k + 1).Reply? && script(k + 1).status == 200 && script(k + 1).json == Some(pj)
    requires !pj.error && pj.body.PageList?
    ensures var r := Attempt(b, script, k, p, id, retry);
      && r.images == PageOriginals(pj.body.pages) && r.pool == Succeeded(p)
      && r.sent == [Request(IllustDetail(id), p.cookies), Request(IllustPages(id), p.cookies)]
      && r.waits == [BaseDelay(retry), 500]
  {
  }

  /** A detail reply that is neither 200 nor 429 gives [] and counts a
      failure; a 200 reply with the error flag gives [] and leaves the
      count alone. */
  lemma DetailFailures(b: Backend, script: nat -> Outcome, k: nat, p: PoolState, id: Id, retry: nat)
    requires retry <= MaxRetry && script(k).Reply? && script(k).status != TooManyRequests
    ensures script(k).status != 200 ==>
      Attempt(b, script, k, p, id, retry) == ImagesRun([], FailureCheck(p).1, k + 1, [BaseDelay(retry)], [Request(IllustDetail(id), p.cookies)])
    ensures script(k).status == 200 && script(k).json.Some? && script(k).json.value.error ==>
      Attempt(b, script, k, p, id, retry) == ImagesRun([], p, k + 1, [BaseDelay(retry)], [Request(IllustDetail(id), p.cookies)])
  {
  }

  /** Under persistent 429 replies both servers make three attempts and
      return []: the pauses are the base pauses 1000, 1500, 2000 with the
      rotation pause (2 s) or the first backoff (3 s) after the first
      attempt and the second backoff (6 s) after the second; only the first
      attempt counts a failure. */
  lemma PersistentRateLimitReplies(b: Backend, script: nat -> Outcome, k: nat, p: PoolState, id: Id)
    requires forall j :: k <= j ==> IsRateLimitReply(script(j))
    ensures var r := Attempt(b, script, k, p, id, 0);
      && r.images == [] && r.served == k + 3 && r.pool == FailureCheck(p).1
      && r.waits == [1000, if FailureCheck(p).0 then 2000 else 3000, 1500, 6000, 2000]
      && r.sent == [Request(IllustDetail(id), p.cookies), Request(IllustDetail(id), FailureCheck(p).1.cookies),
                    Request(IllustDetail(id), FailureCheck(p).1.cookies)]
  {
    assert IsRateLimitReply(script(k)) && IsRateLimitReply(script(k + 1)) && IsRateLimitReply(script(k + 2));
    var p1 := FailureCheck(p).1;
    var r2 := Attempt(b, script, k + 2, p1, id, 2);
    assert r2 == ImagesRun([], p1, k + 3, [2000], [Request(IllustDetail(id), p1.cookies)]);
    var r1 := Attempt(b, script, k + 1, p1, id, 1);
    assert r1.waits == [1500, 6000, 2000];
  }

  /** Under persistent thrown 429s the mobile server behaves as under 429
      replies, but the serverless handler retries only after a rotation at
      `retryCount` 0 and then gives up. */
  lemma PersistentRateLimitErrors(b: Backend, script: nat -> Outcome, k: nat, p: PoolState, id: Id)
    requires forall j :: k <= j ==> IsRateLimitRaise(script(j))
    ensures var r := Attempt(b, script, k, p, id, 0);
      && r.images == [] && r.pool == FailureCheck(p).1
      && (b == Mobile ==> r.waits == [1000, if FailureCheck(p).0 then 2000 else 3000, 1500, 6000, 2000])
      && (b == Lambda && FailureCheck(p).0 ==> r.waits == [1000, 2000, 1500] && r.served == k + 2)
      && (b == Lambda && !FailureCheck(p).0 ==> r.waits == [1000] && r.served == k + 1)
  {
    assert IsRateLimitRaise(script(k)) && IsRateLimitRaise(script(k + 1)) && IsRateLimitRaise(script(k + 2));
    var p1 := FailureCheck(p).1;
    var r2 := Attempt(b, script, k + 2, p1, id, 2);
    assert r2 == ImagesRun([], p1, k + 3, [2000], [Request(IllustDetail(id), p1.cookies)]);
    var r1 := Attempt(b, script, k + 1, p1, id, 1);
    assert b == Mobile ==> r1.waits == [1500, 6000, 2000];
    assert b == Lambda ==> r1.waits == [1500];
  }

  /** A reply `o` offers the URL `u`: as a detail body's original or as the
      original of one of its pages. */
  predicate Offers(o: Outcome, u: string) {
    && o.Reply? && o.json.Some?
    && ((o.json.value.body.Record? && o.json.value.body.original == Some(u))
        || (o.json.value.body.PageList? && Page(Some(u)) in o.json.value.body.pages))
  }

  /** Every URL returned was offered by one of the replies the call
      consumed: nothing is invented. */
  lemma {:induction false} ImagesComeFromReplies(b: Backend, script: nat -> Outcome, k: nat, p: PoolState, id: Id, retry: nat)
    requires retry <= MaxRetry
    ensures var r := Attempt(b, script, k, p, id, retry);
      forall u :: u in r.images ==> exists j :: k <= j < r.served && Offers(script(j), u)
    decreases MaxRetry - retry
  {
    var st := AttemptStep(b, script, k, p, id, retry);
    AttemptUnfold(b, script, k, p, id, retry);
    if st.Finished? {
      StepOffers(b, script, k, p, id, retry);
    } else {
      ImagesComeFromReplies(b, script, st.served, st.next, id, retry + 1);
      AttemptStepServed(b, script, k, p, id, retry);
    }
  }

  /** A finished attempt returns URLs offered by its own replies. */
  lemma StepOffers(b: Backend, script: nat -> Outcome, k: nat, p: PoolState, id: Id, retry: nat)
    ensures var st := AttemptStep(b, script, k, p, id, retry);
      st.Finished? ==> forall u :: u in st.run.images ==> exists j :: k <= j < st.run.served && Offers(script(j), u)
  {
    var o := script(k);
    if o.Reply? && o.status == 200 && !(o.json.Some? && o.json.value.error) {
      var body := DetailBody(o);
      var st := DetailStep(b, script, k, p, id, retry, body);
      if body.Record? && Truthy(body.original) {
        assert Offers(script(k), body.original.value);
      } else if body.Record? && body.pageCount > 1 && st.Finished? {
        var po := script(k + 1);
        if po.Reply? && po.json.Some? && po.json.value.body.PageList? {
          PageOriginalsFacts(po.json.value.body.pages);
        }
        forall u | u in st.run.images ensures Offers(script(k + 1), u) {
          PageOriginalsFacts(po.json.value.body.pages);
        }
      }
    }
  }

  lemma AttemptStepServed(b: Backend, script: nat -> Outcome, k: nat, p: PoolState, id: Id, retry: nat)
    ensures AttemptStep(b, script, k, p, id, retry).Again? ==> AttemptStep(b, script, k, p, id, retry).served > k
  {
  }

  // ---------------------------------------------------------------------
  // The implementation against the globals

  /** The rate-limit branch applied to the pool. */
  method DecideRateLimit(b: Backend, pool: CredentialPool, retry: nat, thrown: bool)
    returns (again: bool, wait: nat)
    requires pool.Valid()
    modifies pool
    ensures pool.Valid() && pool.authenticated == old(pool.authenticated)
    ensures var d := RateLimitDecision(b, old(pool.State()), retry, thrown);
      again == d.Retry? && pool.State() == d.pool && (again ==> wait == d.wait)
  {
    var rotated := false;
    if retry == 0 {
      rotated := pool.CheckRotation();
    }
    if rotated {
      return true, 2000;
    }
    if b == Lambda && thrown {
      return false, 0;
    }
    if retry < MaxRetry {
      return true, Backoff(retry);
    }
    return false, 0;
  }

  /** The site's logs and the pool after a step, given the logs `w0` and
      `s0` the call started from. */
  predicate Reached(st: Step, w0: seq<nat>, s0: seq<Request>, done: bool, images: seq<string>,
                    q: PoolState, served: nat, waits: seq<nat>, sent: seq<Request>)
  {
    && done == st.Finished?
    && (done ==> images == st.run.images)
    && q == StepPool(st) && served == StepServed(st)
    && waits == w0 + StepWaits(st) && sent == s0 + StepSent(st)
  }

  /** The rate-limit branch applied to the pool and the site, after the
      attempt's pauses `waits` and requests `sent`. */
  method ApplyRateLimit(b: Backend, pool: CredentialPool, site: Site, retry: nat, thrown: bool,
                        ghost w0: seq<nat>, ghost s0: seq<Request>, ghost waits: seq<nat>, ghost sent: seq<Request>)
    returns (done: bool)
    requires pool.Valid() && site.waits == w0 + waits && site.sent == s0 + sent
    modifies pool, site
    ensures pool.Valid() && pool.authenticated == old(pool.authenticated)
    ensures Reached(RateLimited(b, old(pool.State()), retry, thrown, old(site.served), waits, sent),
                    w0, s0, done, [], pool.State(), site.served, site.waits, site.sent)
  {
    var again, wait := DecideRateLimit(b, pool, retry, thrown);
    done := !again;
    if again {
      site.Pause(wait);
      AppendAssoc(w0, waits, [wait]);
    }
  }

  /** The page-list request applied to the pool and the site, after the
      detail request with `cookie`. */
  method FetchPages(b: Backend, pool: CredentialPool, site: Site, id: Id, retry: nat, cookie: string,
                    ghost w0: seq<nat>, ghost s0: seq<Request>)
    returns (done: bool, images: seq<string>)
    requires pool.Valid()
    requires site.waits == w0 + [BaseDelay(retry)] && site.sent == s0 + [Request(IllustDetail(id), cookie)]
    modifies pool, site
    ensures pool.Valid() && pool.authenticated == old(pool.authenticated)
    ensures Reached(PagesStep(b, site.script(old(site.served)), old(site.served) + 1, old(pool.State()), retry,
                              [BaseDelay(retry), 500], [Request(IllustDetail(id), cookie), Request(IllustPages(id), cookie)]),
                    w0, s0, done, images, pool.State(), site.served, site.waits, site.sent)
  {
    site.Pause(500);
    var po := site.Fetch(IllustPages(id), cookie);
    AppendAssoc(w0, [BaseDelay(retry)], [500]);
    AppendAssoc(s0, [Request(IllustDetail(id), cookie)], [Request(IllustPages(id), cookie)]);
    assert [BaseDelay(retry)] + [500] == [BaseDelay(retry), 500];
    assert [Request(IllustDetail(id), cookie)] + [Request(IllustPages(id), cookie)]
        == [Request(IllustDetail(id), cookie), Request(IllustPages(id), cookie)];
    done, images := true, [];
    if IsRateLimitRaise(po) {
      done := ApplyRateLimit(b, pool, site, retry, true, w0, s0, [BaseDelay(retry), 500],
                             [Request(IllustDetail(id), cookie), Request(IllustPages(id), cookie)]);
    } else if po.Raise? {
      var _ := pool.CheckRotation();
    } else if po.status != 200 || (po.json.Some? && po.json.value.error) {
    } else if po.json.Some? && po.json.value.body.PageList? {
      images := PageOriginals(po.json.value.body.pages);
    } else {
      var _ := pool.CheckRotation();
    }
  }

  /** One attempt applied to the pool and the site: either the call's
      result, or the go-ahead for the next `retryCount`. */
  method AttemptOnce(b: Backend, pool: CredentialPool, site: Site, id: Id, retry: nat)
    returns (done: bool, images: seq<string>, ghost st: Step)
    requires pool.Valid()
    modifies pool, site
    ensures pool.Valid() && pool.authenticated == old(pool.authenticated)
    ensures st == AttemptStep(b, site.script, old(site.served), old(pool.State()), id, retry)
    ensures Reached(st, old(site.waits), old(site.sent), done, images, pool.State(), site.served, site.waits, site.sent)
  {
    st := AttemptStep(b, site.script, site.served, pool.State(), id, retry);
    var cookie := pool.cookies;
    site.Pause(BaseDelay(retry));
    var o := site.Fetch(IllustDetail(id), cookie);
    done, images := true, [];
    if IsRateLimitReply(o) || IsRateLimitRaise(o) {
      done := ApplyRateLimit(b, pool, site, retry, o.Raise?, old(site.waits), old(site.sent),
                             [BaseDelay(retry)], [Request(IllustDetail(id), cookie)]);
      return;
    }
    if o.Raise? || o.status != 200 {
      var _ := pool.CheckRotation();
      return;
    }
    if o.json.Some? && o.json.value.error {
      return;
    }
    done, images := ReadDetail(b, pool, site, id, retry, cookie, DetailBody(o),
                               old(site.waits), old(site.sent), old(pool.State()));
  }

  /** The rest of an attempt after a 200 detail reply without the error
      flag, applied to the pool and the site. */
  method ReadDetail(b: Backend, pool: CredentialPool, site: Site, id: Id, retry: nat, cookie: string, body: Body,
                    ghost w0: seq<nat>, ghost s0: seq<Request>, ghost p: PoolState)
    returns (done: bool, images: seq<string>)
    requires pool.Valid() && pool.State() == p && cookie == p.cookies && site.served >= 1
    requires site.waits == w0 + [BaseDelay(retry)] && site.sent == s0 + [Request(IllustDetail(id), cookie)]
    modifies pool, site
    ensures pool.Valid() && pool.authenticated == old(pool.authenticated)
    ensures Reached(DetailStep(b, site.script, old(site.served) - 1, p, id, retry, body),
                    w0, s0, done, images, pool.State(), site.served, site.waits, site.sent)
  {
    pool.ResetFailures();
    done, images := true, [];
    if body.Record? && Truthy(body.original) {
      images := [body.original.value];
    } else if body.Record? && body.pageCount > 1 {
      done, images := FetchPages(b, pool, site, id, retry, cookie, w0, s0);
    }
  }

  /** The pool and the site were changed as the run `r` says, from logs
      `w0` and `s0`. */
  predicate Applied(r: ImagesRun, w0: seq<nat>, s0: seq<Request>, images: seq<string>,
                    q: PoolState, served: nat, waits: seq<nat>, sent: seq<Request>)
  {
    images == r.images && q == r.pool && served == r.served && waits == w0 + r.waits && sent == s0 + r.sent
  }

  /** An attempt that finished is the whole run. */
  lemma AttemptDone(b: Backend, script: nat -> Outcome, k: nat, p: PoolState, id: Id, retry: nat, st: Step,
                    w0: seq<nat>, s0: seq<Request>, images: seq<string>,
                    q: PoolState, served: nat, waits: seq<nat>, sent: seq<Request>)
    requires retry <= MaxRetry && st == AttemptStep(b, script, k, p, id, retry)
    requires Reached(st, w0, s0, true, images, q, served, waits, sent)
    ensures Applied(Attempt(b, script, k, p, id, retry), w0, s0, images, q, served, waits, sent)
  {
  }

  /** An attempt that asked for another is followed by the run of the next
      `retryCount`. */
  lemma AttemptAgain(b: Backend, script: nat -> Outcome, k: nat, p: PoolState, id: Id, retry: nat, st: Step,
                     w0: seq<nat>, s0: seq<Request>, q: PoolState, served: nat, waits: seq<nat>, sent: seq<Request>,
                     images: seq<string>, q': PoolState, served': nat, waits': seq<nat>, sent': seq<Request>)
    requires retry <= MaxRetry && st == AttemptStep(b, script, k, p, id, retry)
    requires Reached(st, w0, s0, false, [], q, served, waits, sent)
    requires retry < MaxRetry
    requires Applied(Attempt(b, script, served, q, id, retry + 1), waits, sent, images, q', served', waits', sent')
    ensures Applied(Attempt(b, script, k, p, id, retry), w0, s0, images, q', served', waits', sent')
  {
    assert st.Again? && q == st.next && served == st.served;
    var r := Attempt(b, script, served, q, id, retry + 1);
    assert Attempt(b, script, k, p, id, retry) == ImagesRun(r.images, r.pool, r.served, st.waits + r.waits, st.sent + r.sent);
    AppendAssoc(w0, st.waits, r.waits);
    AppendAssoc(s0, st.sent, r.sent);
  }

  /** `getArtworkImages(id, retry)`. */
  method GetArtworkImages(b: Backend, pool: CredentialPool, site: Site, id: Id, retry: nat)
    returns (images: seq<string>)
    requires retry <= MaxRetry && pool.Valid()
    modifies pool, site
    decreases MaxRetry - retry
    ensures pool.Valid() && pool.authenticated == old(pool.authenticated)
    ensures Applied(Attempt(b, site.script, old(site.served), old(pool.State()), id, retry),
                    old(site.waits), old(site.sent), images, pool.State(), site.served, site.waits, site.sent)
  {
    ghost var k0, p0, w0, s0 := site.served, pool.State(), site.waits, site.sent;
    var done;
    ghost var st;
    done, images, st := AttemptOnce(b, pool, site, id, retry);
    if done {
      AttemptDone(b, site.script, k0, p0, id, retry, st, w0, s0, images, pool.State(), site.served, site.waits, site.sent);
    } else {
      ghost var q, k1, w1, s1 := pool.State(), site.served, site.waits, site.sent;
      images := GetArtworkImages(b, pool, site, id, retry + 1);
      AttemptAgain(b, site.script, k0, p0, id, retry, st, w0, s0, q, k1, w1, s1,
                   images, pool.State(), site.served, site.waits, site.sent);
    }
  }
}
