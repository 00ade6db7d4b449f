/** The mobile server's download side: `downloadImage`, the bounded retry
    loop that fetches one image, and `processDownload`, which resolves the
    artworks of a user or a single artwork, downloads every image into an
    archive and keeps the task's entry of `downloadProgress` up to date. */
module Downloads {
  import opened Basics
  import opened Upstream
  import opened Pool
  import opened Catalogue
  import opened Images

  // ---------------------------------------------------------------------
  // downloadImage

  /** How `downloadImage(url, retries)` ends: with the bytes of the first
      reply, by rethrowing the error of the last attempt, or with
      `undefined` when `retries` <= 0 and the loop never runs. */
  datatype Download = Fetched(data: seq<byte>) | Thrown(message: string) | NothingTried

  /** What one call did: its result, the number of replies consumed, and
      the pauses and requests it added. */
  datatype DownloadRun = DownloadRun(result: Download, served: nat, waits: seq<nat>, sent: seq<Request>)

  const DefaultRetries := 3

  /** The pauses after the failed attempts `from`, `from` + 1, ...:
      1000 * (i + 1) ms after attempt `i`. */
  function RetryPauses(from: nat, n: nat): (w: seq<nat>)
    ensures |w| == n && forall j :: 0 <= j < n ==> w[j] == 1000 * (from + j + 1)
  {
    seq(n, j requires 0 <= j < n => 1000 * (from + j + 1))
  }

  /** Each pause is at least a second, and a second longer than the one
      before it. */
  lemma RetryPausesGrow(from: nat, n: nat)
    ensures var w := RetryPauses(from, n);
      && (forall j :: 0 <= j < n ==> w[j] >= 1000)
      && (forall j, k :: 0 <= j < k < n ==> w[k] - w[j] == 1000 * (k - j))
  {
  }

  /** The time spent waiting, in ms. */
  function TotalWait(w: seq<nat>): nat
  {
    if w == [] then 0 else w[0] + TotalWait(w[1..])
  }

  /** The pauses after `n` failed attempts from `from` on add up to
      1000 * ((from + 1) + ... + (from + n)) ms. */
  lemma {:induction false} RetryPausesTotal(from: nat, n: nat)
    ensures 2 * TotalWait(RetryPauses(from, n)) == 1000 * n * (2 * from + n + 1)
    decreases n
  {
    if n > 0 {
      var w := RetryPauses(from, n);
      assert w[1..] == RetryPauses(from + 1, n - 1);
      RetryPausesTotal(from + 1, n - 1);
      var m := n - 1;
      assert 1000 * n * (2 * from + n + 1) == 2000 * (from + 1) + 1000 * m * (2 * (from + 1) + m + 1);
    }
  }

  /** `n` copies of the request for `url` with `cookie`. */
  function ImageRequests(url: string, cookie: string, n: nat): (s: seq<Request>)
    ensures |s| == n && forall j :: 0 <= j < n ==> s[j] == Request(ImageFile(url), cookie)
  {
    seq(n, _ => Request(ImageFile(url), cookie))
  }

  /** The loop of `downloadImage` from attempt `i` on, against the replies
      `script(k)`, `script(k + 1)`, ... */
  function DownloadFrom(script: nat -> Outcome, k: nat, url: string, cookie: string, retries: int, i: nat): DownloadRun
    decreases if i < retries then retries - i else 0
  {
    if i >= retries then DownloadRun(NothingTried, k, [], [])
    else
      var req := Request(ImageFile(url), cookie);
      var o := script(k);
      if o.Reply? then DownloadRun(Fetched(o.raw), k + 1, [], [req])
      else if i == retries - 1 then DownloadRun(Thrown(o.message), k + 1, [], [req])
      else
        var r := DownloadFrom(script, k + 1, url, cookie, retries, i + 1);
        DownloadRun(r.result, r.served, [1000 * (i + 1)] + r.waits, [req] + r.sent)
  }

  /** From attempt `i` on: nothing is tried exactly when no attempt is
      left; otherwise every attempt sends the same request and consumes one
      reply, the pauses are 1000 * (attempt + 1) between attempts, the
      first reply ends the loop with its bytes, and when every attempt
      throws the last error is rethrown. */
  lemma {:induction false} DownloadFromFacts(script: nat -> Outcome, k: nat, url: string, cookie: string, retries: int, i: nat)
    requires i == 0 || i < retries
    ensures var r := DownloadFrom(script, k, url, cookie, retries, i);
      && (r.result.NothingTried? <==> retries <= i)
      && (r.result.NothingTried? ==> r.served == k && r.waits == [] && r.sent == [])
      && (i < retries ==>
            && 1 <= |r.sent| <= retries - i
            && r.served == k + |r.sent|
            && r.sent == ImageRequests(url, cookie, |r.sent|)
            && r.waits == RetryPauses(i, |r.sent| - 1)
            && (forall j :: k <= j < k + |r.sent| - 1 ==> script(j).Raise?)
            && (r.result.Fetched? ==> script(k + |r.sent| - 1).Reply? && r.result.data == script(k + |r.sent| - 1).raw)
            && (r.result.Thrown? ==> |r.sent| == retries - i && script(k + |r.sent| - 1).Raise?
                                     && r.result.message == script(k + |r.sent| - 1).message))
    decreases if i < retries then retries - i else 0
  {
    if i < retries && script(k).Raise? && i != retries - 1 {
      DownloadFromFacts(script, k + 1, url, cookie, retries, i + 1);
      var r := DownloadFrom(script, k + 1, url, cookie, retries, i + 1);
      assert ImageRequests(url, cookie, |r.sent| + 1) == [Request(ImageFile(url), cookie)] + r.sent;
      assert RetryPauses(i, |r.sent|) == [1000 * (i + 1)] + RetryPauses(i + 1, |r.sent| - 1);
      assert forall j :: k + 1 <= j < k + 1 + |r.sent| - 1 ==> script(j).Raise?;
    }
  }

  /** `downloadImage` with the default three retries waits 0, 1000 or
      3000 ms in all, and 3000 ms exactly when its first two attempts
      threw. */
  lemma DefaultRetriesWait(script: nat -> Outcome, k: nat, url: string, cookie: string)
    ensures var r := DownloadFrom(script, k, url, cookie, DefaultRetries, 0);
      && TotalWait(r.waits) in {0, 1000, 3000}
      && (TotalWait(r.waits) == 3000 <==> script(k).Raise? && script(k + 1).Raise?)
  {
    DownloadFromFacts(script, k, url, cookie, DefaultRetries, 0);
    var r := DownloadFrom(script, k, url, cookie, DefaultRetries, 0);
    var n := |r.sent| - 1;
    RetryPausesTotal(0, n);
    assert 2 * TotalWait(r.waits) == 1000 * n * (n + 1);
  }

  /** `downloadImage(url, retries)`: at most `retries` requests; the image
      is fetched exactly when one of the first `retries` replies is an HTTP
      reply, and it is then the first of them; an error is rethrown only
      when all `retries` attempts threw. */
  lemma DownloadImageFacts(script: nat -> Outcome, k: nat, url: string, cookie: string, retries: int)
    requires retries >= 1
    ensures var r := DownloadFrom(script, k, url, cookie, retries, 0);
      && 1 <= |r.sent| <= retries
      && (r.result.Fetched? <==> exists j :: k <= j < k + retries && script(j).Reply?)
      && (r.result.Fetched? ==> exists j :: (k <= j < k + retries && script(j).Reply?
            && r.result.data == script(j).raw
            && forall m :: k <= m < j ==> script(m).Raise?))
      && (r.result.Thrown? ==> forall j :: k <= j < k + retries ==> script(j).Raise?)
      && !r.result.NothingTried?
  {
    DownloadFromFacts(script, k, url, cookie, retries, 0);
    var r := DownloadFrom(script, k, url, cookie, retries, 0);
    var last := k + |r.sent| - 1;
    if r.result.Fetched? {
      assert script(last).Reply?;
    }
  }

  /** `downloadImage(url, retries)`, with the client created from the
      pool's cookie at the start of the call. */
  method DownloadImage(pool: CredentialPool, site: Site, url: string, retries: int) returns (d: Download)
    modifies site
    ensures var r := DownloadFrom(site.script, old(site.served), url, old(pool.cookies), retries, 0);
      && d == r.result && site.served == r.served
      && site.waits == old(site.waits) + r.waits && site.sent == old(site.sent) + r.sent
  {
    var cookie := pool.cookies;
    ghost var k0, w0, s0 := site.served, site.waits, site.sent;
    var i: nat := 0;
    assert RetryPauses(0, 0) == [] && ImageRequests(url, cookie, 0) == [];
    while i < retries
      invariant i == 0 || i < retries
      invariant LoopAt(site.script, k0, url, cookie, retries, i, w0, s0, site.served, site.waits, site.sent)
      decreases retries - i
    {
      var o := site.Fetch(ImageFile(url), cookie);
      if o.Reply? {
        LoopEnd(site.script, k0, url, cookie, retries, i, w0, s0);
        return Fetched(o.raw);
      }
      if i == retries - 1 {
        LoopEnd(site.script, k0, url, cookie, retries, i, w0, s0);
        return Thrown(o.message);
      }
      site.Pause(1000 * (i + 1));
      LoopAdvance(site.script, k0, url, cookie, retries, i, w0, s0);
      i := i + 1;
    }
    assert site.waits == w0 && site.sent == s0;
    d := NothingTried;
  }

  /** The state of `downloadImage`'s loop before attempt `i`: `i` requests
      sent and `i` pauses taken, and the rest of the run is the loop from
      attempt `i`. */
  ghost predicate LoopAt(script: nat -> Outcome, k0: nat, url: string, cookie: string, retries: int, i: nat,
                         w0: seq<nat>, s0: seq<Request>, served: nat, waits: seq<nat>, sent: seq<Request>)
  {
    var whole := DownloadFrom(script, k0, url, cookie, retries, 0);
    var r := DownloadFrom(script, k0 + i, url, cookie, retries, i);
    && served == k0 + i && waits == w0 + RetryPauses(0, i) && sent == s0 + ImageRequests(url, cookie, i)
    && whole == DownloadRun(r.result, r.served, RetryPauses(0, i) + r.waits, ImageRequests(url, cookie, i) + r.sent)
  }

  lemma LoopAdvance(script: nat -> Outcome, k0: nat, url: string, cookie: string, retries: int, i: nat,
                    w0: seq<nat>, s0: seq<Request>)
    requires i + 1 < retries && script(k0 + i).Raise?
    requires LoopAt(script, k0, url, cookie, retries, i, w0, s0,
                    k0 + i, w0 + RetryPauses(0, i), s0 + ImageRequests(url, cookie, i))
    ensures LoopAt(script, k0, url, cookie, retries, i + 1, w0, s0,
                   k0 + i + 1, w0 + RetryPauses(0, i) + [1000 * (i + 1)],
                   s0 + ImageRequests(url, cookie, i) + [Request(ImageFile(url), cookie)])
  {
    var rest := DownloadFrom(script, k0 + i + 1, url, cookie, retries, i + 1);
    assert RetryPauses(0, i + 1) == RetryPauses(0, i) + [1000 * (i + 1)];
    assert ImageRequests(url, cookie, i + 1) == ImageRequests(url, cookie, i) + [Request(ImageFile(url), cookie)];
    AppendAssoc(RetryPauses(0, i), [1000 * (i + 1)], rest.waits);
    AppendAssoc(ImageRequests(url, cookie, i), [Request(ImageFile(url), cookie)], rest.sent);
    AppendAssoc(w0, RetryPauses(0, i), [1000 * (i + 1)]);
    AppendAssoc(s0, ImageRequests(url, cookie, i), [Request(ImageFile(url), cookie)]);
  }

  lemma LoopEnd(script: nat -> Outcome, k0: nat, url: string, cookie: string, retries: int, i: nat,
                w0: seq<nat>, s0: seq<Request>)
    requires i < retries && (script(k0 + i).Reply? || i == retries - 1)
    requires LoopAt(script, k0, url, cookie, retries, i, w0, s0,
                    k0 + i, w0 + RetryPauses(0, i), s0 + ImageRequests(url, cookie, i))
    ensures var r := DownloadFrom(script, k0, url, cookie, retries, 0);
      && r.result == (if script(k0 + i).Reply? then Fetched(script(k0 + i).raw) else Thrown(script(k0 + i).message))
      && r.served == k0 + i + 1 && w0 + RetryPauses(0, i) == w0 + r.waits
      && s0 + ImageRequests(url, cookie, i) + [Request(ImageFile(url), cookie)] == s0 + r.sent
  {
    AppendAssoc(s0, ImageRequests(url, cookie, i), [Request(ImageFile(url), cookie)]);
    assert RetryPauses(0, i) + [] == RetryPauses(0, i);
  }

  // ---------------------------------------------------------------------
  // Progress percentage

  /** `Math.min(Math.round(((downloaded + failed) / (total * 2)) * 80) + 10, 90)`
      for `n` = downloaded + failed and `t` = total, in integers:
      rounding half up of 80n / 2t is (80n + t) div 2t. */
  function Percent(n: nat, t: nat): nat
    requires t >= 1
  {
    Min((80 * n + t) / (2 * t) + 10, 90)
  }

  lemma DivBounds(x: nat, d: nat)
    requires d >= 1
    ensures d * (x / d) <= x < d * (x / d) + d
  {
  }

  lemma MulMonotone(a: nat, b: nat, c: nat)
    ensures a <= b ==> c * a <= c * b
  {
    if a <= b {
      assert c * b == c * a + c * (b - a);
    }
  }

  lemma DivMonotone(a: nat, b: nat, d: nat)
    requires a <= b && d >= 1
    ensures a / d <= b / d
  {
    DivBounds(a, d);
    DivBounds(b, d);
    MulMonotone(b / d + 1, a / d, d);
  }

  /** The percentage never goes down as images are handled. */
  lemma PercentMonotone(n: nat, m: nat, t: nat)
    requires t >= 1 && n <= m
    ensures Percent(n, t) <= Percent(m, t)
  {
    DivMonotone(80 * n + t, 80 * m + t, 2 * t);
  }

  /** Once twice as many images as artworks were handled, the percentage
      is at its cap of 90. */
  lemma PercentCap(n: nat, t: nat)
    requires t >= 1 && n >= 2 * t
    ensures Percent(n, t) == 90
  {
    var q := (80 * n + t) / (2 * t);
    DivBounds(80 * n + t, 2 * t);
    MulMonotone(q + 1, 80, 2 * t);
  }

  /** Before any image is handled the formula gives the 10 the first
      record carries. */
  lemma PercentStart(t: nat)
    requires t >= 1
    ensures Percent(0, t) == 10
  {
    DivBounds(t, 2 * t);
    MulMonotone(1, t / (2 * t), 2 * t);
  }

  /** The percentage stays within [10, 90], and below the cap it is
      80n / 2t rounded half up (as `Math.round` does), plus 10. */
  lemma PercentRounds(n: nat, t: nat)
    requires t >= 1
    ensures 10 <= Percent(n, t) <= 90
    ensures Percent(n, t) < 90 ==>
      var q := Percent(n, t) - 10;
      2 * t * q <= 80 * n + t < 2 * t * (q + 1)
  {
    DivBounds(80 * n + t, 2 * t);
  }

  // ---------------------------------------------------------------------
  // processDownload

  /** `${artworkId}_${i + 1}.jpg`, the archive name of the artwork's image
      at index `i`. The mobile app's `ClientApi.FileName` names a saved
      page the same way. */
  function FileName(id: string, i: nat): string { id + "_" + Decimal(i + 1) + ".jpg" }

  datatype Entry = Entry(name: string, data: seq<byte>)

  datatype Stage = Downloading | CreatingZip | Completed

  /** An entry of `downloadProgress`: `{status: 'failed', message}`, or a
      record of a running or finished task. */
  datatype Progress =
    | Failed(message: string)
    | Working(stage: Stage, percent: nat, total: nat, downloaded: nat, failed: nat,
              message: string, location: Option<string>)

  /** The TypeError of `downloadProgress[taskId].message = ...` when the
      task has no entry. */
  const UndefinedEntryMessage := "Cannot set properties of undefined (setting 'message')"
  const NoArtworksFound := "No artworks found"
  const FetchingMessage := "Fetching user artworks..."
  const UserArtworksLimit: nat := 50

  function StartMessage(total: nat): string
  {
    "Found " + Decimal(total) + " artworks. Starting download..."
  }

  function StepMessage(downloaded: nat, failed: nat): string
  {
    "Downloaded " + Decimal(downloaded) + " images, " + Decimal(failed) + " failed"
  }

  function DoneMessage(downloaded: nat, failed: nat): string
  {
    "Download complete! " + Decimal(downloaded) + " images downloaded, " + Decimal(failed) + " failed"
  }

  /** `downloadProgress`, the progress of every task by task id. */
  class ProgressBoard {
    var entries: map<string, Progress>

    constructor ()
      ensures entries == map[]
    {
      entries := map[];
    }

    /** `downloadProgress[taskId].message = message`, on an entry that exists. */
    method SetMessage(taskId: string, message: string)
      requires taskId in entries
      modifies this
      ensures entries == old(entries)[taskId := WithMessage(old(entries)[taskId], message)]
    {
      entries := entries[taskId := WithMessage(entries[taskId], message)];
    }

    /** `downloadProgress[taskId] = p`. */
    method Put(taskId: string, p: Progress)
      modifies this
      ensures entries == old(entries)[taskId := p]
    {
      entries := entries[taskId := p];
    }
  }

  function WithMessage(p: Progress, message: string): Progress
  {
    p.(message := message)
  }

  /** The artworks of the task: the user's first 50 by `getUserArtworks`,
      or the single artwork; a user without an entry stops at the TypeError
      and an error of `getUserArtworks` becomes the failed entry. */
  method ResolveArtworks(board: ProgressBoard, pool: CredentialPool, site: Site, taskId: string,
                         userId: Option<Id>, artworkId: Option<Id>, originalUrl: string)
    returns (artworks: seq<ArtworkRef>, stopped: bool, ghost run: UserRun)
    requires pool.Valid()
    modifies board, pool, site
    ensures pool.Valid() && pool.authenticated == old(pool.authenticated)
    ensures userId.Some? && taskId !in old(board.entries) ==>
      stopped && board.entries == old(board.entries)[taskId := Failed(UndefinedEntryMessage)]
      && site.served == old(site.served) && pool.State() == old(pool.State())
    ensures userId.Some? && taskId in old(board.entries) ==>
      run == UserArtworksRun(Mobile, site.script, old(site.served), old(pool.State()), userId.value, UserArtworksLimit)
    ensures userId.Some? && taskId in old(board.entries) ==>
      && pool.State() == run.pool && site.served == run.served
      && site.waits == old(site.waits) + run.waits && site.sent == old(site.sent) + run.sent
      && (run.result.Err? ==> stopped && board.entries == old(board.entries)[taskId := Failed(run.result.message)])
      && (run.result.Ok? ==>
            (!stopped && artworks == run.result.value
             && board.entries == old(board.entries)[taskId := WithMessage(old(board.entries)[taskId], FetchingMessage)]))
    ensures userId.None? ==>
      && !stopped && board.entries == old(board.entries)
      && site.served == old(site.served) && site.waits == old(site.waits) && site.sent == old(site.sent)
      && pool.State() == old(pool.State())
      && artworks == (if artworkId.Some? then [ArtworkRef(artworkId.value, originalUrl, ArtworkTitle(artworkId.value))] else [])
  {
    artworks, stopped := [], false;
    run := UserRun(Ok([]), pool.State(), site.served, [], []);
    if userId.Some? {
      if taskId !in board.entries {
        board.Put(taskId, Failed(UndefinedEntryMessage));
        artworks, stopped := [], true;
        return;
      }
      board.SetMessage(taskId, FetchingMessage);
      run := UserArtworksRun(Mobile, site.script, site.served, pool.State(), userId.value, UserArtworksLimit);
      var r := GetUserArtworks(Mobile, pool, site, userId.value, UserArtworksLimit);
      if r.Err? {
        board.Put(taskId, Failed(r.message));
        artworks, stopped := [], true;
        return;
      }
      artworks := r.value;
    } else if artworkId.Some? {
      artworks := [ArtworkRef(artworkId.value, originalUrl, ArtworkTitle(artworkId.value))];
    }
  }

  /** `getArtworkImages(id)` as the download loop sees it: a call that
      keeps the pool consistent and only moves the site forward. */
  method ArtworkImages(pool: CredentialPool, site: Site, id: Id) returns (images: seq<string>)
    requires pool.Valid()
    modifies pool, site
    ensures pool.Valid() && pool.authenticated == old(pool.authenticated)
    ensures site.served >= old(site.served)
  {
    images := GetArtworkImages(Mobile, pool, site, id, 0);
    AttemptBounds(Mobile, site.script, old(site.served), old(pool.State()), id, 0);
  }

  /** Indices of the images that made it into the archive, in order. */
  predicate SavedIndices(saved: seq<nat>, count: nat)
  {
    (forall j :: 0 <= j < |saved| ==> saved[j] < count)
    && (forall i, j :: 0 <= i < j < |saved| ==> saved[i] < saved[j])
  }

  /** The inner loop of `processDownload` for one artwork: each image is
      downloaded (3 attempts) and either archived as `${id}_${i + 1}.jpg`
      or counted as failed. */
  method SaveImages(pool: CredentialPool, site: Site, id: Id, images: seq<string>)
    returns (downloaded: nat, failed: nat, entries: seq<Entry>, ghost saved: seq<nat>)
    modifies site
    ensures downloaded + failed == |images|
    ensures |entries| == downloaded == |saved| && SavedIndices(saved, |images|)
    ensures forall j :: 0 <= j < |saved| ==> entries[j].name == FileName(id, saved[j])
    ensures site.served >= old(site.served)
  {
    downloaded, failed, entries, saved := 0, 0, [], [];
    for i := 0 to |images|
      invariant downloaded + failed == i
      invariant |entries| == downloaded == |saved| && SavedIndices(saved, i)
      invariant forall j :: 0 <= j < |saved| ==> entries[j].name == FileName(id, saved[j])
      invariant site.served >= old(site.served)
    {
      ghost var k := site.served;
      DownloadImageFacts(site.script, k, images[i], pool.cookies, DefaultRetries);
      var d := DownloadImage(pool, site, images[i], DefaultRetries);
      if d.Fetched? {
        entries := entries + [Entry(FileName(id, i), d.data)];
        saved := saved + [i];
        downloaded := downloaded + 1;
      } else {
        failed := failed + 1;
      }
    }
  }

  /** The progress records `processDownload` writes while downloading
      stay within [10, 90] and never go down, and none is above `bound`. */
  predicate DownloadingWithin(log: seq<Progress>, bound: nat)
  {
    forall j :: 0 <= j < |log| && log[j].Working? && log[j].stage == Downloading ==>
      10 <= log[j].percent <= bound <= 90
  }

  predicate Climbing(log: seq<Progress>)
  {
    forall i, j ::
      (0 <= i < j < |log| && log[i].Working? && log[i].stage == Downloading
       && log[j].Working? && log[j].stage == Downloading) ==> log[i].percent <= log[j].percent
  }

  /** A record with a percentage at least as high as every earlier one
      keeps the log climbing. */
  lemma ClimbingExtend(log: seq<Progress>, bound: nat, p: Progress)
    requires DownloadingWithin(log, bound) && Climbing(log)
    requires p.Working? && p.stage == Downloading && 10 <= bound <= p.percent <= 90
    ensures DownloadingWithin(log + [p], p.percent) && Climbing(log + [p])
  {
    var l := log + [p];
    forall i, j | 0 <= i < j < |l| && l[i].Working? && l[i].stage == Downloading
                  && l[j].Working? && l[j].stage == Downloading
      ensures l[i].percent <= l[j].percent
    {
      if j == |log| {
        assert l[i] == log[i];
      } else {
        assert l[i] == log[i] && l[j] == log[j];
      }
    }
  }

  /** The record the loop starts with. */
  function FirstRecord(t: nat, location: string): Progress
  {
    Working(Downloading, 10, t, 0, 0, StartMessage(t), Some(location))
  }

  /** The record written after an artwork is done. */
  function StepRecord(downloaded: nat, failed: nat, t: nat): Progress
    requires t >= 1
  {
    Working(Downloading, Percent(downloaded + failed, t), t, downloaded, failed, StepMessage(downloaded, failed), None)
  }

  /** What the artwork loop has written after the artworks whose image
      lists are `resolved`: the first record, then one record per artwork
      whose counts add up to the images handled so far, with percentages
      that climb and stay at or below the current one. */
  ghost predicate DownloadLog(log: seq<Progress>, resolved: seq<seq<string>>,
                              downloaded: nat, failed: nat, t: nat, location: string)
  {
    && t >= 1 && |log| == |resolved| + 1 && log[0] == FirstRecord(t, location)
    && downloaded + failed == Sum(resolved, ImageCount)
    && (|resolved| > 0 ==> log[|log| - 1] == StepRecord(downloaded, failed, t))
    && DownloadingWithin(log, Percent(downloaded + failed, t)) && Climbing(log)
  }

  lemma DownloadLogStart(t: nat, location: string)
    requires t >= 1
    ensures DownloadLog([FirstRecord(t, location)], [], 0, 0, t, location)
  {
    PercentStart(t);
  }

  /** One more artwork with `d` saved and `f` failed images keeps the log
      well formed. */
  lemma DownloadLogStep(log: seq<Progress>, resolved: seq<seq<string>>, downloaded: nat, failed: nat,
                        t: nat, location: string, images: seq<string>, d: nat, f: nat)
    requires DownloadLog(log, resolved, downloaded, failed, t, location) && d + f == |images|
    ensures DownloadLog(log + [StepRecord(downloaded + d, failed + f, t)], resolved + [images],
                        downloaded + d, failed + f, t, location)
  {
    SumAppend(resolved, [images], ImageCount);
    PercentMonotone(downloaded + failed, downloaded + d + failed + f, t);
    PercentRounds(downloaded + d + failed + f, t);
    ClimbingExtend(log, Percent(downloaded + failed, t), StepRecord(downloaded + d, failed + f, t));
  }

  /** The last record of the loop. */
  function LastRecord(log: seq<Progress>): Progress
    requires log != []
  {
    log[|log| - 1]
  }

  /** The artwork loop of `processDownload`, with the archive's entries. */
  method DownloadAll(board: ProgressBoard, pool: CredentialPool, site: Site, taskId: string,
                     artworks: seq<ArtworkRef>, location: string)
    returns (downloaded: nat, failed: nat, entries: seq<Entry>, ghost log: seq<Progress>, ghost resolved: seq<seq<string>>)
    requires pool.Valid() && artworks != []
    modifies board, pool, site
    ensures pool.Valid() && pool.authenticated == old(pool.authenticated)
    ensures |resolved| == |artworks| && |entries| == downloaded
    ensures DownloadLog(log, resolved, downloaded, failed, |artworks|, location)
    ensures board.entries == old(board.entries)[taskId := LastRecord(log)]
  {
    var t := |artworks|;
    board.Put(taskId, FirstRecord(t, location));
    log := [FirstRecord(t, location)];
    downloaded, failed, entries, resolved := 0, 0, [], [];
    DownloadLogStart(t, location);
    for a := 0 to t
      invariant pool.Valid() && pool.authenticated == old(pool.authenticated)
      invariant |resolved| == a && |entries| == downloaded
      invariant DownloadLog(log, resolved, downloaded, failed, t, location)
      invariant board.entries == old(board.entries)[taskId := LastRecord(log)]
    {
      var d, f, es, images := DownloadArtwork(board, pool, site, taskId, artworks[a], t, downloaded, failed);
      DownloadLogStep(log, resolved, downloaded, failed, t, location, images, d, f);
      log, resolved := log + [StepRecord(downloaded + d, failed + f, t)], resolved + [images];
      downloaded, failed, entries := downloaded + d, failed + f, entries + es;
    }
  }

  /** One round of the artwork loop: the message names the artwork, its
      images are resolved and downloaded, and the record is replaced by the
      new counts and percentage. */
  method DownloadArtwork(board: ProgressBoard, pool: CredentialPool, site: Site, taskId: string,
                         artwork: ArtworkRef, t: nat, downloaded: nat, failed: nat)
    returns (d: nat, f: nat, entries: seq<Entry>, images: seq<string>)
    requires pool.Valid() && t >= 1 && taskId in board.entries
    modifies board, pool, site
    ensures pool.Valid() && pool.authenticated == old(pool.authenticated)
    ensures d + f == |images| && |entries| == d
    ensures board.entries == old(board.entries)[taskId := StepRecord(downloaded + d, failed + f, t)]
  {
    board.SetMessage(taskId, "Downloading " + artwork.title + "...");
    images := ArtworkImages(pool, site, artwork.id);
    ghost var saved;
    d, f, entries, saved := SaveImages(pool, site, artwork.id, images);
    board.Put(taskId, StepRecord(downloaded + d, failed + f, t));
  }

  /** The log of a task that completed: the download loop's records, then
      the archive record at 95 and the completion record at 100. */
  ghost predicate CompletedLog(log: seq<Progress>, resolved: seq<seq<string>>,
                               downloaded: nat, failed: nat, t: nat, location: string)
  {
    && |log| >= 3
    && DownloadLog(log[..|log| - 2], resolved, downloaded, failed, t, location)
    && log[|log| - 2] == Working(CreatingZip, 95, t, downloaded, failed, "Creating ZIP file...", None)
    && log[|log| - 1] == Working(Completed, 100, t, downloaded, failed, DoneMessage(downloaded, failed), None)
  }

  /** Over a completed task, the downloading records stay within [10, 90]
      and never go down, the counts add up to every image of every
      artwork, and the record before the archive one has the final counts. */
  lemma CompletedLogFacts(log: seq<Progress>, resolved: seq<seq<string>>,
                          downloaded: nat, failed: nat, t: nat, location: string)
    requires CompletedLog(log, resolved, downloaded, failed, t, location)
    ensures DownloadingWithin(log, 90) && Climbing(log)
    ensures downloaded + failed == Sum(resolved, ImageCount) && |log| == |resolved| + 3
    ensures log[0] == FirstRecord(t, location)
    ensures |resolved| > 0 ==> log[|log| - 3] == StepRecord(downloaded, failed, t)
  {
    FinishedAfter(log, Percent(downloaded + failed, t));
  }

  /** Records of other stages after the downloading ones leave the
      downloading ones as they were. */
  lemma FinishedAfter(log: seq<Progress>, bound: nat)
    requires |log| >= 2 && DownloadingWithin(log[..|log| - 2], bound) && Climbing(log[..|log| - 2])
    requires !(log[|log| - 2].Working? && log[|log| - 2].stage == Downloading)
    requires !(log[|log| - 1].Working? && log[|log| - 1].stage == Downloading)
    ensures DownloadingWithin(log, 90) && Climbing(log)
  {
    var l := log[..|log| - 2];
    forall i, j | 0 <= i < j < |log| && log[i].Working? && log[i].stage == Downloading
                  && log[j].Working? && log[j].stage == Downloading
      ensures log[i].percent <= log[j].percent
    {
      assert j < |l| && l[i] == log[i] && l[j] == log[j];
    }
    forall j | 0 <= j < |log| && log[j].Working? && log[j].stage == Downloading
      ensures 10 <= log[j].percent <= 90
    {
      assert j < |l| && l[j] == log[j];
    }
  }

  /** `processDownload(taskId, userId, artworkId, originalUrl, location)`.
      `log` holds every record assigned to the task's entry in order (the
      message-only updates are not in it); `entries` is the archive. */
  method ProcessDownload(board: ProgressBoard, pool: CredentialPool, site: Site, taskId: string,
                         userId: Option<Id>, artworkId: Option<Id>, originalUrl: string, location: string)
    returns (entries: seq<Entry>, artworks: seq<ArtworkRef>, ghost stopped: bool, ghost run: UserRun,
             ghost log: seq<Progress>, ghost resolved: seq<seq<string>>)
    requires pool.Valid()
    modifies board, pool, site
    ensures pool.Valid() && pool.authenticated == old(pool.authenticated)
    ensures userId.Some? && taskId !in old(board.entries) ==>
      stopped && board.entries == old(board.entries)[taskId := Failed(UndefinedEntryMessage)]
    ensures userId.Some? && taskId in old(board.entries) ==>
      run == UserArtworksRun(Mobile, site.script, old(site.served), old(pool.State()), userId.value, UserArtworksLimit)
    ensures userId.Some? && taskId in old(board.entries) ==>
      && (run.result.Err? ==> stopped && board.entries == old(board.entries)[taskId := Failed(run.result.message)])
      && (run.result.Ok? ==> !stopped && artworks == run.result.value)
    ensures userId.None? ==>
      && !stopped
      && artworks == (if artworkId.Some? then [ArtworkRef(artworkId.value, originalUrl, ArtworkTitle(artworkId.value))] else [])
    ensures stopped ==> entries == []
    ensures !stopped && artworks == [] ==>
      board.entries == old(board.entries)[taskId := Failed(NoArtworksFound)] && entries == []
    ensures !stopped && artworks != [] ==>
      && log != [] && board.entries == old(board.entries)[taskId := LastRecord(log)]
      && LastRecord(log).Working? && |resolved| == |artworks|
      && CompletedLog(log, resolved, |entries|, LastRecord(log).failed, |artworks|, location)
  {
    var halted;
    artworks, halted, run := ResolveArtworks(board, pool, site, taskId, userId, artworkId, originalUrl);
    entries, stopped, log, resolved := [], halted, [], [];
    if !halted {
      entries, log, resolved := DownloadResolved(board, pool, site, taskId, artworks, location);
    }
  }

  /** `processDownload` once the artworks are known: none fails the task,
      otherwise they are downloaded and archived. */
  method DownloadResolved(board: ProgressBoard, pool: CredentialPool, site: Site, taskId: string,
                          artworks: seq<ArtworkRef>, location: string)
    returns (entries: seq<Entry>, ghost log: seq<Progress>, ghost resolved: seq<seq<string>>)
    requires pool.Valid()
    modifies board, pool, site
    ensures pool.Valid() && pool.authenticated == old(pool.authenticated)
    ensures artworks == [] ==>
      board.entries == old(board.entries)[taskId := Failed(NoArtworksFound)] && entries == []
    ensures artworks != [] ==>
      && log != [] && board.entries == old(board.entries)[taskId := LastRecord(log)]
      && LastRecord(log).Working? && |resolved| == |artworks|
      && CompletedLog(log, resolved, |entries|, LastRecord(log).failed, |artworks|, location)
  {
    if artworks == [] {
      board.Put(taskId, Failed(NoArtworksFound));
      return [], [], [];
    }
    entries, log, resolved := DownloadAndArchive(board, pool, site, taskId, artworks, location);
  }

  /** The part of `processDownload` after the artworks are known: the
      download loop, then the archive record at 95 and the completion
      record at 100. */
  method DownloadAndArchive(board: ProgressBoard, pool: CredentialPool, site: Site, taskId: string,
                            artworks: seq<ArtworkRef>, location: string)
    returns (entries: seq<Entry>, ghost log: seq<Progress>, ghost resolved: seq<seq<string>>)
    requires pool.Valid() && artworks != []
    modifies board, pool, site
    ensures pool.Valid() && pool.authenticated == old(pool.authenticated)
    ensures log != [] && board.entries == old(board.entries)[taskId := LastRecord(log)]
    ensures LastRecord(log).Working? && |resolved| == |artworks|
    ensures CompletedLog(log, resolved, |entries|, LastRecord(log).failed, |artworks|, location)
  {
    var downloaded, failed;
    downloaded, failed, entries, log, resolved := DownloadAll(board, pool, site, taskId, artworks, location);
    var t := |artworks|;
    var zipping := Working(CreatingZip, 95, t, downloaded, failed, "Creating ZIP file...", None);
    board.Put(taskId, zipping);
    var done := Working(Completed, 100, t, downloaded, failed, DoneMessage(downloaded, failed), None);
    board.Put(taskId, done);
    assert (log + [zipping, done])[..|log| + 2 - 2] == log;
    log := log + [zipping, done];
  }
}
