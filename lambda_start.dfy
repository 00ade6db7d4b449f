/** The serverless handler's `POST /api/download/start`: validate the URL,
    resolve the artworks of the user (first 25, newest first) or the single
    artwork, then resolve the images of at most 25 of them and answer with
    those that have at least one image. */
module LambdaStart {
  import opened Basics
  import opened Upstream
  import opened Pool
  import opened Urls
  import opened Catalogue
  import opened Images

  /** `{id, title, images, imageCount}` of an artwork in the answer. */
  datatype ArtworkDetail = ArtworkDetail(id: Id, title: string, images: seq<string>, imageCount: nat)

  /** The JSON answer: an error status with `{error, message}`, or the
      artworks found. */
  datatype StartResponse =
    | StartError(status: nat, error: string, message: string)
    | StartOk(artworks: seq<ArtworkDetail>, totalArtworks: nat, totalImages: nat, message: string)

  /** At most this many artworks have their images resolved. */
  const MaxResolved: nat := 25

  /** The details kept for the artworks `refs` whose images were resolved
      to `resolved`: those with at least one image, in order. */
  function Details(refs: seq<ArtworkRef>, resolved: seq<seq<string>>): seq<ArtworkDetail>
    requires |resolved| == |refs|
  {
    if refs == [] then []
    else
      var rest := Details(refs[1..], resolved[1..]);
      if resolved[0] != [] then [ArtworkDetail(refs[0].id, refs[0].title, resolved[0], |resolved[0]|)] + rest
      else rest
  }

  /** `artworkDetails.reduce((sum, a) => sum + a.imageCount, 0)`. */
  function TotalImages(details: seq<ArtworkDetail>): nat
  {
    if details == [] then 0 else details[0].imageCount + TotalImages(details[1..])
  }

  /** Each kept artwork has images and `imageCount` is their number; there
      are no more of them than artworks, and their image counts add up to
      all the images resolved. */
  lemma {:induction false} DetailsCounts(refs: seq<ArtworkRef>, resolved: seq<seq<string>>)
    requires |resolved| == |refs|
    ensures var d := Details(refs, resolved);
      && |d| <= |refs|
      && (forall j :: 0 <= j < |d| ==> d[j].images != [] && d[j].imageCount == |d[j].images|)
      && TotalImages(d) == Sum(resolved, ImageCount)
  {
    if refs != [] {
      DetailsCounts(refs[1..], resolved[1..]);
      var rest := Details(refs[1..], resolved[1..]);
      var d := Details(refs, resolved);
      if resolved[0] != [] {
        assert d[1..] == rest;
      }
    }
  }

  /** The kept artworks are exactly those whose images were found. */
  lemma {:induction false} DetailsMembers(refs: seq<ArtworkRef>, resolved: seq<seq<string>>)
    requires |resolved| == |refs|
    ensures var d := Details(refs, resolved);
      && (forall i :: 0 <= i < |refs| && resolved[i] != [] ==>
            ArtworkDetail(refs[i].id, refs[i].title, resolved[i], |resolved[i]|) in d)
      && (forall x :: x in d ==>
            (exists i :: 0 <= i < |refs| && resolved[i] != []
               && x == ArtworkDetail(refs[i].id, refs[i].title, resolved[i], |resolved[i]|)))
  {
    if refs != [] {
      DetailsMembers(refs[1..], resolved[1..]);
      var rest := Details(refs[1..], resolved[1..]);
      var d := Details(refs, resolved);
      var head := ArtworkDetail(refs[0].id, refs[0].title, resolved[0], |resolved[0]|);
      assert d == (if resolved[0] != [] then [head] else []) + rest;
      forall i | 0 <= i < |refs| && resolved[i] != []
        ensures ArtworkDetail(refs[i].id, refs[i].title, resolved[i], |resolved[i]|) in d
      {
        if i > 0 {
          assert refs[1..][i - 1] == refs[i] && resolved[1..][i - 1] == resolved[i];
        }
      }
      forall x | x in d
        ensures (exists i :: 0 <= i < |refs| && resolved[i] != []
                   && x == ArtworkDetail(refs[i].id, refs[i].title, resolved[i], |resolved[i]|))
      {
        if x in rest {
          var i :| 0 <= i < |refs[1..]| && resolved[1..][i] != []
            && x == ArtworkDetail(refs[1..][i].id, refs[1..][i].title, resolved[1..][i], |resolved[1..][i]|);
          assert refs[1..][i] == refs[i + 1] && resolved[1..][i] == resolved[i + 1];
        } else {
          assert x == head;
        }
      }
    }
  }

  /** Details of a prefix extend by the next artwork's detail, if it has
      images. */
  lemma {:induction false} DetailsSnoc(refs: seq<ArtworkRef>, resolved: seq<seq<string>>, r: ArtworkRef, images: seq<string>)
    requires |resolved| == |refs|
    ensures Details(refs + [r], resolved + [images])
      == Details(refs, resolved) + (if images != [] then [ArtworkDetail(r.id, r.title, images, |images|)] else [])
  {
    if refs == [] {
      assert refs + [r] == [r] && resolved + [images] == [images];
    } else {
      assert (refs + [r])[1..] == refs[1..] + [r];
      assert (resolved + [images])[1..] == resolved[1..] + [images];
      DetailsSnoc(refs[1..], resolved[1..], r, images);
    }
  }

  /** Where the site and the pool stand after the runs `runs`, started
      from `k` and `p`. */
  function EndServed(runs: seq<ImagesRun>, k: nat): nat { if runs == [] then k else runs[|runs| - 1].served }
  function EndPool(runs: seq<ImagesRun>, p: PoolState): PoolState { if runs == [] then p else runs[|runs| - 1].pool }

  /** `runs[j]` is `getArtworkImages(refs[j].id)` on the serverless handler,
      each call starting where the previous one left the site and the
      pool. */
  ghost predicate Chained(runs: seq<ImagesRun>, script: nat -> Outcome, k: nat, p: PoolState, refs: seq<ArtworkRef>)
    decreases |runs|
  {
    && |runs| <= |refs|
    && (runs != [] ==>
          var init := runs[..|runs| - 1];
          && Chained(init, script, k, p, refs)
          && runs[|runs| - 1] == Attempt(Lambda, script, EndServed(init, k), EndPool(init, p), refs[|runs| - 1].id, 0))
  }

  lemma ChainedSnoc(runs: seq<ImagesRun>, script: nat -> Outcome, k: nat, p: PoolState, refs: seq<ArtworkRef>)
    requires Chained(runs, script, k, p, refs) && |runs| < |refs|
    ensures Chained(runs + [Attempt(Lambda, script, EndServed(runs, k), EndPool(runs, p), refs[|runs|].id, 0)],
                    script, k, p, refs)
  {
    var r := Attempt(Lambda, script, EndServed(runs, k), EndPool(runs, p), refs[|runs|].id, 0);
    assert (runs + [r])[..|runs|] == runs;
  }

  /** `getArtworkImages(id)` of the serverless handler, with its run. */
  method ArtworkImages(pool: CredentialPool, site: Site, id: Id) returns (images: seq<string>, ghost run: ImagesRun)
    requires pool.Valid()
    modifies pool, site
    ensures pool.Valid() && pool.authenticated == old(pool.authenticated)
    ensures run == Attempt(Lambda, site.script, old(site.served), old(pool.State()), id, 0)
    ensures images == run.images && site.served == run.served && pool.State() == run.pool
  {
    run := Attempt(Lambda, site.script, site.served, pool.State(), id, 0);
    images := GetArtworkImages(Lambda, pool, site, id, 0);
  }

  /** The artwork loop: the first min(|refs|, 25) artworks have their
      images resolved one after the other; those with images are kept. */
  method ResolveDetails(pool: CredentialPool, site: Site, refs: seq<ArtworkRef>)
    returns (details: seq<ArtworkDetail>, ghost resolved: seq<seq<string>>, ghost runs: seq<ImagesRun>)
    requires pool.Valid()
    modifies pool, site
    ensures pool.Valid() && pool.authenticated == old(pool.authenticated)
    ensures |runs| == |resolved| == Min(|refs|, MaxResolved)
    ensures Chained(runs, site.script, old(site.served), old(pool.State()), refs)
    ensures forall j :: 0 <= j < |runs| ==> resolved[j] == runs[j].images
    ensures details == Details(refs[..|runs|], resolved)
  {
    var n := Min(|refs|, MaxResolved);
    ghost var k0, p0 := site.served, pool.State();
    details, resolved, runs := [], [], [];
    for i := 0 to n
      invariant pool.Valid() && pool.authenticated == old(pool.authenticated)
      invariant |runs| == |resolved| == i
      invariant Chained(runs, site.script, k0, p0, refs)
      invariant site.served == EndServed(runs, k0) && pool.State() == EndPool(runs, p0)
      invariant forall j :: 0 <= j < i ==> resolved[j] == runs[j].images
      invariant details == Details(refs[..i], resolved)
    {
      var images;
      ghost var run;
      images, run := ArtworkImages(pool, site, refs[i].id);
      ChainedSnoc(runs, site.script, k0, p0, refs);
      DetailsSnoc(refs[..i], resolved, refs[i], images);
      TakeSnoc(refs, i);
      if images != [] {
        details := details + [ArtworkDetail(refs[i].id, refs[i].title, images, |images|)];
      }
      runs, resolved := runs + [run], resolved + [images];
    }
  }

  const FoundPrefix := "Found "

  /** The success answer once the first `|resolved|` artworks of `refs`
      have their images. */
  function Found(refs: seq<ArtworkRef>, resolved: seq<seq<string>>): StartResponse
    requires |resolved| <= |refs|
  {
    var details := Details(refs[..|resolved|], resolved);
    StartOk(details, |details|, TotalImages(details), FoundPrefix + Decimal(|details|) + " artworks")
  }

  /** `app.post('/api/download/start')` with the request's `url` (`None`
      when the body has none). */
  method StartDownload(pool: CredentialPool, site: Site, url: Option<string>)
    returns (resp: StartResponse, refs: seq<ArtworkRef>, ghost resolved: seq<seq<string>>, ghost runs: seq<ImagesRun>)
    requires pool.Valid()
    modifies pool, site
    ensures pool.Valid() && pool.authenticated == old(pool.authenticated)
    ensures url.None? || url.value == [] ==> resp == StartError(400, "Missing URL", "Pixiv URL is required")
    ensures url.Some? && url.value != [] && !pool.authenticated ==>
      resp == StartError(401, "Not authenticated", "No Pixiv sessions configured")
    ensures url.Some? && url.value != [] && pool.authenticated
            && ServerUserId(url.value).None? && ServerArtworkId(url.value).None? ==>
      resp == StartError(400, "Invalid URL", "Please provide a valid Pixiv user or artwork URL")
    ensures url.Some? && url.value != [] && pool.authenticated && ServerUserId(url.value).Some? ==>
      var run := UserArtworksRun(Lambda, site.script, old(site.served), old(pool.State()),
                                 ServerUserId(url.value).value, DefaultUserLimit);
      && (run.result.Err? ==> resp == StartError(500, "Failed to fetch artworks", run.result.message))
      && (run.result.Ok? ==> resp.StartOk? && refs == run.result.value
                             && Chained(runs, site.script, run.served, run.pool, refs))
    ensures url.Some? && url.value != [] && pool.authenticated && ServerUserId(url.value).None?
            && ServerArtworkId(url.value).Some? ==>
      && resp.StartOk? && refs == [RefFor(ServerArtworkId(url.value).value)]
      && Chained(runs, site.script, old(site.served), old(pool.State()), refs)
    ensures resp.StartOk? ==>
      && |runs| == |resolved| == Min(|refs|, MaxResolved)
      && (forall j :: 0 <= j < |runs| ==> resolved[j] == runs[j].images)
      && resp == Found(refs, resolved)
  {
    refs, resolved, runs := [], [], [];
    if url.None? || url.value == [] {
      return StartError(400, "Missing URL", "Pixiv URL is required"), refs, resolved, runs;
    }
    if !pool.authenticated {
      return StartError(401, "Not authenticated", "No Pixiv sessions configured"), refs, resolved, runs;
    }
    var userId := ServerUserId(url.value);
    var artworkId := ServerArtworkId(url.value);
    if userId.None? && artworkId.None? {
      return StartError(400, "Invalid URL", "Please provide a valid Pixiv user or artwork URL"), refs, resolved, runs;
    }
    if userId.Some? {
      var r := GetUserArtworks(Lambda, pool, site, userId.value, DefaultUserLimit);
      if r.Err? {
        return StartError(500, "Failed to fetch artworks", r.message), refs, resolved, runs;
      }
      refs := r.value;
    } else {
      refs := [RefFor(artworkId.value)];
    }
    var details;
    details, resolved, runs := ResolveDetails(pool, site, refs);
    resp := StartOk(details, |details|, TotalImages(details), FoundPrefix + Decimal(|details|) + " artworks");
  }
}
