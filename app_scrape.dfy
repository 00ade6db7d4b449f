/** The Python scraper over the site's official App API (`PixivScraper`):
    it logs in, pages through a user's illustrations until a stop
    condition, and turns every illustration into its image URLs, the
    original where there is one and the large rendition otherwise. */
module AppScrape {
  import opened Basics

  const AuthFailedMessage := "Authentication failed"
  const NoIllustsMessage := "No illustrations found"
  const DefaultMaxIllusts: int := 100
  /** `time.sleep(0.5)` between two pages, in milliseconds. */
  const PageGap: nat := 500

  /** `meta_single_page` of an illustration: its `original_image_url`. */
  datatype SinglePage = SinglePage(originalImageUrl: Option<string>)

  /** `image_urls` of an illustration: its `large_image_url`. */
  datatype IllustImageUrls = IllustImageUrls(largeImageUrl: Option<string>)

  /** `image_urls` of one of `meta_pages`: `original` and `large`. */
  datatype PageUrls = PageUrls(original: Option<string>, large: Option<string>)

  /** One illustration as the App API lists it: `meta_single_page` (None
      when it is missing or empty), `image_urls` (None when it is missing)
      and the `image_urls` of each of `meta_pages` (None for a page
      without them; no pages when `meta_pages` is missing or empty). */
  datatype Illust = Illust(metaSingle: Option<SinglePage>, imageUrls: Option<IllustImageUrls>,
                           metaPages: seq<Option<PageUrls>>)

  /** What one `api.user_illusts(user_id, offset=offset)` call gives: an
      exception, a result that is empty or has no `illusts`, or a batch of
      illustrations with the result's `next_url`. */
  datatype FeedReply =
    | Thrown(message: string)
    | NoIllusts
    | Batch(illusts: seq<Illust>, nextUrl: Option<string>)

  /** The API: whether it accepts the configured credentials, and a
      scripted reply to the k-th `user_illusts` call; it records the offset
      of every call and every pause taken between calls. */
  class AppApi {
    const accepts: bool
    const script: nat -> FeedReply
    var calls: nat
    ghost var offsets: seq<int>
    ghost var waits: seq<nat>

    constructor (accepts: bool, script: nat -> FeedReply)
      ensures this.accepts == accepts && this.script == script
      ensures calls == 0 && offsets == [] && waits == []
    {
      this.accepts := accepts;
      this.script := script;
      calls := 0;
      offsets := [];
      waits := [];
    }

    method UserIllusts(userId: string, offset: int) returns (r: FeedReply)
      modifies this
      ensures r == script(old(calls)) && calls == old(calls) + 1
      ensures offsets == old(offsets) + [offset] && waits == old(waits)
    {
      r := script(calls);
      calls := calls + 1;
      offsets := offsets + [offset];
    }

    method Sleep(ms: nat)
      modifies this
      ensures waits == old(waits) + [ms] && calls == old(calls) && offsets == old(offsets)
    {
      waits := waits + [ms];
    }
  }

  // ---------------------------------------------------------------------
  // Paging through a user's illustrations

  /** A reply after which `get_user_illusts` asks for the next page: a
      non-empty batch with a non-empty `next_url`. */
  predicate Continues(r: FeedReply)
  {
    r.Batch? && r.illusts != [] && r.nextUrl.Some? && r.nextUrl.value != ""
  }

  /** The illustrations a reply adds to the list. */
  function BatchOf(r: FeedReply): seq<Illust>
  {
    if r.Batch? then r.illusts else []
  }

  /** The paging loop from reply `k` on, with `acc` gathered so far: whether
      a call raised, the illustrations gathered (before the final cut),
      how many calls were made, their offsets and the pauses taken. */
  datatype Paged = Paged(thrown: bool, illusts: seq<Illust>, calls: nat, offsets: seq<int>, waits: seq<nat>)

  function Paging(script: nat -> FeedReply, k: nat, acc: seq<Illust>, maxIllusts: int): (p: Paged)
    ensures |p.offsets| == p.calls
    decreases maxIllusts - |acc|
  {
    if |acc| >= maxIllusts then Paged(false, acc, 0, [], [])
    else
      var r := script(k);
      if r.Thrown? then Paged(true, acc, 1, [|acc|], [])
      else if !Continues(r) then Paged(false, acc + BatchOf(r), 1, [|acc|], [])
      else
        var p := Paging(script, k + 1, acc + r.illusts, maxIllusts);
        Paged(p.thrown, p.illusts, p.calls + 1, [|acc|] + p.offsets, [PageGap] + p.waits)
  }

  /** The illustrations of the replies `k` .. `k + n - 1`, concatenated. */
  function Batches(script: nat -> FeedReply, k: nat, n: nat): seq<Illust>
    decreases n
  {
    if n == 0 then [] else BatchOf(script(k)) + Batches(script, k + 1, n - 1)
  }

  /** `get_user_illusts(user_id, max_illusts)` from reply `k`: [] when a
      call raised, else the gathered illustrations cut to `max_illusts`. */
  function UserIllustsOf(script: nat -> FeedReply, k: nat, maxIllusts: int): seq<Illust>
  {
    var p := Paging(script, k, [], maxIllusts);
    if p.thrown then [] else PrefixTo(p.illusts, maxIllusts)
  }

  /** The reply to the `j`-th call of a run that starts at reply `k`. */
  function ReplyAt(script: nat -> FeedReply, k: nat, j: nat): FeedReply { script(k + j) }

  /** A run makes a call exactly when the list is not yet full; every
      reply but the last continued the loop, and the last one stopped it
      or filled the list; the run raised exactly when its last call did. */
  lemma {:induction false} PagingStops(script: nat -> FeedReply, k: nat, acc: seq<Illust>, maxIllusts: int)
    ensures var p := Paging(script, k, acc, maxIllusts);
      && (p.calls == 0 <==> |acc| >= maxIllusts)
      && (forall j :: 0 <= j < p.calls - 1 ==> Continues(ReplyAt(script, k, j)))
      && (p.calls > 0 ==> !Continues(ReplyAt(script, k, p.calls - 1)) || |p.illusts| >= maxIllusts)
      && (p.thrown <==> p.calls > 0 && ReplyAt(script, k, p.calls - 1).Thrown?)
    decreases maxIllusts - |acc|
  {
    var p := Paging(script, k, acc, maxIllusts);
    if |acc| < maxIllusts && Continues(script(k)) {
      var q := Paging(script, k + 1, acc + script(k).illusts, maxIllusts);
      PagingStops(script, k + 1, acc + script(k).illusts, maxIllusts);
      forall j | 0 <= j < p.calls - 1 ensures Continues(ReplyAt(script, k, j)) {
        if j > 0 {
          assert ReplyAt(script, k, j) == ReplyAt(script, k + 1, j - 1);
        }
      }
      if q.calls > 0 {
        assert ReplyAt(script, k, p.calls - 1) == ReplyAt(script, k + 1, q.calls - 1);
      }
    }
  }

  /** Every call asks for the offset right after the illustrations already
      gathered, so successive calls are contiguous. */
  lemma {:induction false} PagingOffsets(script: nat -> FeedReply, k: nat, acc: seq<Illust>, maxIllusts: int)
    ensures var p := Paging(script, k, acc, maxIllusts);
      && (p.calls > 0 ==> p.offsets[0] == |acc|)
      && (forall j :: 0 <= j < p.calls - 1 ==> p.offsets[j + 1] == p.offsets[j] + |BatchOf(ReplyAt(script, k, j))|)
    decreases maxIllusts - |acc|
  {
    var p := Paging(script, k, acc, maxIllusts);
    if |acc| < maxIllusts && Continues(script(k)) {
      var q := Paging(script, k + 1, acc + script(k).illusts, maxIllusts);
      PagingOffsets(script, k + 1, acc + script(k).illusts, maxIllusts);
      forall j | 0 <= j < p.calls - 1
        ensures p.offsets[j + 1] == p.offsets[j] + |BatchOf(ReplyAt(script, k, j))|
      {
        if j > 0 {
          assert ReplyAt(script, k, j) == ReplyAt(script, k + 1, j - 1);
          assert p.offsets[j] == q.offsets[j - 1] && p.offsets[j + 1] == q.offsets[j];
        }
      }
    }
  }

  /** A run that did not raise gathered `acc` followed by its replies'
      batches, and paused 500 ms after every call but the last. */
  lemma {:induction false} PagingBatches(script: nat -> FeedReply, k: nat, acc: seq<Illust>, maxIllusts: int)
    ensures var p := Paging(script, k, acc, maxIllusts);
      && (!p.thrown ==> p.illusts == acc + Batches(script, k, p.calls))
      && |p.waits| <= p.calls && (forall j :: 0 <= j < |p.waits| ==> p.waits[j] == PageGap)
    decreases maxIllusts - |acc|
  {
    var p := Paging(script, k, acc, maxIllusts);
    if |acc| < maxIllusts && Continues(script(k)) {
      var r := script(k);
      var q := Paging(script, k + 1, acc + r.illusts, maxIllusts);
      PagingBatches(script, k + 1, acc + r.illusts, maxIllusts);
      if !q.thrown {
        assert Batches(script, k, p.calls) == r.illusts + Batches(script, k + 1, q.calls);
        AppendAssoc(acc, r.illusts, Batches(script, k + 1, q.calls));
      }
    } else if |acc| < maxIllusts && !script(k).Thrown? {
      assert Batches(script, k, 1) == BatchOf(script(k)) + [];
    } else if |acc| >= maxIllusts {
      assert acc + [] == acc;
    }
  }

  /** `get_user_illusts` never gives more than `max_illusts` illustrations
      (none for a limit that is not positive), gives [] when a call raised,
      and otherwise gives the replies' batches in order, cut to the limit. */
  lemma UserIllustsFacts(script: nat -> FeedReply, k: nat, maxIllusts: int)
    ensures var r := UserIllustsOf(script, k, maxIllusts);
      var p := Paging(script, k, [], maxIllusts);
      && |r| <= Max(maxIllusts, 0)
      && (p.thrown ==> r == [])
      && (!p.thrown ==> r == PrefixTo(Batches(script, k, p.calls), maxIllusts))
  {
    var p := Paging(script, k, [], maxIllusts);
    PagingBatches(script, k, [], maxIllusts);
    PrefixToIsPrefix(p.illusts, maxIllusts);
    if !p.thrown {
      assert [] + Batches(script, k, p.calls) == Batches(script, k, p.calls);
    }
  }

  // ---------------------------------------------------------------------
  // Image URLs of the illustrations

  /** The single-page branch raises a `KeyError`: there is a
      `meta_single_page` without `original_image_url` and no `image_urls`
      to fall back on. */
  predicate Malformed(il: Illust)
  {
    il.metaSingle.Some? && il.metaSingle.value.originalImageUrl.None? && il.imageUrls.None?
  }

  /** What the single-page branch appends. */
  function SingleUrl(il: Illust): seq<string>
  {
    if il.metaSingle.None? then []
    else if il.metaSingle.value.originalImageUrl.Some? then [il.metaSingle.value.originalImageUrl.value]
    else if il.imageUrls.Some? && il.imageUrls.value.largeImageUrl.Some? then [il.imageUrls.value.largeImageUrl.value]
    else []
  }

  /** What one of `meta_pages` appends: its original, else its large URL. */
  function PageUrl(p: Option<PageUrls>): seq<string>
  {
    if p.None? then []
    else if p.value.original.Some? then [p.value.original.value]
    else if p.value.large.Some? then [p.value.large.value]
    else []
  }

  function PagesUrls(pages: seq<Option<PageUrls>>): seq<string>
  {
    if pages == [] then [] else PagesUrls(pages[..|pages| - 1]) + PageUrl(pages[|pages| - 1])
  }

  /** The URLs one illustration contributes: none when it is malformed,
      else its single-page URL followed by its pages' URLs. */
  function IllustUrls(il: Illust): seq<string>
  {
    if Malformed(il) then [] else SingleUrl(il) + PagesUrls(il.metaPages)
  }

  /** `extract_image_urls(illusts)`. */
  function ExtractAll(illusts: seq<Illust>): seq<string>
  {
    if illusts == [] then [] else ExtractAll(illusts[..|illusts| - 1]) + IllustUrls(illusts[|illusts| - 1])
  }

  predicate HasUrl(p: Option<PageUrls>) { p.Some? && (p.value.original.Some? || p.value.large.Some?) }

  /** Every page that has a URL gives exactly one, its original in
      preference to its large rendition. */
  lemma {:induction false} PagesUrlsFacts(pages: seq<Option<PageUrls>>)
    ensures |PagesUrls(pages)| == |Filter(pages, HasUrl)|
    ensures forall u :: u in PagesUrls(pages) ==>
      exists p :: p in pages && p.Some? && (p.value.original == Some(u) || (p.value.original.None? && p.value.large == Some(u)))
  {
    if pages != [] {
      var init := pages[..|pages| - 1];
      var last := pages[|pages| - 1];
      PagesUrlsFacts(init);
      assert pages == init + [last];
      FilterAppend(init, [last], HasUrl);
      assert Filter([last], HasUrl) == (if HasUrl(last) then [last] else []) + Filter([last][1..], HasUrl);
    }
  }

  /** Extraction over two lists is the concatenation of the two. */
  lemma {:induction false} ExtractAppend(a: seq<Illust>, b: seq<Illust>)
    ensures ExtractAll(a + b) == ExtractAll(a) + ExtractAll(b)
    decreases |b|
  {
    if b == [] {
      assert a + b == a;
    } else {
      var init := b[..|b| - 1];
      ExtractAppend(a, init);
      assert (a + b)[..|a + b| - 1] == a + init;
      AppendAssoc(ExtractAll(a), ExtractAll(init), IllustUrls(b[|b| - 1]));
    }
  }

  /** A malformed illustration is skipped and the ones around it are
      still processed. */
  lemma MalformedSkipped(a: seq<Illust>, m: Illust, b: seq<Illust>)
    requires Malformed(m)
    ensures ExtractAll(a + [m] + b) == ExtractAll(a) + ExtractAll(b)
  {
    ExtractAppend(a + [m], b);
    ExtractSnoc(a, m);
    assert ExtractAll(a) + IllustUrls(m) == ExtractAll(a);
  }

  lemma ExtractSnoc(a: seq<Illust>, x: Illust)
    ensures ExtractAll(a + [x]) == ExtractAll(a) + IllustUrls(x)
  {
    assert (a + [x])[..|a|] == a;
  }

  /** A single-page illustration gives its original, or failing that its
      large URL, before any page URL. */
  lemma IllustUrlsFacts(il: Illust)
    ensures il.metaSingle.Some? && il.metaSingle.value.originalImageUrl.Some? ==>
      IllustUrls(il) == [il.metaSingle.value.originalImageUrl.value] + PagesUrls(il.metaPages)
    ensures il.metaSingle.Some? && il.metaSingle.value.originalImageUrl.None? && il.imageUrls.Some?
            && il.imageUrls.value.largeImageUrl.Some? ==>
      IllustUrls(il) == [il.imageUrls.value.largeImageUrl.value] + PagesUrls(il.metaPages)
    ensures il.metaSingle.None? ==> IllustUrls(il) == PagesUrls(il.metaPages)
    ensures Malformed(il) ==> IllustUrls(il) == []
  {
  }

  // ---------------------------------------------------------------------
  // The scraper

  /** The dictionary `scrape_user` returns. */
  datatype AppResult =
    | AppFailed(error: string)
    | AppScraped(artworks: nat, images: nat, imageUrls: seq<string>)

  /** The result for the illustrations `get_user_illusts` gave. */
  function ResultFor(illusts: seq<Illust>): AppResult
  {
    if illusts == [] then AppFailed(NoIllustsMessage)
    else AppScraped(|illusts|, |ExtractAll(illusts)|, ExtractAll(illusts))
  }

  /** A scrape succeeds exactly when there are illustrations; it then
      counts every illustration as an artwork and every URL as an image. */
  lemma ResultForFacts(illusts: seq<Illust>)
    ensures ResultFor(illusts).AppScraped? <==> illusts != []
    ensures ResultFor(illusts).AppScraped? ==>
      ResultFor(illusts).artworks == |illusts| && ResultFor(illusts).images == |ResultFor(illusts).imageUrls|
  {
  }

  class PixivScraper {
    var authenticated: bool

    constructor ()
      ensures !authenticated
    {
      authenticated := false;
    }

    /** `login()`: whether the API accepted the credentials. */
    method Login(api: AppApi) returns (ok: bool)
      modifies this
      ensures ok == api.accepts && authenticated == (old(authenticated) || ok)
    {
      ok := api.accepts;
      if ok {
        authenticated := true;
      }
    }

    /** `get_user_illusts(user_id, max_illusts)`. */
    method GetUserIllusts(api: AppApi, userId: string, maxIllusts: int) returns (illusts: seq<Illust>)
      modifies api
      ensures var p := Paging(api.script, old(api.calls), [], maxIllusts);
        && illusts == UserIllustsOf(api.script, old(api.calls), maxIllusts)
        && api.calls == old(api.calls) + p.calls
        && api.offsets == old(api.offsets) + p.offsets && api.waits == old(api.waits) + p.waits
    {
      ghost var k0 := api.calls;
      ghost var p0 := Paging(api.script, k0, [], maxIllusts);
      illusts := [];
      var offset := 0;
      ghost var stopped := false;
      while |illusts| < maxIllusts
        invariant offset == |illusts|
        invariant Resumes(api.script, k0, maxIllusts, old(api.offsets), old(api.waits),
                          illusts, api.calls, api.offsets, api.waits)
        decreases maxIllusts - |illusts|
      {
        ghost var calls, offsets, waits := api.calls, api.offsets, api.waits;
        var r := api.UserIllusts(userId, offset);
        if r.Thrown? {
          ResumesThrown(api.script, k0, maxIllusts, old(api.offsets), old(api.waits), illusts, calls, offsets, waits);
          return [];
        }
        if r.NoIllusts? || r.illusts == [] || r.nextUrl.None? || r.nextUrl.value == "" {
          ResumesStops(api.script, k0, maxIllusts, old(api.offsets), old(api.waits), illusts, calls, offsets, waits);
          illusts := illusts + BatchOf(r);
          stopped := true;
          break;
        }
        ResumesContinues(api.script, k0, maxIllusts, old(api.offsets), old(api.waits), illusts, calls, offsets, waits);
        illusts := illusts + r.illusts;
        offset := offset + |r.illusts|;
        api.Sleep(PageGap);
      }
      if !stopped {
        ResumesEnd(api.script, k0, maxIllusts, old(api.offsets), old(api.waits), illusts, api.calls, api.offsets, api.waits);
      }
      illusts := PrefixTo(illusts, maxIllusts);
    }

    /** `scrape_user(user_id, max_illusts)`: log in first if need be. */
    method ScrapeUser(api: AppApi, userId: string, maxIllusts: int) returns (r: AppResult)
      modifies this, api
      ensures !old(authenticated) && !api.accepts ==>
        r == AppFailed(AuthFailedMessage) && api.calls == old(api.calls) && !authenticated
      ensures old(authenticated) || api.accepts ==>
        && r == ResultFor(UserIllustsOf(api.script, old(api.calls), maxIllusts)) && authenticated
        && api.calls == old(api.calls) + Paging(api.script, old(api.calls), [], maxIllusts).calls
    {
      if !authenticated {
        var ok := Login(api);
        if !ok {
          return AppFailed(AuthFailedMessage);
        }
      }
      var illusts := GetUserIllusts(api, userId, maxIllusts);
      if illusts == [] {
        return AppFailed(NoIllustsMessage);
      }
      var urls := ExtractImageUrls(illusts);
      r := AppScraped(|illusts|, |urls|, urls);
    }
  }

  /** The paging loop has gathered `acc`, and finishing it from the next
      reply gives what the whole loop gives from reply `k0`. */
  ghost predicate Resumes(script: nat -> FeedReply, k0: nat, maxIllusts: int, offsets0: seq<int>, waits0: seq<nat>,
                          acc: seq<Illust>, calls: nat, offsets: seq<int>, waits: seq<nat>)
  {
    var p0 := Paging(script, k0, [], maxIllusts);
    var p := Paging(script, calls, acc, maxIllusts);
    && k0 <= calls
    && p0.thrown == p.thrown && p0.illusts == p.illusts
    && p0.calls == calls - k0 + p.calls
    && offsets0 + p0.offsets == offsets + p.offsets
    && waits0 + p0.waits == waits + p.waits
  }

  lemma ResumesThrown(script: nat -> FeedReply, k0: nat, maxIllusts: int, offsets0: seq<int>, waits0: seq<nat>,
                      acc: seq<Illust>, calls: nat, offsets: seq<int>, waits: seq<nat>)
    requires Resumes(script, k0, maxIllusts, offsets0, waits0, acc, calls, offsets, waits)
    requires |acc| < maxIllusts && script(calls).Thrown?
    ensures var p0 := Paging(script, k0, [], maxIllusts);
      && p0.thrown && calls + 1 == k0 + p0.calls
      && offsets + [|acc|] == offsets0 + p0.offsets && waits == waits0 + p0.waits
  {
  }

  lemma ResumesStops(script: nat -> FeedReply, k0: nat, maxIllusts: int, offsets0: seq<int>, waits0: seq<nat>,
                     acc: seq<Illust>, calls: nat, offsets: seq<int>, waits: seq<nat>)
    requires Resumes(script, k0, maxIllusts, offsets0, waits0, acc, calls, offsets, waits)
    requires |acc| < maxIllusts && !script(calls).Thrown? && !Continues(script(calls))
    ensures var p0 := Paging(script, k0, [], maxIllusts);
      && !p0.thrown && p0.illusts == acc + BatchOf(script(calls)) && calls + 1 == k0 + p0.calls
      && offsets + [|acc|] == offsets0 + p0.offsets && waits == waits0 + p0.waits
  {
  }

  lemma ResumesContinues(script: nat -> FeedReply, k0: nat, maxIllusts: int, offsets0: seq<int>, waits0: seq<nat>,
                         acc: seq<Illust>, calls: nat, offsets: seq<int>, waits: seq<nat>)
    requires Resumes(script, k0, maxIllusts, offsets0, waits0, acc, calls, offsets, waits)
    requires |acc| < maxIllusts && Continues(script(calls))
    ensures Resumes(script, k0, maxIllusts, offsets0, waits0, acc + script(calls).illusts, calls + 1,
                    offsets + [|acc|], waits + [PageGap])
  {
    var p := Paging(script, calls + 1, acc + script(calls).illusts, maxIllusts);
    AppendAssoc(offsets, [|acc|], p.offsets);
    AppendAssoc(waits, [PageGap], p.waits);
  }

  lemma ResumesEnd(script: nat -> FeedReply, k0: nat, maxIllusts: int, offsets0: seq<int>, waits0: seq<nat>,
                   acc: seq<Illust>, calls: nat, offsets: seq<int>, waits: seq<nat>)
    requires Resumes(script, k0, maxIllusts, offsets0, waits0, acc, calls, offsets, waits)
    requires |acc| >= maxIllusts
    ensures var p0 := Paging(script, k0, [], maxIllusts);
      && !p0.thrown && p0.illusts == acc && calls == k0 + p0.calls
      && offsets == offsets0 + p0.offsets && waits == waits0 + p0.waits
  {
  }

  /** `extract_image_urls(illusts)`. */
  method ExtractImageUrls(illusts: seq<Illust>) returns (imageUrls: seq<string>)
    ensures imageUrls == ExtractAll(illusts)
  {
    imageUrls := [];
    for i := 0 to |illusts|
      invariant imageUrls == ExtractAll(illusts[..i])
    {
      TakeSnoc(illusts, i);
      ExtractSnoc(illusts[..i], illusts[i]);
      imageUrls := ExtractOne(imageUrls, illusts[i]);
    }
    assert illusts[..|illusts|] == illusts;
  }

  /** The body of the `for illust in illusts` loop: one illustration's
      URLs appended, or none when its `KeyError` is caught. */
  method ExtractOne(urls: seq<string>, il: Illust) returns (r: seq<string>)
    ensures r == urls + IllustUrls(il)
  {
    r := urls;
    if il.metaSingle.Some? {
      if il.metaSingle.value.originalImageUrl.Some? {
        r := r + [il.metaSingle.value.originalImageUrl.value];
      } else if il.imageUrls.None? {
        // the KeyError is caught and the illustration skipped
        assert r == urls + [];
        return;
      } else if il.imageUrls.value.largeImageUrl.Some? {
        r := r + [il.imageUrls.value.largeImageUrl.value];
      }
    }
    assert r == urls + SingleUrl(il);
    r := AppendPageUrls(r, il.metaPages);
    AppendAssoc(urls, SingleUrl(il), PagesUrls(il.metaPages));
  }

  /** The `meta_pages` loop of `extract_image_urls`. */
  method AppendPageUrls(urls: seq<string>, pages: seq<Option<PageUrls>>) returns (r: seq<string>)
    ensures r == urls + PagesUrls(pages)
  {
    r := urls;
    for j := 0 to |pages|
      invariant r == urls + PagesUrls(pages[..j])
    {
      TakeSnoc(pages, j);
      assert pages[..j + 1][..j] == pages[..j];
      var page := pages[j];
      if page.Some? && page.value.original.Some? {
        r := r + [page.value.original.value];
      } else if page.Some? && page.value.large.Some? {
        r := r + [page.value.large.value];
      }
    }
    assert pages[..|pages|] == pages;
  }
}
