/** The Python backend's cookie scraper (`CookieScraper`): with a PHPSESSID
    cookie it reads a user's profile, takes the first `max_artworks`
    artwork ids in the order the profile lists them (no sort) and collects
    every artwork's image URLs. Python's `requests` does not raise on an
    error status, and a key present with an empty value still counts. */
module CookieScrape {
  import opened Basics
  import opened Upstream

  const NoCookieMessage := "No PHPSESSID cookie provided"
  const NoArtworksMessage := "No artworks found"
  const DefaultMaxArtworks: int := 100
  /** `str(e)` of the `JSONDecodeError` for a body that does not start a
      JSON value. */
  const NotJsonMessage := "Expecting value: line 1 column 1 (char 0)"
  /** `str(e)` of the `AttributeError` that `.keys()` raises on the empty
      array the site sends for a profile without artworks. */
  const ListKeysMessage := "'list' object has no attribute 'keys'"
  /** The status every successful reply must have. */
  const HttpOk: nat := 200

  /** The dictionary `scrape_user` returns. Every failure carries
      `images: 0` and `imageUrls: []` beside its error. */
  datatype ScrapeResult =
    | ScrapeFailed(error: string)
    | Scraped(artworks: nat, images: nat, imageUrls: seq<string>)

  function FetchFailedMessage(status: nat): string { "Failed to fetch user data: " + Decimal(status) }

  /** `data.get('message', 'API error')`: a message that is present is
      used even when it is empty. */
  function PyApiMessage(m: Option<string>): string { if m.Some? then m.value else "API error" }

  // ---------------------------------------------------------------------
  // One artwork

  /** The `urls.original` of every page that has one, empty or not, in
      page order. */
  function PresentOriginals(pages: seq<Page>): (r: seq<string>)
    ensures |r| <= |pages|
  {
    if pages == [] then []
    else
      var last := pages[|pages| - 1];
      PresentOriginals(pages[..|pages| - 1]) + (if last.original.Some? then [last.original.value] else [])
  }

  lemma {:induction false} PresentOriginalsMembers(pages: seq<Page>)
    ensures forall u :: u in PresentOriginals(pages) <==> Page(Some(u)) in pages
  {
    if pages != [] {
      var init := pages[..|pages| - 1];
      PresentOriginalsMembers(init);
      assert pages == init + [pages[|pages| - 1]];
    }
  }

  /** The detail reply read as a success: status 200, JSON, no error flag. */
  predicate Usable(o: Outcome)
  {
    o.Reply? && o.status == HttpOk && o.json.Some? && !o.json.value.error
  }

  /** The detail reply makes `_get_artwork_images` ask for the pages: its
      body is an object whose `pageCount` is above 1. */
  predicate AsksPages(o: Outcome)
  {
    Usable(o) && o.json.value.body.Record? && o.json.value.body.pageCount > 1
  }

  /** The single original of a usable detail reply, if its body has one. */
  function SingleOriginal(o: Outcome): seq<string>
  {
    if Usable(o) && o.json.value.body.Record? && o.json.value.body.original.Some?
    then [o.json.value.body.original.value] else []
  }

  /** `_get_artwork_images(artwork_id)` on the detail reply `o` and, when
      it asks for them, the pages reply `po`. A body that is not an object
      has neither `urls` nor `pageCount`; a pages reply whose body is not
      an array adds nothing; an exception anywhere (a thrown request, a
      body that is not JSON) loses everything collected so far. */
  function ArtworkUrls(o: Outcome, po: Outcome): seq<string>
  {
    if !Usable(o) then []
    else if !AsksPages(o) then SingleOriginal(o)
    else if po.Raise? then []
    else if po.status != HttpOk then SingleOriginal(o)
    else if po.json.None? then []
    else if po.json.value.body.PageList? then SingleOriginal(o) + PresentOriginals(po.json.value.body.pages)
    else SingleOriginal(o)
  }

  /** The requests `_get_artwork_images` sends: the detail, then the pages
      when the detail asks for them. */
  function ArtworkRequests(o: Outcome, id: string, cookie: string): (r: seq<Request>)
    ensures 1 <= |r| <= 2 && r[0] == Request(IllustDetail(id), cookie)
  {
    [Request(IllustDetail(id), cookie)] + (if AsksPages(o) then [Request(IllustPages(id), cookie)] else [])
  }

  /** The single original and the page originals are both kept (one does
      not exclude the other); every failure of the detail request gives
      []; without a pages request at most the single original is given;
      every URL comes from one of the two replies. */
  lemma ArtworkUrlsFacts(o: Outcome, po: Outcome)
    ensures var r := ArtworkUrls(o, po);
      && (!Usable(o) ==> r == [])
      && (!AsksPages(o) ==> |r| <= 1 && r == SingleOriginal(o))
      && (AsksPages(o) && po.Reply? && po.status == HttpOk && po.json.Some? && po.json.value.body.PageList? ==>
            r == SingleOriginal(o) + PresentOriginals(po.json.value.body.pages))
      && (AsksPages(o) && (po.Raise? || (po.status == HttpOk && po.json.None?)) ==> r == [])
      && (forall u :: u in r ==>
            u in SingleOriginal(o)
            || (po.Reply? && po.json.Some? && po.json.value.body.PageList? && Page(Some(u)) in po.json.value.body.pages))
  {
    if AsksPages(o) && po.Reply? && po.json.Some? && po.json.value.body.PageList? {
      PresentOriginalsMembers(po.json.value.body.pages);
    }
  }

  // ---------------------------------------------------------------------
  // Many artworks

  /** The artworks looked up so far: their URLs concatenated, the
      requests sent and the position of the next reply. */
  datatype Collected = Collected(urls: seq<string>, requests: seq<Request>, next: nat)

  /** One more artwork `id` looked up after `c`. */
  function CollectStep(script: nat -> Outcome, c: Collected, id: string, cookie: string): (d: Collected)
    ensures |d.requests| - |c.requests| == d.next - c.next
  {
    var o := script(c.next);
    var rs := ArtworkRequests(o, id, cookie);
    Collected(c.urls + ArtworkUrls(o, script(c.next + 1)), c.requests + rs, c.next + |rs|)
  }

  /** The artworks `ids`, looked up one after the other from reply `k`. */
  function Collect(script: nat -> Outcome, k: nat, ids: seq<Id>, cookie: string): (c: Collected)
    ensures c.next == k + |c.requests|
  {
    if ids == [] then Collected([], [], k)
    else CollectStep(script, Collect(script, k, ids[..|ids| - 1], cookie), ids[|ids| - 1], cookie)
  }

  lemma CollectSnoc(script: nat -> Outcome, k: nat, ids: seq<Id>, i: nat, cookie: string)
    requires i < |ids|
    ensures Collect(script, k, ids[..i + 1], cookie) == CollectStep(script, Collect(script, k, ids[..i], cookie), ids[i], cookie)
  {
    assert ids[..i + 1][..i] == ids[..i];
  }

  /** The artwork ids the detail requests of a request list ask for. */
  function DetailIds(rs: seq<Request>): seq<string>
  {
    if rs == [] then []
    else
      DetailIds(rs[..|rs| - 1])
      + (if rs[|rs| - 1].endpoint.IllustDetail? then [rs[|rs| - 1].endpoint.artworkId] else [])
  }

  lemma {:induction false} DetailIdsAppend(a: seq<Request>, b: seq<Request>)
    ensures DetailIds(a + b) == DetailIds(a) + DetailIds(b)
    decreases |b|
  {
    if b == [] {
      assert a + b == a;
    } else {
      DetailIdsAppend(a, b[..|b| - 1]);
      assert (a + b)[..|a + b| - 1] == a + b[..|b| - 1];
    }
  }

  /** One artwork's requests ask for its detail once. */
  lemma ArtworkRequestIds(o: Outcome, id: string, cookie: string)
    ensures DetailIds(ArtworkRequests(o, id, cookie)) == [id]
  {
    var rs := ArtworkRequests(o, id, cookie);
    assert DetailIds(rs[..1]) == [id];
    if |rs| == 2 {
      assert rs[..|rs| - 1] == rs[..1];
    }
  }

  /** The detail requests ask for exactly the given ids, in order, one
      each, and the lookups take between one and two requests each. */
  lemma {:induction false} CollectRequests(script: nat -> Outcome, k: nat, ids: seq<Id>, cookie: string)
    ensures var c := Collect(script, k, ids, cookie);
      DetailIds(c.requests) == ids && |ids| <= |c.requests| <= 2 * |ids|
  {
    if ids != [] {
      var init := ids[..|ids| - 1];
      CollectRequests(script, k, init, cookie);
      var c := Collect(script, k, init, cookie);
      var id := ids[|ids| - 1];
      var rs := ArtworkRequests(script(c.next), id, cookie);
      ArtworkRequestIds(script(c.next), id, cookie);
      CollectLast(script, k, ids, cookie);
      DetailIdsStep(c.requests, rs, Collect(script, k, ids, cookie).requests, init, ids);
      RequestCountStep(c.requests, rs, Collect(script, k, ids, cookie).requests, init, ids);
    }
  }

  /** The last artwork's requests follow those of the ones before it. */
  lemma CollectLast(script: nat -> Outcome, k: nat, ids: seq<Id>, cookie: string)
    requires ids != []
    ensures var c := Collect(script, k, ids[..|ids| - 1], cookie);
      Collect(script, k, ids, cookie).requests == c.requests + ArtworkRequests(script(c.next), ids[|ids| - 1], cookie)
  {
  }

  /** The ids asked for grow by the last artwork's id. */
  lemma DetailIdsStep(prev: seq<Request>, rs: seq<Request>, all: seq<Request>, init: seq<Id>, ids: seq<Id>)
    requires ids != [] && init == ids[..|ids| - 1] && all == prev + rs
    requires DetailIds(prev) == init
    requires DetailIds(rs) == [ids[|ids| - 1]]
    ensures DetailIds(all) == ids
  {
    var last := ids[|ids| - 1];
    DetailIdsAppend(prev, rs);
    assert ids == init + [last];
  }

  /** Between one and two requests per artwork, one more artwork. */
  lemma RequestCountStep(prev: seq<Request>, rs: seq<Request>, all: seq<Request>, init: seq<Id>, ids: seq<Id>)
    requires ids != [] && init == ids[..|ids| - 1] && all == prev + rs
    requires |init| <= |prev| <= 2 * |init|
    requires 1 <= |rs| <= 2
    ensures |ids| <= |all| <= 2 * |ids|
  {
  }

  // ---------------------------------------------------------------------
  // A whole scrape

  datatype ScrapeRun = ScrapeRun(result: ScrapeResult, requests: seq<Request>, next: nat)

  /** The artwork ids a profile reply lists, when it can be read as a
      success: `data['body']['illusts'].keys()`, or none when the body or
      its `illusts` is missing. */
  function ProfileIds(j: Json): seq<Id>
  {
    if j.body.Record? && j.body.illusts.IllustKeys? then j.body.illusts.ids else []
  }

  /** The error `scrape_user` reports for the profile reply `o`, or
      nothing when the reply lists artworks. */
  function ProfileFailure(o: Outcome): Option<string>
  {
    if o.Raise? then Some(o.message)
    else if o.status != HttpOk then Some(FetchFailedMessage(o.status))
    else if o.json.None? then Some(NotJsonMessage)
    else if o.json.value.error then Some(PyApiMessage(o.json.value.message))
    else if o.json.value.body.Record? && o.json.value.body.illusts.EmptyIllustArray? then Some(ListKeysMessage)
    else if ProfileIds(o.json.value) == [] then Some(NoArtworksMessage)
    else None
  }

  /** `scrape_user(user_id, max_artworks)` for a scraper that is
      (`authenticated`) or is not configured with a cookie, against the
      replies from `k` on. */
  function ScrapeUserRun(authenticated: bool, cookie: string, script: nat -> Outcome, k: nat,
                         userId: string, maxArtworks: int): ScrapeRun
  {
    if !authenticated then ScrapeRun(ScrapeFailed(NoCookieMessage), [], k)
    else
      var profile := [Request(UserProfile(userId), cookie)];
      var o := script(k);
      match ProfileFailure(o)
      case Some(e) => ScrapeRun(ScrapeFailed(e), profile, k + 1)
      case None =>
        var ids := ProfileIds(o.json.value);
        var c := Collect(script, k + 1, PrefixTo(ids, maxArtworks), cookie);
        ScrapeRun(Scraped(|ids|, |c.urls|, c.urls), profile + c.requests, c.next)
  }

  /** Without a cookie nothing is requested; otherwise the profile is
      asked for first, and every way the profile reply can fail gives its
      own error and no further request. */
  lemma ScrapeUserErrors(authenticated: bool, cookie: string, script: nat -> Outcome, k: nat,
                         userId: string, maxArtworks: int)
    ensures var run := ScrapeUserRun(authenticated, cookie, script, k, userId, maxArtworks);
      var o := script(k);
      && (!authenticated ==> run.result == ScrapeFailed(NoCookieMessage) && run.requests == [] && run.next == k)
      && (authenticated ==> |run.requests| >= 1 && run.requests[0] == Request(UserProfile(userId), cookie))
      && (authenticated && o.Raise? ==> run.result == ScrapeFailed(o.message) && run.next == k + 1)
      && (authenticated && o.Reply? && o.status != HttpOk ==>
            run.result == ScrapeFailed(FetchFailedMessage(o.status)) && run.next == k + 1)
      && (authenticated && o.Reply? && o.status == HttpOk && o.json.Some? && o.json.value.error ==>
            run.result == ScrapeFailed(PyApiMessage(o.json.value.message)) && run.next == k + 1)
      && (authenticated && Usable(o) && ProfileIds(o.json.value) == []
          && !(o.json.value.body.Record? && o.json.value.body.illusts.EmptyIllustArray?) ==>
            run.result == ScrapeFailed(NoArtworksMessage) && run.next == k + 1)
  {
  }

  /** A successful scrape counts every listed artwork but looks up only
      the first `max_artworks` of them, in the order the profile lists
      them; its image count is the number of URLs, which are the looked-up
      artworks' URLs concatenated in that order. */
  lemma ScrapeUserSuccess(authenticated: bool, cookie: string, script: nat -> Outcome, k: nat,
                          userId: string, maxArtworks: int)
    ensures var run := ScrapeUserRun(authenticated, cookie, script, k, userId, maxArtworks);
      run.result.Scraped? ==>
        var ids := ProfileIds(script(k).json.value);
        var chosen := PrefixTo(ids, maxArtworks);
        && authenticated && Usable(script(k)) && ids != []
        && run.result.artworks == |ids|
        && run.result.images == |run.result.imageUrls|
        && run.result.imageUrls == Collect(script, k + 1, chosen, cookie).urls
        && DetailIds(run.requests[1..]) == chosen
        && (0 <= maxArtworks ==> |chosen| == Min(maxArtworks, |ids|))
  {
    var run := ScrapeUserRun(authenticated, cookie, script, k, userId, maxArtworks);
    if run.result.Scraped? {
      var ids := ProfileIds(script(k).json.value);
      var chosen := PrefixTo(ids, maxArtworks);
      CollectRequests(script, k + 1, chosen, cookie);
      PrefixToIsPrefix(ids, maxArtworks);
      assert run.requests[1..] == Collect(script, k + 1, chosen, cookie).requests;
    }
  }

  /** The first `i` of the artworks `chosen` have been looked up from
      reply `k0` on, after the requests `sent0`. */
  ghost predicate Gathered(script: nat -> Outcome, k0: nat, chosen: seq<Id>, i: nat, cookie: string,
                           sent0: seq<Request>, urls: seq<string>, served: nat, sent: seq<Request>)
  {
    && i <= |chosen|
    && var c := Collect(script, k0, chosen[..i], cookie);
    && urls == c.urls && served == c.next && sent == sent0 + c.requests
  }

  lemma GatheredNext(script: nat -> Outcome, k0: nat, chosen: seq<Id>, i: nat, cookie: string,
                     sent0: seq<Request>, urls: seq<string>, served: nat, sent: seq<Request>)
    requires Gathered(script, k0, chosen, i, cookie, sent0, urls, served, sent) && i < |chosen|
    ensures var rs := ArtworkRequests(script(served), chosen[i], cookie);
      Gathered(script, k0, chosen, i + 1, cookie, sent0, urls + ArtworkUrls(script(served), script(served + 1)),
               served + |rs|, sent + rs)
  {
    var c := Collect(script, k0, chosen[..i], cookie);
    CollectSnoc(script, k0, chosen, i, cookie);
    AppendAssoc(sent0, c.requests, ArtworkRequests(script(served), chosen[i], cookie));
  }

  /** The page loop of `_get_artwork_images`: every page with a
      `urls.original` appends it. */
  method AppendOriginals(urls: seq<string>, pages: seq<Page>) returns (r: seq<string>)
    ensures r == urls + PresentOriginals(pages)
  {
    r := urls;
    for j := 0 to |pages|
      invariant r == urls + PresentOriginals(pages[..j])
    {
      TakeSnoc(pages, j);
      if pages[j].original.Some? {
        r := r + [pages[j].original.value];
      }
    }
    assert pages[..|pages|] == pages;
  }

  // ---------------------------------------------------------------------
  // The scraper

  /** `CookieScraper`: the PHPSESSID from the environment and whether
      `_setup_session` configured the session with it. */
  class CookieScraper {
    const phpsessid: string
    var authenticated: bool

    /** `__init__`: a non-empty cookie configures the session. */
    constructor (phpsessid: string)
      ensures this.phpsessid == phpsessid && authenticated == (phpsessid != "")
    {
      this.phpsessid := phpsessid;
      authenticated := phpsessid != "";
    }

    /** The `Cookie` header the session sends. */
    function Cookie(): string
    {
      CookieFor(phpsessid)
    }

    /** `_get_artwork_images(artwork_id)`. */
    method GetArtworkImages(site: Site, artworkId: Id) returns (urls: seq<string>)
      modifies site
      ensures var k := old(site.served);
        var rs := ArtworkRequests(site.script(k), artworkId, Cookie());
        && urls == ArtworkUrls(site.script(k), site.script(k + 1))
        && site.served == k + |rs| && site.sent == old(site.sent) + rs
      ensures site.waits == old(site.waits)
    {
      var o := site.Fetch(IllustDetail(artworkId), Cookie());
      if o.Raise? || o.status != HttpOk || o.json.None? || o.json.value.error {
        return [];
      }
      var body := o.json.value.body;
      urls := [];
      if body.Record? && body.original.Some? {
        urls := urls + [body.original.value];
      }
      if body.Record? && body.pageCount > 1 {
        var po := site.Fetch(IllustPages(artworkId), Cookie());
        if po.Raise? || (po.status == HttpOk && po.json.None?) {
          return [];
        }
        if po.status == HttpOk && po.json.value.body.PageList? {
          urls := AppendOriginals(urls, po.json.value.body.pages);
        }
      }
    }

    /** The artwork loop of `scrape_user`: each artwork's URLs are added
        to the list in turn. */
    method CollectImages(site: Site, chosen: seq<Id>) returns (imageUrls: seq<string>)
      modifies site
      ensures var c := Collect(site.script, old(site.served), chosen, Cookie());
        imageUrls == c.urls && site.served == c.next && site.sent == old(site.sent) + c.requests
      ensures site.waits == old(site.waits)
    {
      ghost var k0 := site.served;
      ghost var sent0 := site.sent;
      imageUrls := [];
      for i := 0 to |chosen|
        invariant Gathered(site.script, k0, chosen, i, Cookie(), sent0, imageUrls, site.served, site.sent)
        invariant site.waits == old(site.waits)
      {
        GatheredNext(site.script, k0, chosen, i, Cookie(), sent0, imageUrls, site.served, site.sent);
        var urls := GetArtworkImages(site, chosen[i]);
        imageUrls := imageUrls + urls;
      }
      assert chosen[..|chosen|] == chosen;
    }

    /** `scrape_user(user_id, max_artworks)`. */
    method ScrapeUser(site: Site, userId: string, maxArtworks: int) returns (r: ScrapeResult)
      modifies site
      ensures var run := ScrapeUserRun(authenticated, Cookie(), site.script, old(site.served), userId, maxArtworks);
        r == run.result && site.served == run.next && site.sent == old(site.sent) + run.requests
      ensures site.waits == old(site.waits)
    {
      if !authenticated {
        return ScrapeFailed(NoCookieMessage);
      }
      ghost var k0, sent0 := site.served, site.sent;
      var o := site.Fetch(UserProfile(userId), Cookie());
      var failure := ProfileFailure(o);
      if failure.Some? {
        return ScrapeFailed(failure.value);
      }
      var ids := ProfileIds(o.json.value);
      var imageUrls := CollectImages(site, PrefixTo(ids, maxArtworks));
      r := Scraped(|ids|, |imageUrls|, imageUrls);
      ghost var profile := [Request(UserProfile(userId), Cookie())];
      ghost var c := Collect(site.script, k0 + 1, PrefixTo(ids, maxArtworks), Cookie());
      AppendAssoc(sent0, profile, c.requests);
      assert ScrapeUserRun(authenticated, Cookie(), site.script, k0, userId, maxArtworks)
        == ScrapeRun(r, profile + c.requests, c.next);
    }
  }
}
