/** The app's API layer (`PixivAPI`) when it runs inside the mobile shell:
    listing the artworks of a pasted URL through the embedded backend, and
    downloading every image of a list one after another. */
module ClientApi {
  import opened Basics
  import opened Upstream
  import opened Urls
  import opened Catalogue
  import opened Embedded

  /** `{id, title, images, imageCount}`. */
  datatype Artwork = Artwork(id: Id, title: string, images: seq<string>, imageCount: nat)

  /** `{success, artworks, totalArtworks, totalImages, message}`. */
  datatype Listing = Listing(success: bool, artworks: seq<Artwork>, totalArtworks: nat, totalImages: int, message: string)

  const InvalidUrlMessage := "Please provide a valid Pixiv user or artwork URL"
  const OneArtworkMessage := "Found 1 artwork"

  // ---------------------------------------------------------------------
  // getArtworkList

  /** The reply index after one `getArtworkImages` of an authenticated
      backend that starts at reply `k`. */
  function Advance(script: nat -> Outcome, k: nat): nat
  {
    k + if WantsPages(script(k)) then 2 else 1
  }

  /** The images of each artwork of `arts`, looked up one after another
      from reply `k` on, and the reply index reached. */
  datatype Lookup = Lookup(images: seq<seq<string>>, served: nat)

  function LookupAll(script: nat -> Outcome, k: nat, arts: seq<EmbeddedArtwork>): (r: Lookup)
    ensures |r.images| == |arts|
  {
    if arts == [] then Lookup([], k)
    else
      var l := LookupAll(script, k, arts[..|arts| - 1]);
      Lookup(l.images + [ArtworkImageList(script(l.served), script(l.served + 1))], Advance(script, l.served))
  }

  /** Each listed artwork with the images found for it. */
  function Resolve(arts: seq<EmbeddedArtwork>, images: seq<seq<string>>): (r: seq<Artwork>)
    requires |images| == |arts|
    ensures |r| == |arts|
  {
    seq(|arts|, j requires 0 <= j < |arts| => Artwork(arts[j].id, arts[j].title, images[j], |images[j]|))
  }

  function ImageCountOf(a: Artwork): int { a.imageCount }

  /** The user branch's answer: the backend's list with the images filled
      in, its own `success`, `totalArtworks` and `message`, and the number
      of images found. */
  function UserListing(l: ArtworkList, images: seq<seq<string>>): Listing
    requires |images| == |l.artworks|
  {
    Listing(l.success, Resolve(l.artworks, images), l.totalArtworks, Sum(images, ImageCount), l.message)
  }

  /** The single-artwork branch's answer. */
  function SingleListing(id: Id, images: seq<string>): Listing
  {
    Listing(true, [Artwork(id, ArtworkTitle(id), images, |images|)], 1, |images|, OneArtworkMessage)
  }

  /** What `getArtworkList(url)` produced and the reply index it reached. */
  datatype ListRun = ListRun(result: Result<Listing>, served: nat)

  /** `getArtworkList(url)` in the mobile shell, for a backend whose
      session is authenticated or not, reading replies from `k` on. */
  function ArtworkListRun(auth: bool, script: nat -> Outcome, k: nat, url: string): ListRun
  {
    var userId := ClientUserId(url);
    var artworkId := ClientArtworkId(url);
    if userId.None? && artworkId.None? then ListRun(Err(InvalidUrlMessage), k)
    else if !auth then ListRun(Err(NotAuthenticatedMessage), k)
    else if userId.Some? then
      var l := UserList(script(k), DefaultEmbeddedLimit);
      if l.Err? then ListRun(Err(l.message), k + 1)
      else
        var found := LookupAll(script, k + 1, l.value.artworks);
        ListRun(Ok(UserListing(l.value, found.images)), found.served)
    else
      ListRun(Ok(SingleListing(artworkId.value, ArtworkImageList(script(k), script(k + 1)))), Advance(script, k))
  }

  /** Resolving keeps the listed artworks' ids and titles in their order,
      and the image counts add up to the number of images found. */
  lemma {:induction false} ResolveFacts(arts: seq<EmbeddedArtwork>, images: seq<seq<string>>)
    requires |images| == |arts|
    ensures var r := Resolve(arts, images);
      && (forall j :: 0 <= j < |r| ==>
            r[j].id == arts[j].id && r[j].title == arts[j].title
            && r[j].images == images[j] && r[j].imageCount == |r[j].images|)
      && Sum(r, ImageCountOf) == Sum(images, ImageCount)
  {
    if arts != [] {
      ResolveFacts(arts[1..], images[1..]);
      assert Resolve(arts, images)[1..] == Resolve(arts[1..], images[1..]);
    }
  }

  /** A URL without ids is refused before any request; an unauthenticated
      backend makes no request; a user id wins over an artwork id; every
      answer has each artwork's `imageCount` equal to its number of images
      and `totalImages` equal to the sum of the counts; the single-artwork
      answer lists exactly that artwork. */
  lemma ArtworkListFacts(auth: bool, script: nat -> Outcome, k: nat, url: string)
    ensures var run := ArtworkListRun(auth, script, k, url);
      && (ClientUserId(url).None? && ClientArtworkId(url).None? ==> run == ListRun(Err(InvalidUrlMessage), k))
      && (!auth ==> run.served == k && run.result.Err?)
      && (run.result.Ok? ==>
            var l := run.result.value;
            && auth
            && (forall j :: 0 <= j < |l.artworks| ==> l.artworks[j].imageCount == |l.artworks[j].images|)
            && l.totalImages == Sum(l.artworks, ImageCountOf))
      && (auth && ClientUserId(url).Some? ==>
            var l := UserList(script(k), DefaultEmbeddedLimit);
            && (l.Err? ==> run.result == Err(l.message))
            && (l.Ok? ==> run.result.Ok? && |run.result.value.artworks| == |l.value.artworks|
                          && forall j :: 0 <= j < |l.value.artworks| ==>
                               run.result.value.artworks[j].id == l.value.artworks[j].id))
      && (auth && ClientUserId(url).None? && ClientArtworkId(url).Some? ==>
            && run.result.Ok? && run.result.value.totalArtworks == 1
            && run.result.value.artworks[0].id == ClientArtworkId(url).value
            && run.result.value.artworks[0].title == ArtworkTitle(ClientArtworkId(url).value))
  {
    var run := ArtworkListRun(auth, script, k, url);
    if auth && ClientUserId(url).Some? {
      var l := UserList(script(k), DefaultEmbeddedLimit);
      if l.Ok? {
        var found := LookupAll(script, k + 1, l.value.artworks);
        ResolveFacts(l.value.artworks, found.images);
      }
    } else if auth && ClientArtworkId(url).Some? {
      var images := ArtworkImageList(script(k), script(k + 1));
      var a := SingleListing(ClientArtworkId(url).value, images).artworks;
      assert Sum(a, ImageCountOf) == |images| + Sum(a[1..], ImageCountOf);
    }
  }

  lemma LookupAllSnoc(script: nat -> Outcome, k: nat, arts: seq<EmbeddedArtwork>, i: nat)
    requires i < |arts|
    ensures var l := LookupAll(script, k, arts[..i]);
      LookupAll(script, k, arts[..i + 1])
        == Lookup(l.images + [ArtworkImageList(script(l.served), script(l.served + 1))], Advance(script, l.served))
  {
    assert arts[..i + 1][..i] == arts[..i];
  }

  lemma ResolveSnoc(arts: seq<EmbeddedArtwork>, images: seq<seq<string>>, i: nat, found: seq<string>)
    requires i < |arts| && |images| == i
    ensures Resolve(arts[..i + 1], images + [found])
      == Resolve(arts[..i], images) + [Artwork(arts[i].id, arts[i].title, found, |found|)]
  {
  }

  /** The first `i` artworks have been looked up. */
  ghost predicate Looked(script: nat -> Outcome, k0: nat, arts: seq<EmbeddedArtwork>, i: nat,
                         images: seq<seq<string>>, served: nat, updated: seq<Artwork>, total: int)
  {
    && i <= |arts|
    && var found := LookupAll(script, k0, arts[..i]);
    && images == found.images && served == found.served
    && updated == Resolve(arts[..i], images) && total == Sum(images, ImageCount)
  }

  lemma LookedNext(script: nat -> Outcome, k0: nat, arts: seq<EmbeddedArtwork>, i: nat,
                   images: seq<seq<string>>, served: nat, updated: seq<Artwork>, total: int)
    requires Looked(script, k0, arts, i, images, served, updated, total) && i < |arts|
    ensures var found := ArtworkImageList(script(served), script(served + 1));
      Looked(script, k0, arts, i + 1, images + [found], Advance(script, served),
             updated + [Artwork(arts[i].id, arts[i].title, found, |found|)], total + |found|)
  {
    var found := ArtworkImageList(script(served), script(served + 1));
    LookupAllSnoc(script, k0, arts, i);
    ResolveSnoc(arts, images, i, found);
    SumAppend(images, [found], ImageCount);
  }

  /** The images of each listed artwork, looked up in order. */
  method ResolveImages(backend: EmbeddedBackend, site: Site, arts: seq<EmbeddedArtwork>)
    returns (updated: seq<Artwork>, totalImages: int, ghost images: seq<seq<string>>)
    requires backend.session.authenticated
    modifies site
    ensures var found := LookupAll(site.script, old(site.served), arts);
      && images == found.images && site.served == found.served
    ensures updated == Resolve(arts, images) && totalImages == Sum(images, ImageCount)
    ensures site.waits == old(site.waits)
  {
    ghost var k0 := site.served;
    updated, totalImages, images := [], 0, [];
    for i := 0 to |arts|
      invariant Looked(site.script, k0, arts, i, images, site.served, updated, totalImages)
      invariant site.waits == old(site.waits)
    {
      ghost var k := site.served;
      LookedNext(site.script, k0, arts, i, images, k, updated, totalImages);
      var r := backend.GetArtworkImages(site, arts[i].id);
      // the session was authenticated for the list, so the lookup cannot throw
      var found := if r.Ok? then r.value else [];
      assert found == ArtworkImageList(site.script(k), site.script(k + 1));
      assert site.served == Advance(site.script, k);
      updated := updated + [Artwork(arts[i].id, arts[i].title, found, |found|)];
      totalImages := totalImages + |found|;
      images := images + [found];
    }
    assert arts[..|arts|] == arts;
  }

  /** `PixivAPI.getArtworkList(url)` in the mobile shell. */
  method GetArtworkList(backend: EmbeddedBackend, site: Site, url: string) returns (r: Result<Listing>)
    modifies site
    ensures var run := ArtworkListRun(backend.session.authenticated, site.script, old(site.served), url);
      r == run.result && site.served == run.served
    ensures site.waits == old(site.waits)
  {
    var userId := ClientUserId(url);
    var artworkId := ClientArtworkId(url);
    if userId.None? && artworkId.None? {
      return Err(InvalidUrlMessage);
    }
    if userId.Some? {
      var l := backend.GetUserArtworks(site, userId.value, DefaultEmbeddedLimit);
      if l.Err? {
        return Err(l.message);
      }
      var updated, totalImages;
      ghost var images;
      updated, totalImages, images := ResolveImages(backend, site, l.value.artworks);
      r := Ok(Listing(l.value.success, updated, l.value.totalArtworks, totalImages, l.value.message));
    } else {
      var images := backend.GetArtworkImages(site, artworkId.value);
      if images.Err? {
        return Err(images.message);
      }
      r := Ok(SingleListing(artworkId.value, images.value));
    }
  }

  // ---------------------------------------------------------------------
  // downloadMultipleImages

  /** `${artwork.id}_${i + 1}.jpg`: the mobile app saves a page under the
      same name the mobile server gives it in its archive
      (`Downloads.FileName` has the same definition). */
  function FileName(id: Id, i: nat): string { id + "_" + Decimal(i + 1) + ".jpg" }

  /** One image to download, under the name it is saved as. */
  datatype Job = Job(url: string, filename: string)

  /** The jobs of one artwork: its images in page order, under names that
      are pairwise distinct, so no page overwrites another. */
  function ArtworkJobs(a: Artwork): (r: seq<Job>)
    ensures |r| == |a.images|
    ensures forall i :: 0 <= i < |r| ==> r[i] == Job(a.images[i], FileName(a.id, i))
    ensures forall i, j :: 0 <= i < j < |r| ==> r[i].filename != r[j].filename
  {
    forall i: nat, j: nat | i < j < |a.images|
      ensures FileName(a.id, i) != FileName(a.id, j)
    {
      PageNamesDiffer(a.id, i, j);
    }
    seq(|a.images|, i requires 0 <= i < |a.images| => Job(a.images[i], FileName(a.id, i)))
  }

  /** Every image of every artwork, artwork by artwork, page by page. */
  function AllJobs(arts: seq<Artwork>): seq<Job>
  {
    if arts == [] then [] else ArtworkJobs(arts[0]) + AllJobs(arts[1..])
  }

  lemma {:induction false} AllJobsAppend(a: seq<Artwork>, b: seq<Artwork>)
    ensures AllJobs(a + b) == AllJobs(a) + AllJobs(b)
  {
    if a == [] {
      assert a + b == b;
    } else {
      var ab := a + b;
      assert ab[0] == a[0] && ab[1..] == a[1..] + b;
      AllJobsAppend(a[1..], b);
      calc {
        AllJobs(ab);
        ArtworkJobs(a[0]) + AllJobs(a[1..] + b);
        ArtworkJobs(a[0]) + (AllJobs(a[1..]) + AllJobs(b));
        { AppendAssoc(ArtworkJobs(a[0]), AllJobs(a[1..]), AllJobs(b)); }
        (ArtworkJobs(a[0]) + AllJobs(a[1..])) + AllJobs(b);
      }
    }
  }

  /** There is one job per image: the total of the images' counts. */
  lemma {:induction false} AllJobsCount(arts: seq<Artwork>)
    ensures |AllJobs(arts)| == Sum(arts, (a: Artwork) => |a.images|)
  {
    if arts != [] {
      AllJobsCount(arts[1..]);
    }
  }

  /** `onProgress(downloaded, total, currentFile)`. */
  datatype Progress = Progress(downloaded: nat, total: int, file: string)

  /** The progress calls, the number of downloads that succeeded, the reply
      index reached and the pauses and requests made. */
  datatype Batch = Batch(events: seq<Progress>, downloaded: nat, served: nat, waits: seq<nat>, sent: seq<Request>)

  /** The pause after each successful download, in milliseconds. */
  const DownloadGap: nat := 500

  /** The jobs done one after another from reply `k`, with a backend whose
      session is authenticated or not. A failed download is reported
      before it is tried and then skipped. */
  function RunJobs(script: nat -> Outcome, k: nat, auth: bool, total: int, jobs: seq<Job>): Batch
  {
    if jobs == [] then Batch([], 0, k, [], [])
    else
      var b := RunJobs(script, k, auth, total, jobs[..|jobs| - 1]);
      JobStep(script, auth, total, b, jobs[|jobs| - 1])
  }

  function JobStep(script: nat -> Outcome, auth: bool, total: int, b: Batch, job: Job): Batch
  {
    var before := Progress(b.downloaded, total, job.filename);
    if !auth then Batch(b.events + [before], b.downloaded, b.served, b.waits, b.sent)
    else
      var sent := b.sent + [Request(ImageFile(job.url), "")];
      if ImageBytes(script(b.served)).Ok? then
        Batch(b.events + [before, Progress(b.downloaded + 1, total, job.filename)],
              b.downloaded + 1, b.served + 1, b.waits + [DownloadGap], sent)
      else Batch(b.events + [before], b.downloaded, b.served + 1, b.waits, sent)
  }

  /** How many of the `n` replies from `k` on deliver a file. */
  function Successes(script: nat -> Outcome, k: nat, n: nat): nat
  {
    if n == 0 then 0 else Successes(script, k, n - 1) + (if ImageBytes(script(k + n - 1)).Ok? then 1 else 0)
  }

  /** Every job is tried, in order, whatever happened to the earlier ones:
      one request per job for its URL; the count is the number of
      successful replies; every job is announced once, and once more when
      it succeeded; every success is followed by a pause. */
  lemma {:induction false} RunJobsFacts(script: nat -> Outcome, k: nat, auth: bool, total: int, jobs: seq<Job>)
    ensures var b := RunJobs(script, k, auth, total, jobs);
      && b.served == k + (if auth then |jobs| else 0)
      && b.downloaded == (if auth then Successes(script, k, |jobs|) else 0)
      && b.downloaded <= |jobs|
      && |b.events| == |jobs| + b.downloaded
      && b.waits == seq(b.downloaded, _ => DownloadGap)
      && |b.sent| == (if auth then |jobs| else 0)
      && (auth ==> forall i :: 0 <= i < |jobs| ==> b.sent[i] == Request(ImageFile(jobs[i].url), ""))
  {
    if jobs != [] {
      var init := jobs[..|jobs| - 1];
      RunJobsFacts(script, k, auth, total, init);
      var b := RunJobs(script, k, auth, total, init);
      var c := RunJobs(script, k, auth, total, jobs);
      assert c == JobStep(script, auth, total, b, jobs[|jobs| - 1]);
      if auth {
        forall i | 0 <= i < |jobs| ensures c.sent[i] == Request(ImageFile(jobs[i].url), "") {
          if i < |init| {
            assert c.sent[i] == b.sent[i] && init[i] == jobs[i];
          }
        }
      }
    }
  }

  /** One job adds one or two announcements after the earlier ones, with
      counts from the earlier count up to the new one, which comes last. */
  lemma JobStepEvents(script: nat -> Outcome, auth: bool, total: int, b: Batch, job: Job)
    ensures var c := JobStep(script, auth, total, b, job);
      && |b.events| < |c.events| <= |b.events| + 2
      && c.events[..|b.events|] == b.events
      && b.downloaded <= c.downloaded <= b.downloaded + 1
      && (forall i :: |b.events| <= i < |c.events| ==>
            b.downloaded <= c.events[i].downloaded <= c.downloaded && c.events[i].total == total)
      && (forall i, j :: |b.events| <= i < j < |c.events| ==> c.events[i].downloaded <= c.events[j].downloaded)
      && c.events[|c.events| - 1].downloaded == c.downloaded
  {
  }

  /** The announced counts stay within `downloaded`, never go down and end
      at it, and every announcement carries `total`. */
  predicate Climbs(e: seq<Progress>, downloaded: nat, total: int)
  {
    && (forall i :: 0 <= i < |e| ==> e[i].downloaded <= downloaded && e[i].total == total)
    && (forall i, j :: 0 <= i < j < |e| ==> e[i].downloaded <= e[j].downloaded)
    && (e != [] ==> e[|e| - 1].downloaded == downloaded)
  }

  /** Each announced count is at most the number of jobs finished so far,
      the counts never go down, and the last one is the final count. */
  lemma {:induction false} ProgressClimbs(script: nat -> Outcome, k: nat, auth: bool, total: int, jobs: seq<Job>)
    ensures RunJobs(script, k, auth, total, jobs).downloaded <= |jobs|
    ensures Climbs(RunJobs(script, k, auth, total, jobs).events, RunJobs(script, k, auth, total, jobs).downloaded, total)
  {
    if jobs != [] {
      var init := jobs[..|jobs| - 1];
      ProgressClimbs(script, k, auth, total, init);
      JobStepClimbs(script, auth, total, RunJobs(script, k, auth, total, init), jobs[|jobs| - 1]);
    }
  }

  /** One more job keeps the announcements climbing. */
  lemma JobStepClimbs(script: nat -> Outcome, auth: bool, total: int, b: Batch, job: Job)
    requires Climbs(b.events, b.downloaded, total)
    ensures var c := JobStep(script, auth, total, b, job);
      b.downloaded <= c.downloaded <= b.downloaded + 1 && Climbs(c.events, c.downloaded, total)
  {
    var c := JobStep(script, auth, total, b, job);
    JobStepEvents(script, auth, total, b, job);
    ClimbsStep(b, c, total);
  }

  lemma ClimbsStep(b: Batch, c: Batch, total: int)
    requires Climbs(b.events, b.downloaded, total)
    requires |b.events| < |c.events| && c.events[..|b.events|] == b.events
    requires b.downloaded <= c.downloaded
    requires forall i :: |b.events| <= i < |c.events| ==>
      b.downloaded <= c.events[i].downloaded <= c.downloaded && c.events[i].total == total
    requires forall i, j :: |b.events| <= i < j < |c.events| ==> c.events[i].downloaded <= c.events[j].downloaded
    requires c.events[|c.events| - 1].downloaded == c.downloaded
    ensures Climbs(c.events, c.downloaded, total)
  {
    var e := c.events;
    forall i | 0 <= i < |b.events| ensures e[i] == b.events[i] {
      assert e[..|b.events|][i] == e[i];
    }
  }

  /** A file name tells the artwork and the page it came from. */
  lemma FileNameInjective(a: Id, i: nat, b: Id, j: nat)
    requires FileName(a, i) == FileName(b, j)
    ensures a == b && i == j
  {
    var s := FileName(a, i);
    var t := FileName(b, j);
    assert s[|a|] == '_' && t[|b|] == '_';
    assert forall p :: 0 <= p < |a| ==> s[p] == a[p];
    assert forall p :: 0 <= p < |b| ==> t[p] == b[p];
    assert |a| == |b|;
    assert a == s[..|a|] && b == t[..|b|];
    var da, db := Decimal(i + 1), Decimal(j + 1);
    assert s == a + ("_" + (da + ".jpg"));
    assert t == b + ("_" + (db + ".jpg"));
    assert "_" + (da + ".jpg") == s[|a|..] == "_" + (db + ".jpg");
    assert da + ".jpg" == s[|a| + 1..];
    assert da == s[|a| + 1..|s| - 4] == db;
    DecimalRoundTrip(i + 1);
    DecimalRoundTrip(j + 1);
  }

  /** Two pages of one artwork are saved under different names. */
  lemma PageNamesDiffer(id: Id, i: nat, j: nat)
    requires i != j
    ensures FileName(id, i) != FileName(id, j)
  {
    var s, t := FileName(id, i), FileName(id, j);
    DecimalRoundTrip(i + 1);
    DecimalRoundTrip(j + 1);
    if |s| == |t| {
      assert s[|id| + 1..|s| - 4] == Decimal(i + 1);
      assert t[|id| + 1..|t| - 4] == Decimal(j + 1);
    }
  }

  /** The two loops have done the jobs `done` so far. */
  ghost predicate Done(script: nat -> Outcome, k0: nat, auth: bool, total: int, done: seq<Job>,
                       w0: seq<nat>, s0: seq<Request>, events: seq<Progress>, downloaded: nat,
                       served: nat, waits: seq<nat>, sent: seq<Request>)
  {
    var b := RunJobs(script, k0, auth, total, done);
    && events == b.events && downloaded == b.downloaded && served == b.served
    && waits == w0 + b.waits && sent == s0 + b.sent
  }

  /** One more job done: the state moved as `JobStep` says. */
  lemma DoneNext(script: nat -> Outcome, k0: nat, auth: bool, total: int, done: seq<Job>, job: Job,
                 w0: seq<nat>, s0: seq<Request>,
                 events: seq<Progress>, downloaded: nat, served: nat, waits: seq<nat>, sent: seq<Request>,
                 events': seq<Progress>, downloaded': nat, served': nat, waits': seq<nat>, sent': seq<Request>)
    requires Done(script, k0, auth, total, done, w0, s0, events, downloaded, served, waits, sent)
    requires !auth ==> && events' == events + [Progress(downloaded, total, job.filename)]
                       && downloaded' == downloaded && served' == served && waits' == waits && sent' == sent
    requires auth ==> served' == served + 1 && sent' == sent + [Request(ImageFile(job.url), "")]
    requires auth && ImageBytes(script(served)).Ok? ==>
      && events' == events + [Progress(downloaded, total, job.filename), Progress(downloaded + 1, total, job.filename)]
      && downloaded' == downloaded + 1 && waits' == waits + [DownloadGap]
    requires auth && !ImageBytes(script(served)).Ok? ==>
      events' == events + [Progress(downloaded, total, job.filename)] && downloaded' == downloaded && waits' == waits
    ensures Done(script, k0, auth, total, done + [job], w0, s0, events', downloaded', served', waits', sent')
  {
    assert (done + [job])[..|done|] == done;
    var b := RunJobs(script, k0, auth, total, done);
    AppendAssoc(w0, b.waits, [DownloadGap]);
    AppendAssoc(s0, b.sent, [Request(ImageFile(job.url), "")]);
  }

  /** One pass of the inner loop: announce the file, download it, and on
      success count it, announce it again and pause. */
  method DownloadJob(backend: EmbeddedBackend, site: Site, job: Job, total: int,
                     downloaded: nat, events: seq<Progress>,
                     ghost done: seq<Job>, ghost k0: nat, ghost w0: seq<nat>, ghost s0: seq<Request>)
    returns (downloaded': nat, events': seq<Progress>)
    requires Done(site.script, k0, backend.session.authenticated, total, done, w0, s0,
                  events, downloaded, site.served, site.waits, site.sent)
    modifies site
    ensures Done(site.script, k0, backend.session.authenticated, total, done + [job], w0, s0,
                 events', downloaded', site.served, site.waits, site.sent)
  {
    ghost var served, waits, sent := site.served, site.waits, site.sent;
    var before := Progress(downloaded, total, job.filename);
    downloaded', events' := downloaded, events + [before];
    var r := backend.DownloadImage(site, job.url);
    if r.Ok? {
      downloaded' := downloaded + 1;
      AppendAssoc(events, [before], [Progress(downloaded', total, job.filename)]);
      events' := events' + [Progress(downloaded', total, job.filename)];
      site.Pause(DownloadGap);
    }
    DoneNext(site.script, k0, backend.session.authenticated, total, done, job, w0, s0,
             events, downloaded, served, waits, sent,
             events', downloaded', site.served, site.waits, site.sent);
  }

  lemma AllJobsSnoc(arts: seq<Artwork>, a: nat)
    requires a < |arts|
    ensures AllJobs(arts[..a + 1]) == AllJobs(arts[..a]) + ArtworkJobs(arts[a])
  {
    AllJobsAppend(arts[..a], [arts[a]]);
    assert arts[..a + 1] == arts[..a] + [arts[a]];
    assert AllJobs([arts[a]]) == ArtworkJobs(arts[a]) + AllJobs([]);
  }

  lemma JobsSnoc(before: seq<Job>, jobs: seq<Job>, i: nat)
    requires i < |jobs|
    ensures before + jobs[..i] + [jobs[i]] == before + jobs[..i + 1]
  {
    TakeSnoc(jobs, i);
    AppendAssoc(before, jobs[..i], [jobs[i]]);
  }

  /** `PixivAPI.downloadMultipleImages(artworks, onProgress)` in the mobile
      shell: every image of every artwork is downloaded through the
      embedded backend; the result is the sequence of progress calls. */
  method DownloadMultipleImages(backend: EmbeddedBackend, site: Site, artworks: seq<Artwork>)
    returns (events: seq<Progress>)
    modifies site
    ensures var b := RunJobs(site.script, old(site.served), backend.session.authenticated,
                             Sum(artworks, ImageCountOf), AllJobs(artworks));
      && events == b.events && site.served == b.served
      && site.waits == old(site.waits) + b.waits && site.sent == old(site.sent) + b.sent
  {
    var total := Sum(artworks, ImageCountOf);
    var downloaded := 0;
    ghost var k0, w0, s0 := site.served, site.waits, site.sent;
    ghost var auth := backend.session.authenticated;
    events := [];
    for a := 0 to |artworks|
      invariant Done(site.script, k0, auth, total, AllJobs(artworks[..a]), w0, s0,
                     events, downloaded, site.served, site.waits, site.sent)
    {
      var art := artworks[a];
      ghost var before := AllJobs(artworks[..a]);
      ghost var jobs := ArtworkJobs(art);
      assert before + jobs[..0] == before;
      for i := 0 to |art.images|
        invariant Done(site.script, k0, auth, total, before + jobs[..i], w0, s0,
                       events, downloaded, site.served, site.waits, site.sent)
      {
        var job := Job(art.images[i], FileName(art.id, i));
        downloaded, events := DownloadJob(backend, site, job, total, downloaded, events,
                                          before + jobs[..i], k0, w0, s0);
        JobsSnoc(before, jobs, i);
      }
      assert jobs[..|art.images|] == jobs;
      AllJobsSnoc(artworks, a);
    }
    assert artworks[..|artworks|] == artworks;
  }
}
