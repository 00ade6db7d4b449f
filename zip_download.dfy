/** The Python backend's `ImageDownloader`: it downloads each image URL
    with the scraper's session, reading the body chunk by chunk, and puts
    every image that arrived into an in-memory ZIP archive under the last
    path segment of its URL, counting what arrived and what failed. */
module ZipDownload {
  import opened Basics
  import opened Upstream

  /** `iter_content(chunk_size=8192)`. */
  const ChunkSize: nat := 8192
  /** The status a download must have. */
  const HttpOk: nat := 200

  /** The body as `iter_content(n)` hands it out: pieces of `n` bytes, the
      last one possibly shorter, and no piece for an empty body. */
  function Chunks(raw: seq<byte>, n: nat): seq<seq<byte>>
    requires n > 0
    decreases |raw|
  {
    if raw == [] then []
    else if |raw| <= n then [raw]
    else [raw[..n]] + Chunks(raw[n..], n)
  }

  /** Joining the chunks gives the body back, and every chunk is a
      non-empty piece of at most `n` bytes. */
  lemma {:induction false} ChunksRoundTrip(raw: seq<byte>, n: nat)
    requires n > 0
    ensures Flatten(Chunks(raw, n)) == raw
    ensures forall c :: c in Chunks(raw, n) ==> 0 < |c| <= n
    decreases |raw|
  {
    if raw != [] && |raw| > n {
      ChunksRoundTrip(raw[n..], n);
      assert raw == raw[..n] + raw[n..];
      assert Chunks(raw, n)[1..] == Chunks(raw[n..], n);
    } else if raw != [] {
      assert Flatten([raw]) == raw + [];
    }
  }

  /** `Exception(f"HTTP {response.status_code}")`. */
  function HttpErrorMessage(status: nat): string { "HTTP " + Decimal(status) }

  /** `download_image(url)` on the reply `o`: the body on status 200; any
      other status, or a failed request, raises. */
  function DownloadOf(o: Outcome): (r: Result<seq<byte>>)
    ensures r.Ok? <==> o.Reply? && o.status == HttpOk
  {
    if o.Raise? then Err(o.message)
    else if o.status == HttpOk then Ok(o.raw)
    else Err(HttpErrorMessage(o.status))
  }

  /** `url.split('/')[-1]`: the text after the last '/', or all of it. */
  function LastSegment(url: string): string
  {
    if url == [] then []
    else if url[|url| - 1] == '/' then []
    else LastSegment(url[..|url| - 1]) + [url[|url| - 1]]
  }

  /** The name holds no '/', ends the URL, and either is the whole URL or
      follows a '/'. */
  lemma {:induction false} LastSegmentFacts(url: string)
    ensures var r := LastSegment(url);
      && '/' !in r && |r| <= |url| && r == url[|url| - |r|..]
      && (r == url || url[|url| - |r| - 1] == '/')
  {
    if url != [] && url[|url| - 1] != '/' {
      var init := url[..|url| - 1];
      LastSegmentFacts(init);
      var r := LastSegment(init);
      assert init[|init| - |r|..] + [url[|url| - 1]] == url[|url| - |r| - 1..];
      if r != init {
        assert url[|url| - |r| - 2] == init[|init| - |r| - 1];
      } else {
        assert url == init + [url[|url| - 1]];
      }
    }
  }

  /** One file written into the archive. */
  datatype Entry = Entry(name: string, data: seq<byte>)

  /** The archive loop so far: the entries written, the counts, and the
      position of the next reply. */
  datatype ZipRun = ZipRun(entries: seq<Entry>, downloaded: nat, failed: nat, next: nat)

  /** One more image `url` fetched after `z`. */
  function ZipStep(script: nat -> Outcome, z: ZipRun, url: string): ZipRun
  {
    match DownloadOf(script(z.next))
    case Ok(data) => ZipRun(z.entries + [Entry(LastSegment(url), data)], z.downloaded + 1, z.failed, z.next + 1)
    case Err(_) => ZipRun(z.entries, z.downloaded, z.failed + 1, z.next + 1)
  }

  /** `create_zip(image_urls)` from reply `k`. */
  function ZipOf(script: nat -> Outcome, k: nat, urls: seq<string>): ZipRun
  {
    if urls == [] then ZipRun([], 0, 0, k)
    else ZipStep(script, ZipOf(script, k, urls[..|urls| - 1]), urls[|urls| - 1])
  }

  /** What the image request for the `i`-th URL gave. */
  function DownloadFor(script: nat -> Outcome, k: nat, i: nat): Result<seq<byte>> { DownloadOf(script(k + i)) }

  /** Every URL is requested once, in order, and counts either as
      downloaded or as failed; only downloads make entries. */
  lemma {:induction false} ZipCounts(script: nat -> Outcome, k: nat, urls: seq<string>)
    ensures var z := ZipOf(script, k, urls);
      z.downloaded + z.failed == |urls| && z.next == k + |urls| && z.downloaded == |z.entries|
  {
    if urls != [] {
      ZipCounts(script, k, urls[..|urls| - 1]);
    }
  }

  /** Every entry is an image that was downloaded, stored under the last
      segment of its URL; an image that fails is skipped and the ones after
      it are still fetched. */
  lemma {:induction false} ZipEntries(script: nat -> Outcome, k: nat, urls: seq<string>)
    ensures forall e :: e in ZipOf(script, k, urls).entries ==>
      exists i :: 0 <= i < |urls| && DownloadFor(script, k, i).Ok?
                  && e == Entry(LastSegment(urls[i]), DownloadFor(script, k, i).value)
  {
    if urls != [] {
      var n := |urls| - 1;
      var init := urls[..n];
      ZipEntries(script, k, init);
      ZipCounts(script, k, init);
      var z := ZipOf(script, k, init);
      forall e | e in ZipOf(script, k, urls).entries
        ensures exists i :: 0 <= i < |urls| && DownloadFor(script, k, i).Ok?
                            && e == Entry(LastSegment(urls[i]), DownloadFor(script, k, i).value)
      {
        if e !in z.entries {
          assert DownloadFor(script, k, n).Ok? && e == Entry(LastSegment(urls[n]), DownloadFor(script, k, n).value);
        } else {
          var i :| 0 <= i < |init| && DownloadFor(script, k, i).Ok?
                   && e == Entry(LastSegment(init[i]), DownloadFor(script, k, i).value);
          assert init[i] == urls[i];
        }
      }
    }
  }

  /** The positions, in ascending order, of the first `n` URLs whose
      download succeeds. */
  function SuccessIndices(script: nat -> Outcome, k: nat, n: nat): seq<nat>
  {
    if n == 0 then []
    else SuccessIndices(script, k, n - 1) + (if DownloadFor(script, k, n - 1).Ok? then [n - 1] else [])
  }

  /** The positions are strictly ascending and are exactly those below `n`
      whose download succeeds. */
  lemma {:induction false} SuccessIndicesFacts(script: nat -> Outcome, k: nat, n: nat)
    ensures var ix := SuccessIndices(script, k, n);
      && (forall a, b :: 0 <= a < b < |ix| ==> ix[a] < ix[b])
      && (forall i: nat :: i in ix <==> i < n && DownloadFor(script, k, i).Ok?)
  {
    if n > 0 {
      SuccessIndicesFacts(script, k, n - 1);
      var prev := SuccessIndices(script, k, n - 1);
      forall a | 0 <= a < |prev|
        ensures prev[a] < n - 1
      {
        assert prev[a] in prev;
      }
    }
  }

  /** The archive holds exactly the successful downloads, in URL order,
      each under the last segment of its URL, and `downloaded` is their
      number; every other URL counts as failed. */
  lemma {:induction false} ZipInOrder(script: nat -> Outcome, k: nat, urls: seq<string>)
    ensures var z, ix := ZipOf(script, k, urls), SuccessIndices(script, k, |urls|);
      && |z.entries| == |ix| == z.downloaded && z.failed == |urls| - |ix|
      && forall j :: 0 <= j < |ix| ==>
           ix[j] < |urls| && DownloadFor(script, k, ix[j]).Ok? && z.entries[j] == Entry(LastSegment(urls[ix[j]]), DownloadFor(script, k, ix[j]).value)
  {
    ZipCounts(script, k, urls);
    if urls != [] {
      var n := |urls| - 1;
      ZipInOrder(script, k, urls[..n]);
      InOrderStep(script, k, urls, ZipOf(script, k, urls[..n]).entries, SuccessIndices(script, k, n));
    }
  }

  /** The entries `entries` are the downloads at the positions `ix` of
      `urls`, in that order. */
  ghost predicate InOrder(script: nat -> Outcome, k: nat, urls: seq<string>, entries: seq<Entry>, ix: seq<nat>)
  {
    && |entries| == |ix|
    && forall j :: 0 <= j < |ix| ==>
         ix[j] < |urls| && DownloadFor(script, k, ix[j]).Ok? && entries[j] == Entry(LastSegment(urls[ix[j]]), DownloadFor(script, k, ix[j]).value)
  }

  lemma InOrderStep(script: nat -> Outcome, k: nat, urls: seq<string>, entries: seq<Entry>, ix: seq<nat>)
    requires urls != [] && InOrder(script, k, urls[..|urls| - 1], entries, ix)
    ensures var n := |urls| - 1;
      var r := DownloadFor(script, k, n);
      InOrder(script, k, urls, entries + (if r.Ok? then [Entry(LastSegment(urls[n]), r.value)] else []),
              ix + (if r.Ok? then [n] else []))
  {
    var init := urls[..|urls| - 1];
    forall j | 0 <= j < |ix|
      ensures urls[ix[j]] == init[ix[j]]
    {
    }
  }

  /** Every image that downloads is in the archive, under the last segment
      of its URL. */
  lemma ZipKeepsSuccesses(script: nat -> Outcome, k: nat, urls: seq<string>)
    ensures forall i :: 0 <= i < |urls| && DownloadFor(script, k, i).Ok? ==>
      Entry(LastSegment(urls[i]), DownloadFor(script, k, i).value) in ZipOf(script, k, urls).entries
  {
    ZipInOrder(script, k, urls);
    SuccessIndicesFacts(script, k, |urls|);
    var ix := SuccessIndices(script, k, |urls|);
    forall i | 0 <= i < |urls| && DownloadFor(script, k, i).Ok?
      ensures Entry(LastSegment(urls[i]), DownloadFor(script, k, i).value) in ZipOf(script, k, urls).entries
    {
      var j :| 0 <= j < |ix| && ix[j] == i;
      assert ZipOf(script, k, urls).entries[j] == Entry(LastSegment(urls[i]), DownloadFor(script, k, i).value);
    }
  }

  /** The image request sent for each URL, in order, with the session's
      cookie header. */
  function ImageRequests(urls: seq<string>, cookie: string): (r: seq<Request>)
    ensures |r| == |urls|
  {
    seq(|urls|, i requires 0 <= i < |urls| => Request(ImageFile(urls[i]), cookie))
  }

  /** The chunk loop of `download_image`: `content += chunk` for each. */
  method JoinChunks(chunks: seq<seq<byte>>) returns (content: seq<byte>)
    ensures content == Flatten(chunks)
  {
    content := [];
    for c := 0 to |chunks|
      invariant content == Flatten(chunks[..c])
    {
      TakeSnoc(chunks, c);
      FlattenAppend(chunks[..c], [chunks[c]]);
      assert Flatten([chunks[c]]) == chunks[c] + [];
      content := content + chunks[c];
    }
    assert chunks[..|chunks|] == chunks;
  }

  /** `ImageDownloader` over the session whose cookie header is `cookie`. */
  class ImageDownloader {
    const cookie: string

    constructor (cookie: string)
      ensures this.cookie == cookie
    {
      this.cookie := cookie;
    }

    /** `download_image(url)`: the body read chunk by chunk, or the error
        it raises. */
    method DownloadImage(site: Site, url: string) returns (r: Result<seq<byte>>)
      modifies site
      ensures r == DownloadOf(site.script(old(site.served))) && site.served == old(site.served) + 1
      ensures site.sent == old(site.sent) + [Request(ImageFile(url), cookie)] && site.waits == old(site.waits)
    {
      var o := site.Fetch(ImageFile(url), cookie);
      if o.Reply? && o.status == HttpOk {
        var content := JoinChunks(Chunks(o.raw, ChunkSize));
        ChunksRoundTrip(o.raw, ChunkSize);
        return Ok(content);
      } else if o.Reply? {
        return Err(HttpErrorMessage(o.status));
      } else {
        return Err(o.message);
      }
    }

    /** `create_zip(image_urls)`: the archive's entries and the counts of
        downloaded and failed images. */
    method CreateZip(site: Site, urls: seq<string>) returns (entries: seq<Entry>, downloaded: nat, failed: nat)
      modifies site
      ensures var z := ZipOf(site.script, old(site.served), urls);
        entries == z.entries && downloaded == z.downloaded && failed == z.failed && site.served == z.next
      ensures site.sent == old(site.sent) + ImageRequests(urls, cookie) && site.waits == old(site.waits)
    {
      ghost var k0 := site.served;
      entries, downloaded, failed := [], 0, 0;
      for i := 0 to |urls|
        invariant ZipOf(site.script, k0, urls[..i]) == ZipRun(entries, downloaded, failed, site.served)
        invariant site.sent == old(site.sent) + ImageRequests(urls[..i], cookie) && site.waits == old(site.waits)
      {
        assert urls[..i + 1][..i] == urls[..i];
        assert ImageRequests(urls[..i + 1], cookie) == ImageRequests(urls[..i], cookie) + [Request(ImageFile(urls[i]), cookie)];
        var filename := LastSegment(urls[i]);
        var data := DownloadImage(site, urls[i]);
        if data.Ok? {
          entries := entries + [Entry(filename, data.value)];
          downloaded := downloaded + 1;
        } else {
          failed := failed + 1;
        }
      }
      assert urls[..|urls|] == urls;
    }
  }
}
