/** The content site as the core sees it: what a reply can carry, and a
    scripted site that answers the k-th request with `script(k)` while
    recording every request it was sent and every pause the caller took. */
module Upstream {
  import opened Basics

  /** `body.illusts` of the profile endpoint: absent, an object keyed by
      artwork id (the keys in the order the object lists them), or the empty
      JSON array the site sends for a profile without artworks. */
  datatype Illusts = NoIllusts | IllustKeys(ids: seq<Id>) | EmptyIllustArray

  /** One element of the pages endpoint's `body` array: `urls.original`. */
  datatype Page = Page(original: Option<string>)

  /** `body` of a reply: missing, an object (the fields the core reads from
      it; a missing `pageCount` reads as 0), or an array of pages. */
  datatype Body =
    | NoBody
    | Record(illusts: Illusts, original: Option<string>, pageCount: int)
    | PageList(pages: seq<Page>)

  /** A reply body that parsed as JSON: its `error` flag, its `message` and
      its `body`. */
  datatype Json = Json(error: bool, message: Option<string>, body: Body)

  /** What one request produces: an HTTP reply (status, raw bytes, and the
      JSON reading of the bytes if they parse), or a thrown error, which
      carries the status of the reply attached to it when there is one
      (`error.response.status`) and its message. The two Node servers keep
      axios's default `validateStatus`, so there a non-2xx status arrives as
      a `Raise` with that status attached, never as a `Reply`; their
      branches on a `Reply` status other than 2xx are only reachable by a
      client that accepts every status, such as the Python `requests`
      calls and the embedded backend's `fetch`. */
  datatype Outcome =
    | Reply(status: nat, raw: seq<byte>, json: Option<Json>)
    | Raise(attached: Option<nat>, message: string)

  /** HTTP 429 Too Many Requests (section 4 of RFC 6585). */
  const TooManyRequests: nat := 429

  predicate IsRateLimitReply(o: Outcome) { o.Reply? && o.status == TooManyRequests }
  predicate IsRateLimitRaise(o: Outcome) { o.Raise? && o.attached == Some(TooManyRequests) }

  /** `response.ok` of the fetch API. */
  predicate Ok2xx(status: nat) { 200 <= status <= 299 }

  /** A JavaScript string is truthy when it is not empty. */
  predicate Truthy(s: Option<string>) { s.Some? && s.value != "" }

  /** `data.message || 'API error'`. */
  function JsApiMessage(m: Option<string>): string
  {
    if Truthy(m) then m.value else "API error"
  }

  /** The endpoints the core talks to. */
  datatype Endpoint =
    | UserProfile(userId: string)
    | IllustDetail(artworkId: string)
    | IllustPages(artworkId: string)
    | ImageFile(url: string)

  datatype Request = Request(endpoint: Endpoint, cookie: string)

  const SiteRoot := "https://www.pixiv.net/"

  function ArtworkPageUrl(id: string): string { SiteRoot + "artworks/" + id }

  function CookieFor(session: string): string { "PHPSESSID=" + session }

  class Site {
    /** The reply to the k-th request, counting from 0. */
    const script: nat -> Outcome
    /** How many requests have been answered. */
    var served: nat
    /** Every pause the callers took, in milliseconds, in order. */
    ghost var waits: seq<nat>
    /** Every request the site received, in order. */
    ghost var sent: seq<Request>

    constructor (script: nat -> Outcome)
      ensures this.script == script && served == 0 && waits == [] && sent == []
    {
      this.script := script;
      served := 0;
      waits := [];
      sent := [];
    }

    method Fetch(e: Endpoint, cookie: string) returns (o: Outcome)
      modifies this
      ensures o == script(old(served)) && served == old(served) + 1
      ensures sent == old(sent) + [Request(e, cookie)] && waits == old(waits)
    {
      o := script(served);
      served := served + 1;
      sent := sent + [Request(e, cookie)];
    }

    /** `await delay(ms)` / `time.sleep`: only recorded. */
    method Pause(ms: nat)
      modifies this
      ensures waits == old(waits) + [ms] && served == old(served) && sent == old(sent)
    {
      waits := waits + [ms];
    }
  }
}
