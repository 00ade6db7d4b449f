/** The backend the mobile app carries inside itself: one stored session
    cookie, and the site's endpoints called directly from the app. Unlike
    the servers it keeps no pool, never pauses and never retries. */
module Embedded {
  import opened Basics
  import opened Upstream
  import opened Catalogue
  import opened Images

  /** The session the app falls back to when nothing is configured. */
  const DefaultSessionId := "121620980_QvZapQeJyWCeS9HyiOHhnKccoQp9hrGE"
  const NotAuthenticatedMessage := "Not authenticated with Pixiv"
  /** The `limit` of `getUserArtworks` when the caller gives none. */
  const DefaultEmbeddedLimit: nat := 500
  /** The error `response.json()` raises on a body that is not JSON; its
      exact text belongs to the JavaScript engine. */
  const NotJsonMessage := "Unexpected token in JSON"

  /** `{authenticated, sessionId}`. */
  datatype Session = Session(authenticated: bool, sessionId: string)

  /** `{id, url, title, images, imageCount}`. */
  datatype EmbeddedArtwork = EmbeddedArtwork(id: Id, url: string, title: string, images: seq<string>, imageCount: nat)

  /** `{success, artworks, totalArtworks, totalImages, message}`. */
  datatype ArtworkList = ArtworkList(
    success: bool, artworks: seq<EmbeddedArtwork>, totalArtworks: nat, totalImages: nat, message: string)

  /** An artwork as the user list hands it out, before its images are
      looked up. */
  function Unresolved(id: Id): EmbeddedArtwork
  {
    EmbeddedArtwork(id, ArtworkPageUrl(id), ArtworkTitle(id), [], 0)
  }

  /** `limit ? artworkIds.slice(0, limit) : artworkIds`. */
  function LimitIds(ids: seq<Id>, limit: nat): seq<Id>
  {
    if limit == 0 then ids else PrefixTo(ids, limit)
  }

  function FoundMessage(n: nat): string { "Found " + Decimal(n) + " artworks" }

  /** `getUserArtworks(userId, limit)` once the session is authenticated,
      reading the profile reply `o`. */
  function UserList(o: Outcome, limit: nat): Result<ArtworkList>
  {
    if o.Raise? then Err(o.message)
    else if !Ok2xx(o.status) then Err(FetchFailedMessage(o.status))
    else if o.json.None? then Err(NotJsonMessage)
    else if o.json.value.error then Err(JsApiMessage(o.json.value.message))
    else
      var ids := NewestFirst(ListedIds(o.json));
      if ids == [] then Err(NoArtworksMessage)
      else
        var chosen := LimitIds(ids, limit);
        var artworks := seq(|chosen|, i requires 0 <= i < |chosen| => Unresolved(chosen[i]));
        Ok(ArtworkList(true, artworks, |artworks|, 0, FoundMessage(|artworks|)))
  }

  /** The list fails exactly on a thrown request, a status outside 2xx, a
      body that is not JSON, the error flag, or a profile without ids. */
  lemma UserListErrors(o: Outcome, limit: nat)
    ensures UserList(o, limit).Err? <==>
      o.Raise? || !Ok2xx(o.status) || o.json.None? || o.json.value.error || ListedIds(o.json) == []
    ensures o.Reply? && !Ok2xx(o.status) ==> UserList(o, limit) == Err(FetchFailedMessage(o.status))
    ensures o.Reply? && Ok2xx(o.status) && o.json.Some? && !o.json.value.error && ListedIds(o.json) == [] ==>
      UserList(o, limit) == Err(NoArtworksMessage)
  {
    if o.Reply? {
      SortDescFacts(ListedIds(o.json), IdValue);
    }
  }

  /** A list that succeeds holds the first `limit` ids (all of them when
      `limit` is 0) in numerically descending order, each with its page
      URL, its title, no images and a zero count; the totals are the number
      of artworks listed and zero images. */
  lemma UserListSuccess(o: Outcome, limit: nat)
    requires UserList(o, limit).Ok?
    ensures var l := UserList(o, limit).value;
      var sorted := NewestFirst(ListedIds(o.json));
      && l.success && l.totalArtworks == |l.artworks| && l.totalImages == 0
      && l.message == FoundMessage(|l.artworks|)
      && |l.artworks| == (if limit == 0 then |ListedIds(o.json)| else Min(limit, |ListedIds(o.json)|))
      && (forall i :: 0 <= i < |l.artworks| ==> l.artworks[i] == Unresolved(sorted[i]))
      && (forall i, j :: 0 <= i < j < |l.artworks| ==> IdValue(l.artworks[i].id) >= IdValue(l.artworks[j].id))
  {
    var ids := ListedIds(o.json);
    var sorted := NewestFirst(ids);
    SortDescFacts(ids, IdValue);
    PrefixToIsPrefix(sorted, limit);
  }

  /** With a 2xx reply and a limit the servers accept unchanged, the app
      lists the same artworks, in the same order, as the servers'
      `processUserArtworksResponse`. */
  lemma UserListAgreesWithServers(o: Outcome, limit: nat)
    requires o.Reply? && Ok2xx(o.status) && o.json.Some? && 0 < limit <= MaxUserLimit
    ensures UserList(o, limit).Ok? <==> ProcessUserArtworks(o.json, limit).Ok?
    ensures UserList(o, limit).Ok? ==>
      var l := UserList(o, limit).value.artworks;
      var r := ProcessUserArtworks(o.json, limit).value;
      && |l| == |r|
      && forall i :: 0 <= i < |l| ==> l[i].id == r[i].id && l[i].url == r[i].url && l[i].title == r[i].title
  {
    ProcessUserArtworksErrors(o.json, limit);
    UserListErrors(o, limit);
    if UserList(o, limit).Ok? {
      UserListSuccess(o, limit);
      ProcessUserArtworksSuccess(o.json, limit);
    }
  }

  /** The detail reply asks for the page list: it is a 2xx JSON reply
      without the error flag whose body has no truthy `urls.original` and a
      `pageCount` above 1. */
  predicate WantsPages(o: Outcome)
  {
    && o.Reply? && Ok2xx(o.status) && o.json.Some? && !o.json.value.error
    && o.json.value.body.Record? && !Truthy(o.json.value.body.original) && o.json.value.body.pageCount > 1
  }

  /** The page list reply `po`: its truthy originals when it is a 2xx JSON
      reply without the error flag whose body is an array. A body that is an
      object makes `forEach` throw, and the catch block answers []. */
  function PageListImages(po: Outcome): seq<string>
  {
    if po.Reply? && Ok2xx(po.status) && po.json.Some? && !po.json.value.error && po.json.value.body.PageList?
    then PageOriginals(po.json.value.body.pages)
    else []
  }

  /** `getArtworkImages(artworkId)` once the session is authenticated:
      the detail reply `o` and, when it asks for it, the page list reply
      `po`. Every failure ends in []. */
  function ArtworkImageList(o: Outcome, po: Outcome): seq<string>
  {
    if o.Raise? || !Ok2xx(o.status) || o.json.None? || o.json.value.error then []
    else if o.json.value.body.Record? && Truthy(o.json.value.body.original) then [o.json.value.body.original.value]
    else if WantsPages(o) then PageListImages(po)
    else []
  }

  /** A truthy `urls.original` is the whole answer and the page list is not
      asked for; otherwise the answer is the page list's originals, or
      nothing; every URL is non-empty and was offered by a reply read. */
  lemma ArtworkImageListFacts(o: Outcome, po: Outcome)
    ensures var r := ArtworkImageList(o, po);
      && (o.Reply? && Ok2xx(o.status) && o.json.Some? && !o.json.value.error
          && o.json.value.body.Record? && Truthy(o.json.value.body.original)
          ==> r == [o.json.value.body.original.value] && !WantsPages(o))
      && (!WantsPages(o) ==> |r| <= 1)
      && (WantsPages(o) ==> r == PageListImages(po))
      && (forall u :: u in r ==> u != "" && (Offers(o, u) || (WantsPages(o) && Offers(po, u))))
  {
    if WantsPages(o) && po.Reply? && Ok2xx(po.status) && po.json.Some? && !po.json.value.error
       && po.json.value.body.PageList? {
      PageOriginalsFacts(po.json.value.body.pages);
    }
  }

  /** `EmbeddedPixivBackend`: the session and what `localStorage` holds
      under 'pixiv_session'. */
  class EmbeddedBackend {
    var session: Session
    var saved: Option<Session>

    /** `loadSession()` then `initializeDefaultSession()`: whatever was
        stored is replaced by the default session, which is saved. */
    constructor ()
      ensures session == Session(true, DefaultSessionId) && saved == Some(session)
    {
      session := Session(true, DefaultSessionId);
      saved := Some(Session(true, DefaultSessionId));
    }

    /** `setSession(sessionId)`: authenticated with the given id, saved. */
    method SetSession(sessionId: string)
      modifies this
      ensures session == Session(true, sessionId) && saved == Some(session)
    {
      session := Session(true, sessionId);
      saved := Some(session);
    }

    /** The cookie every site request of this backend carries. */
    function Cookie(): string
      reads this
    {
      CookieFor(session.sessionId)
    }

    /** `getUserArtworks(userId, limit)`: one profile request with the
        session's cookie, read by `UserList`. */
    method GetUserArtworks(site: Site, userId: Id, limit: nat) returns (r: Result<ArtworkList>)
      modifies site
      ensures !session.authenticated ==>
        r == Err(NotAuthenticatedMessage) && site.served == old(site.served) && site.sent == old(site.sent)
      ensures session.authenticated ==>
        && r == UserList(site.script(old(site.served)), limit)
        && site.served == old(site.served) + 1
        && site.sent == old(site.sent) + [Request(UserProfile(userId), Cookie())]
      ensures site.waits == old(site.waits)
    {
      if !session.authenticated {
        return Err(NotAuthenticatedMessage);
      }
      var o := site.Fetch(UserProfile(userId), Cookie());
      r := UserList(o, limit);
    }

    /** `getArtworkImages(artworkId)`: the detail request, then the page
        list request only when the detail asks for it. */
    method GetArtworkImages(site: Site, artworkId: Id) returns (r: Result<seq<string>>)
      modifies site
      ensures !session.authenticated ==>
        r == Err(NotAuthenticatedMessage) && site.served == old(site.served) && site.sent == old(site.sent)
      ensures session.authenticated ==>
        var o := site.script(old(site.served));
        && r == Ok(ArtworkImageList(o, site.script(old(site.served) + 1)))
        && site.served == old(site.served) + (if WantsPages(o) then 2 else 1)
        && site.sent == old(site.sent) + [Request(IllustDetail(artworkId), Cookie())]
             + (if WantsPages(o) then [Request(IllustPages(artworkId), Cookie())] else [])
      ensures site.waits == old(site.waits)
    {
      if !session.authenticated {
        return Err(NotAuthenticatedMessage);
      }
      var o := site.Fetch(IllustDetail(artworkId), Cookie());
      if o.Raise? || !Ok2xx(o.status) || o.json.None? || o.json.value.error {
        return Ok([]);
      }
      var body := o.json.value.body;
      if body.Record? && Truthy(body.original) {
        return Ok([body.original.value]);
      }
      if body.Record? && body.pageCount > 1 {
        var po := site.Fetch(IllustPages(artworkId), Cookie());
        r := Ok(PageListImages(po));
      } else {
        r := Ok([]);
      }
    }

    /** `downloadImage(imageUrl)`: the file's bytes, fetched without the
        session cookie. */
    method DownloadImage(site: Site, imageUrl: string) returns (r: Result<seq<byte>>)
      modifies site
      ensures !session.authenticated ==>
        r == Err(NotAuthenticatedMessage) && site.served == old(site.served) && site.sent == old(site.sent)
      ensures session.authenticated ==>
        && r == ImageBytes(site.script(old(site.served)))
        && site.served == old(site.served) + 1
        && site.sent == old(site.sent) + [Request(ImageFile(imageUrl), "")]
      ensures site.waits == old(site.waits)
    {
      if !session.authenticated {
        return Err(NotAuthenticatedMessage);
      }
      var o := site.Fetch(ImageFile(imageUrl), "");
      if o.Raise? {
        r := Err(o.message);
      } else if !Ok2xx(o.status) {
        r := Err(DownloadFailedMessage(o.status));
      } else {
        r := Ok(o.raw);
      }
    }
  }

  function DownloadFailedMessage(status: nat): string { "Failed to download image: " + Decimal(status) }

  /** What `downloadImage` gives for the image reply `o`. */
  function ImageBytes(o: Outcome): (r: Result<seq<byte>>)
    ensures r.Ok? <==> o.Reply? && Ok2xx(o.status)
    ensures r.Ok? ==> r.value == o.raw
  {
    if o.Raise? then Err(o.message)
    else if !Ok2xx(o.status) then Err(DownloadFailedMessage(o.status))
    else Ok(o.raw)
  }
}
