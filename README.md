# PixivLoader retrieval and download core, in Dafny

PixivLoader turns a pixiv profile or artwork URL into an ordered list of
original-image URLs and downloads them into an archive, reporting progress.
The same pipeline exists in several backends: the mobile Express server, the
serverless (Lambda) handler, the backend the mobile app embeds, the app's
API layer, the two Python scrapers and the Python ZIP downloader. The app
also keeps a local download history. This project models all of them and
proves what each promises.

- **The site is an oracle.** `Upstream.Site` answers its k-th request with
  `script(k)`. An answer is a reply (status, raw bytes and the JSON reading
  of those bytes, when they parse) or a thrown error. A thrown error
  carries the status of its attached response, if any. A 429 reply
  (section 4 of RFC 6585) and a thrown 429 are different outcomes. The
  site records every request it receives, with the cookie it carried, and
  every pause the caller takes, in milliseconds. Wait schedules and
  request counts are therefore statements about ghost logs.
- **Spec functions first.** Each operation is a pure function of the
  script, the pool state and the inputs (`UserArtworksRun`, `Attempt`,
  `DownloadFrom`, `Paging`, `ZipOf`, `Collect`, `RunJobs`, ...).
  The imperative code is then proved to do exactly what that function
  says, on the class state it changes: the credential pool's globals, the
  progress board, the history store, the scrapers' flags and the site's
  logs. The lemmas beside each spec function state what the source
  promises.
- **Modules follow the program.**
  - `Basics`: numerals, JavaScript/Python slicing, the stable descending
    sort, `Set` dedup, filters and sums.
  - `Upstream`: replies, endpoints and the site.
  - `Pool`: the session pool of both servers. A pool is *consistent*
    when rotation is on exactly with two or more sessions and the index is
    in range with the cookie naming its session.
  - `Urls`: id extraction.
  - `Catalogue`: `processUserArtworksResponse` and `getUserArtworks`.
  - `Images`: the `getArtworkImages` retry machine.
  - `Downloads`: `downloadImage` and `processDownload`.
  - `LambdaStart`: the serverless `/api/download/start` loop.
  - `Embedded`: `EmbeddedPixivBackend`.
  - `ClientApi`: `PixivAPI` in the mobile shell.
  - `History`: `LocalStorageService`.
  - `CookieScrape`: `CookieScraper`.
  - `AppScrape`: the App-API `PixivScraper`.
  - `ZipDownload`: `ImageDownloader`.

## Model

| member | source | states |
|---|---|---|
| Basics.SortDescFacts | mobile-backend/server.js:229-230 | the id sort orders by key, descending, and is a permutation of its input (same multiset, same length) |
| Basics.DedupFacts | mobile-backend/server.js:32-33 | `[...new Set(s)]` has no duplicates, keeps exactly the values of `s`, and keeps the first one first |
| Basics.PrefixToIsPrefix | python-backend/services/cookie_scraper.py:86 | a slice `s[:end]` is a prefix of `s`, of length min(end, \|s\|) for a non-negative end |
| Basics.DecimalRoundTrip | mobile-backend/server.js:230 | the decimal numeral of n is a digit string and `parseInt` reads n back from it |
| Pool.ConfiguredSessionsFacts | aws-lambda-handler.js:14-23 | the pool lists each configured session once, and the primary, when set, comes first; with nothing configured the pool is empty |
| Pool.InitialPoolValid | aws-lambda-handler.js:23-34 | the start-up state is consistent at index 0 with no failures: the cookie names the first session, the current session is the first one unless it is "" (which is falsy) or there is none, when it is null, and rotation is enabled exactly when there are at least 2 sessions |
| Pool.BlankFirstBackupHasNoCurrent | aws-lambda-handler.js:14-32 | with no primary and a backup list whose first piece trims to "" (",abc", " ,abc"), the first session is "", the cookie is "PHPSESSID=" and there is no current session |
| Pool.LeadingCommaBlank | mobile-backend/server.js:27 | a backup list that starts with a comma has an empty first piece |
| Pool.RotateFacts | mobile-backend/server.js:52-68 | with at most one session, `rotateSession` returns false and changes nothing; otherwise it returns true, sets the index to (index+1) mod n, makes that session the current one, sets the cookie to it and clears the failure count |
| Pool.FailureCheckFacts | mobile-backend/server.js:71-78 | `checkSessionRotation` always counts the failure; it rotates exactly when the new count is at least 3 and there are at least 2 sessions, and the next session becomes the current one; otherwise only the count changes |
| Pool.RotationSwitchesCookie | aws-lambda-handler.js:51-63 | in a duplicate-free pool of at least 2 sessions, a rotation always switches to a different cookie |
| Pool.RotateSmallPoolIsNoop | mobile-backend/server.js:53-56 | any number of rotations of a pool of at most one session leaves it as it was |
| Pool.CurrentTracked | mobile-backend/server.js:46-62 | the current session is the one at the index (null only at start-up with an empty first session, and when there is none); start-up establishes this and rotation, counting a failure and clearing the count keep it |
| Pool.RotateTimesIndex | mobile-backend/server.js:58 | k rotations advance the index by k modulo the pool size and keep the pool consistent |
| Pool.RotateFullCircle | mobile-backend/server.js:58-62 | n rotations of an n-session pool come back to the same index and cookie |
| Pool.FailuresAccumulateWithoutRotation | mobile-backend/server.js:71-78 | with rotation disabled, k failures add k to the count and never change the session |
| Pool.ThirdFailureRotates | mobile-backend/server.js:71-78 | from a zero count with rotation enabled, the first two failures do not rotate, and the third rotates and leaves exactly the pool `rotateSession` gives: count 0, next index |
| Pool.SuccessRestartsCount | mobile-backend/server.js:203-204 | two failures, then a success, then one failure: no rotation, same index, count 1 |
| Pool.CredentialPool.constructor | mobile-backend/server.js:22-49 | the globals start as the initial pool of the configured sessions, with no current session when the first one is "" (as the lambda runs; the mobile server throws at start-up there, see "Left out"); `authenticated` holds exactly when a session exists |
| Pool.CredentialPool.Rotate | mobile-backend/server.js:52-68 | changes the globals exactly as `Rotation` says and keeps them consistent |
| Pool.CredentialPool.CheckRotation | mobile-backend/server.js:71-78 | changes the globals exactly as `FailureCheck` says and keeps them consistent |
| Pool.CredentialPool.ResetFailures | aws-lambda-handler.js:106 | `sessionFailureCount = 0` changes only the count |
| Urls.FindFrom | mobile-backend/server.js:158-161 | the result is the leftmost position at or after `from` where the literal is followed by a digit; None means there is no such position |
| Urls.DigitRun | mobile-backend/server.js:158-161 | `(\d+)` captures the maximal run of digits at the position |
| Urls.CaptureFacts | mobile-backend/server.js:158-167 | `url.match(/lit(\d+)/)` fails exactly when no position matches; otherwise it captures the full digit run after the leftmost match |
| Urls.FirstCaptureFacts | src/services/api.ts:128-141 | a pattern list yields the capture of the first pattern that matches, and nothing only when none matches |
| Urls.ClientUserIdOrder | src/services/api.ts:128-141 | the client's `extractUserId` tries users/, then member.php?id=, then u/, and takes the first that matches |
| Urls.ClientArtworkIdOrder | src/services/api.ts:143-156 | the client's `extractArtworkId` tries artworks/, then illust_id=, then i/, and takes the first that matches |
| Urls.ClientExtendsServer | aws-lambda-handler.js:74-84 | whatever id the servers' single pattern finds, the client finds the same |
| Urls.ProfileUrlExample | mobile-backend/server.js:158-161 | "pixiv.net/users/42" yields the user id "42" |
| Catalogue.RefsForReadBack | mobile-backend/server.js:241-245 | the ids read back from the refs (`IdsOf`) are the ids given, in order; two refs are equal exactly when their ids are; each ref carries its id's page URL and title |
| Catalogue.SafeLimit | mobile-backend/server.js:238-239 | `Math.min(limit \|\| 25, 50)` is between 1 and 50, is 25 for limit 0, and is the limit itself for limits 1..50 |
| Catalogue.ProcessUserArtworksErrors | mobile-backend/server.js:218-236 | fails exactly on the error flag (with its message, or "API error") or on an empty id set ("No artworks found for this user") |
| Catalogue.ProcessUserArtworksSuccess | aws-lambda-handler.js:117-141 | returns the first min(count, safeLimit) ids of the numerically descending sort, as artwork refs, drawn from the listed ids |
| Catalogue.UserArtworksShape | mobile-backend/server.js:170-215 | `getUserArtworks` pauses 1000 ms first, makes one or two profile requests (the first with the current cookie) and leaves the pool consistent |
| Catalogue.RateLimitedShape | mobile-backend/server.js:181-196 | the 429 branch makes one or two requests in total and leaves the pool consistent |
| Catalogue.UserArtworksSuccessResets | aws-lambda-handler.js:102-107 | a 200 reply clears the failure count, is the only request, and is read by `processUserArtworksResponse` |
| Catalogue.RateLimitedProfileRetriedOnce | aws-lambda-handler.js:95-100 | a 429 reply that makes the pool rotate is retried exactly once, after 3000 ms, with the new cookie; the lambda reads the retry's body without a status check, while the mobile server fails on a non-200 retry |
| Catalogue.RateLimitedProfileWithoutRotation | mobile-backend/server.js:193-195 | a 429 reply without rotation fails after one request; the failure is still counted |
| Catalogue.OtherFailureCounting | mobile-backend/server.js:198-201 | another non-200 reply fails with "Failed to fetch user data: status"; only the mobile server counts it as a failure |
| Catalogue.ThrownRateLimitCounted | aws-lambda-handler.js:108-112 | a thrown 429 counts one failure and reports the backend's rate-limit message |
| Catalogue.GetUserArtworks | aws-lambda-handler.js:86-115 | changes the pool globals and the site exactly as `UserArtworksRun` says, and returns its result |
| Catalogue.HandleUserError | mobile-backend/server.js:207-214 | the catch block changes the globals as `CatchUserError` says |
| Images.PageOriginalsFacts | mobile-backend/server.js:316-320 | the page originals are exactly the pages' truthy `urls.original`, at most one per page |
| Images.PageOriginalsAppend | mobile-backend/server.js:316-320 | page order is kept: the originals of a + b are those of a followed by those of b |
| Images.RateLimitDecision | mobile-backend/server.js:267-285 | the rate-limit branch retries only while retryCount < 2 |
| Images.AttemptBounds | mobile-backend/server.js:255-348 | `getArtworkImages` sends 1 to 3 detail requests (at most 3 - retryCount), at most two requests per attempt; it consumes one reply per request, pauses 1000 + 500·retryCount first, and leaves the pool consistent |
| Images.SingleOriginal | mobile-backend/server.js:300-307 | a 200 detail without the error flag and with a truthy `urls.original` gives exactly [that URL] after one request and clears the failure count |
| Images.MultiPage | aws-lambda-handler.js:178-191 | without an original and with pageCount > 1, the page list is fetched after 500 ms and the page originals are returned in page order |
| Images.DetailFailures | mobile-backend/server.js:287-298 | a non-200, non-429 detail reply gives [] and counts a failure; an error-flagged 200 gives [] and leaves the count alone |
| Images.PersistentRateLimitReplies | mobile-backend/server.js:267-285 | under persistent 429 replies: three attempts, the waits [1000, 2000 or 3000, 1500, 6000, 2000], one counted failure, and [] |
| Images.PersistentRateLimitErrors | aws-lambda-handler.js:195-205 | under persistent thrown 429s the mobile server behaves as with replies; the lambda retries only after a rotation at retryCount 0 and then gives up |
| Images.ImagesComeFromReplies | mobile-backend/server.js:303-325 | every URL returned was offered by one of the replies the call consumed |
| Images.DecideRateLimit | mobile-backend/server.js:267-285 | changes the pool as `RateLimitDecision` says and reports whether to retry and after how long |
| Images.AttemptOnce | aws-lambda-handler.js:144-206 | one attempt changes the pool and the site exactly as `AttemptStep` says |
| Images.GetArtworkImages | mobile-backend/server.js:255-348 | the recursive method changes the pool globals and the site exactly as the spec function `Attempt` says, and returns its images |
| Downloads.RetryPausesGrow | mobile-backend/server.js:367 | every pause is at least 1000 ms, and each is 1000 ms longer than the one before |
| Downloads.RetryPausesTotal | mobile-backend/server.js:361-368 | the pauses after n failed attempts from attempt `from` on total 500·n·(2·from+n+1) ms |
| Downloads.DefaultRetriesWait | mobile-backend/server.js:351-370 | with the default 3 retries, `downloadImage` waits 0, 1000 or 3000 ms in all, and 3000 exactly when its first two attempts threw |
| Downloads.DownloadFromFacts | mobile-backend/server.js:351-370 | from attempt i, at most retries - i requests, all to the same URL with the client's cookie; it returns the first reply's bytes, or rethrows the last error once every attempt threw; nothing is tried when retries <= i |
| Downloads.DownloadImageFacts | mobile-backend/server.js:351-370 | with retries >= 1: 1 to retries requests; success exactly when some reply in the window arrives, with the bytes of the first; otherwise all of them threw |
| Downloads.DownloadImage | mobile-backend/server.js:351-370 | the loop changes the site exactly as `DownloadFrom` says and returns its result |
| Downloads.PercentMonotone | mobile-backend/server.js:803-806 | the downloading percentage never goes down as images are handled |
| Downloads.PercentCap | mobile-backend/server.js:803-806 | once twice as many images as artworks are handled, the percentage is 90 |
| Downloads.PercentStart | mobile-backend/server.js:756-764 | the formula at 0 images gives the 10 of the first record |
| Downloads.PercentRounds | mobile-backend/server.js:803-806 | the percentage is in [10, 90]; below 90 it is 10 plus 80n/(2t) rounded half up |
| Downloads.ProgressBoard.SetMessage | mobile-backend/server.js:737 | sets the message of an existing entry and nothing else |
| Downloads.ProgressBoard.Put | mobile-backend/server.js:804-811 | replaces the task's entry and nothing else |
| Downloads.ResolveArtworks | mobile-backend/server.js:733-746 | a user task without an entry fails with the TypeError's message before any request; otherwise it fetches the user's 50 artworks (an error fails the task), or uses the single artwork |
| Downloads.SaveImages | mobile-backend/server.js:790-800 | each image counts as exactly one of downloaded or failed, and each saved image is archived as "{id}_{i+1}.jpg" with its own index |
| Downloads.CompletedLogFacts | mobile-backend/server.js:780-843 | downloading records stay in [10, 90] and never go down; downloaded + failed is the total number of images resolved; the task ends with the 95 and 100 records |
| Downloads.DownloadAll | mobile-backend/server.js:780-817 | the artwork loop writes one climbing record per artwork, and the archive gets one entry per downloaded image |
| Downloads.DownloadArtwork | mobile-backend/server.js:784-811 | one artwork's images are all handled and its progress record is written |
| Downloads.ProcessDownload | mobile-backend/server.js:731-852 | the progress entry ends as Failed (missing entry, user error, no artworks) or with a completed log whose counts match the archive |
| Downloads.DownloadResolved | mobile-backend/server.js:748-843 | no artworks fails the task with "No artworks found"; otherwise it writes the completed log |
| Downloads.DownloadAndArchive | mobile-backend/server.js:756-843 | writes the downloading records, then creating_zip at 95 and completed at 100, with the final counts |
| LambdaStart.DetailsCounts | aws-lambda-handler.js:264-287 | every kept artwork has images and imageCount = their number; totalImages is the number of all images resolved |
| LambdaStart.DetailsMembers | aws-lambda-handler.js:268-276 | the kept artworks are exactly those whose image list is not empty |
| LambdaStart.ArtworkImages | aws-lambda-handler.js:268 | one lambda `getArtworkImages` call, as the spec's `Attempt` run |
| LambdaStart.ResolveDetails | aws-lambda-handler.js:264-280 | the first min(\|artworks\|, 25) artworks are resolved one after another, each call continuing where the last left the site and pool |
| LambdaStart.StartDownload | aws-lambda-handler.js:224-297 | missing URL → 400, no sessions → 401, no id → 400, user-fetch error → 500; a user URL whose artworks load, and an artwork URL, answer success; that answer lists the kept details with their totals, where the images of the first min(n, 25) artworks are the runs of `getArtworkImages`, each started where the previous one left the site and the pool (after the profile fetch, for a user URL) |
| Embedded.UserListErrors | src/services/embedded-backend.ts:97-120 | the list fails exactly on a throw, a non-2xx status, a non-JSON body, the error flag or an empty id set, with the matching messages |
| Embedded.UserListSuccess | src/services/embedded-backend.ts:114-138 | ids sorted numerically descending, cut to `limit` (all of them for 0), each with no images; totalArtworks is the number returned and totalImages is 0 |
| Embedded.UserListAgreesWithServers | src/services/embedded-backend.ts:81-143 | for limits 1..50 the embedded list succeeds exactly when the servers' does, with the same ids, URLs and titles |
| Embedded.ArtworkImageListFacts | src/services/embedded-backend.ts:161-206 | a truthy original gives [it] and no page request; otherwise the pages' originals when pageCount > 1; every URL is non-empty and offered by a reply; every failure gives [] |
| Embedded.EmbeddedBackend.constructor | src/services/embedded-backend.ts:31-57 | starts authenticated with the default session, which is saved |
| Embedded.EmbeddedBackend.SetSession | src/services/embedded-backend.ts:63-69 | authenticated with the given id, which is saved |
| Embedded.EmbeddedBackend.GetUserArtworks | src/services/embedded-backend.ts:81-143 | not authenticated → error before any request; otherwise one profile request with the session cookie, read by `UserList` |
| Embedded.EmbeddedBackend.GetArtworkImages | src/services/embedded-backend.ts:145-207 | not authenticated → error; otherwise the detail request, plus the pages request exactly when the detail asks for pages |
| Embedded.EmbeddedBackend.DownloadImage | src/services/embedded-backend.ts:209-239 | not authenticated → error; otherwise one cookie-less request, whose bytes are returned on a 2xx |
| Embedded.ImageBytes | src/services/embedded-backend.ts:223-227 | the bytes come back exactly on a 2xx reply, unchanged |
| ClientApi.ResolveFacts | src/services/api.ts:69-79 | each listed artwork keeps its id and title in order, imageCount equals its images' length, and totalImages is their sum |
| ClientApi.ArtworkListFacts | src/services/api.ts:52-104 | a URL without ids fails before any request; a user id takes precedence over an artwork id; a single artwork is "Artwork id" with totalArtworks 1 |
| ClientApi.ResolveImages | src/services/api.ts:66-79 | the loop returns `Resolve` of the images looked up in order, and totalImages is their count |
| ClientApi.GetArtworkList | src/services/api.ts:52-104 | returns exactly what `ArtworkListRun` says and consumes its replies |
| ClientApi.ArtworkJobs | src/services/api.ts:189-191 | one job per image in page order, and no two pages of the artwork share a file name |
| ClientApi.PageNamesDiffer | src/services/api.ts:191 | different page indices of one artwork give different file names |
| ClientApi.AllJobsCount | src/services/api.ts:188-191 | there is one job per image of every artwork |
| ClientApi.RunJobsFacts | src/services/api.ts:188-212 | every job is tried in order, whatever happened before; downloaded counts only successes; each success is followed by a 500 ms pause |
| ClientApi.ProgressClimbs | src/services/api.ts:194-204 | the reported counts never go down, never exceed the final count, and end at it |
| ClientApi.FileNameInjective | src/services/api.ts:191 | distinct (artwork, page) pairs get distinct file names |
| ClientApi.DownloadMultipleImages | src/services/api.ts:180-213 | the two loops make exactly the progress calls and requests `RunJobs` says |
| History.ParsedFacts | src/services/local-storage.ts:42-52 | the history read is sorted by startTime descending and is a permutation of what is stored; [] when nothing parses |
| History.AddedFacts | src/services/local-storage.ts:79-84 | the new item comes first, followed by the older items, with at most 1000 in all |
| History.AddedReadsBack | src/services/local-storage.ts:72-90 | when the new item is the newest, reading the history back gives the list as written |
| History.FinishedFacts | src/services/local-storage.ts:120-126 | merging sets exactly the fields the update carries; a completed or failed update stamps endTime = now and duration = now - startTime |
| History.FindIndex | src/services/local-storage.ts:117 | the index of the first item with the id, or None when no item has it |
| History.UpdatedFacts | src/services/local-storage.ts:114-121 | only the first item with the id changes, to the merged item; an absent id writes nothing |
| History.WithoutFacts | src/services/local-storage.ts:140-148 | deletion keeps exactly the items whose id differs |
| History.WithoutIdempotent | src/services/local-storage.ts:143 | deleting the same id twice is deleting it once |
| History.RecentFacts | src/services/local-storage.ts:235-251 | cleanup keeps exactly the items with startTime > cutoff, and the number removed is the number at or before it |
| History.RoundDivFacts | src/services/local-storage.ts:184 | `Math.round(total / n)` is the nearest integer, halves rounded up |
| History.AverageDurationFacts | src/services/local-storage.ts:179-185 | 0 when no completed item has a duration; otherwise the rounded mean of those durations |
| History.ArtistNames | src/services/local-storage.ts:190-194 | the names are exactly the truthy artistName values in the history |
| History.ArtistEntriesFacts | src/services/local-storage.ts:188-197 | each artist entry counts that artist's items exactly (names of Object.prototype members excepted, see "Left out") |
| History.TopArtistsFacts | src/services/local-storage.ts:187-200 | at most 5 artists, most downloads first, no artist twice, each count exact, and no artist left out has more downloads than any listed one (names of Object.prototype members excepted, see "Left out") |
| History.TopArtistsRanked | src/services/local-storage.ts:187-200 | the top artists are distinct, and no artist left out has more downloads than any listed one (names of Object.prototype members excepted, see "Left out") |
| History.SortedArtistsDistinct | src/services/local-storage.ts:188-198 | the sorted artist entries name each artist once |
| History.UnlistedRanksLower | src/services/local-storage.ts:198-199 | an artist not among the first n sorted entries has no more downloads than any of them (names of Object.prototype members excepted, see "Left out") |
| History.StatsFacts | src/services/local-storage.ts:159-177 | completed + failed <= total, today <= thisWeek <= thisMonth <= total, totalImages is the sum of downloadedImages, at most 5 top artists |
| History.PatchFacts | src/services/local-storage.ts:203-223 | applying an update twice equals applying it once; settings written out read back unchanged; an empty update changes nothing |
| History.LocalStorageService.constructor | src/services/local-storage.ts:28-31 | the service over the given stores |
| History.LocalStorageService.History | src/services/local-storage.ts:34-68 | the history read (awaited) is sorted newest first and is a permutation of what the store holds; [] when nothing parses |
| History.LocalStorageService.AddDownloadHistory | src/services/local-storage.ts:70-98 | returns the id now·suffix and writes the new item in front, capped at 1000, to the store it read |
| History.LocalStorageService.UpdateDownloadHistory | src/services/local-storage.ts:114-138 | writes `Updated` of the history when the id exists, and nothing otherwise |
| History.LocalStorageService.DeleteDownloadHistory | src/services/local-storage.ts:140-148 | writes the history without the id to localStorage |
| History.LocalStorageService.ClearDownloadHistory | src/services/local-storage.ts:150-156 | removes the localStorage history |
| History.LocalStorageService.DownloadStats | src/services/local-storage.ts:159-177 | total is the history's length, completed + failed <= total, and the recency counts nest |
| History.LocalStorageService.CleanupOldHistory | src/services/local-storage.ts:235-251 | returns the number of items at or before the cutoff, and writes the recent items only when some were removed |
| History.LocalStorageService.UpdateSettings | src/services/local-storage.ts:215-223 | the settings read afterwards are the old ones with the update applied, written out in full |
| History.AddAsWrittenLosesEntries | src/services/local-storage.ts:37-40 | with the Preferences plugin present, an add as written returns '' and stores nothing |
| History.CleanupAsWrittenRemovesNothing | src/services/local-storage.ts:235-250 | with the Preferences plugin present, cleanup as written returns 0 and writes nothing |
| History.CleanupAsWrittenWithoutPreferences | src/services/local-storage.ts:235-250 | without the plugin, cleanup as written counts the items at or before the cutoff and writes the later ones only when some were removed |
| History.AddKeepsEntry | src/services/local-storage.ts:70-93 | with the history awaited, the new entry is read back first and its id is not empty |
| CookieScrape.PresentOriginalsMembers | python-backend/services/cookie_scraper.py:141-143 | the page URLs are exactly the pages' `urls.original` values, empty ones included |
| CookieScrape.ArtworkRequests | python-backend/services/cookie_scraper.py:114-136 | the detail request comes first, and there are at most two requests |
| CookieScrape.ArtworkUrlsFacts | python-backend/services/cookie_scraper.py:111-149 | an unusable detail gives []; the single original and the page originals are both kept, in that order; a failed pages read loses everything; every URL comes from a reply |
| CookieScrape.CollectRequests | python-backend/services/cookie_scraper.py:86-90 | the detail requests ask for exactly the chosen ids, in order, one each |
| CookieScrape.ScrapeUserErrors | python-backend/services/cookie_scraper.py:34-82 | no cookie → "No PHPSESSID cookie provided" before any request; a throw, non-200, error flag or empty id set each give their own error after the single profile request |
| CookieScrape.ScrapeUserSuccess | python-backend/services/cookie_scraper.py:84-100 | success counts all listed ids as artworks, looks up only the first max_artworks in key order (unsorted), concatenates their URLs, and images = len(imageUrls) |
| CookieScrape.AppendOriginals | python-backend/services/cookie_scraper.py:141-143 | the page loop appends the present originals |
| CookieScrape.CookieScraper.constructor | python-backend/services/cookie_scraper.py:13-32 | authenticated exactly when the cookie is not empty |
| CookieScrape.CookieScraper.GetArtworkImages | python-backend/services/cookie_scraper.py:111-149 | returns `ArtworkUrls` of the replies and sends exactly `ArtworkRequests` |
| CookieScrape.CookieScraper.CollectImages | python-backend/services/cookie_scraper.py:85-90 | the artwork loop returns and sends exactly what `Collect` says |
| CookieScrape.CookieScraper.ScrapeUser | python-backend/services/cookie_scraper.py:34-109 | returns and sends exactly what `ScrapeUserRun` says |
| AppScrape.Paging | backend/python/pixiv_scraper.py:42-61 | the loop records one offset per call |
| AppScrape.PagingStops | backend/python/pixiv_scraper.py:42-58 | a call is made exactly while the list is not full; every reply but the last continued; the last stopped the loop or filled the list; the run raised exactly when its last call did |
| AppScrape.PagingOffsets | backend/python/pixiv_scraper.py:40-60 | the first offset is 0 and each later one advances by the previous batch's size |
| AppScrape.PagingBatches | backend/python/pixiv_scraper.py:53-61 | a run that does not raise gathers the batches in order, pausing 500 ms between calls |
| AppScrape.UserIllustsFacts | backend/python/pixiv_scraper.py:34-68 | at most max_illusts illustrations; [] when a call raised; otherwise the batches cut to the limit |
| AppScrape.PagesUrlsFacts | backend/python/pixiv_scraper.py:85-90 | each page with a URL contributes exactly one, its original in preference to its large one |
| AppScrape.ExtractAppend | backend/python/pixiv_scraper.py:74-94 | extraction distributes over concatenation |
| AppScrape.MalformedSkipped | backend/python/pixiv_scraper.py:92-94 | a malformed illustration contributes nothing and the ones around it are still processed |
| AppScrape.IllustUrlsFacts | backend/python/pixiv_scraper.py:77-90 | a single page gives its original, else its large URL, followed by the page URLs |
| AppScrape.ResultForFacts | backend/python/pixiv_scraper.py:112-130 | success exactly when there are illustrations, with artworks = len(illusts) and images = len(imageUrls) |
| AppScrape.AppApi.UserIllusts | backend/python/pixiv_scraper.py:44 | answers the next scripted reply and records the offset |
| AppScrape.PixivScraper.Login | backend/python/pixiv_scraper.py:22-32 | succeeds exactly when the API accepts, and sets `authenticated` |
| AppScrape.PixivScraper.GetUserIllusts | backend/python/pixiv_scraper.py:34-68 | the while loop returns `UserIllustsOf`, making exactly the calls, offsets and pauses of `Paging` |
| AppScrape.PixivScraper.ScrapeUser | backend/python/pixiv_scraper.py:99-130 | a failed login gives "Authentication failed" with no call; otherwise the result for the illustrations fetched |
| AppScrape.ExtractImageUrls | backend/python/pixiv_scraper.py:70-97 | the for loop returns `ExtractAll` of the illustrations |
| AppScrape.ExtractOne | backend/python/pixiv_scraper.py:74-94 | one illustration appends its `IllustUrls`, and a malformed one appends nothing |
| AppScrape.AppendPageUrls | backend/python/pixiv_scraper.py:86-90 | the meta-pages loop appends `PagesUrls` |
| ZipDownload.ChunksRoundTrip | python-backend/services/image_downloader.py:30-33 | joining the 8192-byte chunks gives the body back, and every chunk has 1 to 8192 bytes |
| ZipDownload.DownloadOf | python-backend/services/image_downloader.py:26-39 | the body comes back exactly on a 200 reply; any other status or a failed request raises |
| ZipDownload.LastSegmentFacts | python-backend/services/image_downloader.py:56 | the name is the URL's tail after its last '/', with no '/' in it |
| ZipDownload.ZipCounts | python-backend/services/image_downloader.py:49-74 | downloaded + failed = len(image_urls); one request per URL; one entry per download |
| ZipDownload.ZipEntries | python-backend/services/image_downloader.py:53-72 | every entry is the body of a successful download, stored under its URL's last segment; a failure is skipped and the loop goes on |
| ZipDownload.SuccessIndicesFacts | python-backend/services/image_downloader.py:53-68 | the ascending positions of the URLs whose download succeeds, and only those |
| ZipDownload.ZipInOrder | python-backend/services/image_downloader.py:49-74 | the archive is exactly the successful downloads in URL order, each under its URL's last segment; `downloaded` is their number and `failed` the rest |
| ZipDownload.ZipKeepsSuccesses | python-backend/services/image_downloader.py:53-64 | every image that downloads is in the archive under its URL's last segment |
| ZipDownload.JoinChunks | python-backend/services/image_downloader.py:30-32 | the chunk loop concatenates the chunks |
| ZipDownload.ImageDownloader.DownloadImage | python-backend/services/image_downloader.py:17-39 | one request; returns `DownloadOf` of its reply |
| ZipDownload.ImageDownloader.CreateZip | python-backend/services/image_downloader.py:41-78 | the loop returns exactly the entries and counts of `ZipOf`, sending one image request per URL, in order, with the session's cookie, and no pause |

## Left out

- Real I/O. HTTP clients, file systems, the archiver, zipfile, Capacitor
  Filesystem and Preferences calls are replaced by the scripted site and by
  fields holding what each store contains. Clocks and random id suffixes
  are parameters (`now`, `suffix`). Sleeps are only recorded.
- Express and Flask route plumbing, except the serverless
  `/api/download/start`. This covers health checks, the SSE stream,
  zip serving and `validatePixivSession`, whose cache depends on the
  wall clock.
- The external-backend branches of `PixivAPI` (`fetch` to the servers),
  `checkHealth`, and saving to the Capacitor file system in
  `EmbeddedPixivBackend.downloadImage`.
- Concurrency. Tasks that share the session counters are not interleaved;
  each call runs to completion.
- Downloads.ArtworkImages: inside `processDownload` only the pool's
  consistency and the site's advance are stated. `getArtworkImages` itself
  is proved in `Images.GetArtworkImages`.
- Downloads.SaveImages: states the counts and the archive names, not which
  reply's bytes went into which entry. `Downloads.DownloadImageFacts`
  covers a single image.
- Downloads.ProcessDownload: message-only updates before each artwork are
  not part of the progress log. The archive is its list of entries, not
  ZIP bytes.
- ZipDownload.ImageDownloader.CreateZip: the archive is its list of
  entries. The ZIP encoding and `seek(0)` on the buffer are not modelled,
  and neither is the `user_id` used only in the log line.
- Embedded: the JavaScript engine's text for a body that is not JSON is a
  constant.
- CookieScrape: the text of a Python exception is modelled only for the
  cases the code reaches (a body that is not JSON, and `.keys()` on a
  list). The position inside a JSON error message is not modelled.
- CookieScrape: a pages reply whose body is an object is not modelled. In
  Python, iterating over it yields its keys.
- CookieScrape: the requests session's cookie domain scoping is not
  modelled. Every request carries the configured cookie.
- CookieScrape.CookieScraper.ScrapeUser: the constant `authenticated: True`
  of the success dictionary is not a field of the result.
- AppScrape.ResultFor: the failure dictionaries' constant `'images': []`
  is not a field of `AppFailed`.
- AppScrape: an `illusts` entry that is not a dictionary is not modelled.
  Login is a flag the API gives (`accepts`), and the illustrations' other
  fields are omitted.
- History.TopArtistsFacts: JavaScript lists integer-like object keys first.
  The model keeps first-seen order, so artists whose names are numerals
  may tie-break differently. It also counts every artist name as a plain
  key, which the source's `{}` does not do for the names of
  Object.prototype's members (see the next lines): for those names the
  counts and the ranking it states hold for the model only.
- History.ArtistEntriesFacts: the source tallies into a plain object
  (src/services/local-storage.ts:188-199). For the artist name
  "__proto__" the read gives Object.prototype, and the assignment of the
  string "[object Object]1" is ignored by the `__proto__` setter. So the
  source never lists that artist, while the model lists it with its count.
  For an inherited method name ("constructor", "toString", "valueOf",
  "hasOwnProperty", "isPrototypeOf", "propertyIsEnumerable",
  "toLocaleString", "__defineGetter__", "__defineSetter__",
  "__lookupGetter__", "__lookupSetter__"), the first read is a function.
  The count then becomes a string such as
  "function Object() { [native code] }1", where the model has a number.
- History.TopArtistsRanked: with such a string count in the list, the
  source's comparator `b.downloads - a.downloads` gives NaN. The order
  `sort` then produces is not determined by the counts, while the model
  sorts by its numeric tallies.
- History.UnlistedRanksLower: `Tally` counts occurrences of a name. For
  the Object.prototype names above it differs from the value the source
  stores, so the ranking stated holds only for histories whose artist
  names are not among them.
- History: a field set to `undefined` in a `Partial` update counts as
  absent.
- History: if the Preferences plugin exists but its write fails, the
  fallback write to localStorage is not modelled.
- History: update, delete, stats and cleanup under the Preferences
  plugin, as written, read the pending Promise. They are modelled in
  their awaited form, as in the finding below. For cleanup the as-written
  result is modelled as well (`CleanupAsWritten`): 0, with nothing
  written.
- History.LocalStorageService.AddDownloadHistory: the source reads
  `Date.now()` twice, once for the id and once for `startTime`. The model
  uses one reading, `now`, for both.
- Pool: the `validationCache` reset on rotation and the `lastCheck`
  timestamp are not modelled.
- Pool.CredentialPool.constructor: when the first configured session is
  empty (PIXIV_PHPSESSID unset, PIXIV_BACKUP_SESSIONS starting with a
  comma), the mobile server's start-up log calls `substring` on the null
  `currentSession` (mobile-backend/server.js:123-125) and the module
  throws while loading, so that server never starts. The model follows
  the lambda (aws-lambda-handler.js:12-34), which has no such log line
  and runs with no current session; `Pool.BlankFirstBackupHasNoCurrent`
  states that state.
- Upstream: both Node servers' axios clients keep the default
  `validateStatus`, so a non-2xx status reaches them only as a thrown
  error with the status attached. Their branches on a `Reply` with status
  429 or another non-200 status (`Catalogue.UserArtworksRun`,
  `Images.Attempt`, `Catalogue.RateLimitedShape` on a reply) and
  `Downloads.DownloadFrom` taking any `Reply` as fetched are reachable
  there only with 2xx statuses; the thrown-error branches are the ones
  those servers take.
- Catalogue.IdValue: `parseInt` returns a double, so it equals the
  model's exact decimal value only below 2^53. Longer ids may compare
  equal in the source's sort and keep their input order where the model
  orders them by exact value.

## Findings

| source | as written | input that shows it | evidently intended | confidence | as-written member | corrected member |
|---|---|---|---|---|---|---|
| src/services/local-storage.ts:37-40 | in the mobile app, `getDownloadHistory` returns the Promise of `getDownloadHistoryCapacitor()` without awaiting it. `addDownloadHistory` then calls `unshift` on that Promise, which throws, and the catch returns '' without saving | any add while `Capacitor.Plugins.Preferences` exists | the Preferences history is read, the new item goes in front, the list is saved, and the new id is returned | not executed | History.AddAsWrittenLosesEntries | History.AddKeepsEntry |
