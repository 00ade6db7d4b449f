/** The app's download history and settings (`LocalStorageService`): a
    newest-first list of downloads kept in the device's key-value storage,
    capped at 1000 entries, with derived statistics, and the user's
    settings merged over the defaults. */
module History {
  import opened Basics

  datatype Status = Processing | Completed | Failed | Cancelled

  /** `DownloadHistoryItem`; the optional fields are `Option`s. */
  datatype Item = Item(
    id: string, url: string, status: Status,
    totalImages: int, downloadedImages: int, failedImages: int,
    startTime: int, endTime: Option<int>, duration: Option<int>,
    userId: string, pixivUserId: Option<string>, artistName: Option<string>,
    thumbnailUrl: Option<string>, errorMessage: Option<string>)

  /** `Partial<DownloadHistoryItem>`: the fields an update sets. */
  datatype Update = Update(
    id: Option<string>, url: Option<string>, status: Option<Status>,
    totalImages: Option<int>, downloadedImages: Option<int>, failedImages: Option<int>,
    startTime: Option<int>, endTime: Option<int>, duration: Option<int>,
    userId: Option<string>, pixivUserId: Option<string>, artistName: Option<string>,
    thumbnailUrl: Option<string>, errorMessage: Option<string>)

  /** What a storage key holds: nothing (or the empty string), text that is
      not a JSON list of items, or a list of items. */
  datatype Stored = Absent | Malformed | Items(items: seq<Item>)

  const MaxHistoryItems: nat := 1000
  /** One day in milliseconds. */
  const OneDay: int := 24 * 60 * 60 * 1000

  function StartTime(i: Item): int { i.startTime }

  /** `history.sort((a, b) => b.startTime - a.startTime)`: newest first,
      entries with the same start keeping their stored order. */
  function Newest(items: seq<Item>): seq<Item> { SortDesc(items, StartTime) }

  /** The history a storage key yields: its items newest first, or nothing
      when the key is empty or does not parse. */
  function Parsed(s: Stored): seq<Item>
  {
    if s.Items? then Newest(s.items) else []
  }

  lemma ParsedFacts(s: Stored)
    ensures SortedDesc(Parsed(s), StartTime)
    ensures s.Items? ==> multiset(Parsed(s)) == multiset(s.items)
    ensures !s.Items? ==> Parsed(s) == []
  {
    if s.Items? {
      SortDescFacts(s.items, StartTime);
    }
  }

  // ---------------------------------------------------------------------
  // Adding

  /** The entry `addDownloadHistory(item)` creates at time `now`: the
      caller's fields, the id `Date.now()` followed by the random `suffix`,
      and `now` as its start. */
  function NewItem(draft: Item, now: nat, suffix: string): Item
  {
    draft.(id := Decimal(now) + suffix, startTime := now)
  }

  /** `unshift` then `splice(1000)`. */
  function Added(history: seq<Item>, item: Item): seq<Item>
  {
    PrefixTo([item] + history, MaxHistoryItems)
  }

  /** The new entry comes first, followed by the newest 999 older ones. */
  lemma AddedFacts(history: seq<Item>, item: Item)
    ensures var r := Added(history, item);
      && |r| == Min(|history| + 1, MaxHistoryItems)
      && r[0] == item
      && r[1..] == history[..|r| - 1]
  {
    PrefixToIsPrefix([item] + history, MaxHistoryItems);
    var r := Added(history, item);
    assert r[1..] == ([item] + history)[1..|r|];
  }

  /** When the new entry is the newest, reading the history back gives the
      list as it was written. */
  lemma AddedReadsBack(history: seq<Item>, item: Item)
    requires SortedDesc(history, StartTime)
    requires forall k :: 0 <= k < |history| ==> history[k].startTime <= item.startTime
    ensures Newest(Added(history, item)) == Added(history, item)
  {
    var l := [item] + history;
    assert SortedDesc(l, StartTime) by {
      forall i, j | 0 <= i < j < |l| ensures l[i].startTime >= l[j].startTime {
        assert l[j] == history[j - 1];
        if i > 0 {
          assert l[i] == history[i - 1];
        }
      }
    }
    PrefixToIsPrefix(l, MaxHistoryItems);
    var r := Added(history, item);
    assert SortedDesc(r, StartTime) by {
      forall i, j | 0 <= i < j < |r| ensures r[i].startTime >= r[j].startTime {
        assert r[i] == l[i] && r[j] == l[j];
      }
    }
    SortDescOfSorted(r, StartTime);
  }

  // ---------------------------------------------------------------------
  // Updating

  function Over<T>(o: Option<T>, v: T): T { if o.Some? then o.value else v }
  function OverOpt<T>(o: Option<T>, v: Option<T>): Option<T> { if o.Some? then o else v }

  /** `{ ...item, ...updates }`. */
  function Merge(i: Item, u: Update): Item
  {
    Item(Over(u.id, i.id), Over(u.url, i.url), Over(u.status, i.status),
         Over(u.totalImages, i.totalImages), Over(u.downloadedImages, i.downloadedImages),
         Over(u.failedImages, i.failedImages), Over(u.startTime, i.startTime),
         OverOpt(u.endTime, i.endTime), OverOpt(u.duration, i.duration),
         Over(u.userId, i.userId), OverOpt(u.pixivUserId, i.pixivUserId),
         OverOpt(u.artistName, i.artistName), OverOpt(u.thumbnailUrl, i.thumbnailUrl),
         OverOpt(u.errorMessage, i.errorMessage))
  }

  predicate Ends(u: Update) { u.status == Some(Completed) || u.status == Some(Failed) }

  /** The merged entry; an update to completed or failed also stamps the
      end time `now` and the duration since the (merged) start. */
  function Finished(i: Item, u: Update, now: int): Item
  {
    var m := Merge(i, u);
    if Ends(u) then m.(endTime := Some(now), duration := Some(now - m.startTime)) else m
  }

  /** Merging sets exactly the fields the update carries; an ending update
      records when it ended and how long the download took. */
  lemma FinishedFacts(i: Item, u: Update, now: int)
    ensures var f := Finished(i, u, now);
      && (u.status.Some? ==> f.status == u.status.value) && (u.status.None? ==> f.status == i.status)
      && (u.id.Some? ==> f.id == u.id.value) && (u.id.None? ==> f.id == i.id)
      && f.startTime == Over(u.startTime, i.startTime)
      && f.downloadedImages == Over(u.downloadedImages, i.downloadedImages)
      && (Ends(u) ==> f.endTime == Some(now) && f.duration == Some(now - f.startTime))
      && (!Ends(u) ==> f.endTime == OverOpt(u.endTime, i.endTime) && f.duration == OverOpt(u.duration, i.duration))
      && f.artistName == OverOpt(u.artistName, i.artistName)
  {
  }

  /** `history.findIndex(item => item.id === id)`. */
  function FindIndex(h: seq<Item>, id: string): (r: Option<nat>)
    ensures r.Some? ==> r.value < |h| && h[r.value].id == id && forall k :: 0 <= k < r.value ==> h[k].id != id
    ensures r.None? ==> forall k :: 0 <= k < |h| ==> h[k].id != id
  {
    if h == [] then None
    else if h[0].id == id then Some(0)
    else match FindIndex(h[1..], id)
      case None => None
      case Some(k) => Some(k + 1)
  }

  /** The list `updateDownloadHistory(id, updates)` writes back, or nothing
      when no entry has the id (then nothing is written). */
  function Updated(h: seq<Item>, id: string, u: Update, now: int): Option<seq<Item>>
  {
    match FindIndex(h, id)
    case None => None
    case Some(k) => Some(h[k := Finished(h[k], u, now)])
  }

  /** Only the first entry with the id changes, and it becomes the merged
      entry; an absent id writes nothing. */
  lemma UpdatedFacts(h: seq<Item>, id: string, u: Update, now: int)
    ensures Updated(h, id, u, now).None? <==> forall k :: 0 <= k < |h| ==> h[k].id != id
    ensures Updated(h, id, u, now).Some? ==>
      var r := Updated(h, id, u, now).value;
      exists k :: 0 <= k < |h| && h[k].id == id && (forall j :: 0 <= j < k ==> h[j].id != id)
        && r == h[k := Finished(h[k], u, now)]
  {
  }

  // ---------------------------------------------------------------------
  // Deleting and cleaning up

  /** `history.filter(item => item.id !== id)`. */
  function Without(h: seq<Item>, id: string): seq<Item>
  {
    Filter(h, (x: Item) => x.id != id)
  }

  lemma WithoutFacts(h: seq<Item>, id: string)
    ensures forall x :: x in Without(h, id) <==> x in h && x.id != id
    ensures |Without(h, id)| <= |h|
  {
    FilterFacts(h, (x: Item) => x.id != id);
  }

  /** Deleting twice is deleting once. */
  lemma WithoutIdempotent(h: seq<Item>, id: string)
    ensures Without(Without(h, id), id) == Without(h, id)
  {
    FilterTwice(h, (x: Item) => x.id != id);
  }

  /** `history.filter(item => item.startTime > cutoff)`. */
  function Recent(h: seq<Item>, cutoff: int): seq<Item>
  {
    Filter(h, (x: Item) => x.startTime > cutoff)
  }

  /** `Date.now() - days * 24 * 60 * 60 * 1000`. */
  function Cutoff(now: int, days: int): int { now - days * OneDay }

  /** The kept entries are exactly those started after the cutoff, in
      their order; the number removed is the number started at or before
      it. */
  lemma RecentFacts(h: seq<Item>, cutoff: int)
    ensures forall x :: x in Recent(h, cutoff) <==> x in h && x.startTime > cutoff
    ensures |h| - |Recent(h, cutoff)| == |Filter(h, (x: Item) => x.startTime <= cutoff)|
  {
    FilterFacts(h, (x: Item) => x.startTime > cutoff);
    FilterSplit(h, (x: Item) => x.startTime > cutoff, (x: Item) => x.startTime <= cutoff);
  }

  // ---------------------------------------------------------------------
  // Statistics

  datatype ArtistCount = ArtistCount(artist: string, downloads: nat)

  datatype Stats = Stats(
    total: nat, completed: nat, failed: nat, totalImages: int,
    today: nat, thisWeek: nat, thisMonth: nat, averageDuration: int, topArtists: seq<ArtistCount>)

  function Downloaded(i: Item): int { i.downloadedImages }

  /** `Math.round(total / n)` for a positive `n`: the nearest integer,
      halves rounded up. */
  function RoundDiv(total: int, n: int): int
    requires n > 0
  {
    (2 * total + n) / (2 * n)
  }

  lemma RoundDivFacts(total: int, n: int)
    requires n > 0
    ensures 2 * n * RoundDiv(total, n) <= 2 * total + n < 2 * n * RoundDiv(total, n) + 2 * n
  {
    var q := RoundDiv(total, n);
    var r := (2 * total + n) % (2 * n);
    assert 2 * total + n == 2 * n * q + r;
  }

  predicate TruthyDuration(i: Item) { i.duration.Some? && i.duration.value != 0 }

  function DurationOf(i: Item): int { if i.duration.Some? then i.duration.value else 0 }

  /** The completed entries with a (non-zero) duration. */
  function Timed(h: seq<Item>): seq<Item>
  {
    Filter(h, (x: Item) => x.status == Completed && TruthyDuration(x))
  }

  /** `calculateAverageDuration(history)`. */
  function AverageDuration(h: seq<Item>): int
  {
    var c := Timed(h);
    if c == [] then 0 else RoundDiv(Sum(c, DurationOf), |c|)
  }

  /** 0 when no completed entry has a duration; otherwise the mean of their
      durations rounded to the nearest integer. */
  lemma AverageDurationFacts(h: seq<Item>)
    ensures (forall x :: x in h ==> !(x.status == Completed && TruthyDuration(x))) ==> AverageDuration(h) == 0
    ensures Timed(h) != [] ==>
      var n := |Timed(h)|;
      2 * n * AverageDuration(h) <= 2 * Sum(Timed(h), DurationOf) + n < 2 * n * AverageDuration(h) + 2 * n
  {
    FilterFacts(h, (x: Item) => x.status == Completed && TruthyDuration(x));
    if Timed(h) != [] {
      assert Timed(h)[0] in Timed(h);
      RoundDivFacts(Sum(Timed(h), DurationOf), |Timed(h)|);
    } else {
      assert AverageDuration(h) == 0;
    }
  }

  predicate HasArtist(i: Item) { i.artistName.Some? && i.artistName.value != "" }

  /** The artist names of the entries that have one, in order. */
  function ArtistNames(h: seq<Item>): (r: seq<string>)
    ensures forall a :: a in r <==> exists x :: x in h && HasArtist(x) && x.artistName.value == a
  {
    if h == [] then []
    else (if HasArtist(h[0]) then [h[0].artistName.value] else []) + ArtistNames(h[1..])
  }

  function Tally(h: seq<Item>, artist: string): nat
  {
    |Filter(h, (x: Item) => x.artistName == Some(artist))|
  }

  /** The sort key of `getTopArtists`. */
  function DownloadCount(e: ArtistCount): int { e.downloads }

  /** `Object.entries(artistCounts)`: one entry per artist, in the order
      the artists first appear. */
  function ArtistEntries(h: seq<Item>): (r: seq<ArtistCount>)
    ensures |r| == |Dedup(ArtistNames(h))|
  {
    var names := Dedup(ArtistNames(h));
    seq(|names|, k requires 0 <= k < |names| => ArtistCount(names[k], Tally(h, names[k])))
  }

  const MaxTopArtists: nat := 5

  /** `getTopArtists(history)`. */
  function TopArtists(h: seq<Item>): seq<ArtistCount>
  {
    PrefixTo(SortDesc(ArtistEntries(h), DownloadCount), MaxTopArtists)
  }

  /** Each entry counts one artist named in the history, exactly. */
  lemma ArtistEntriesFacts(h: seq<Item>)
    ensures forall e :: e in ArtistEntries(h) ==> e.downloads == Tally(h, e.artist) && e.artist in ArtistNames(h)
  {
    var names := Dedup(ArtistNames(h));
    DedupFacts(ArtistNames(h));
    forall e | e in ArtistEntries(h) ensures e.downloads == Tally(h, e.artist) && e.artist in ArtistNames(h) {
      var k :| 0 <= k < |names| && ArtistEntries(h)[k] == e;
      assert names[k] in names;
    }
  }

  /** The artists an entry list names, in order. */
  function Artists(t: seq<ArtistCount>): (r: seq<string>)
    ensures |r| == |t| && forall i :: 0 <= i < |t| ==> r[i] == t[i].artist
  {
    seq(|t|, i requires 0 <= i < |t| => t[i].artist)
  }

  /** At most five artists, most downloads first, no artist twice; each
      named by some entry and counted exactly; no artist left out has more
      downloads than one listed; when fewer than six artists appear all
      are listed. */
  lemma TopArtistsFacts(h: seq<Item>)
    ensures var t := TopArtists(h);
      && |t| == Min(|Dedup(ArtistNames(h))|, MaxTopArtists)
      && SortedDesc(t, DownloadCount)
      && NoDuplicates(Artists(t))
      && (forall e :: e in t ==> e.downloads == Tally(h, e.artist) && e.artist in ArtistNames(h))
      && forall a, e :: a in ArtistNames(h) && a !in Artists(t) && e in t ==> Tally(h, a) <= e.downloads
  {
    var entries := ArtistEntries(h);
    var sorted := SortDesc(entries, DownloadCount);
    var t := TopArtists(h);
    SortDescFacts(entries, DownloadCount);
    PrefixToIsPrefix(sorted, MaxTopArtists);
    SortedPrefix(sorted, |t|, DownloadCount);
    ArtistEntriesFacts(h);
    forall e | e in t ensures e.downloads == Tally(h, e.artist) && e.artist in ArtistNames(h) {
      assert e in multiset(sorted);
    }
    TopArtistsRanked(h);
  }

  /** The top artists are distinct, and an artist left out has no more
      downloads than any listed one. */
  lemma TopArtistsRanked(h: seq<Item>)
    ensures var t := TopArtists(h);
      && NoDuplicates(Artists(t))
      && forall a, e :: a in ArtistNames(h) && a !in Artists(t) && e in t ==> Tally(h, a) <= e.downloads
  {
    var sorted := SortDesc(ArtistEntries(h), DownloadCount);
    var t := TopArtists(h);
    PrefixToIsPrefix(sorted, MaxTopArtists);
    SortedArtistsDistinct(h);
    assert Artists(t) == Artists(sorted)[..|t|];
    forall a, e | a in ArtistNames(h) && a !in Artists(t) && e in t
      ensures Tally(h, a) <= e.downloads
    {
      UnlistedRanksLower(h, a, |t|);
    }
  }

  /** Sorting the entries keeps one entry per artist. */
  lemma SortedArtistsDistinct(h: seq<Item>)
    ensures NoDuplicates(Artists(SortDesc(ArtistEntries(h), DownloadCount)))
  {
    var entries := ArtistEntries(h);
    var sorted := SortDesc(entries, DownloadCount);
    DedupFacts(ArtistNames(h));
    SortDescFacts(entries, DownloadCount);
    PermutationDistinct(entries, sorted);
    ArtistEntriesFacts(h);
    forall i, j | 0 <= i < j < |sorted|
      ensures sorted[i].artist != sorted[j].artist
    {
      assert sorted[i] in multiset(entries) && sorted[j] in multiset(entries);
    }
  }

  /** An artist of the history that is not among the first `n` sorted
      entries has no more downloads than any of them. */
  lemma UnlistedRanksLower(h: seq<Item>, a: string, n: nat)
    requires a in ArtistNames(h)
    requires var sorted := SortDesc(ArtistEntries(h), DownloadCount);
      n <= |sorted| && a !in Artists(sorted[..n])
    ensures var sorted := SortDesc(ArtistEntries(h), DownloadCount);
      forall i :: 0 <= i < n ==> Tally(h, a) <= sorted[i].downloads
  {
    var sorted := SortDesc(ArtistEntries(h), DownloadCount);
    SortDescFacts(ArtistEntries(h), DownloadCount);
    SortedEntryOf(h, a);
    BelowPrefix(sorted, ArtistCount(a, Tally(h, a)), n);
  }

  /** Every artist of the history has its entry, with its exact count, in
      the sorted list. */
  lemma SortedEntryOf(h: seq<Item>, a: string)
    requires a in ArtistNames(h)
    ensures ArtistCount(a, Tally(h, a)) in SortDesc(ArtistEntries(h), DownloadCount)
  {
    var entries := ArtistEntries(h);
    var names := Dedup(ArtistNames(h));
    DedupFacts(ArtistNames(h));
    SortDescFacts(entries, DownloadCount);
    var k :| 0 <= k < |names| && names[k] == a;
    assert entries[k] in multiset(SortDesc(entries, DownloadCount));
  }

  /** In a list sorted by downloads, an entry whose artist is not among the
      first `n` has no more downloads than any of them. */
  lemma BelowPrefix(s: seq<ArtistCount>, x: ArtistCount, n: nat)
    requires SortedDesc(s, DownloadCount) && x in s && n <= |s| && x.artist !in Artists(s[..n])
    ensures forall i :: 0 <= i < n ==> x.downloads <= s[i].downloads
  {
    var m :| 0 <= m < |s| && s[m] == x;
    forall i | 0 <= i < n
      ensures s[i].artist != x.artist
    {
      assert Artists(s[..n])[i] == s[i].artist;
    }
  }


  /** `getDownloadStats()` on the history `h` at time `now`. */
  function StatsOf(h: seq<Item>, now: int): Stats
  {
    Stats(|h|,
          |Filter(h, (x: Item) => x.status == Completed)|,
          |Filter(h, (x: Item) => x.status == Failed)|,
          Sum(h, Downloaded),
          |Filter(h, (x: Item) => now - x.startTime < OneDay)|,
          |Filter(h, (x: Item) => now - x.startTime < 7 * OneDay)|,
          |Filter(h, (x: Item) => now - x.startTime < 30 * OneDay)|,
          AverageDuration(h),
          TopArtists(h))
  }

  /** Completed and failed downloads are counted apart and never outnumber
      the history; a day's downloads are within the week's, the week's
      within the month's, the month's within the total. */
  lemma StatsFacts(h: seq<Item>, now: int)
    ensures var s := StatsOf(h, now);
      && s.completed + s.failed <= s.total
      && s.today <= s.thisWeek <= s.thisMonth <= s.total
      && s.totalImages == Sum(h, Downloaded)
      && |s.topArtists| <= MaxTopArtists
  {
    FilterDisjoint(h, (x: Item) => x.status == Completed, (x: Item) => x.status == Failed);
    FilterMonotone(h, (x: Item) => now - x.startTime < OneDay, (x: Item) => now - x.startTime < 7 * OneDay);
    FilterMonotone(h, (x: Item) => now - x.startTime < 7 * OneDay, (x: Item) => now - x.startTime < 30 * OneDay);
    FilterFacts(h, (x: Item) => now - x.startTime < 30 * OneDay);
    TopArtistsFacts(h);
  }

  // ---------------------------------------------------------------------
  // Settings

  datatype Theme = Light | Dark | System
  datatype Quality = Original | Large | Medium

  /** `AppSettings`. */
  datatype Settings = Settings(
    theme: Theme, downloadQuality: Quality, maxConcurrentDownloads: int,
    autoDeleteAfterDays: int, pixivSessionId: Option<string>)

  /** `Partial<AppSettings>`. */
  datatype SettingsPatch = SettingsPatch(
    theme: Option<Theme>, downloadQuality: Option<Quality>, maxConcurrentDownloads: Option<int>,
    autoDeleteAfterDays: Option<int>, pixivSessionId: Option<string>)

  /** What the settings key holds. */
  datatype StoredSettings = NoSettings | BadSettings | SavedSettings(patch: SettingsPatch)

  const DefaultSettings := Settings(Dark, Original, 3, 30, None)

  /** `{ ...s, ...p }`. */
  function Patch(s: Settings, p: SettingsPatch): Settings
  {
    Settings(Over(p.theme, s.theme), Over(p.downloadQuality, s.downloadQuality),
             Over(p.maxConcurrentDownloads, s.maxConcurrentDownloads),
             Over(p.autoDeleteAfterDays, s.autoDeleteAfterDays), OverOpt(p.pixivSessionId, s.pixivSessionId))
  }

  /** The settings as written out: every field present (an absent session
      id is left out). */
  function Full(s: Settings): SettingsPatch
  {
    SettingsPatch(Some(s.theme), Some(s.downloadQuality), Some(s.maxConcurrentDownloads),
                  Some(s.autoDeleteAfterDays), s.pixivSessionId)
  }

  /** `getSettings()`: the stored fields over the defaults, or the
      defaults when nothing usable is stored. */
  function ReadSettings(st: StoredSettings): Settings
  {
    if st.SavedSettings? then Patch(DefaultSettings, st.patch) else DefaultSettings
  }

  /** Patching twice with the same fields changes nothing more, and the
      settings written out read back as they were. */
  lemma PatchFacts(s: Settings, p: SettingsPatch)
    ensures Patch(Patch(s, p), p) == Patch(s, p)
    ensures ReadSettings(SavedSettings(Full(s))) == s
    ensures p == SettingsPatch(None, None, None, None, None) ==> Patch(s, p) == s
  {
  }

  // ---------------------------------------------------------------------
  // The service

  /** `LocalStorageService` over the two stores it can use: the browser's
      `localStorage` and, in the mobile shell, the Capacitor Preferences
      plugin (`preferences`). */
  class LocalStorageService {
    /** Whether the Capacitor Preferences plugin is present. */
    const preferences: bool
    /** `localStorage['pixivloader_download_history']`. */
    var local: Stored
    /** The Preferences entry 'pixivloader_download_history'. */
    var prefs: Stored
    /** `localStorage['pixivloader_settings']`. */
    var settings: StoredSettings

    constructor (preferences: bool, local: Stored, prefs: Stored, settings: StoredSettings)
      ensures this.preferences == preferences && this.local == local && this.prefs == prefs
      ensures this.settings == settings
    {
      this.preferences := preferences;
      this.local := local;
      this.prefs := prefs;
      this.settings := settings;
    }

    /** The store `getDownloadHistory` reads. */
    function Store(): Stored
      reads this
    {
      if preferences then prefs else local
    }

    /** `getDownloadHistory()`, with the Preferences read awaited. */
    function History(): (h: seq<Item>)
      reads this
      ensures SortedDesc(h, StartTime)
      ensures Store().Items? ==> multiset(h) == multiset(Store().items)
      ensures !Store().Items? ==> h == []
    {
      ParsedFacts(Store());
      Parsed(Store())
    }

    /** `addDownloadHistory(item)` at time `now` with the random id suffix
        `suffix`: the new entry goes in front of the history, which is cut
        to 1000 entries and written back to the store it came from. */
    method AddDownloadHistory(draft: Item, now: nat, suffix: string) returns (id: string)
      modifies this
      ensures id == Decimal(now) + suffix && id != ""
      ensures var h := Added(old(History()), NewItem(draft, now, suffix));
        if preferences then prefs == Items(h) && local == old(local) else local == Items(h) && prefs == old(prefs)
      ensures settings == old(settings)
    {
      var history := History();
      var item := NewItem(draft, now, suffix);
      var updated := Added(history, item);
      if preferences {
        prefs := Items(updated);
      } else {
        local := Items(updated);
      }
      id := item.id;
    }

    /** `updateDownloadHistory(id, updates)` at time `now`. */
    method UpdateDownloadHistory(id: string, u: Update, now: int)
      modifies this
      ensures match Updated(old(History()), id, u, now)
        case None => local == old(local) && prefs == old(prefs)
        case Some(h) =>
          if preferences then prefs == Items(h) && local == old(local) else local == Items(h) && prefs == old(prefs)
      ensures settings == old(settings)
    {
      var history := History();
      var index := FindIndex(history, id);
      if index.Some? {
        var k := index.value;
        var updated := history[k := Finished(history[k], u, now)];
        if preferences {
          prefs := Items(updated);
        } else {
          local := Items(updated);
        }
      }
    }

    /** `deleteDownloadHistory(id)`: the rest of the history, written to
        `localStorage`. */
    method DeleteDownloadHistory(id: string)
      modifies this
      ensures local == Items(Without(old(History()), id))
      ensures prefs == old(prefs) && settings == old(settings)
    {
      local := Items(Without(History(), id));
    }

    /** `clearDownloadHistory()`. */
    method ClearDownloadHistory()
      modifies this
      ensures local == Absent && prefs == old(prefs) && settings == old(settings)
    {
      local := Absent;
    }

    /** `getDownloadStats()` at time `now`. */
    function DownloadStats(now: int): (s: Stats)
      reads this
      ensures s.completed + s.failed <= s.total == |History()|
      ensures s.today <= s.thisWeek <= s.thisMonth <= s.total
    {
      StatsFacts(History(), now);
      StatsOf(History(), now)
    }

    /** `cleanupOldHistory(days)` at time `now`: the entries started after
        the cutoff are kept (written only when some were removed) and the
        number removed is returned. */
    method CleanupOldHistory(days: int, now: int) returns (deleted: nat)
      modifies this
      ensures deleted == |Filter(old(History()), (x: Item) => x.startTime <= Cutoff(now, days))|
      ensures deleted > 0 ==> local == Items(Recent(old(History()), Cutoff(now, days)))
      ensures deleted == 0 ==> local == old(local)
      ensures prefs == old(prefs) && settings == old(settings)
    {
      var history := History();
      var filtered := Recent(history, Cutoff(now, days));
      RecentFacts(history, Cutoff(now, days));
      deleted := |history| - |filtered|;
      if deleted > 0 {
        local := Items(filtered);
      }
    }

    /** `getSettings()`. */
    function GetSettings(): Settings
      reads this
    {
      ReadSettings(settings)
    }

    /** `updateSettings(updates)`: the current settings with the updates
        over them, written out in full. */
    method UpdateSettings(p: SettingsPatch)
      modifies this
      ensures settings == SavedSettings(Full(Patch(old(GetSettings()), p)))
      ensures GetSettings() == Patch(old(GetSettings()), p)
      ensures local == old(local) && prefs == old(prefs)
    {
      var updated := Patch(GetSettings(), p);
      settings := SavedSettings(Full(updated));
      PatchFacts(updated, p);
    }
  }

  // ---------------------------------------------------------------------
  // The history read as written

  /** What `getDownloadHistory()` returns as written: a list, or, when the
      Preferences plugin is present, the pending Promise of
      `getDownloadHistoryCapacitor()`, which is returned without `await`. */
  datatype Read = Loaded(items: seq<Item>) | Pending

  function ReadAsWritten(preferences: bool, local: Stored): Read
  {
    if preferences then Pending else Loaded(Parsed(local))
  }

  /** `addDownloadHistory` as written: the id returned and the two stores
      after it. On a Promise `history.unshift` throws, and the catch block
      returns '' without writing. */
  function AddAsWritten(preferences: bool, local: Stored, prefs: Stored, draft: Item, now: nat, suffix: string)
    : (string, Stored, Stored)
  {
    match ReadAsWritten(preferences, local)
    case Pending => ("", local, prefs)
    case Loaded(h) => (Decimal(now) + suffix, Items(Added(h, NewItem(draft, now, suffix))), prefs)
  }

  /** With the Preferences plugin present, every add as written is lost:
      it returns the empty id and stores nothing, whatever the stores
      hold. */
  lemma AddAsWrittenLosesEntries(local: Stored, prefs: Stored, draft: Item, now: nat, suffix: string)
    ensures AddAsWritten(true, local, prefs, draft, now, suffix) == ("", local, prefs)
  {
  }

  /** `cleanupOldHistory(days)` as written: the count returned and the
      `localStorage` history after it. On a Promise `history.filter`
      throws, and the catch block returns 0 without writing. */
  function CleanupAsWritten(preferences: bool, local: Stored, days: int, now: int): (nat, Stored)
  {
    match ReadAsWritten(preferences, local)
    case Pending => (0, local)
    case Loaded(h) =>
      var filtered := Recent(h, Cutoff(now, days));
      if |filtered| < |h| then (|h| - |filtered|, Items(filtered)) else (0, local)
  }

  /** With the Preferences plugin present, cleanup as written removes
      nothing and reports 0, whatever the stores hold. */
  lemma CleanupAsWrittenRemovesNothing(local: Stored, days: int, now: int)
    ensures CleanupAsWritten(true, local, days, now) == (0, local)
  {
  }

  /** Without the plugin, cleanup as written counts the entries at or
      before the cutoff and keeps the later ones, as the awaited service
      does. */
  lemma CleanupAsWrittenWithoutPreferences(local: Stored, days: int, now: int)
    ensures var h, c := Parsed(local), Cutoff(now, days);
      var r := CleanupAsWritten(false, local, days, now);
      && r.0 == |Filter(h, (x: Item) => x.startTime <= c)|
      && (r.0 > 0 ==> r.1 == Items(Recent(h, c)))
      && (r.0 == 0 ==> r.1 == local)
  {
    RecentFacts(Parsed(local), Cutoff(now, days));
  }

  /** The corrected service keeps the entry: it is first in the history
      read back when it is the newest, and its id is never empty. */
  lemma AddKeepsEntry(history: seq<Item>, draft: Item, now: nat, suffix: string)
    requires SortedDesc(history, StartTime)
    requires forall k :: 0 <= k < |history| ==> history[k].startTime <= now
    ensures Parsed(Items(Added(history, NewItem(draft, now, suffix))))[0] == NewItem(draft, now, suffix)
    ensures Decimal(now) + suffix != ""
  {
    AddedReadsBack(history, NewItem(draft, now, suffix));
    AddedFacts(history, NewItem(draft, now, suffix));
  }
}
