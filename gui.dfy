/** The decision logic of the desktop window (`redditcommunityGUI.py`): the
    subreddit search (filter, ranking, list entries), reading a selected
    entry back into a subreddit name and its cache file, and the routing of
    the download button. Reddit's search, the message boxes and the gallery
    download are inputs; the window's list, cache files and log are fields. */
module Gui {
  import opened Wrappers
  import opened Text
  import opened Paths
  import opened Utils
  import opened SubredditPass

  // ---------------------------------------------------------------------------
  // Search records and the filter

  /** The three entries of the search-type box. */
  datatype SearchMode = ByKeyword | ByName | EromeUrl

  /** What Reddit's search yields per subreddit; `subscribers` may be missing. */
  datatype SubredditRecord = SubredditRecord(displayName: string, title: string, subscribers: Option<nat>, over18: bool)

  /** One kept search result, the tuple `(name, title, subs, over18)`. */
  datatype SearchResult = SearchResult(name: string, title: string, subscribers: nat, over18: bool)

  /** The tests a record must pass to be listed. */
  predicate Keeps(mode: SearchMode, keyword: string, allowSfw: bool, allowNsfw: bool, rec: SubredditRecord) {
    && rec.subscribers.Some?
    && Admits(rec.over18, allowSfw, allowNsfw)
    && (mode == ByName ==> Contains(Lower(rec.displayName), keyword))
  }

  function ResultOf(rec: SubredditRecord): SearchResult
    requires rec.subscribers.Some?
  {
    SearchResult(rec.displayName, rec.title, rec.subscribers.value, rec.over18)
  }

  /** The records that pass, in search order, as result tuples. */
  function Kept(records: seq<SubredditRecord>, mode: SearchMode, keyword: string, allowSfw: bool, allowNsfw: bool): (r: seq<SearchResult>)
    ensures |r| <= |records|
    ensures forall x :: x in r ==> Admits(x.over18, allowSfw, allowNsfw)
    ensures forall x :: x in r ==> mode == ByName ==> Contains(Lower(x.name), keyword)
    ensures forall rec :: rec in records && Keeps(mode, keyword, allowSfw, allowNsfw, rec) ==> ResultOf(rec) in r
    ensures forall x :: x in r ==> exists rec :: rec in records && Keeps(mode, keyword, allowSfw, allowNsfw, rec) && x == ResultOf(rec)
    decreases |records|
  {
    if records == [] then []
    else
      var rest := Kept(records[..|records| - 1], mode, keyword, allowSfw, allowNsfw);
      var rec := records[|records| - 1];
      assert forall q :: q in records[..|records| - 1] ==> q in records;
      assert records == records[..|records| - 1] + [rec];
      if Keeps(mode, keyword, allowSfw, allowNsfw, rec) then rest + [ResultOf(rec)] else rest
  }

  /** A single record yields its result exactly when it passes. */
  lemma KeptOne(rec: SubredditRecord, mode: SearchMode, keyword: string, allowSfw: bool, allowNsfw: bool)
    ensures Kept([rec], mode, keyword, allowSfw, allowNsfw)
            == if Keeps(mode, keyword, allowSfw, allowNsfw, rec) then [ResultOf(rec)] else []
  {
  }

  /** One more record adds its result, when it passes, at the end. */
  lemma KeptSnoc(xs: seq<SubredditRecord>, rec: SubredditRecord,
                 mode: SearchMode, keyword: string, allowSfw: bool, allowNsfw: bool)
    ensures Kept(xs + [rec], mode, keyword, allowSfw, allowNsfw)
            == Kept(xs, mode, keyword, allowSfw, allowNsfw) + Kept([rec], mode, keyword, allowSfw, allowNsfw)
  {
    assert (xs + [rec])[..|xs + [rec]| - 1] == xs;
    assert [rec][..0] == [];
  }

  /** The filter works record by record: the results of a longer search
      follow those of its beginning, so search order and repeats are kept. */
  lemma {:induction false} KeptAppend(a: seq<SubredditRecord>, b: seq<SubredditRecord>,
                                      mode: SearchMode, keyword: string, allowSfw: bool, allowNsfw: bool)
    ensures Kept(a + b, mode, keyword, allowSfw, allowNsfw)
            == Kept(a, mode, keyword, allowSfw, allowNsfw) + Kept(b, mode, keyword, allowSfw, allowNsfw)
    decreases |b|
  {
    if b == [] {
      assert a + b == a;
    } else {
      var front, last := b[..|b| - 1], b[|b| - 1];
      var one := Kept([last], mode, keyword, allowSfw, allowNsfw);
      assert b == front + [last];
      assert a + b == (a + front) + [last];
      assert Kept(a + b, mode, keyword, allowSfw, allowNsfw)
             == Kept(a + front, mode, keyword, allowSfw, allowNsfw) + one by {
        KeptSnoc(a + front, last, mode, keyword, allowSfw, allowNsfw);
      }
      assert Kept(b, mode, keyword, allowSfw, allowNsfw)
             == Kept(front, mode, keyword, allowSfw, allowNsfw) + one by {
        KeptSnoc(front, last, mode, keyword, allowSfw, allowNsfw);
      }
      KeptAppend(a, front, mode, keyword, allowSfw, allowNsfw);
      ConcatAssoc(Kept(a, mode, keyword, allowSfw, allowNsfw), Kept(front, mode, keyword, allowSfw, allowNsfw), one);
    }
  }

  // ---------------------------------------------------------------------------
  // Ranking: `results.sort(key=subscribers, reverse=True)`, which is stable

  predicate SortedDesc(xs: seq<SearchResult>) {
    forall i, j :: 0 <= i < j < |xs| ==> xs[i].subscribers >= xs[j].subscribers
  }

  /** Puts `x`, which came before every element of `s`, in front of the
      first element of `s` whose count does not exceed its own. */
  function Insert(x: SearchResult, s: seq<SearchResult>): (r: seq<SearchResult>)
    ensures multiset(r) == multiset(s) + multiset{x}
    decreases |s|
  {
    if s == [] || s[0].subscribers <= x.subscribers then [x] + s
    else
      assert s == [s[0]] + s[1..];
      [s[0]] + Insert(x, s[1..])
  }

  /** A count no smaller than every count of a ranked list can head it. */
  lemma SortedCons(h: SearchResult, t: seq<SearchResult>)
    requires SortedDesc(t)
    requires forall y :: y in t ==> y.subscribers <= h.subscribers
    ensures SortedDesc([h] + t)
  {
    var r := [h] + t;
    forall i, j | 0 <= i < j < |r| ensures r[i].subscribers >= r[j].subscribers {
      if i > 0 {
        assert r[i] == t[i - 1] && r[j] == t[j - 1];
      } else {
        assert r[j] in t;
      }
    }
  }

  lemma {:induction false} InsertSorted(x: SearchResult, s: seq<SearchResult>)
    requires SortedDesc(s)
    ensures SortedDesc(Insert(x, s))
    decreases |s|
  {
    if s != [] && s[0].subscribers > x.subscribers {
      var t := Insert(x, s[1..]);
      assert SortedDesc(t) by {
        InsertSorted(x, s[1..]);
      }
      assert forall y :: y in t ==> y.subscribers <= s[0].subscribers by {
        forall y | y in t ensures y.subscribers <= s[0].subscribers {
          assert y in multiset(t);
          if y != x {
            assert y in multiset(s[1..]);
            var j :| 0 <= j < |s[1..]| && s[1..][j] == y;
            assert s[j + 1] == y;
          }
        }
      }
      SortedCons(s[0], t);
    }
  }

  /** The ranking of the kept results: most subscribers first, ties in
      search order. */
  function Ranking(xs: seq<SearchResult>): (r: seq<SearchResult>)
    ensures SortedDesc(r)
    ensures multiset(r) == multiset(xs)
    decreases |xs|
  {
    if xs == [] then []
    else
      assert xs == [xs[0]] + xs[1..];
      InsertSorted(xs[0], Ranking(xs[1..]));
      Insert(xs[0], Ranking(xs[1..]))
  }

  /** Every listed result passed the filter: it came from the search, its
      subscriber count was present, it is admitted by the SFW/NSFW flags and,
      in name mode, its name contains the keyword. */
  lemma RankedResultsQualify(records: seq<SubredditRecord>, mode: SearchMode, keyword: string,
                             allowSfw: bool, allowNsfw: bool, x: SearchResult)
    requires x in Ranking(Kept(records, mode, keyword, allowSfw, allowNsfw))
    ensures exists rec :: rec in records && Keeps(mode, keyword, allowSfw, allowNsfw, rec) && x == ResultOf(rec)
    ensures Admits(x.over18, allowSfw, allowNsfw)
    ensures mode == ByName ==> Contains(Lower(x.name), keyword)
  {
    var kept := Kept(records, mode, keyword, allowSfw, allowNsfw);
    assert x in multiset(Ranking(kept));
    assert x in kept;
  }

  /** The results having `k` subscribers, in order. */
  function WithCount(xs: seq<SearchResult>, k: nat): seq<SearchResult>
    decreases |xs|
  {
    if xs == [] then [] else (if xs[0].subscribers == k then [xs[0]] else []) + WithCount(xs[1..], k)
  }

  lemma {:induction false} InsertStable(x: SearchResult, s: seq<SearchResult>, k: nat)
    requires SortedDesc(s)
    ensures WithCount(Insert(x, s), k) == WithCount([x] + s, k)
    decreases |s|
  {
    if s != [] && s[0].subscribers > x.subscribers {
      var t := Insert(x, s[1..]);
      var hx := if x.subscribers == k then [x] else [];
      var h0 := if s[0].subscribers == k then [s[0]] else [];
      var w := WithCount(s[1..], k);
      assert WithCount(Insert(x, s), k) == h0 + WithCount(t, k) by {
        assert Insert(x, s) == [s[0]] + t;
        assert ([s[0]] + t)[1..] == t;
      }
      assert WithCount(t, k) == hx + w by {
        assert SortedDesc(s[1..]);
        InsertStable(x, s[1..], k);
        assert ([x] + s[1..])[1..] == s[1..];
      }
      assert WithCount([x] + s, k) == hx + (h0 + w) by {
        assert ([x] + s)[1..] == s;
      }
      assert hx == [] || h0 == [];
    }
  }

  /** Stability: among results with the same count the ranking keeps the
      search order. */
  lemma {:induction false} RankingStable(xs: seq<SearchResult>, k: nat)
    ensures WithCount(Ranking(xs), k) == WithCount(xs, k)
    decreases |xs|
  {
    if xs != [] {
      var rest := Ranking(xs[1..]);
      assert WithCount(rest, k) == WithCount(xs[1..], k) by {
        RankingStable(xs[1..], k);
      }
      InsertStable(xs[0], rest, k);
      assert ([xs[0]] + rest)[1..] == rest;
    }
  }

  // ---------------------------------------------------------------------------
  // List entries: `f"{tag} r/{name} ({subs:,} members) - {title}"`

  const AdultTag: string := "\U{1F51E}"
  const SafeTag: string := "✅"

  function Tag(over18: bool): string {
    if over18 then AdultTag else SafeTag
  }

  function Entry(r: SearchResult): string {
    Tag(r.over18) + (" r/" + (r.name + (" (" + (Grouped(r.subscribers) + (" members) - " + r.title)))))
  }

  function Entries(rs: seq<SearchResult>): (r: seq<string>)
    ensures |r| == |rs|
  {
    seq(|rs|, k requires 0 <= k < |rs| => Entry(rs[k]))
  }

  lemma EntriesSnoc(rs: seq<SearchResult>, i: nat)
    requires i < |rs|
    ensures Entries(rs[..i + 1]) == Entries(rs[..i]) + [Entry(rs[i])]
  {
    assert Entries(rs[..i + 1])[i] == Entry(rs[i]);
  }

  lemma {:induction false} GroupedNoSpace(n: nat)
    ensures Grouped(n) != [] && NoSpace(Grouped(n))
  {
    if n >= 1000 {
      GroupedNoSpace(n / 1000);
    }
  }

  /** A word followed by a space is the first field; the rest follow. */
  lemma FirstField(a: string, rest: string)
    requires a != [] && NoSpace(a)
    ensures var f := Split(a + " " + rest);
            |f| == 1 + |Split(rest)| && f[0] == a && f[1..] == Split(rest)
  {
    SplitWord(a, rest);
  }

  /** The fields of `t r/name (g members) - title` for words `t`, `name`
      and `g`. */
  lemma EntryShapeFields(e: string, t: string, name: string, g: string, title: string)
    requires e == t + (" r/" + (name + (" (" + (g + (" members) - " + title)))))
    requires t != [] && NoSpace(t) && NoSpace(name) && g != [] && NoSpace(g)
    ensures var f := Split(e);
            && |f| == 5 + |Split(title)|
            && f[0] == t && f[1] == "r/" + name && f[2] == "(" + g
            && f[3] == "members)" && f[4] == "-" && f[5..] == Split(title)
  {
    assert NoSpace("members)") && NoSpace("-");
    assert NoSpace("r/" + name) by {
      forall i | 0 <= i < |"r/" + name| ensures !IsSpace(("r/" + name)[i]) {
        if i >= 2 {
          assert ("r/" + name)[i] == name[i - 2];
        }
      }
    }
    assert NoSpace("(" + g) by {
      forall i | 0 <= i < |"(" + g| ensures !IsSpace(("(" + g)[i]) {
        if i >= 1 {
          assert ("(" + g)[i] == g[i - 1];
        }
      }
    }
    var e4 := "-" + " " + title;
    var e3 := "members)" + " " + e4;
    var e2 := ("(" + g) + " " + e3;
    var e1 := ("r/" + name) + " " + e2;
    assert e == t + " " + e1 by {
      assert " members) - " + title == " " + e3;
      assert " (" + (g + (" members) - " + title)) == " " + e2;
      assert " r/" + (name + (" (" + (g + (" members) - " + title)))) == " " + e1;
    }
    FirstField(t, e1);
    FirstField("r/" + name, e2);
    FirstField("(" + g, e3);
    FirstField("members)", e4);
    FirstField("-", title);
  }

  /** The whitespace-separated fields of an entry: the tag, `r/` and the
      name, the parenthesised count, two fixed words, then the title's own
      words. */
  lemma EntryFields(r: SearchResult)
    requires NoSpace(r.name)
    ensures var f := Split(Entry(r));
            && |f| == 5 + |Split(r.title)|
            && f[0] == Tag(r.over18) && f[1] == "r/" + r.name && f[2] == "(" + Grouped(r.subscribers)
            && f[3] == "members)" && f[4] == "-" && f[5..] == Split(r.title)
  {
    GroupedNoSpace(r.subscribers);
    EntryShapeFields(Entry(r), Tag(r.over18), r.name, Grouped(r.subscribers), r.title);
  }

  /** The tag field says whether the subreddit is adult, and the count field
      read back without its parenthesis and separators is the subscriber
      count. */
  lemma EntryTagAndCount(r: SearchResult)
    requires NoSpace(r.name)
    ensures |Split(Entry(r))| > 2 && |Split(Entry(r))[2]| > 0
    ensures Split(Entry(r))[0] == AdultTag <==> r.over18
    ensures Split(Entry(r))[0] == SafeTag <==> !r.over18
    ensures var c := Without(Split(Entry(r))[2][1..], ',');
            AllDigits(c) && DigitsValue(c) == r.subscribers
  {
    EntryFields(r);
    assert ("(" + Grouped(r.subscribers))[1..] == Grouped(r.subscribers);
    GroupedDigits(r.subscribers);
    NatToStringRoundTrip(r.subscribers);
  }

  // ---------------------------------------------------------------------------
  // Reading a selected entry back: `text.split()[1].replace("r/", "")`

  /** The subreddit name of a selected entry; `None` where indexing the
      second field raises `IndexError`. */
  function SelectedName(text: string): (r: Option<string>)
    ensures r.None? <==> |Split(text)| < 2
    ensures r.Some? ==> |r.value| <= |Split(text)[1]| && NoSpace(r.value)
  {
    var fields := Split(text);
    if |fields| < 2 then None
    else
      var name := RemoveAll(fields[1], "r/");
      assert fields[1] in fields;
      assert forall i :: 0 <= i < |name| ==> name[i] in name;
      Some(name)
  }

  /** Selecting a listed entry gives back the subreddit's name. */
  lemma SelectedNameRoundTrip(r: SearchResult)
    requires NoSpace(r.name) && !Contains(r.name, "r/")
    ensures SelectedName(Entry(r)) == Some(r.name)
  {
    EntryFields(r);
    RemoveAllLeading("r/", r.name);
    RemoveAllAbsent(r.name, "r/");
  }

  /** `re.sub(r'[^\w\-]', '_', name.lower())`. */
  function GuiSafeName(name: string): (r: string)
    ensures |r| == |name|
    ensures forall i :: 0 <= i < |r| ==> IsSafeChar(r[i]) && !IsUpper(r[i])
  {
    SafeChars(Lower(name))
  }

  /** `os.path.join("cache", f"r_{safe_name}.txt")`. */
  function SelectedCachePath(name: string): (r: string)
    ensures r == "cache/r_" + GuiSafeName(name) + ".txt"
  {
    Join("cache", "r_" + GuiSafeName(name) + ".txt")
  }

  lemma LowerNoSlash(s: string)
    requires '/' !in s
    ensures '/' !in Lower(s)
  {
    forall i | 0 <= i < |s| ensures Lower(s)[i] != '/' {
      LowerDotSlash(s[i]);
    }
  }

  /** For a name without `/`, the window's cache path for a selected entry is
      the cache file the download pass keeps in the folder `cache`. */
  lemma ClearTargetsPassCache(r: SearchResult)
    requires NoSpace(r.name) && '/' !in r.name
    ensures SelectedName(Entry(r)).Some?
    ensures SelectedCachePath(SelectedName(Entry(r)).value) == CachePath("cache", r.name)
  {
    NotContainsMissingChar(r.name, "r/", '/');
    SelectedNameRoundTrip(r);
    LowerNoSlash(r.name);
    NotContainsMissingChar(Lower(r.name), "r/", '/');
    RemoveAllAbsent(Lower(r.name), "r/");
  }

  // ---------------------------------------------------------------------------
  // Routing of the download button, and the gallery folder

  datatype Route = Gallery(url: string) | SubredditStub

  /** A stripped selection naming the gallery site goes to the gallery
      download; anything else reaches the unfinished subreddit branch. */
  function RouteOf(text: string): (r: Route)
    ensures r.Gallery? <==> Contains(Strip(text), "erome.com")
    ensures r.Gallery? ==> r.url == Strip(text)
  {
    var t := Strip(text);
    if Contains(t, "erome.com") then Gallery(t) else SubredditStub
  }

  lemma LowerSpace(c: char)
    ensures IsSpace(LowerChar(c)) <==> IsSpace(c)
  {
  }

  /** The search box's keyword, stripped and lower-cased, is unchanged by
      the strip that `download_images` applies to the selected item. */
  lemma KeywordStripped(text: string)
    ensures Strip(Lower(Strip(text))) == Lower(Strip(text))
  {
    var s := Strip(text);
    var k := Lower(s);
    if k != [] {
      LowerSpace(s[0]);
      LowerSpace(s[|s| - 1]);
    }
    StripByNoop(k, IsSpace);
  }

  /** A keyword listed as a gallery, by its text or by the gallery search
      mode, reaches the gallery download of that very keyword when it
      contains `erome.com`, and the subreddit stub when it does not. */
  lemma GalleryKeywordRoutes(text: string)
    ensures Contains(Lower(Strip(text)), "erome.com") ==>
              RouteOf(Lower(Strip(text))) == Gallery(Lower(Strip(text)))
    ensures !Contains(Lower(Strip(text)), "erome.com") ==>
              RouteOf(Lower(Strip(text))) == SubredditStub
  {
    KeywordStripped(text);
  }

  /** The gallery folder `Path("downloader") / title` for a scraped title is
      a single new segment directly under `downloader`. */
  lemma AlbumFolderInside(page: AlbumPage, skipVideos: bool, skipImages: bool)
    requires CollectAlbumData(page, skipVideos, skipImages).Ok?
    ensures var title := CollectAlbumData(page, skipVideos, skipImages).value.0;
            && Join("downloader", title) == "downloader/" + title
            && title != [] && '/' !in title && title != "." && title != ".."
  {
    var title := CollectAlbumData(page, skipVideos, skipImages).value.0;
    assert IsCleanTitle(title);
    assert IsIllegal('/');
  }

  // ---------------------------------------------------------------------------
  // The window

  datatype GuiLog =
    | KeywordWarning      // "Please enter a keyword or subreddit name"
    | EromeReady          // "Erome gallery ready for download."
    | NoResults           // "No subreddits found matching your filters."
    | SearchFailed        // "Error searching subreddits"
    | CacheSelectionWarning
    | NameUnknown         // "Could not determine subreddit name"
    | CacheCleared(name: string)
    | NoCacheFile(name: string)
    | DownloadSelectionWarning
    | GalleryDownloaded
    | GalleryFailed
    | StubNotice          // "Subreddit downloading logic is not shown here."

  class MainWindow {
    /** The texts of the result list, in display order. */
    var items: seq<string>
    /** The cache files on disk, by path, as lines. */
    var cacheFiles: map<string, seq<string>>
    /** The URLs handed to the gallery download, in order. */
    var galleries: seq<string>
    /** Log lines and message boxes, in order. */
    var log: seq<GuiLog>

    constructor (cacheFiles: map<string, seq<string>>)
      ensures this.cacheFiles == cacheFiles
      ensures items == [] && galleries == [] && log == []
    {
      this.cacheFiles := cacheFiles;
      items := [];
      galleries := [];
      log := [];
    }

    /** The text of the current item, if there is one. */
    function Current(selection: Option<nat>): (r: Option<string>)
      reads this
      ensures r.Some? <==> selection.Some? && selection.value < |items|
      ensures r.Some? ==> r.value == items[selection.value]
    {
      if selection.Some? && selection.value < |items| then Some(items[selection.value]) else None
    }

    /** The result-collecting loop of `search_subreddits`. */
    static method CollectResults(records: seq<SubredditRecord>, mode: SearchMode, keyword: string,
                                 allowSfw: bool, allowNsfw: bool) returns (results: seq<SearchResult>)
      ensures results == Kept(records, mode, keyword, allowSfw, allowNsfw)
    {
      results := [];
      var i := 0;
      while i < |records|
        invariant i <= |records|
        invariant results == Kept(records[..i], mode, keyword, allowSfw, allowNsfw)
      {
        var rec := records[i];
        assert records[..i + 1][..i] == records[..i];
        if rec.subscribers.Some? {
          if rec.over18 && !allowNsfw {
          } else if !rec.over18 && !allowSfw {
          } else if mode == ByName && !Contains(Lower(rec.displayName), keyword) {
          } else {
            results := results + [SearchResult(rec.displayName, rec.title, rec.subscribers.value, rec.over18)];
          }
        }
        i := i + 1;
      }
      assert records[..i] == records;
    }

    /** The `addItem` loop over the ranked results. */
    method AddEntries(results: seq<SearchResult>)
      modifies this
      ensures items == old(items) + Entries(results)
      ensures cacheFiles == old(cacheFiles) && galleries == old(galleries) && log == old(log)
    {
      var i := 0;
      while i < |results|
        invariant i <= |results|
        invariant items == old(items) + Entries(results[..i])
        invariant cacheFiles == old(cacheFiles) && galleries == old(galleries) && log == old(log)
      {
        EntriesSnoc(results, i);
        items := items + [Entry(results[i])];
        i := i + 1;
      }
      assert results[..i] == results;
    }

    /** `search_subreddits`; `found` is what Reddit's search returned, `None`
        when it raised. */
    method SearchSubreddits(keywordText: string, allowSfw: bool, allowNsfw: bool, mode: SearchMode,
                            found: Option<seq<SubredditRecord>>)
      modifies this
      ensures var keyword := Lower(Strip(keywordText));
              if keyword == [] then
                items == [] && log == old(log) + [KeywordWarning]
              else if Contains(keyword, "erome.com") || mode == EromeUrl then
                items == [keyword] && log == old(log) + [EromeReady]
              else if found.None? then
                items == [] && log == old(log) + [SearchFailed]
              else
                var ranked := Ranking(Kept(found.value, mode, keyword, allowSfw, allowNsfw));
                && items == Entries(ranked)
                && log == old(log) + (if ranked == [] then [NoResults] else [])
      ensures cacheFiles == old(cacheFiles) && galleries == old(galleries)
    {
      var keyword := Lower(Strip(keywordText));
      items := [];
      if keyword == [] {
        log := log + [KeywordWarning];
        return;
      }
      if Contains(keyword, "erome.com") || mode == EromeUrl {
        items := items + [keyword];
        log := log + [EromeReady];
        return;
      }
      if found.None? {
        log := log + [SearchFailed];
        return;
      }
      var results := CollectResults(found.value, mode, keyword, allowSfw, allowNsfw);
      results := Ranking(results);
      AddEntries(results);
      if results == [] {
        log := log + [NoResults];
      }
    }

    /** `clear_selected_cache`. */
    method ClearSelectedCache(selection: Option<nat>)
      modifies this
      ensures var text := Current(selection);
              if text.None? then
                cacheFiles == old(cacheFiles) && log == old(log) + [CacheSelectionWarning]
              else if SelectedName(text.value).None? then
                cacheFiles == old(cacheFiles) && log == old(log) + [NameUnknown]
              else
                var name := SelectedName(text.value).value;
                var path := SelectedCachePath(name);
                if path in old(cacheFiles) then
                  cacheFiles == old(cacheFiles) - {path} && log == old(log) + [CacheCleared(name)]
                else
                  cacheFiles == old(cacheFiles) && log == old(log) + [NoCacheFile(name)]
      ensures items == old(items) && galleries == old(galleries)
    {
      var text := Current(selection);
      if text.None? {
        log := log + [CacheSelectionWarning];
        return;
      }
      var name := SelectedName(text.value);
      if name.None? {
        log := log + [NameUnknown];
        return;
      }
      var path := SelectedCachePath(name.value);
      if path in cacheFiles {
        cacheFiles := cacheFiles - {path};
        log := log + [CacheCleared(name.value)];
      } else {
        log := log + [NoCacheFile(name.value)];
      }
    }

    /** `download_images`; `galleryOk` is whether the gallery download
        finished without raising. */
    method DownloadImages(selection: Option<nat>, galleryOk: bool)
      modifies this
      ensures var text := Current(selection);
              if text.None? then
                galleries == old(galleries) && log == old(log) + [DownloadSelectionWarning]
              else match RouteOf(text.value)
                case Gallery(url) =>
                  galleries == old(galleries) + [url]
                  && log == old(log) + [if galleryOk then GalleryDownloaded else GalleryFailed]
                case SubredditStub =>
                  galleries == old(galleries) && log == old(log) + [StubNotice]
      ensures items == old(items) && cacheFiles == old(cacheFiles)
    {
      var text := Current(selection);
      if text.None? {
        log := log + [DownloadSelectionWarning];
        return;
      }
      var route := RouteOf(text.value);
      match route
      case Gallery(url) =>
        galleries := galleries + [url];
        log := log + [if galleryOk then GalleryDownloaded else GalleryFailed];
      case SubredditStub =>
        log := log + [StubNotice];
    }
  }
}
