/** The pure helpers of the downloader: album-title sanitising, imageboard
    thread-URL parsing, the media-URL template, the "already downloaded" test
    and the merge of scraped gallery references. The GUI module carries
    verbatim copies of the title, skip and merge helpers; they are these
    definitions. */
module Utils {
  import opened Wrappers
  import opened Text
  import opened Paths

  // ---------------------------------------------------------------------------
  // Album titles

  /** The characters `re.sub(r'[\\/:*?"<>|]', "_", ...)` replaces. */
  predicate IsIllegal(c: char) {
    c in "\\/:*?\"<>|"
  }

  /** The characters `.strip(". ")` removes from both ends. */
  predicate IsEdge(c: char) {
    c == '.' || c == ' '
  }

  const DefaultTitle: string := "temp"

  /** The substitution step: every illegal character becomes `_`, nothing
      else moves or changes. */
  function Sanitise(t: string): (r: string)
    ensures |r| == |t|
    ensures forall i :: 0 <= i < |t| ==> r[i] == (if IsIllegal(t[i]) then '_' else t[i])
  {
    if t == [] then [] else [if IsIllegal(t[0]) then '_' else t[0]] + Sanitise(t[1..])
  }

  predicate IsCleanTitle(t: string) {
    && t != []
    && (forall i :: 0 <= i < |t| ==> !IsIllegal(t[i]))
    && !IsEdge(t[0]) && !IsEdge(t[|t| - 1])
  }

  /** `clean_album_title(title)` with its default `"temp"`. */
  function CleanAlbumTitle(title: string): (r: string)
    ensures IsCleanTitle(r)
    ensures StripBy(Sanitise(title), IsEdge) == [] ==> r == DefaultTitle
    ensures StripBy(Sanitise(title), IsEdge) != [] ==> r == StripBy(Sanitise(title), IsEdge)
  {
    var s := StripBy(Sanitise(title), IsEdge);
    assert forall c :: c in s ==> !IsIllegal(c);
    if s == [] then DefaultTitle else s
  }

  /** The titles cleaning leaves unchanged are exactly the clean ones. */
  lemma CleanAlbumTitleFixedPoint(t: string)
    ensures CleanAlbumTitle(t) == t <==> IsCleanTitle(t)
  {
    if IsCleanTitle(t) {
      assert Sanitise(t) == t;
      StripByNoop(t, IsEdge);
    }
  }

  /** Cleaning an already cleaned title changes nothing. */
  lemma CleanAlbumTitleIdempotent(t: string)
    ensures CleanAlbumTitle(CleanAlbumTitle(t)) == CleanAlbumTitle(t)
  {
    CleanAlbumTitleFixedPoint(CleanAlbumTitle(t));
  }

  // ---------------------------------------------------------------------------
  // Imageboard thread URLs: two independent `re.search` calls

  const BoardHost: string := "boards.4chan.org/"
  const ThreadSep: string := "/thread/"
  const ThreadWord: string := "thread/"

  function NonSlashLen(s: string): (n: nat)
    ensures n <= |s| && '/' !in s[..n]
    ensures n < |s| ==> s[n] == '/'
    decreases |s|
  {
    if s == [] || s[0] == '/' then 0
    else
      var n := NonSlashLen(s[1..]);
      assert s[..n + 1] == [s[0]] + s[1..][..n];
      n + 1
  }

  /** `boards\.4chan\.org/([^/]+)/thread/` tried at position `i`. The greedy
      `[^/]+` can only succeed with the whole run of non-slashes. */
  function BoardMatchAt(url: string, i: nat): (r: Option<string>)
    ensures r.Some? ==> r.value != [] && '/' !in r.value
  {
    if i > |url| || !IsPrefix(BoardHost, url[i..]) then None
    else
      var after := url[i..][|BoardHost|..];
      var n := NonSlashLen(after);
      if n > 0 && IsPrefix(ThreadSep, after[n..]) then Some(after[..n]) else None
  }

  /** `thread/(\d+)` tried at position `i`. */
  function ThreadMatchAt(url: string, i: nat): (r: Option<string>)
    ensures r.Some? ==> r.value != [] && AllDigits(r.value)
  {
    if i > |url| || !IsPrefix(ThreadWord, url[i..]) then None
    else
      var after := url[i..][|ThreadWord|..];
      var d := DigitLen(after);
      if d > 0 then Some(after[..d]) else None
  }

  /** The leftmost board match at or after `i`, as `re.search` scans. */
  function FirstBoard(url: string, i: nat): (r: Option<string>)
    ensures r.None? <==> forall j :: i <= j <= |url| ==> BoardMatchAt(url, j).None?
    ensures r.Some? ==> exists j :: i <= j <= |url| && BoardMatchAt(url, j) == r
    decreases |url| + 1 - i
  {
    if i > |url| then None else if BoardMatchAt(url, i).Some? then BoardMatchAt(url, i) else FirstBoard(url, i + 1)
  }

  /** The leftmost thread-id match at or after `i`. */
  function FirstThread(url: string, i: nat): (r: Option<string>)
    ensures r.None? <==> forall j :: i <= j <= |url| ==> ThreadMatchAt(url, j).None?
    ensures r.Some? ==> exists j :: i <= j <= |url| && ThreadMatchAt(url, j) == r
    decreases |url| + 1 - i
  {
    if i > |url| then None else if ThreadMatchAt(url, i).Some? then ThreadMatchAt(url, i) else FirstThread(url, i + 1)
  }

  lemma {:induction false} FirstBoardFinds(url: string, i: nat, k: nat)
    requires i <= k <= |url| && BoardMatchAt(url, k).Some?
    requires forall j :: i <= j < k ==> BoardMatchAt(url, j).None?
    ensures FirstBoard(url, i) == BoardMatchAt(url, k)
    decreases k - i
  {
    if i < k {
      assert BoardMatchAt(url, i).None?;
      FirstBoardFinds(url, i + 1, k);
      assert FirstBoard(url, i) == FirstBoard(url, i + 1);
    }
  }

  lemma {:induction false} FirstThreadFinds(url: string, i: nat, k: nat)
    requires i <= k <= |url| && ThreadMatchAt(url, k).Some?
    requires forall j :: i <= j < k ==> ThreadMatchAt(url, j).None?
    ensures FirstThread(url, i) == ThreadMatchAt(url, k)
    decreases k - i
  {
    if i < k {
      assert ThreadMatchAt(url, i).None?;
      FirstThreadFinds(url, i + 1, k);
      assert FirstThread(url, i) == FirstThread(url, i + 1);
    }
  }

  datatype ThreadRef = ThreadRef(board: string, threadId: string)

  datatype UrlError = InvalidThreadUrl

  /** `parse_4chan_thread_url`: the board from the first search, the thread id
      from the second, and ValueError when either finds nothing. */
  function ParseThreadUrl(url: string): (r: Result<ThreadRef, UrlError>)
    ensures r.Err? <==> ((forall i :: 0 <= i <= |url| ==> BoardMatchAt(url, i).None?) ||
                         (forall i :: 0 <= i <= |url| ==> ThreadMatchAt(url, i).None?))
    ensures r.Ok? ==> r.value.board != [] && '/' !in r.value.board
    ensures r.Ok? ==> r.value.threadId != [] && AllDigits(r.value.threadId)
  {
    var board := FirstBoard(url, 0);
    var thread := FirstThread(url, 0);
    if board.None? || thread.None? then Err(InvalidThreadUrl)
    else Ok(ThreadRef(board.value, thread.value))
  }

  lemma {:induction false} ContainsAt(s: string, i: nat, p: string)
    requires i <= |s| && IsPrefix(p, s[i..])
    ensures Contains(s, p)
    decreases i
  {
    if i > 0 {
      assert s[1..][i - 1..] == s[i..];
      ContainsAt(s[1..], i - 1, p);
    }
  }

  lemma BoardMatchContained(url: string, i: nat)
    requires BoardMatchAt(url, i).Some?
    ensures Contains(url, BoardHost + BoardMatchAt(url, i).value + ThreadSep)
  {
    var b := BoardMatchAt(url, i).value;
    var rest := url[i..];
    var after := rest[|BoardHost|..];
    assert rest == BoardHost + after;
    assert after[..|b|] == b;
    assert after[|b|..][..|ThreadSep|] == ThreadSep;
    assert after == b + after[|b|..];
    assert rest[..|BoardHost + b + ThreadSep|] == BoardHost + b + ThreadSep;
    ContainsAt(url, i, BoardHost + b + ThreadSep);
  }

  lemma ThreadMatchContained(url: string, i: nat)
    requires ThreadMatchAt(url, i).Some?
    ensures Contains(url, ThreadWord + ThreadMatchAt(url, i).value)
  {
    var t := ThreadMatchAt(url, i).value;
    var rest := url[i..];
    assert rest == ThreadWord + rest[|ThreadWord|..];
    assert rest[..|ThreadWord + t|] == ThreadWord + t;
    ContainsAt(url, i, ThreadWord + t);
  }

  /** What a successful parse found is in the URL: the board between the
      host and `/thread/`, the id right after `thread/`. */
  lemma ParseThreadUrlFound(url: string)
    requires ParseThreadUrl(url).Ok?
    ensures Contains(url, BoardHost + ParseThreadUrl(url).value.board + ThreadSep)
    ensures Contains(url, ThreadWord + ParseThreadUrl(url).value.threadId)
  {
    var b, t := FirstBoard(url, 0), FirstThread(url, 0);
    var i :| 0 <= i <= |url| && BoardMatchAt(url, i) == b;
    var j :| 0 <= j <= |url| && ThreadMatchAt(url, j) == t;
    BoardMatchContained(url, i);
    ThreadMatchContained(url, j);
  }

  const ThreadUrlPrefix: string := "https://boards.4chan.org/"

  /** The canonical thread URL. */
  function ThreadUrl(board: string, threadId: string): string {
    ThreadUrlPrefix + board + ThreadSep + threadId
  }

  /** No board match can start inside the scheme `https://`. */
  lemma BoardNotInScheme(url: string, j: nat)
    requires |url| >= 8 && url[..8] == "https://" && j < 8
    ensures BoardMatchAt(url, j).None?
  {
    assert url[j] in "https://";
    assert url[j..][0] == url[j] != 'b';
  }

  lemma BoardMatchAtHost(board: string, threadId: string)
    requires board != [] && '/' !in board
    ensures BoardMatchAt(ThreadUrl(board, threadId), 8) == Some(board)
  {
    assert ThreadUrlPrefix == "https://" + BoardHost;
    assert ThreadUrl(board, threadId) == "https://" + (BoardHost + (board + (ThreadSep + threadId)));
    BoardMatchAfter("https://", board, ThreadSep + threadId);
  }

  /** Behind any text, the board host, a slash-free board and a `/thread/`
      part match as that board. */
  lemma BoardMatchAfter(pre: string, board: string, rest: string)
    requires board != [] && '/' !in board && IsPrefix(ThreadSep, rest)
    ensures BoardMatchAt(pre + (BoardHost + (board + rest)), |pre|) == Some(board)
  {
    var url := pre + (BoardHost + (board + rest));
    var after := board + rest;
    assert url[|pre|..] == BoardHost + after;
    assert url[|pre|..][|BoardHost|..] == after;
    assert after[..|board|] == board;
    assert after[|board|] == '/';
    assert NonSlashLen(after) == |board|;
    assert after[|board|..] == rest;
  }

  /** `thread/` cannot start where its `e` would fall inside `s`, a text
      without `e`. */
  lemma ThreadWordNotOverE(url: string, s: string, j: nat)
    requires |s| <= |url| && url[..|s|] == s && 'e' !in s && j + 3 < |s|
    ensures !IsPrefix(ThreadWord, url[j..])
  {
    assert url[j + 3] in s;
    assert url[j..][3] == url[j + 3] != 'e';
  }

  /** `thread/` cannot start where its `/` would fall on a non-slash. */
  lemma ThreadWordNeedsSlash(url: string, j: nat)
    requires j + 6 < |url| && url[j + 6] != '/'
    ensures !IsPrefix(ThreadWord, url[j..])
  {
    assert url[j..][6] == url[j + 6];
  }

  /** `thread/` cannot cover a `/` with one of its letters. */
  lemma ThreadWordOverSlash(url: string, j: nat, m: nat)
    requires j <= m < j + 6 && m < |url| && url[m] == '/'
    ensures !IsPrefix(ThreadWord, url[j..])
  {
    assert url[j..][m - j] == '/' != ThreadWord[m - j];
  }

  lemma ThreadNoEarlyMatch(board: string, threadId: string, j: nat)
    requires '/' !in board
    requires j <= |ThreadUrlPrefix| + |board|
    ensures ThreadMatchAt(ThreadUrl(board, threadId), j).None?
  {
    var url := ThreadUrl(board, threadId);
    var m := |ThreadUrlPrefix| + |board|;
    assert url[..25] == ThreadUrlPrefix;
    assert 'e' !in ThreadUrlPrefix;
    assert url[m..m + 8] == ThreadSep;
    if j + 3 < 25 {
      ThreadWordNotOverE(url, ThreadUrlPrefix, j);
    } else if j + 6 < m {
      assert url[j + 6] == board[j + 6 - 25];
      ThreadWordNeedsSlash(url, j);
    } else if j + 6 > m {
      assert url[m] == '/';
      ThreadWordOverSlash(url, j, m);
    } else {
      assert url[j..][|ThreadWord|..][0] == url[m + 1] == 't';
    }
  }

  lemma ThreadMatchAfterSep(board: string, threadId: string)
    requires threadId != [] && AllDigits(threadId)
    ensures ThreadMatchAt(ThreadUrl(board, threadId), |ThreadUrlPrefix| + |board| + 1) == Some(threadId)
  {
    var url := ThreadUrl(board, threadId);
    var k := |ThreadUrlPrefix| + |board| + 1;
    assert url[k..] == ThreadWord + threadId;
    var after := url[k..][|ThreadWord|..];
    assert after == threadId;
    assert DigitLen(after) == |threadId|;
    assert after[..|threadId|] == threadId;
  }

  /** Parsing the canonical URL of a thread gives back its board and id. */
  lemma ParseThreadUrlRoundTrip(board: string, threadId: string)
    requires board != [] && '/' !in board
    requires threadId != [] && AllDigits(threadId)
    ensures ParseThreadUrl(ThreadUrl(board, threadId)) == Ok(ThreadRef(board, threadId))
  {
    var url := ThreadUrl(board, threadId);
    assert url[..8] == "https://";
    forall j: nat | j < 8 ensures BoardMatchAt(url, j).None? {
      BoardNotInScheme(url, j);
    }
    BoardMatchAtHost(board, threadId);
    FirstBoardFinds(url, 0, 8);
    var k := |ThreadUrlPrefix| + |board| + 1;
    forall j: nat | j < k ensures ThreadMatchAt(url, j).None? {
      ThreadNoEarlyMatch(board, threadId, j);
    }
    ThreadMatchAfterSep(board, threadId);
    FirstThreadFinds(url, 0, k);
  }

  // ---------------------------------------------------------------------------
  // Imageboard media URLs

  /** The name the thread pass saves a post's media under. */
  function MediaFileName(tim: int, ext: string): string {
    IntToString(tim) + ext
  }

  /** `get_4chan_media_url(board, tim, ext)`: the saved name is the last
      segment of the media URL. */
  function MediaUrl(board: string, tim: int, ext: string): (r: string)
    ensures '/' !in ext ==> LastSegment(r) == MediaFileName(tim, ext)
  {
    var host := "https://i.4cdn.org/" + board;
    var name := MediaFileName(tim, ext);
    assert '/' !in ext ==> LastSegment(host + "/" + name) == name by {
      if '/' !in ext {
        assert '/' !in IntToString(tim);
        assert '/' !in name by {
          assert forall c :: c in name ==> c in IntToString(tim) || c in ext;
        }
        LastSegmentAfterSlash(host, name);
      }
    }
    host + "/" + name
  }

  // ---------------------------------------------------------------------------
  // The "already downloaded" test of download_file

  /** `int(r.headers.get("content-length", 0))`. */
  function DeclaredSize(contentLength: Option<int>): int {
    contentLength.GetOr(0)
  }

  function Abs(x: int): nat {
    if x < 0 then -x else x
  }

  const SizeTolerance: nat := 50

  /** `file_path.exists() and abs(size - total_size) <= 50`. */
  function SkipTransfer(fileExists: bool, localSize: nat, contentLength: Option<int>): (skip: bool)
    ensures skip <==> fileExists && DeclaredSize(contentLength) - 50 <= localSize <= DeclaredSize(contentLength) + 50
    ensures contentLength.None? ==> (skip <==> fileExists && localSize <= 50)
  {
    fileExists && Abs(localSize - DeclaredSize(contentLength)) <= SizeTolerance
  }

  // ---------------------------------------------------------------------------
  // Gallery scraping

  /** `list(set(xs))`, keeping first occurrences: one of the orders Python
      may produce; every property below is independent of the order. */
  function Dedup(xs: seq<string>): (r: seq<string>)
    ensures forall x :: x in r <==> x in xs
    ensures forall i, j :: 0 <= i < j < |r| ==> r[i] != r[j]
  {
    if xs == [] then []
    else
      var d := Dedup(xs[..|xs| - 1]);
      var x := xs[|xs| - 1];
      assert forall y :: y in xs <==> y in xs[..|xs| - 1] || y == x;
      if x in d then d else d + [x]
  }

  /** What the HTML parser hands over: the `og:title` meta content (None when
      the tag or its `content` is missing) and, per element, the `src` of each
      `<source>` and the `data-src` of each `img.img-back` (None when absent). */
  datatype AlbumPage = AlbumPage(
    ogTitle: Option<string>,
    videoSources: seq<Option<string>>,
    imageDataSrc: seq<Option<string>>)

  datatype ScrapeError = MissingTitle | MissingSource | MissingDataSrc

  /** The attribute values of a list of elements, or None when one lacks it. */
  function AllPresent(xs: seq<Option<string>>): (r: Option<seq<string>>)
    ensures r.Some? <==> forall k :: 0 <= k < |xs| ==> xs[k].Some?
    ensures r.Some? ==> forall u :: u in r.value <==> Some(u) in xs
  {
    if xs == [] then Some([])
    else
      var rest := AllPresent(xs[1..]);
      if xs[0].None? || rest.None? then None
      else
        assert forall y :: y in xs <==> y == xs[0] || y in xs[1..];
        Some([xs[0].value] + rest.value)
  }

  /** One attribute list as the scraper reads it: empty when that kind of
      media is skipped, otherwise every element's attribute. */
  function Selected(xs: seq<Option<string>>, skip: bool): (r: Option<seq<string>>)
    ensures r.Some? <==> skip || forall k :: 0 <= k < |xs| ==> xs[k].Some?
    ensures r.Some? ==> forall u :: u in r.value <==> !skip && Some(u) in xs
  {
    if skip then Some([]) else AllPresent(xs)
  }

  /** `collect_album_data` / `scrape_erome_album` after the page is parsed:
      the title is read first, then the video sources, then the image
      sources; a missing attribute is the `KeyError`/`TypeError` the code
      would raise. */
  function CollectAlbumData(page: AlbumPage, skipVideos: bool, skipImages: bool): (r: Result<(string, seq<string>), ScrapeError>)
    ensures page.ogTitle.None? ==> r == Err(MissingTitle)
    ensures r.Ok? <==> (page.ogTitle.Some? && Selected(page.videoSources, skipVideos).Some?
                        && Selected(page.imageDataSrc, skipImages).Some?)
    ensures r.Ok? ==> r.value.0 == CleanAlbumTitle(page.ogTitle.value)
    ensures r.Ok? ==> forall i, j :: 0 <= i < j < |r.value.1| ==> r.value.1[i] != r.value.1[j]
    ensures r.Ok? ==> forall u :: u in r.value.1 <==>
                        (!skipVideos && Some(u) in page.videoSources) || (!skipImages && Some(u) in page.imageDataSrc)
  {
    if page.ogTitle.None? then Err(MissingTitle)
    else
      var videos := Selected(page.videoSources, skipVideos);
      if videos.None? then Err(MissingSource)
      else
        var images := Selected(page.imageDataSrc, skipImages);
        if images.None? then Err(MissingDataSrc)
        else
          var all := videos.value + images.value;
          assert forall u :: u in all <==> u in videos.value || u in images.value;
          Ok((CleanAlbumTitle(page.ogTitle.value), Dedup(all)))
  }
}
