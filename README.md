# ImageDownloader decision logic, modelled in Dafny

ImageDownloader is a desktop tool that fetches images from three kinds of
sources:

- a subreddit's hot listing;
- an imageboard thread (4chan) read through its JSON API;
- an Erome gallery page.

Almost everything it does is Qt widgets, HTTP calls and file I/O. This
project models the deterministic part underneath, which decides:

- what is fetched;
- under which file name it is saved;
- what goes into the URL cache;
- which progress ticks and log lines are emitted;
- how the window turns a search into list entries and a selected entry back
  into a subreddit name and cache file.

The network, the HTML parser and the file system are inputs. A pass takes a
listing, one fetch outcome per listing position, and the files present
before it. Its effects are fields of a class: files written, cache-file
lines, `(current, total)` progress pairs and log lines.

Each pass is specified twice:

- as a pure fold over the item positions (`SubredditPass.Upto`,
  `MediaPasses.ChanUpto`, `MediaPasses.GalleryUpto`);
- as a class method with the source's loop. Its postcondition says the new
  state is the fold's state appended to the old one.

The properties of the passes are lemmas about the folds.

Files:

- `wrappers.dfy`: `Option` and `Result`, which stand in for `None` and
  raised exceptions.
- `text.dfy`: the Python string operations the code uses: `lower`, `strip`,
  `split`, `replace`, `in`, `endswith`, `str(int)` and `f"{n:,}"`.
- `paths.dfy`: `os.path.join`, `splitext`, and the `urlparse` pieces.
- `utils.dfy`: the helpers of `utils.py`:
  - album-title cleaning;
  - thread-URL parsing;
  - the media-URL template;
  - the "already downloaded" test;
  - the de-duplicated union of scraped gallery references.

  `redditcommunityGUI.py` repeats `_clean_album_title`, the skip test of
  `_download_file` and `_collect_album_data` verbatim (lines 249-252,
  275-292 and 294-302). The members of this module model those copies too.
- `subreddit_pass.dfy`: `DownloaderThread.run`.
- `media_passes.dfy`: `Download4chanThread.download_4chan_thread`,
  `DownloadEromeThread.download_erome` and the `download_file` it calls.
- `gui.dfy`:
  - the search filter and ranking;
  - the list-entry format;
  - reading a selected entry back into a name and cache path;
  - the download-button routing;
  - `MainWindow`, with the methods `search_subreddits`,
    `clear_selected_cache` and `download_images`.

Where this model approximates Python:

- Character classes are ASCII: `\w`, `\d`, `str.isspace` and `str.lower`.
- `list(set(...))` has no fixed order. `Utils.Dedup` keeps first occurrences,
  but the gallery download does not rely on that: it takes the order in which
  the set is enumerated as an input (`order`), which may be any listing of the
  collected URLs without repeats. The files, console lines and ticks are
  stated for that order.

## Model

| member | source | states |
|---|---|---|
| `Utils.Sanitise` | utils.py:22-23 | The substitution keeps the length and replaces exactly the characters `\ / : * ? " < > \|` by `_`. |
| `Utils.CleanAlbumTitle` | utils.py:21-24 | The result is never empty and has no illegal character. It neither starts nor ends with `.` or a space. It is `"temp"` when the sanitised and stripped title is empty, and that string otherwise. |
| `Utils.CleanAlbumTitleFixedPoint` | utils.py:21-24 | Cleaning leaves a title unchanged if and only if the title already has the clean shape. |
| `Utils.CleanAlbumTitleIdempotent` | utils.py:21-24 | Cleaning a cleaned title changes nothing. |
| `Utils.FirstBoard` | utils.py:120 | The search for `boards.4chan.org/<board>/thread/` from a position finds nothing exactly when no later position matches. Otherwise it returns the group of a match at or after that position. |
| `Utils.FirstThread` | utils.py:121 | The search for `thread/<digits>` from a position finds nothing exactly when no later position matches. Otherwise it returns the digits of a match at or after that position. |
| `Utils.ParseThreadUrl` | utils.py:119-124 | The URL is rejected exactly when either search finds nothing. On success the board is non-empty without `/` and the thread id is non-empty digits. |
| `Utils.ParseThreadUrlFound` | utils.py:120-124 | A successful parse returns groups that occur in the URL, each right after its fixed text. |
| `Utils.ParseThreadUrlRoundTrip` | utils.py:119-124 | Parsing `https://boards.4chan.org/<b>/thread/<d>` gives back `(b, d)` for a non-empty slash-free board and a non-empty digit string. |
| `Utils.MediaUrl` | utils.py:126-127 | For an extension without `/`, the last segment of the media URL is the name the thread pass saves it under, `<tim><ext>`. |
| `Utils.SkipTransfer` | utils.py:42-43 | The transfer is skipped exactly when the target exists and its size is within 50 bytes of the declared length. A missing header counts as 0. |
| `Utils.Dedup` | utils.py:70 | The result has exactly the members of the input, each once. |
| `Utils.Selected` | utils.py:68-69 | A skipped kind yields nothing. Otherwise the kind yields every element's attribute, or fails when one element lacks it. |
| `Utils.CollectAlbumData` | utils.py:62-70 | On success the title is the cleaned `og:title` and the list has no duplicates. The list's members are exactly the unskipped video sources and image `data-src` values. A missing title is an error. |
| `SubredditPass.SafeName` | download_threads.py:39 | Every character of the name is a word character or `-`, and none is upper case. |
| `SubredditPass.SafeNameIdempotent` | download_threads.py:39 | Sanitising a sanitised name changes nothing. |
| `SubredditPass.EligibleIff` | download_threads.py:58-59 | A post is fetched exactly when its lower-cased URL ends in `.jpg`, `.jpeg`, `.png` or `.gif` and the URL is not cached. |
| `Paths.ExtensionSpec` | download_threads.py:62 | The extension `splitext` gives is empty or a `.` followed by a slash-free suffix of the path. |
| `Paths.ImageExtension` | download_threads.py:59-62 | When a URL passes the image filter through a suffix, and something other than dots precedes that suffix in its last segment, `splitext` gives back that suffix (up to case). The saved file keeps the image extension. |
| `SubredditPass.CacheKeepsAppended` | download_threads.py:45-49 | Appending stripped, non-empty URLs to a cache file adds exactly those URLs to the set read back from it. |
| `SubredditPass.DecideCases` | download_threads.py:58-73 | A post is saved exactly when its stripped URL passes the filter and the fetch succeeds. It is then saved under the file numbered by the current count. A failed fetch of an eligible post is a logged failure. |
| `SubredditPass.UptoFrozen` | download_threads.py:70-71 | Once the limit is reached, the later posts change nothing. |
| `SubredditPass.UptoConsistent` | download_threads.py:57-71 | At every point of the loop, the saved positions increase. The k-th save is the step the loop takes after k saves. The k-th tick is `(k + 1, total)`. |
| `SubredditPass.ApplyConsistent` | download_threads.py:60-69 | One more iteration keeps those records consistent. |
| `SubredditPass.UptoWithinLimit` | download_threads.py:70-71 | The loop never saves more posts than it visits, nor more than a non-zero limit. |
| `SubredditPass.UptoComplete` | download_threads.py:57-71 | A position whose step is a save is saved, unless the limit was reached before it. |
| `SubredditPass.PassSaves` | download_threads.py:57-69 | Every save is of an eligible post whose fetch succeeded, in listing order. Its stripped URL is recorded for the cache. The k-th save writes the fetched bytes to `<folder>/<subfolder>_<k>_<id><ext>` and emits `(k + 1, total)`. |
| `SubredditPass.PassWithinTarget` | download_threads.py:54-55 | With a limit, at most that many images are saved. Every tick carries the total target and does not exceed it. |
| `SubredditPass.PassComplete` | download_threads.py:57-71 | An eligible post whose fetch succeeds is saved, unless the limit was reached first. |
| `SubredditPass.PassLogs` | download_threads.py:57-73 | The log of a pass is, in listing order and up to the break at the limit, one `Saved(path)` line per saved post and one `FetchFailed(url)` line per eligible post whose fetch failed, and nothing else. |
| `SubredditPass.SavePathInjective` | download_threads.py:63 | Two save paths (`SavePath`) with different counts are different file names, so no save of a pass overwrites another. |
| `SubredditPass.RecordedUrlsStripped` | download_threads.py:58 | Every recorded URL is non-empty and stripped, so the cache reads it back as itself. |
| `SubredditPass.NoUrlSavedTwice` | download_threads.py:44-78 | A later pass over the same cache file never saves a URL that the first pass saved or had cached. |
| `SubredditPass.DownloaderThread.Run` | download_threads.py:27-86 | Ending per case: a handle that cannot be created logs only an error; a subreddit whose fetch raises at the `over18` read logs the start line then the error, and touches nothing else; a filter mismatch logs the start line and the mismatch and touches no folder, file, cache or progress; a failed listing logs the start line and an error. Otherwise the files, ticks (after `(0, total)`), cache lines and log are those of the pass. |
| `SubredditPass.DownloaderThread.Download` | download_threads.py:36-83 | The folders are created and the cache file is located. The loop runs, the new URLs are appended to the cache and the summary is logged. |
| `SubredditPass.DownloaderThread.Finish` | download_threads.py:75-83 | The cache file gains the new URLs in order; nothing is written when there are none. The summary line depends on the count. |
| `SubredditPass.DownloaderThread.Scan` | download_threads.py:52-73 | The loop ends with the count, the new URLs, the files, the ticks and the log lines of the pass. |
| `SubredditPass.DownloaderThread.Visit` | download_threads.py:58-73 | One iteration moves the records one position along the pass. |
| `MediaPasses.MediaItems` | download_threads.py:112 | The filter keeps exactly the posts with both `tim` and `ext`. |
| `MediaPasses.MediaItemsAppend` | download_threads.py:112 | Filtering a concatenation concatenates the filtered parts, so the filter keeps document order. |
| `MediaPasses.ChanJobOf` | download_threads.py:109-118 | Item k is fetched from the media URL `https://i.4cdn.org/<board>/<tim><ext>` and saved as `<folder>/<tim><ext>`. |
| `MediaPasses.ChanFileNamedAfterUrl` | download_threads.py:117-118 | The saved file is named after the last segment of the URL it came from. |
| `MediaPasses.ChanUptoTicks` | download_threads.py:116-129 | Each finished item emits one tick `(i + 1, total)`. The pass stops early exactly when a request raises, before the answer or while a 200's body is read (`ChanBreaks`), and then right after the last tick. |
| `MediaPasses.ChanUptoConsistent` | download_threads.py:119-127 | Every saved file is a complete 200 answer's body at its item's path, and every finished item answered with a 200 was saved. The one other write is the file a pass leaves empty when reading a 200's body raises, and it is the last. The callback gets the thread URL once per save, when it is set. |
| `MediaPasses.ChanFailureContinues` | download_threads.py:126-129 | A non-200 answer does not stop the pass: when no request raises (neither before the answer nor while a 200's body is read), every item is visited and ticked. |
| `MediaPasses.FileStepCases` | utils.py:100-117 | The step of `download_file` (`FileStep`) raises before writing exactly when the request raises, and rejects exactly a non-ok answer. A transfer is written exactly when the answer is ok and the target is not already there within tolerance: whole when the body arrives, and cut short to the part that arrived, followed by a raise, when reading it raises. A skip, a non-ok answer or a raise before the answer leaves the files unchanged. |
| `MediaPasses.DownloadAgainSkips` | utils.py:103-109 | Fetching the same URL again skips the transfer when the server announces the size of what was written the first time, within 50 bytes. This covers a body cut short: a target missing at most 50 bytes is never fetched again. |
| `MediaPasses.GalleryJobOf` | utils.py:104-105 | Each URL's target is the folder joined with the URL's base name. |
| `Paths.BaseName` | utils.py:104 | The base name of a URL path has no `/` and is never `.`: parameters after a `;` in the last segment, trailing `/` and trailing `.` segments are dropped before the last segment is taken. |
| `MediaPasses.GalleryTargetInFolder` | utils.py:104-105 | A target is `<folder>/<base name of its URL>` when the folder has no trailing `/`, and its last segment is always the URL's base name. |
| `MediaPasses.EnumerationLength` | download_threads.py:152-155 | A listing of the collected URLs without repeats has as many entries as the set, so the total of the ticks is the number of distinct URLs. |
| `MediaPasses.GalleryUptoTicks` | download_threads.py:159-161 | The gallery emits one tick per finished item. Only a raise stops the pass: before the answer, or while an ok answer's body is read. |
| `MediaPasses.GalleryUptoFrame` | download_threads.py:159-160 | The gallery keeps every file that was there. It changes only the targets of URLs fetched with an ok answer. |
| `MediaPasses.Download4chanThread.DownloadThread` | download_threads.py:104-134 | A bad URL or failed JSON fetch logs an error and does nothing else. Otherwise the thread folder is created and the files, ticks, links and log are those of the thread pass. |
| `MediaPasses.Download4chanThread.RunJob` | download_threads.py:115-131 | The loop ends in the fold's state and then logs the summary or the error. |
| `MediaPasses.Download4chanThread.VisitItem` | download_threads.py:117-129 | One iteration advances the records by one item, as `ChanVisit` decides; a 200 whose body read raises leaves its file empty and ends the loop. |
| `MediaPasses.DownloadEromeThread.DownloadFile` | utils.py:100-117 | The files change as `FileStep` decides, the console line matches the action, and it reports a raise both before the answer and after a cut-short write. |
| `MediaPasses.DownloadEromeThread.DownloadErome` | download_threads.py:150-166 | A failed scrape logs an error and changes nothing else. Otherwise the album folder is `<master>/<clean title>`, and the files, ticks, console and log are those of the gallery pass over the URLs in the enumeration order `order`, which lists each collected URL once. |
| `MediaPasses.DownloadEromeThread.RunGallery` | download_threads.py:158-161 | The loop ends in the gallery fold's state. |
| `MediaPasses.DownloadEromeThread.VisitUrl` | download_threads.py:159-161 | One iteration runs `download_file` and then ticks, unless the step raised; the fields advance as `GalleryVisit` decides, a cut-short target included. |
| `Gui.Kept` | redditcommunityGUI.py:213-221 | Every kept result had a subscriber count and is admitted by the SFW/NSFW flags. In name mode its lower-cased name contains the keyword. Every record passing these tests is kept. |
| `Gui.KeptOne` | redditcommunityGUI.py:214-221 | A single record yields its result tuple exactly when it passes every test, and nothing otherwise. |
| `Gui.KeptAppend` | redditcommunityGUI.py:211-221 | The results of a search are the results of its first part followed by those of the rest: the filter keeps search order and repeats. |
| `Gui.Ranking` | redditcommunityGUI.py:223 | The ranking is ordered by subscribers, non-increasing, and is a permutation of the kept results. |
| `Gui.RankingStable` | redditcommunityGUI.py:223 | Results with equal subscriber counts keep the order they had before sorting, which is search order. |
| `Gui.RankedResultsQualify` | redditcommunityGUI.py:213-223 | Every listed result came from the search and passed every test of the filter. |
| `Gui.EntryFields` | redditcommunityGUI.py:225-227 | An entry (`Entry`) splits into the tag, `r/<name>`, `(<count>`, `members)`, `-` and then the title's words. |
| `Gui.EntryTagAndCount` | redditcommunityGUI.py:226-227 | The first field is the adult tag exactly for adult subreddits. The third field, read without `(` and `,`, is the subscriber count. |
| `Gui.SelectedName` | redditcommunityGUI.py:131-135 | A selection with fewer than two fields has no name, which is the `IndexError` path. Otherwise the name is whitespace-free. |
| `Gui.SelectedNameRoundTrip` | redditcommunityGUI.py:132 | Selecting a listed entry gives back the subreddit's name, when the name has no whitespace and no `r/`. |
| `Gui.SelectedCachePath` | redditcommunityGUI.py:137-138 | The cache file is `cache/r_<s>.txt`, where `s` keeps the name's length and uses only word characters and `-`. |
| `Gui.ClearTargetsPassCache` | redditcommunityGUI.py:131-138 | For a name without `/`, clearing a listed entry's cache removes the file the download pass keeps for that subreddit in `cache`. |
| `Gui.RouteOf` | redditcommunityGUI.py:241-246 | A stripped selection containing `erome.com` goes to the gallery download; anything else reaches the subreddit stub. |
| `Gui.GalleryKeywordRoutes` | redditcommunityGUI.py:194-246 | A keyword listed as a gallery, by its text or by the gallery search mode, reaches the gallery download of that same keyword when it contains `erome.com`. Without `erome.com` it is still listed in gallery mode but reaches the subreddit stub. |
| `Gui.AlbumFolderInside` | redditcommunityGUI.py:254-263 | A scraped album title names one new folder directly under `downloader`. The title is never empty, `.` or `..`. |
| `Gui.MainWindow.CollectResults` | redditcommunityGUI.py:211-221 | The loop returns exactly the kept results, in search order. |
| `Gui.MainWindow.AddEntries` | redditcommunityGUI.py:225-227 | The list gains one entry per ranked result, in order. |
| `Gui.MainWindow.SearchSubreddits` | redditcommunityGUI.py:193-233 | The list is cleared first. An empty keyword adds nothing and warns. A gallery keyword or gallery mode lists just that keyword. A failed search lists nothing. Otherwise the list is the ranked entries, with a notice when there are none. |
| `Gui.MainWindow.ClearSelectedCache` | redditcommunityGUI.py:125-145 | With no selection, or no second field, a warning or error is logged and nothing is removed. Otherwise the name's cache file is removed if present, and the outcome is logged. |
| `Gui.MainWindow.DownloadImages` | redditcommunityGUI.py:235-246 | With no selection only a warning is recorded. A gallery URL is handed to the gallery download and its outcome logged. Anything else gets the stub notice. |

## Left out

- Network access is an input: praw, `requests`, aiohttp and the 4chan JSON
  fetch. A pass receives the subreddit record, the listing and one outcome
  per item. A fetch that raises is `None`.
- BeautifulSoup parsing is an input. The model takes the `og:title` content
  and the `src`/`data-src` values as given.
- Concurrency is left out: `asyncio.gather`, semaphores and Qt threads. The
  gallery transfers run as a sequential loop. The gallery thread already uses
  `Semaphore(1)`.
- Chunking and `tqdm` bars are left out. A write is "the file at the path
  now holds these bytes". A body read that raises part-way is modelled: the
  gallery target keeps the part that arrived, and the thread pass's file is
  left empty, because it reads the whole body before writing. Which chunks
  reach the disk before the raise is not modelled.
- `utils.dump_album`, `download_album_files` and the GUI's `dump`/`_download`
  are not modelled as loops. Their per-file step is
  `DownloadEromeThread.DownloadFile`. Their check of the URL's host name is
  not modelled. The window's gallery download is an input `galleryOk`.
- `urlparse` is approximated: scheme up to `://`, authority up to the first
  `/`, `?` or `#`, parameters from the first `;` after the last `/`.
  Percent-decoding and IPv6 hosts are left out. Of `pathlib`'s
  normalisation, only the dropping of trailing `/` and `.` segments is
  modelled, since only the name is used.
- Python's Unicode-aware `lower`, `isspace`, `\w` and `\d` are modelled by
  their ASCII cases.
- Filesystem housekeeping is left out: `clear_all_caches`,
  `clear_master_folder` and `copy_master_folder`. So are the failure of
  `os.remove` in `clear_selected_cache` and `mkdir` errors.
- gui_setup.py and config.py (widget layout, menus, credentials) are not
  part of this model. So is the Qt signal machinery: signals are appends to
  a sequence.
- A cache file is modelled as its list of lines. The model assumes the
  existing content ends with a newline, so that appended URLs start new
  lines.
- `SubredditPass.CacheKeepsAppended`: a cache line is one appended URL, so
  a URL with a `\n` or `\r` inside it is read back as one line. Python
  would read it back as two lines. The same holds for
  `SubredditPass.NoUrlSavedTwice`.
- `SubredditPass.DownloaderThread.Run`: `count` and `new_urls` are locals
  of `run` and are modelled as the out-parameters of `Scan`, not as fields.
- `SubredditPass.DownloaderThread.Run`: the limit is a `nat`. The GUI's
  spin box range 1..100 and the "All" wording of the first log line are
  not modelled.
- `SubredditPass.DownloaderThread.Run`: the closing log line carries the
  folder as joined, not `os.path.abspath` of it.
- `SubredditPass.DownloaderThread.Run`: a fetch that succeeds but whose
  write raises is a failed fetch. An exception in the cache append is not
  modelled.
- `Utils.SkipTransfer`: a `content-length` header that is not a number
  (where `int(...)` raises) is not modelled.
- `Utils.Dedup`: the order of `list(set(...))` is unspecified in Python.
  `Dedup` keeps first occurrences; `DownloadErome` takes the enumeration
  order as an input instead, so its result is stated for every order.
- `Utils.CollectAlbumData`: a missing `og:title` tag is an error, as the
  code raises. There is no fallback to `"temp"`.
- `MediaPasses.GalleryJobOf`: a URL whose path has no non-empty segment
  gives an empty name, and one whose path ends in `/..` gives the name `..`.
  The target then names the album folder itself or the master folder. Python
  either skips it, when the directory's size happens to be within 50 bytes of
  the announced length, or raises on opening a directory and gives up on the
  gallery. The model treats the target as a file and stores the body under
  it.
- `Gui.MainWindow.SearchSubreddits`: Reddit's cap of 100 results is part of
  the input, not checked. A search that raises part-way lists nothing, as
  in the code, because the list is filled only after the loop.
