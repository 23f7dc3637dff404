/** The imageboard-thread pass and the gallery pass of the downloader. Each
    walks a list of media items once, emits a `(i + 1, total)` progress tick
    after every item it finishes, whether or not that item was saved, and gives
    up on the whole batch only when a request raises, either before an answer
    arrives or while its body is read. Network responses are inputs: `resp(i)`
    is the response to the i-th request, None when the request raises before
    an answer arrives. */
module MediaPasses {
  import opened Wrappers
  import opened Text
  import opened Paths
  import opened Utils

  /** An HTTP answer: status, `Content-Length` header and body. `complete` is
      false when reading the body raises part-way (a dropped connection, a
      timeout, fewer bytes than announced); `body` is then the part that
      arrived before the raise. */
  datatype Response = Response(status: int, contentLength: Option<int>, body: Bytes, complete: bool)

  /** The lines the two passes send to the log signal. */
  datatype MediaLog =
    | Saved(path: string)
    | FailedDownload(url: string)
    | ThreadDone(total: nat, folder: string)
    | ThreadError
    | GalleryDone(folder: string)
    | GalleryError

  // ---------------------------------------------------------------------------
  // The thread pass: which posts carry media, and where it goes

  /** A post of the thread JSON, with its `tim` and `ext` keys if present. */
  datatype ChanPost = ChanPost(tim: Option<int>, ext: Option<string>)

  /** The thread JSON; `posts` is None when the key is missing. */
  datatype ThreadJson = ThreadJson(posts: Option<seq<ChanPost>>)

  /** A post that has both keys. */
  datatype MediaItem = MediaItem(tim: int, ext: string)

  /** `[post for post in posts if "tim" in post and "ext" in post]`. */
  function MediaItems(posts: seq<ChanPost>): (r: seq<MediaItem>)
    ensures |r| <= |posts|
    ensures forall k :: 0 <= k < |posts| && posts[k].tim.Some? && posts[k].ext.Some? ==>
              MediaItem(posts[k].tim.value, posts[k].ext.value) in r
    ensures forall m :: m in r ==> ChanPost(Some(m.tim), Some(m.ext)) in posts
  {
    if posts == [] then []
    else
      var p := posts[0];
      var rest := MediaItems(posts[1..]);
      assert forall q :: q in posts[1..] ==> q in posts;
      (if p.tim.Some? && p.ext.Some? then [MediaItem(p.tim.value, p.ext.value)] else []) + rest
  }

  /** The filter keeps document order: it distributes over concatenation. */
  lemma {:induction false} MediaItemsAppend(a: seq<ChanPost>, b: seq<ChanPost>)
    ensures MediaItems(a + b) == MediaItems(a) + MediaItems(b)
    decreases |a|
  {
    if a == [] {
      assert a + b == b;
    } else {
      assert (a + b)[1..] == a[1..] + b;
      MediaItemsAppend(a[1..], b);
    }
  }

  /** `Path(master_folder) / f"4chan_{board}_{thread_id}"`. */
  function ChanFolder(masterFolder: string, board: string, threadId: string): string {
    Join(masterFolder, "4chan_" + board + "_" + threadId)
  }

  /** What one thread pass works on: the save folder, for every media item
      the path it is saved under and the URL it is fetched from, whether a
      link callback is set, and the thread URL it reports. */
  datatype ChanJob = ChanJob(folder: string, files: seq<string>, urls: seq<string>, linkBack: bool, threadUrl: string)

  /** The job of a parsed thread URL and its JSON: every item is fetched from
      the media-URL template and saved as `<tim><ext>` in the thread folder. */
  function ChanJobOf(masterFolder: string, ref: ThreadRef, data: ThreadJson, linkBack: bool, threadUrl: string): (job: ChanJob)
    ensures var items := MediaItems(data.posts.GetOr([]));
            && job.folder == ChanFolder(masterFolder, ref.board, ref.threadId)
            && |job.files| == |items| && |job.urls| == |items|
            && (forall k :: 0 <= k < |items| ==>
                  && job.files[k] == Join(job.folder, MediaFileName(items[k].tim, items[k].ext))
                  && job.urls[k] == MediaUrl(ref.board, items[k].tim, items[k].ext))
  {
    var items := MediaItems(data.posts.GetOr([]));
    var folder := ChanFolder(masterFolder, ref.board, ref.threadId);
    ChanJob(folder,
            seq(|items|, k requires 0 <= k < |items| => Join(folder, MediaFileName(items[k].tim, items[k].ext))),
            seq(|items|, k requires 0 <= k < |items| => MediaUrl(ref.board, items[k].tim, items[k].ext)),
            linkBack, threadUrl)
  }

  /** A saved file is named after the last segment of the URL it came from. */
  lemma ChanFileNamedAfterUrl(masterFolder: string, ref: ThreadRef, data: ThreadJson, linkBack: bool, threadUrl: string, k: nat)
    requires k < |MediaItems(data.posts.GetOr([]))|
    requires '/' !in MediaItems(data.posts.GetOr([]))[k].ext
    ensures var job := ChanJobOf(masterFolder, ref, data, linkBack, threadUrl);
            job.files[k] == Join(job.folder, LastSegment(job.urls[k]))
  {
  }

  predicate ChanJobValid(job: ChanJob) {
    |job.files| == |job.urls|
  }

  /** The effects of the thread loop so far: the positions saved, the files
      written, the progress ticks, the log lines, the callback calls, and
      whether a request raised. */
  datatype ChanState = ChanState(
    saved: seq<nat>,
    writes: seq<FileWrite>,
    ticks: seq<(nat, nat)>,
    events: seq<MediaLog>,
    links: seq<(string, string)>,
    aborted: bool)

  /** Whether item `i`'s request raises: before an answer, or while the body
      of a 200 is read into the already opened (and so emptied) file. */
  predicate ChanBreaks(r: Option<Response>) {
    r.None? || (r.value.status == 200 && !r.value.complete)
  }

  /** The request for item `i`: a 200 is written and reported (and linked),
      anything else is logged; then the tick. A request that raises stops the
      pass; when it raises while a 200's body is read, the file opened for it
      is left empty. */
  function ChanVisit(job: ChanJob, s: ChanState, i: nat, r: Option<Response>): ChanState
    requires ChanJobValid(job) && i < |job.files|
  {
    match r
    case None => s.(aborted := true)
    case Some(resp) =>
      if resp.status == 200 && !resp.complete then
        s.(writes := s.writes + [FileWrite(job.files[i], [])], aborted := true)
      else
      var t :=
        if resp.status == 200 then
          s.(saved := s.saved + [i],
             writes := s.writes + [FileWrite(job.files[i], resp.body)],
             events := s.events + [Saved(job.files[i])],
             links := s.links + (if job.linkBack then [("4chan", job.threadUrl)] else []))
        else s.(events := s.events + [FailedDownload(job.urls[i])]);
      t.(ticks := t.ticks + [(i + 1, |job.files|)])
  }

  /** The state after the first `n` items; after a raise nothing changes. */
  function ChanUpto(job: ChanJob, resp: nat -> Option<Response>, n: nat): ChanState
    requires ChanJobValid(job) && n <= |job.files|
  {
    if n == 0 then ChanState([], [], [], [], [], false)
    else
      var s := ChanUpto(job, resp, n - 1);
      if s.aborted then s else ChanVisit(job, s, n - 1, resp(n - 1))
  }

  /** After a raise, the later items change nothing. */
  lemma {:induction false} ChanUptoFrozen(job: ChanJob, resp: nat -> Option<Response>, i: nat, j: nat)
    requires ChanJobValid(job) && i <= j <= |job.files|
    requires ChanUpto(job, resp, i).aborted
    ensures ChanUpto(job, resp, j) == ChanUpto(job, resp, i)
    decreases j
  {
    if j > i {
      ChanUptoFrozen(job, resp, i, j - 1);
    }
  }

  /** One tick per finished item, `(1, total)`, `(2, total)`, ...; the pass
      finishes every item unless a request raises, and then the raising item
      is the one after the last tick. */
  lemma {:induction false} ChanUptoTicks(job: ChanJob, resp: nat -> Option<Response>, n: nat)
    requires ChanJobValid(job) && n <= |job.files|
    ensures var s := ChanUpto(job, resp, n);
            && |s.ticks| <= n
            && (forall k :: 0 <= k < |s.ticks| ==> s.ticks[k] == (k + 1, |job.files|))
            && (forall j :: 0 <= j < |s.ticks| ==> !ChanBreaks(resp(j)))
            && (s.aborted <==> |s.ticks| < n)
            && (s.aborted ==> ChanBreaks(resp(|s.ticks|)))
  {
    if n > 0 {
      ChanUptoTicks(job, resp, n - 1);
    }
  }

  /** The records of the thread loop belong together: the saved positions
      increase and were all answered with a complete 200, the k-th file
      written is the k-th saved item's path holding the response body, every
      finished item answered with a 200 was saved, and the callback was called
      once per save when it is set. The only other write is the last one, of
      a pass that a body read broke off: the emptied file of the item after
      the last tick. */
  predicate ChanConsistent(job: ChanJob, resp: nat -> Option<Response>, s: ChanState)
    requires ChanJobValid(job)
  {
    && (|s.writes| == |s.saved| || |s.writes| == |s.saved| + 1)
    && (|s.writes| == |s.saved| + 1 ==>
          && s.aborted && |s.ticks| < |job.files|
          && resp(|s.ticks|).Some? && resp(|s.ticks|).value.status == 200 && !resp(|s.ticks|).value.complete
          && s.writes[|s.saved|] == FileWrite(job.files[|s.ticks|], []))
    && |s.links| == (if job.linkBack then |s.saved| else 0)
    && (forall k, l :: 0 <= k < l < |s.saved| ==> s.saved[k] < s.saved[l])
    && (forall k :: 0 <= k < |s.saved| ==>
          && s.saved[k] < |s.ticks| && s.saved[k] < |job.files|
          && resp(s.saved[k]).Some? && resp(s.saved[k]).value.status == 200 && resp(s.saved[k]).value.complete
          && s.writes[k] == FileWrite(job.files[s.saved[k]], resp(s.saved[k]).value.body))
    && (forall j :: 0 <= j < |s.ticks| && resp(j).Some? && resp(j).value.status == 200 ==> j in s.saved)
    && (forall k :: 0 <= k < |s.links| ==> s.links[k] == ("4chan", job.threadUrl))
  }

  lemma {:induction false} ChanUptoConsistent(job: ChanJob, resp: nat -> Option<Response>, n: nat)
    requires ChanJobValid(job) && n <= |job.files|
    ensures ChanConsistent(job, resp, ChanUpto(job, resp, n))
  {
    if n > 0 {
      ChanUptoConsistent(job, resp, n - 1);
      if !ChanUpto(job, resp, n - 1).aborted {
        ChanUptoTicks(job, resp, n - 1);
      }
      ChanUptoStep(job, resp, n);
    }
  }

  /** One more item keeps the invariant: after a raise nothing changes, and
      otherwise the item is visited. */
  lemma ChanUptoStep(job: ChanJob, resp: nat -> Option<Response>, n: nat)
    requires ChanJobValid(job) && 0 < n <= |job.files|
    requires ChanConsistent(job, resp, ChanUpto(job, resp, n - 1))
    requires !ChanUpto(job, resp, n - 1).aborted ==> |ChanUpto(job, resp, n - 1).ticks| == n - 1
    ensures ChanConsistent(job, resp, ChanUpto(job, resp, n))
  {
    var s := ChanUpto(job, resp, n - 1);
    var t := ChanUpto(job, resp, n);
    if s.aborted {
      ChanConsistentSame(job, resp, s, t);
    } else {
      ChanVisitConsistent(job, resp, s, n - 1);
      ChanConsistentSame(job, resp, ChanVisit(job, s, n - 1, resp(n - 1)), t);
    }
  }

  lemma ChanConsistentSame(job: ChanJob, resp: nat -> Option<Response>, s: ChanState, t: ChanState)
    requires ChanJobValid(job) && s == t && ChanConsistent(job, resp, s)
    ensures ChanConsistent(job, resp, t)
  {
  }

  lemma ChanVisitConsistent(job: ChanJob, resp: nat -> Option<Response>, s: ChanState, i: nat)
    requires ChanJobValid(job) && i < |job.files| && |s.ticks| == i && !s.aborted
    requires ChanConsistent(job, resp, s)
    ensures ChanConsistent(job, resp, ChanVisit(job, s, i, resp(i)))
  {
    if resp(i).Some? {
      if resp(i).value.status == 200 && !resp(i).value.complete {
        ChanBreakConsistent(job, resp, s, i);
      } else if resp(i).value.status == 200 {
        ChanSaveConsistent(job, resp, s, i);
      } else {
        ChanFailConsistent(job, resp, s, i);
      }
    }
  }

  lemma ChanBreakConsistent(job: ChanJob, resp: nat -> Option<Response>, s: ChanState, i: nat)
    requires ChanJobValid(job) && i < |job.files| && |s.ticks| == i && !s.aborted
    requires resp(i).Some? && resp(i).value.status == 200 && !resp(i).value.complete
    requires ChanConsistent(job, resp, s)
    ensures ChanConsistent(job, resp, s.(writes := s.writes + [FileWrite(job.files[i], [])], aborted := true))
  {
  }

  lemma ChanSaveConsistent(job: ChanJob, resp: nat -> Option<Response>, s: ChanState, i: nat)
    requires ChanJobValid(job) && i < |job.files| && |s.ticks| == i && !s.aborted
    requires resp(i).Some? && resp(i).value.status == 200 && resp(i).value.complete
    requires ChanConsistent(job, resp, s)
    ensures ChanConsistent(job, resp, ChanState(
              s.saved + [i], s.writes + [FileWrite(job.files[i], resp(i).value.body)],
              s.ticks + [(i + 1, |job.files|)], s.events + [Saved(job.files[i])],
              s.links + (if job.linkBack then [("4chan", job.threadUrl)] else []), false))
  {
  }

  lemma ChanFailConsistent(job: ChanJob, resp: nat -> Option<Response>, s: ChanState, i: nat)
    requires ChanJobValid(job) && i < |job.files| && |s.ticks| == i && !s.aborted
    requires resp(i).Some? && resp(i).value.status != 200
    requires ChanConsistent(job, resp, s)
    ensures ChanConsistent(job, resp, ChanState(
              s.saved, s.writes, s.ticks + [(i + 1, |job.files|)], s.events + [FailedDownload(job.urls[i])],
              s.links, false))
  {
  }

  /** A non-200 answer does not stop the pass: when no request raises, every
      item gets its tick. */
  lemma ChanFailureContinues(job: ChanJob, resp: nat -> Option<Response>)
    requires ChanJobValid(job)
    requires forall j :: 0 <= j < |job.files| ==> !ChanBreaks(resp(j))
    ensures !ChanUpto(job, resp, |job.files|).aborted
    ensures |ChanUpto(job, resp, |job.files|).ticks| == |job.files|
  {
    ChanUptoTicks(job, resp, |job.files|);
  }

  // ---------------------------------------------------------------------------
  // The gallery pass: download_file and its skip test

  /** What `download_file` does with one URL. */
  datatype FileAction =
    | Raise                       // the request raised
    | Reject                      // not `r.ok`: an error line, nothing written
    | Skip                        // already downloaded: a skip line, nothing written
    | Write(content: Bytes)       // the body written to the target path
    | Truncate(content: Bytes)    // the target opened, the part that arrived written, then a raise

  /** `r.ok` of an HTTP client: any status below 400. */
  predicate IsOk(status: int) {
    status < 400
  }

  /** `download_path / Path(urlparse(url).path).name`. */
  function TargetPath(folder: string, url: string): string {
    Join(folder, BaseName(url))
  }

  /** The size of the file at `path`, 0 when there is none. */
  function LocalSize(files: map<string, Bytes>, path: string): nat {
    if path in files then |files[path]| else 0
  }

  /** `download_file` for a URL whose target is `path`, against the files on
      disk. */
  function FileStep(files: map<string, Bytes>, path: string, r: Option<Response>): FileAction {
    match r
    case None => Raise
    case Some(resp) =>
      if !IsOk(resp.status) then Reject
      else if SkipTransfer(path in files, LocalSize(files, path), resp.contentLength) then Skip
      else if resp.complete then Write(resp.body)
      else Truncate(resp.body)
  }

  /** The files after an action: only a write, whole or cut short, changes
      them, and only at the target. */
  function ApplyFile(files: map<string, Bytes>, path: string, a: FileAction): map<string, Bytes> {
    if a.Write? || a.Truncate? then files[path := a.content] else files
  }

  /** Whether the action ends in a raise, which gives up on the pass. */
  predicate Raises(a: FileAction) {
    a.Raise? || a.Truncate?
  }

  /** A transfer is written exactly when the answer is ok and the target is
      not already there within the size tolerance; if reading the body raises,
      the target keeps the part that arrived. A raise before the answer, a
      non-ok answer and a skip leave the files as they were. */
  lemma FileStepCases(files: map<string, Bytes>, path: string, r: Option<Response>)
    ensures var a := FileStep(files, path, r);
            && (a == Raise <==> r.None?)
            && (a == Reject <==> r.Some? && !IsOk(r.value.status))
            && (a == Skip <==> r.Some? && IsOk(r.value.status)
                               && SkipTransfer(path in files, LocalSize(files, path), r.value.contentLength))
            && (a.Write? <==> r.Some? && IsOk(r.value.status) && r.value.complete
                              && !SkipTransfer(path in files, LocalSize(files, path), r.value.contentLength))
            && (a.Truncate? <==> r.Some? && IsOk(r.value.status) && !r.value.complete
                                 && !SkipTransfer(path in files, LocalSize(files, path), r.value.contentLength))
            && (a.Write? || a.Truncate? ==> a.content == r.value.body && ApplyFile(files, path, a) == files[path := r.value.body])
            && (!a.Write? && !a.Truncate? ==> ApplyFile(files, path, a) == files)
  {
  }

  /** Downloading the same URL again, when the server announces the size of
      the body written the first time (up to 50 bytes), skips the transfer.
      This holds for a body cut short too: a target missing no more than 50
      bytes of the announced size is never fetched again. */
  lemma DownloadAgainSkips(files: map<string, Bytes>, path: string, r1: Response, r2: Response)
    requires FileStep(files, path, Some(r1)).Write? || FileStep(files, path, Some(r1)).Truncate?
    requires IsOk(r2.status)
    requires r2.contentLength.Some? && Abs(r2.contentLength.value - |r1.body|) <= SizeTolerance
    ensures FileStep(ApplyFile(files, path, FileStep(files, path, Some(r1))), path, Some(r2)) == Skip
  {
  }

  /** The console lines `tqdm.write` prints. */
  datatype ConsoleLine = Skipping(url: string) | TransferFailed(url: string)

  function ConsoleFor(url: string, a: FileAction): seq<ConsoleLine> {
    match a
    case Reject => [TransferFailed(url)]
    case Skip => [Skipping(url)]
    case _ => []
  }

  /** What one gallery pass works on: the URLs and, for each, its target. */
  datatype GalleryJob = GalleryJob(urls: seq<string>, targets: seq<string>)

  function GalleryJobOf(folder: string, urls: seq<string>): (job: GalleryJob)
    ensures job.urls == urls && |job.targets| == |urls|
    ensures forall k :: 0 <= k < |urls| ==> job.targets[k] == TargetPath(folder, urls[k])
  {
    GalleryJob(urls, seq(|urls|, k requires 0 <= k < |urls| => TargetPath(folder, urls[k])))
  }

  /** Each target is named after its URL: the string `folder/<base name>`
      for a folder without a trailing `/`, and in every case a path whose
      last segment is the URL's base name. For a base name of `""` or `..`
      that path names the folder itself or its parent, not a file in it. */
  lemma GalleryTargetInFolder(folder: string, urls: seq<string>, k: nat)
    requires k < |urls|
    ensures folder != [] && folder[|folder| - 1] != '/' ==>
              GalleryJobOf(folder, urls).targets[k] == folder + "/" + BaseName(urls[k])
    ensures LastSegment(GalleryJobOf(folder, urls).targets[k]) == BaseName(urls[k])
  {
    var name := BaseName(urls[k]);
    assert name == [] || name[0] != '/' by {
      if name != [] {
        assert name[0] in name;
      }
    }
    if folder == [] || folder[|folder| - 1] == '/' {
      LastSegmentAppend(folder, name);
      LastSegmentOfDir(folder);
      assert folder + name == Join(folder, name);
    } else {
      LastSegmentAfterSlash(folder, name);
    }
  }

  predicate GalleryJobValid(job: GalleryJob) {
    |job.targets| == |job.urls|
  }

  /** The effects of the gallery loop so far: the files on disk, the
      progress ticks, the console lines, and whether a request raised. */
  datatype GalleryState = GalleryState(
    files: map<string, Bytes>,
    ticks: seq<(nat, nat)>,
    console: seq<ConsoleLine>,
    aborted: bool)

  /** One item of `download_erome`: `download_file`, then the tick; a raise
      gives up on the pass, after what it wrote. */
  function GalleryVisit(job: GalleryJob, s: GalleryState, i: nat, r: Option<Response>): GalleryState
    requires GalleryJobValid(job) && i < |job.urls|
  {
    var a := FileStep(s.files, job.targets[i], r);
    if Raises(a) then s.(files := ApplyFile(s.files, job.targets[i], a), aborted := true)
    else
      GalleryState(ApplyFile(s.files, job.targets[i], a), s.ticks + [(i + 1, |job.urls|)],
                   s.console + ConsoleFor(job.urls[i], a), false)
  }

  /** The parts of one gallery step: the files as the action leaves them,
      and a tick and console line only when it does not raise. */
  lemma GalleryVisitParts(job: GalleryJob, s: GalleryState, i: nat, r: Option<Response>)
    requires GalleryJobValid(job) && i < |job.urls|
    ensures var a := FileStep(s.files, job.targets[i], r);
            var t := GalleryVisit(job, s, i, r);
            && t.files == ApplyFile(s.files, job.targets[i], a)
            && t.aborted == Raises(a)
            && t.ticks == (if Raises(a) then s.ticks else s.ticks + [(i + 1, |job.urls|)])
            && t.console == (if Raises(a) then s.console else s.console + ConsoleFor(job.urls[i], a))
  {
  }

  function GalleryUpto(job: GalleryJob, resp: nat -> Option<Response>, files: map<string, Bytes>, n: nat): GalleryState
    requires GalleryJobValid(job) && n <= |job.urls|
  {
    if n == 0 then GalleryState(files, [], [], false)
    else
      var s := GalleryUpto(job, resp, files, n - 1);
      if s.aborted then s else GalleryVisit(job, s, n - 1, resp(n - 1))
  }

  lemma {:induction false} GalleryUptoFrozen(job: GalleryJob, resp: nat -> Option<Response>, files: map<string, Bytes>, i: nat, j: nat)
    requires GalleryJobValid(job) && i <= j <= |job.urls|
    requires GalleryUpto(job, resp, files, i).aborted
    ensures GalleryUpto(job, resp, files, j) == GalleryUpto(job, resp, files, i)
    decreases j
  {
    if j > i {
      GalleryUptoFrozen(job, resp, files, i, j - 1);
    }
  }

  /** One tick per finished item, and only a raise stops the pass. */
  lemma {:induction false} GalleryUptoTicks(job: GalleryJob, resp: nat -> Option<Response>, files: map<string, Bytes>, n: nat)
    requires GalleryJobValid(job) && n <= |job.urls|
    ensures var s := GalleryUpto(job, resp, files, n);
            && |s.ticks| <= n
            && (forall k :: 0 <= k < |s.ticks| ==> s.ticks[k] == (k + 1, |job.urls|))
            && (forall j :: 0 <= j < |s.ticks| ==> resp(j).Some?)
            && (s.aborted <==> |s.ticks| < n)
            && (s.aborted ==> resp(|s.ticks|).None? || (IsOk(resp(|s.ticks|).value.status) && !resp(|s.ticks|).value.complete))
  {
    if n > 0 {
      GalleryUptoTicks(job, resp, files, n - 1);
    }
  }

  /** The pass keeps every file that was there and changes only the targets
      of URLs it fetched with an ok answer. */
  lemma {:induction false} GalleryUptoFrame(job: GalleryJob, resp: nat -> Option<Response>, files: map<string, Bytes>, n: nat)
    requires GalleryJobValid(job) && n <= |job.urls|
    ensures var s := GalleryUpto(job, resp, files, n);
            && files.Keys <= s.files.Keys
            && forall p :: p in s.files && (p !in files || s.files[p] != files[p]) ==>
                 exists j :: 0 <= j < n && resp(j).Some? && IsOk(resp(j).value.status) && p == job.targets[j]
  {
    if n > 0 {
      GalleryUptoFrame(job, resp, files, n - 1);
      var s := GalleryUpto(job, resp, files, n - 1);
      if !s.aborted {
        FileStepCases(s.files, job.targets[n - 1], resp(n - 1));
      }
    }
  }

  // ---------------------------------------------------------------------------
  // The thread objects

  class Download4chanThread {
    const url: string
    const masterFolder: string
    /** Whether `log_link_callback` was given. */
    const linkBack: bool

    var dirs: set<string>
    var written: seq<FileWrite>
    var progress: seq<(nat, nat)>
    var log: seq<MediaLog>
    /** The `(site, url)` pairs passed to the link callback. */
    var links: seq<(string, string)>

    constructor (url: string, masterFolder: string, linkBack: bool)
      ensures this.url == url && this.masterFolder == masterFolder && this.linkBack == linkBack
      ensures dirs == {} && written == [] && progress == [] && log == [] && links == []
    {
      this.url := url;
      this.masterFolder := masterFolder;
      this.linkBack := linkBack;
      dirs := {};
      written := [];
      progress := [];
      log := [];
      links := [];
    }

    /** `download_4chan_thread`. `data` is None when fetching the thread JSON
        raises (a non-200 answer included). */
    method DownloadThread(data: Option<ThreadJson>, resp: nat -> Option<Response>)
      modifies this
      ensures ParseThreadUrl(url).Err? || data.None? ==>
                log == old(log) + [ThreadError] && dirs == old(dirs) && written == old(written)
                && progress == old(progress) && links == old(links)
      ensures ParseThreadUrl(url).Ok? && data.Some? ==>
                var job := ChanJobOf(masterFolder, ParseThreadUrl(url).value, data.value, linkBack, url);
                var s := ChanUpto(job, resp, |job.files|);
                && dirs == old(dirs) + {job.folder}
                && written == old(written) + s.writes
                && progress == old(progress) + s.ticks
                && links == old(links) + s.links
                && log == old(log) + s.events + [if s.aborted then ThreadError else ThreadDone(|job.files|, job.folder)]
    {
      var parsed := ParseThreadUrl(url);
      if parsed.Err? || data.None? {
        log := log + [ThreadError];
        return;
      }
      var job := ChanJobOf(masterFolder, parsed.value, data.value, linkBack, url);
      dirs := dirs + {job.folder};
      RunJob(job, resp);
    }

    /** The loop over the media items and the closing log line. */
    method RunJob(job: ChanJob, resp: nat -> Option<Response>)
      requires ChanJobValid(job) && job.linkBack == linkBack && job.threadUrl == url
      modifies this
      ensures var s := ChanUpto(job, resp, |job.files|);
              && written == old(written) + s.writes
              && progress == old(progress) + s.ticks
              && links == old(links) + s.links
              && log == old(log) + s.events + [if s.aborted then ThreadError else ThreadDone(|job.files|, job.folder)]
      ensures dirs == old(dirs)
    {
      ghost var s := ChanUpto(job, resp, 0);
      var i := 0;
      var aborted := false;
      while i < |job.files| && !aborted
        invariant i <= |job.files| && s == ChanUpto(job, resp, i) && aborted == s.aborted
        invariant written == old(written) + s.writes && progress == old(progress) + s.ticks
        invariant links == old(links) + s.links && log == old(log) + s.events
        invariant dirs == old(dirs)
      {
        aborted, s := VisitItem(job, resp, i, s, old(written), old(progress), old(links), old(log));
        i := i + 1;
      }
      if i < |job.files| {
        ChanUptoFrozen(job, resp, i, |job.files|);
      }
      if aborted {
        log := log + [ThreadError];
      } else {
        log := log + [ThreadDone(|job.files|, job.folder)];
      }
    }

    /** One turn of the `for i, post in enumerate(images)` loop. */
    method VisitItem(job: ChanJob, resp: nat -> Option<Response>, i: nat, ghost s: ChanState,
                     ghost written0: seq<FileWrite>, ghost progress0: seq<(nat, nat)>,
                     ghost links0: seq<(string, string)>, ghost log0: seq<MediaLog>)
      returns (aborted: bool, ghost s': ChanState)
      requires ChanJobValid(job) && i < |job.files| && job.linkBack == linkBack && job.threadUrl == url
      requires !s.aborted
      requires written == written0 + s.writes && progress == progress0 + s.ticks
      requires links == links0 + s.links && log == log0 + s.events
      modifies this
      ensures s' == ChanVisit(job, s, i, resp(i)) && aborted == s'.aborted
      ensures written == written0 + s'.writes && progress == progress0 + s'.ticks
      ensures links == links0 + s'.links && log == log0 + s'.events
      ensures dirs == old(dirs)
    {
      s' := ChanVisit(job, s, i, resp(i));
      var r := resp(i);
      if r.None? {
        return true, s';
      }
      if r.value.status == 200 {
        if !r.value.complete {
          written := written + [FileWrite(job.files[i], [])];
          return true, s';
        }
        written := written + [FileWrite(job.files[i], r.value.body)];
        log := log + [Saved(job.files[i])];
        if linkBack {
          links := links + [("4chan", url)];
        }
      } else {
        log := log + [FailedDownload(job.urls[i])];
      }
      progress := progress + [(i + 1, |job.files|)];
      aborted := false;
    }
  }

  /** `order` lists the members of the duplicate-free `urls`, each once. */
  ghost predicate IsEnumeration(order: seq<string>, urls: seq<string>) {
    && (forall i, j :: 0 <= i < j < |order| ==> order[i] != order[j])
    && (forall i, j :: 0 <= i < j < |urls| ==> urls[i] != urls[j])
    && (forall u :: u in order <==> u in urls)
  }

  /** Two duplicate-free listings of the same URLs have the same length, so
      the progress total `len(urls)` does not depend on the order. */
  lemma EnumerationLength(order: seq<string>, urls: seq<string>)
    requires IsEnumeration(order, urls)
    ensures |order| == |urls|
  {
    DistinctCard(order);
    DistinctCard(urls);
    assert (set u | u in order) == (set u | u in urls);
  }

  lemma {:induction false} DistinctCard(xs: seq<string>)
    requires forall i, j :: 0 <= i < j < |xs| ==> xs[i] != xs[j]
    ensures |set u | u in xs| == |xs|
    decreases |xs|
  {
    if xs != [] {
      var init := xs[..|xs| - 1];
      DistinctCard(init);
      assert (set u | u in xs) == (set u | u in init) + {xs[|xs| - 1]};
      assert xs[|xs| - 1] !in init;
    }
  }

  /** The gallery thread (`DownloadEromeThread`) together with the files it
      finds on disk and the console lines of `download_file`. */
  class DownloadEromeThread {
    const url: string
    const masterFolder: string

    var dirs: set<string>
    /** The files on disk, by path. */
    var files: map<string, Bytes>
    var progress: seq<(nat, nat)>
    var log: seq<MediaLog>
    var console: seq<ConsoleLine>

    constructor (url: string, masterFolder: string, files: map<string, Bytes>)
      ensures this.url == url && this.masterFolder == masterFolder && this.files == files
      ensures dirs == {} && progress == [] && log == [] && console == []
    {
      this.url := url;
      this.masterFolder := masterFolder;
      this.files := files;
      dirs := {};
      progress := [];
      log := [];
      console := [];
    }

    /** `download_file(session, fileUrl, semaphore, folder)`; `raised` when
        the request raised. */
    method DownloadFile(fileUrl: string, path: string, r: Option<Response>) returns (raised: bool)
      modifies this
      ensures var a := FileStep(old(files), path, r);
              && raised == Raises(a)
              && files == ApplyFile(old(files), path, a)
              && console == old(console) + ConsoleFor(fileUrl, a)
      ensures dirs == old(dirs) && progress == old(progress) && log == old(log)
    {
      if r.None? {
        return true;
      }
      raised := false;
      var resp := r.value;
      if IsOk(resp.status) {
        var present := path in files;
        var size := if present then |files[path]| else 0;
        if SkipTransfer(present, size, resp.contentLength) {
          console := console + [Skipping(fileUrl)];
          return;
        }
        files := files[path := resp.body];
        raised := !resp.complete;
      } else {
        console := console + [TransferFailed(fileUrl)];
      }
    }

    /** `download_erome`. `page` is None when fetching the album page raises;
        the album is scraped with neither kind of media skipped. `order` is
        the order in which `list(set(...))` enumerates the scraped URLs,
        which Python leaves to string hashing: any duplicate-free listing of
        exactly those URLs. */
    method DownloadErome(page: Option<AlbumPage>, order: seq<string>, resp: nat -> Option<Response>)
      requires page.Some? && CollectAlbumData(page.value, false, false).Ok? ==>
                 IsEnumeration(order, CollectAlbumData(page.value, false, false).value.1)
      modifies this
      ensures page.None? || CollectAlbumData(page.value, false, false).Err? ==>
                log == old(log) + [GalleryError] && dirs == old(dirs) && files == old(files)
                && progress == old(progress) && console == old(console)
      ensures page.Some? && CollectAlbumData(page.value, false, false).Ok? ==>
                var album := CollectAlbumData(page.value, false, false).value;
                var folder := Join(masterFolder, album.0);
                var s := GalleryUpto(GalleryJobOf(folder, order), resp, old(files), |order|);
                && |order| == |album.1|
                && dirs == old(dirs) + {folder}
                && files == s.files
                && progress == old(progress) + s.ticks
                && console == old(console) + s.console
                && log == old(log) + [if s.aborted then GalleryError else GalleryDone(folder)]
    {
      if page.None? {
        log := log + [GalleryError];
        return;
      }
      var scraped := CollectAlbumData(page.value, false, false);
      if scraped.Err? {
        log := log + [GalleryError];
        return;
      }
      EnumerationLength(order, scraped.value.1);
      var folder := Join(masterFolder, scraped.value.0);
      dirs := dirs + {folder};
      var job := GalleryJobOf(folder, order);
      var aborted := RunGallery(job, resp);
      if aborted {
        log := log + [GalleryError];
      } else {
        log := log + [GalleryDone(folder)];
      }
    }

    /** The `for i, url in enumerate(urls)` loop. */
    method RunGallery(job: GalleryJob, resp: nat -> Option<Response>) returns (aborted: bool)
      requires GalleryJobValid(job)
      modifies this
      ensures var s := GalleryUpto(job, resp, old(files), |job.urls|);
              && aborted == s.aborted && files == s.files
              && progress == old(progress) + s.ticks && console == old(console) + s.console
      ensures dirs == old(dirs) && log == old(log)
    {
      ghost var s := GalleryUpto(job, resp, files, 0);
      var i := 0;
      aborted := false;
      while i < |job.urls| && !aborted
        invariant i <= |job.urls| && s == GalleryUpto(job, resp, old(files), i) && aborted == s.aborted
        invariant files == s.files && progress == old(progress) + s.ticks && console == old(console) + s.console
        invariant dirs == old(dirs) && log == old(log)
      {
        aborted, s := VisitUrl(job, resp, i, s, old(progress), old(console));
        i := i + 1;
      }
      if i < |job.urls| {
        GalleryUptoFrozen(job, resp, old(files), i, |job.urls|);
      }
    }

    /** One turn of the `for i, url in enumerate(urls)` loop. */
    method VisitUrl(job: GalleryJob, resp: nat -> Option<Response>, i: nat, ghost s: GalleryState,
                    ghost progress0: seq<(nat, nat)>, ghost console0: seq<ConsoleLine>)
      returns (aborted: bool, ghost s': GalleryState)
      requires GalleryJobValid(job) && i < |job.urls|
      requires files == s.files && progress == progress0 + s.ticks && console == console0 + s.console
      modifies this
      ensures s' == GalleryVisit(job, s, i, resp(i)) && aborted == s'.aborted
      ensures files == s'.files && progress == progress0 + s'.ticks && console == console0 + s'.console
      ensures dirs == old(dirs) && log == old(log)
    {
      aborted := DownloadFile(job.urls[i], job.targets[i], resp(i));
      if !aborted {
        progress := progress + [(i + 1, |job.urls|)];
      }
      GalleryVisitParts(job, s, i, resp(i));
      s' := GalleryVisit(job, s, i, resp(i));
    }
  }
}
