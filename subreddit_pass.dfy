/** The subreddit download pass (`DownloaderThread.run`). The Reddit client,
    the image fetches and the file system are inputs: the subreddit record,
    the hot listing, and one fetch outcome per listing position. The pass is
    specified by the pure fold `Upto`; the class runs the loop and is proved
    to end in the state that fold describes. */
module SubredditPass {
  import opened Wrappers
  import opened Text
  import opened Paths

  // ---------------------------------------------------------------------------
  // Naming

  /** The characters the class `[\w-]` keeps. */
  predicate IsSafeChar(c: char) {
    IsWordChar(c) || c == '-'
  }

  /** Replaces every character outside `[\w-]` by `_`. */
  function SafeChars(s: string): (r: string)
    ensures |r| == |s|
    ensures forall i :: 0 <= i < |s| ==> IsSafeChar(r[i])
    ensures forall i :: 0 <= i < |s| ==> (IsSafeChar(s[i]) ==> r[i] == s[i]) && (!IsSafeChar(s[i]) ==> r[i] == '_')
  {
    seq(|s|, i requires 0 <= i < |s| => if IsSafeChar(s[i]) then s[i] else '_')
  }

  /** `safe_name`: the name lower-cased, with `r/` removed, then sanitised. */
  function SafeName(name: string): (r: string)
    ensures forall i :: 0 <= i < |r| ==> IsSafeChar(r[i]) && !IsUpper(r[i])
  {
    var removed := RemoveAll(Lower(name), "r/");
    assert forall c :: c in removed ==> !IsUpper(c);
    SafeChars(removed)
  }

  /** Sanitising a sanitised name changes nothing. */
  lemma SafeNameIdempotent(name: string)
    ensures SafeName(SafeName(name)) == SafeName(name)
  {
    var s := SafeName(name);
    assert Lower(s) == s;
    NotContainsMissingChar(s, "r/", '/');
    RemoveAllAbsent(s, "r/");
    assert SafeChars(s) == s;
  }

  function SubfolderName(name: string): string {
    "r_" + SafeName(name)
  }

  function DownloadFolder(masterFolder: string, name: string): string {
    Join(masterFolder, SubfolderName(name))
  }

  function CachePath(cacheFolder: string, name: string): string {
    Join(cacheFolder, SubfolderName(name) + ".txt")
  }

  // ---------------------------------------------------------------------------
  // The gate and the post filter

  /** The SFW/NSFW filter: an adult subreddit needs `allowNsfw`, any other
      needs `allowSfw`. */
  predicate Admits(over18: bool, allowSfw: bool, allowNsfw: bool) {
    !((over18 && !allowNsfw) || (!over18 && !allowSfw))
  }

  /** The URL, lower-cased, ends in one of the image extensions. */
  predicate IsImageUrl(url: string) {
    EndsWithAny(Lower(url), ImageExtensions)
  }

  /** Python's `s.endswith(suffixes)` for a tuple of suffixes. */
  predicate EndsWithAny(s: string, suffixes: seq<string>) {
    suffixes != [] && (EndsWith(s, suffixes[0]) || EndsWithAny(s, suffixes[1..]))
  }

  /** A post is fetched when its stripped URL is an image URL not cached. */
  predicate Eligible(url: string, cached: set<string>) {
    IsImageUrl(url) && url !in cached
  }

  /** `s.endswith(suffixes)` holds exactly when one of the suffixes ends `s`. */
  lemma {:induction false} EndsWithAnyIff(s: string, suffixes: seq<string>)
    ensures EndsWithAny(s, suffixes) <==> exists x :: x in suffixes && EndsWith(s, x)
    decreases |suffixes|
  {
    if suffixes != [] {
      EndsWithAnyIff(s, suffixes[1..]);
      assert forall x :: x in suffixes <==> x == suffixes[0] || x in suffixes[1..];
    }
  }

  /** A post is fetched exactly when its URL, lower-cased, ends in `.jpg`,
      `.jpeg`, `.png` or `.gif` and the URL is not in the cache. */
  lemma EligibleIff(url: string, cached: set<string>)
    ensures Eligible(url, cached) <==>
              && url !in cached
              && (|| EndsWith(Lower(url), ".jpg") || EndsWith(Lower(url), ".jpeg")
                  || EndsWith(Lower(url), ".png") || EndsWith(Lower(url), ".gif"))
  {
    EndsWithAnyIff(Lower(url), ImageExtensions);
    assert forall x :: x in ImageExtensions <==> x == ".jpg" || x == ".jpeg" || x == ".png" || x == ".gif";
  }

  /** A string ending in one of several suffixes is at least as long as the
      shortest of them. */
  lemma {:induction false} EndsWithAnyLength(s: string, suffixes: seq<string>, n: nat)
    requires EndsWithAny(s, suffixes)
    requires forall k :: 0 <= k < |suffixes| ==> |suffixes[k]| >= n
    ensures |s| >= n
    decreases |suffixes|
  {
    if !EndsWith(s, suffixes[0]) {
      EndsWithAnyLength(s, suffixes[1..], n);
    }
  }

  /** An image URL has at least four characters, so it is never empty. */
  lemma ImageUrlNonEmpty(url: string)
    requires IsImageUrl(url)
    ensures |url| >= 4
  {
    EndsWithAnyLength(Lower(url), ImageExtensions, 4);
  }

  // ---------------------------------------------------------------------------
  // The cache file, as the lines it holds

  /** The set of stripped, non-empty lines of a cache file. */
  function LoadCache(lines: seq<string>): set<string> {
    set l | l in lines && Strip(l) != [] :: Strip(l)
  }

  /** The URLs cached under `path`; a missing file caches nothing. */
  function CachedSet(cacheFiles: map<string, seq<string>>, path: string): set<string> {
    if path in cacheFiles then LoadCache(cacheFiles[path]) else {}
  }

  /** Appending one line per new URL, in order; with no new URL the file is
      not opened at all. */
  function AppendCache(cacheFiles: map<string, seq<string>>, path: string, urls: seq<string>): map<string, seq<string>> {
    if urls == [] then cacheFiles
    else cacheFiles[path := (if path in cacheFiles then cacheFiles[path] else []) + urls]
  }

  /** Appending stripped URLs to a cache file adds exactly those URLs to the
      set read back from it. */
  lemma CacheKeepsAppended(lines: seq<string>, urls: seq<string>)
    requires forall k :: 0 <= k < |urls| ==> urls[k] != [] && Strip(urls[k]) == urls[k]
    ensures LoadCache(lines + urls) == LoadCache(lines) + set u | u in urls
  {
    forall u | u in urls ensures u in LoadCache(lines + urls) {
      assert u in lines + urls;
    }
    forall u | u in LoadCache(lines + urls) ensures u in LoadCache(lines) || u in urls {
      var l :| l in lines + urls && Strip(l) != [] && Strip(l) == u;
      if l !in lines {
        assert l in urls;
      }
    }
  }

  // ---------------------------------------------------------------------------
  // The pass as a pure fold over the listing

  datatype Post = Post(id: string, url: string)

  /** The lazy handle `reddit.subreddit(name)` returns: its display name is
      known without a request, while reading `over18` fetches the subreddit,
      so `over18` is None when that fetch raises (a missing, banned or
      unreachable subreddit). */
  datatype Subreddit = Subreddit(displayName: string, over18: Option<bool>)

  /** `requests.get(url).content` followed by the file write: the bytes saved,
      or an exception (a connection error or a failed write). */
  datatype Fetch = Fetched(content: Bytes) | Failed

  /** The messages the pass sends to the log signal. */
  datatype LogLine =
    | Starting(limit: nat, displayName: string)
    | FilterMismatch
    | Saved(path: string)
    | FetchFailed(url: string)
    | NoNewImages
    | Downloaded(count: nat, folder: string)
    | Error

  /** What the loop works with, fixed before it starts. */
  datatype Config = Config(folder: string, subfolder: string, cached: set<string>, limit: nat, total: nat)

  /** `total_target`: the limit, or the listing length when the limit is 0. */
  function TotalTarget(limit: nat, postCount: nat): nat {
    if limit == 0 then postCount else limit
  }

  function Configure(masterFolder: string, cacheFolder: string, name: string, limit: nat,
                     cacheFiles: map<string, seq<string>>, postCount: nat): Config {
    Config(DownloadFolder(masterFolder, name), SubfolderName(name),
           CachedSet(cacheFiles, CachePath(cacheFolder, name)), limit, TotalTarget(limit, postCount))
  }

  /** `<folder>/<subfolder>_<count>_<post id><extension>`. */
  function SavePath(cfg: Config, count: nat, id: string, url: string): string {
    Join(cfg.folder, cfg.subfolder + "_" + NatToString(count) + "_" + id + Extension(url))
  }

  /** What one iteration does with a post: nothing (it is filtered out), a
      logged failure, or a save of the fetched bytes under a file name. */
  datatype Step = Skip | Failure(url: string) | Save(url: string, path: string, content: Bytes)

  /** The body of the loop for one post, after `count` earlier saves. */
  function Decide(cfg: Config, count: nat, post: Post, fetch: Fetch): Step {
    var url := Strip(post.url);
    if !Eligible(url, cfg.cached) then Skip
    else
      match fetch
      case Failed => Failure(url)
      case Fetched(content) => Save(url, SavePath(cfg, count, post.id, url), content)
  }

  /** A step is a save exactly when the stripped URL is eligible and the fetch
      succeeded; it then records that URL, the fetched bytes and the file
      name numbered `count`. A failure is an eligible post whose fetch
      failed. */
  lemma DecideCases(cfg: Config, count: nat, post: Post, fetch: Fetch)
    ensures Decide(cfg, count, post, fetch).Save? <==> Eligible(Strip(post.url), cfg.cached) && fetch.Fetched?
    ensures Decide(cfg, count, post, fetch).Failure? <==> Eligible(Strip(post.url), cfg.cached) && fetch.Failed?
    ensures Decide(cfg, count, post, fetch).Save? ==>
              Decide(cfg, count, post, fetch) ==
              Save(Strip(post.url), SavePath(cfg, count, post.id, Strip(post.url)), fetch.content)
    ensures Decide(cfg, count, post, fetch).Failure? ==> Decide(cfg, count, post, fetch).url == Strip(post.url)
  {
  }

  /** The loop body for every listing position: `step(count, i)` is what the
      iteration for post `i` does after `count` saves. */
  function Steps(cfg: Config, posts: seq<Post>, fetch: nat -> Fetch): (nat, nat) -> Step {
    (count: nat, i: nat) => if i < |posts| then Decide(cfg, count, posts[i], fetch(i)) else Skip
  }

  lemma StepsAt(cfg: Config, posts: seq<Post>, fetch: nat -> Fetch, count: nat, i: nat)
    requires i < |posts|
    ensures Steps(cfg, posts, fetch)(count, i) == Decide(cfg, count, posts[i], fetch(i))
  {
  }

  /** The effects of the loop so far: the listing positions saved, the URLs
      recorded for the cache, the files written, the progress ticks after
      the initial one, and the log lines. */
  datatype PassState = PassState(
    saved: seq<nat>,
    urls: seq<string>,
    writes: seq<FileWrite>,
    ticks: seq<(nat, nat)>,
    events: seq<LogLine>)

  predicate LimitReached(cfg: Config, count: nat) {
    cfg.limit > 0 && count >= cfg.limit
  }

  /** Carries out one step for listing position `i`. */
  function Apply(cfg: Config, s: PassState, i: nat, step: Step): PassState {
    match step
    case Skip => s
    case Failure(url) => s.(events := s.events + [FetchFailed(url)])
    case Save(url, path, content) =>
      PassState(s.saved + [i], s.urls + [url], s.writes + [FileWrite(path, content)],
                s.ticks + [(|s.saved| + 1, cfg.total)], s.events + [Saved(path)])
  }

  /** The state after the loop has considered the first `n` positions; once
      the limit is reached the loop has broken off and nothing changes. */
  function Upto(cfg: Config, step: (nat, nat) -> Step, n: nat): PassState {
    if n == 0 then PassState([], [], [], [], [])
    else
      var s := Upto(cfg, step, n - 1);
      if LimitReached(cfg, |s.saved|) then s else Apply(cfg, s, n - 1, step(|s.saved|, n - 1))
  }

  /** The pass over a listing. */
  function Pass(cfg: Config, posts: seq<Post>, fetch: nat -> Fetch): PassState {
    Upto(cfg, Steps(cfg, posts, fetch), |posts|)
  }

  /** One more position: the step the loop takes there, unless it has broken off. */
  lemma UptoNext(cfg: Config, step: (nat, nat) -> Step, i: nat)
    ensures var s := Upto(cfg, step, i);
            Upto(cfg, step, i + 1) == if LimitReached(cfg, |s.saved|) then s else Apply(cfg, s, i, step(|s.saved|, i))
  {
  }

  /** After the break, the later positions change nothing. */
  lemma {:induction false} UptoFrozen(cfg: Config, step: (nat, nat) -> Step, i: nat, j: nat)
    requires i <= j
    requires LimitReached(cfg, |Upto(cfg, step, i).saved|)
    ensures Upto(cfg, step, j) == Upto(cfg, step, i)
    decreases j
  {
    if j > i {
      UptoFrozen(cfg, step, i, j - 1);
    }
  }

  /** Every record of the loop belongs to one save: the saved positions
      increase and lie below `n`, the k-th save is the step the loop took at
      its position after k saves, and the k-th tick is `(k + 1, total)`. */
  predicate Consistent(cfg: Config, step: (nat, nat) -> Step, n: nat, s: PassState) {
    && |s.urls| == |s.saved| && |s.writes| == |s.saved| && |s.ticks| == |s.saved|
    && (forall k :: 0 <= k < |s.saved| ==> s.saved[k] < n)
    && (forall k, l :: 0 <= k < l < |s.saved| ==> s.saved[k] < s.saved[l])
    && (forall k :: 0 <= k < |s.saved| ==>
          && step(k, s.saved[k]) == Save(s.urls[k], s.writes[k].path, s.writes[k].content)
          && s.ticks[k] == (k + 1, cfg.total))
  }

  lemma {:induction false} UptoConsistent(cfg: Config, step: (nat, nat) -> Step, n: nat)
    ensures Consistent(cfg, step, n, Upto(cfg, step, n))
  {
    if n > 0 {
      UptoConsistent(cfg, step, n - 1);
      ConsistentStep(cfg, step, n - 1);
    }
  }

  /** One more position of the loop keeps its records consistent. */
  lemma ConsistentStep(cfg: Config, step: (nat, nat) -> Step, i: nat)
    requires Consistent(cfg, step, i, Upto(cfg, step, i))
    ensures Consistent(cfg, step, i + 1, Upto(cfg, step, i + 1))
  {
    var s := Upto(cfg, step, i);
    UptoNext(cfg, step, i);
    if LimitReached(cfg, |s.saved|) {
      ConsistentWiden(cfg, step, i, s);
    } else {
      ApplyConsistent(cfg, step, i, s);
    }
  }

  /** Records consistent with the first `n` positions are consistent with
      the first `n + 1`. */
  lemma ConsistentWiden(cfg: Config, step: (nat, nat) -> Step, n: nat, s: PassState)
    requires Consistent(cfg, step, n, s)
    ensures Consistent(cfg, step, n + 1, s)
  {
  }

  /** Carrying out the step the loop takes at position `n` keeps the records
      consistent. */
  lemma ApplyConsistent(cfg: Config, step: (nat, nat) -> Step, n: nat, s: PassState)
    requires Consistent(cfg, step, n, s)
    ensures Consistent(cfg, step, n + 1, Apply(cfg, s, n, step(|s.saved|, n)))
  {
  }

  /** The loop never saves more than it visits nor, with a limit, more than
      the limit. */
  lemma {:induction false} UptoWithinLimit(cfg: Config, step: (nat, nat) -> Step, n: nat)
    ensures |Upto(cfg, step, n).saved| <= n
    ensures cfg.limit > 0 ==> |Upto(cfg, step, n).saved| <= cfg.limit
  {
    if n > 0 {
      UptoWithinLimit(cfg, step, n - 1);
    }
  }

  /** Only the limit keeps a position whose step is a save from being saved. */
  lemma {:induction false} UptoComplete(cfg: Config, step: (nat, nat) -> Step, n: nat, i: nat)
    requires i < n
    requires step(|Upto(cfg, step, i).saved|, i).Save?
    ensures i in Upto(cfg, step, n).saved || LimitReached(cfg, |Upto(cfg, step, i).saved|)
  {
    if n - 1 > i {
      UptoComplete(cfg, step, n - 1, i);
      var s := Upto(cfg, step, n - 1);
      if i in s.saved && !LimitReached(cfg, |s.saved|) {
        assert Upto(cfg, step, n).saved[..|s.saved|] == s.saved;
      }
    }
  }

  /** What the pass over a listing promises: every save is of an eligible
      post, in listing order, whose fetch succeeded; its stripped URL is
      recorded for the cache, the k-th save writes the fetched bytes to the
      file numbered k, and the k-th tick is `(k + 1, total)`. */
  lemma PassSaves(cfg: Config, posts: seq<Post>, fetch: nat -> Fetch)
    ensures var s := Pass(cfg, posts, fetch);
      && |s.urls| == |s.saved| && |s.writes| == |s.saved| && |s.ticks| == |s.saved|
      && (forall k, l :: 0 <= k < l < |s.saved| ==> s.saved[k] < s.saved[l])
      && (forall k :: 0 <= k < |s.saved| ==>
            && s.saved[k] < |posts|
            && s.urls[k] == Strip(posts[s.saved[k]].url)
            && Eligible(s.urls[k], cfg.cached)
            && fetch(s.saved[k]) == Fetched(s.writes[k].content)
            && s.writes[k].path == SavePath(cfg, k, posts[s.saved[k]].id, s.urls[k])
            && s.ticks[k] == (k + 1, cfg.total))
  {
    var step := Steps(cfg, posts, fetch);
    var s := Pass(cfg, posts, fetch);
    UptoConsistent(cfg, step, |posts|);
    forall k | 0 <= k < |s.saved|
      ensures && s.urls[k] == Strip(posts[s.saved[k]].url)
              && Eligible(s.urls[k], cfg.cached)
              && fetch(s.saved[k]) == Fetched(s.writes[k].content)
              && s.writes[k].path == SavePath(cfg, k, posts[s.saved[k]].id, s.urls[k])
    {
      var i := s.saved[k];
      DecideCases(cfg, k, posts[i], fetch(i));
    }
  }

  /** With a limit the pass saves at most that many images; every progress
      tick reports at most the total target. */
  lemma PassWithinTarget(cfg: Config, posts: seq<Post>, fetch: nat -> Fetch)
    requires cfg.total == TotalTarget(cfg.limit, |posts|)
    ensures cfg.limit > 0 ==> |Pass(cfg, posts, fetch).saved| <= cfg.limit
    ensures forall k :: 0 <= k < |Pass(cfg, posts, fetch).ticks| ==>
              Pass(cfg, posts, fetch).ticks[k].1 == cfg.total
              && Pass(cfg, posts, fetch).ticks[k].0 <= cfg.total
  {
    UptoConsistent(cfg, Steps(cfg, posts, fetch), |posts|);
    UptoWithinLimit(cfg, Steps(cfg, posts, fetch), |posts|);
  }

  /** An eligible post whose fetch succeeds is saved unless the limit was
      reached before the loop got to it. */
  lemma PassComplete(cfg: Config, posts: seq<Post>, fetch: nat -> Fetch, i: nat)
    requires i < |posts|
    requires Eligible(Strip(posts[i].url), cfg.cached) && fetch(i).Fetched?
    ensures i in Pass(cfg, posts, fetch).saved
            || LimitReached(cfg, |Upto(cfg, Steps(cfg, posts, fetch), i).saved|)
  {
    var step := Steps(cfg, posts, fetch);
    DecideCases(cfg, |Upto(cfg, step, i).saved|, posts[i], fetch(i));
    UptoComplete(cfg, step, |posts|, i);
  }

  /** The log lines of the loop read forward from listing position `i`
      after `count` saves, as the loop body and its break produce them: an
      eligible post logs `Saved` with the file it was written to, or
      `FetchFailed` with its URL; nothing else is logged, and nothing once
      the limit is reached. */
  function LogFrom(cfg: Config, posts: seq<Post>, fetch: nat -> Fetch, i: nat, count: nat): seq<LogLine>
    decreases |posts| - i
  {
    if i >= |posts| || LimitReached(cfg, count) then []
    else
      var url := Strip(posts[i].url);
      if !Eligible(url, cfg.cached) then LogFrom(cfg, posts, fetch, i + 1, count)
      else if fetch(i).Failed? then [FetchFailed(url)] + LogFrom(cfg, posts, fetch, i + 1, count)
      else [Saved(SavePath(cfg, count, posts[i].id, url))] + LogFrom(cfg, posts, fetch, i + 1, count + 1)
  }

  /** The log of a pass is the forward reading of the listing: in listing
      order, one `Saved` line per saved post and one `FetchFailed` line per
      eligible post whose fetch failed before the break, and nothing else. */
  lemma PassLogs(cfg: Config, posts: seq<Post>, fetch: nat -> Fetch)
    ensures Pass(cfg, posts, fetch).events == LogFrom(cfg, posts, fetch, 0, 0)
  {
    LogsFrom(cfg, posts, fetch, 0);
  }

  lemma {:induction false} LogsFrom(cfg: Config, posts: seq<Post>, fetch: nat -> Fetch, i: nat)
    requires i <= |posts|
    ensures var s := Upto(cfg, Steps(cfg, posts, fetch), i);
            Pass(cfg, posts, fetch).events == s.events + LogFrom(cfg, posts, fetch, i, |s.saved|)
    decreases |posts| - i
  {
    var step := Steps(cfg, posts, fetch);
    var s := Upto(cfg, step, i);
    if i == |posts| || LimitReached(cfg, |s.saved|) {
      assert Pass(cfg, posts, fetch) == s by {
        if i < |posts| {
          UptoFrozen(cfg, step, i, |posts|);
        }
      }
      assert LogFrom(cfg, posts, fetch, i, |s.saved|) == [];
      assert s.events + [] == s.events;
    } else {
      var s' := Upto(cfg, step, i + 1);
      assert Pass(cfg, posts, fetch).events == s'.events + LogFrom(cfg, posts, fetch, i + 1, |s'.saved|) by {
        LogsFrom(cfg, posts, fetch, i + 1);
      }
      LogStep(cfg, posts, fetch, i);
    }
  }

  /** One position of the loop extends the log by what the forward reading
      logs there. */
  lemma LogStep(cfg: Config, posts: seq<Post>, fetch: nat -> Fetch, i: nat)
    requires i < |posts|
    requires !LimitReached(cfg, |Upto(cfg, Steps(cfg, posts, fetch), i).saved|)
    ensures var s := Upto(cfg, Steps(cfg, posts, fetch), i);
            var s' := Upto(cfg, Steps(cfg, posts, fetch), i + 1);
            s.events + LogFrom(cfg, posts, fetch, i, |s.saved|)
            == s'.events + LogFrom(cfg, posts, fetch, i + 1, |s'.saved|)
  {
    var step := Steps(cfg, posts, fetch);
    var s := Upto(cfg, step, i);
    var s' := Upto(cfg, step, i + 1);
    var url := Strip(posts[i].url);
    var d := Decide(cfg, |s.saved|, posts[i], fetch(i));
    assert s' == Apply(cfg, s, i, d) by {
      UptoNext(cfg, step, i);
      StepsAt(cfg, posts, fetch, |s.saved|, i);
    }
    var rest := LogFrom(cfg, posts, fetch, i + 1, |s'.saved|);
    if !Eligible(url, cfg.cached) {
      assert LogFrom(cfg, posts, fetch, i, |s.saved|) == rest;
    } else if fetch(i).Failed? {
      assert LogFrom(cfg, posts, fetch, i, |s.saved|) == [FetchFailed(url)] + rest;
      assert s'.events == s.events + [FetchFailed(url)];
      ConcatAssoc(s.events, [FetchFailed(url)], rest);
    } else {
      var line := Saved(SavePath(cfg, |s.saved|, posts[i].id, url));
      assert LogFrom(cfg, posts, fetch, i, |s.saved|) == [line] + rest;
      assert s'.events == s.events + [line];
      ConcatAssoc(s.events, [line], rest);
    }
  }

  /** Distinct save counts give distinct file names, so no saved file of a
      pass overwrites another. */
  lemma SavePathInjective(cfg: Config, k1: nat, id1: string, u1: string, k2: nat, id2: string, u2: string)
    requires SavePath(cfg, k1, id1, u1) == SavePath(cfg, k2, id2, u2)
    ensures k1 == k2
  {
    CountedNameInjective(cfg.folder, cfg.subfolder, NatToString(k1), id1, Extension(u1),
                         NatToString(k2), id2, Extension(u2));
    NatToStringRoundTrip(k1);
    NatToStringRoundTrip(k2);
  }

  /** Under one folder and one prefix, a name `prefix_digits_rest` determines
      its digits. */
  lemma CountedNameInjective(folder: string, sub: string, a1: string, id1: string, e1: string,
                             a2: string, id2: string, e2: string)
    requires AllDigits(a1) && AllDigits(a2)
    requires Join(folder, sub + "_" + a1 + "_" + id1 + e1) == Join(folder, sub + "_" + a2 + "_" + id2 + e2)
    ensures a1 == a2
  {
    var p := sub + "_";
    var t1, t2 := "_" + id1 + e1, "_" + id2 + e2;
    assert sub + "_" + a1 + "_" + id1 + e1 == p + (a1 + t1);
    assert sub + "_" + a2 + "_" + id2 + e2 == p + (a2 + t2);
    assert (p + (a1 + t1))[0] == p[0] == (p + (a2 + t2))[0];
    JoinInjective(folder, p + (a1 + t1), p + (a2 + t2));
    assert a1 + t1 == (p + (a1 + t1))[|p|..];
    assert a2 + t2 == (p + (a2 + t2))[|p|..];
    DigitsThenUnderscore(a1, t1, a2, t2);
  }

  lemma JoinInjective(folder: string, x1: string, x2: string)
    requires Join(folder, x1) == Join(folder, x2)
    requires x1 != [] && x2 != [] && x1[0] == x2[0]
    ensures x1 == x2
  {
    if x1[0] == '/' {
      return;
    }
    var pre := if folder == [] || folder[|folder| - 1] == '/' then folder else folder + "/";
    assert Join(folder, x1) == pre + x1 && Join(folder, x2) == pre + x2;
    assert x1 == (pre + x1)[|pre|..];
    assert x2 == (pre + x2)[|pre|..];
  }

  /** A run of digits ends where the first `_` follows it. */
  lemma DigitsThenUnderscore(a1: string, r1: string, a2: string, r2: string)
    requires AllDigits(a1) && AllDigits(a2)
    requires r1 != [] && r1[0] == '_' && r2 != [] && r2[0] == '_'
    requires a1 + r1 == a2 + r2
    ensures a1 == a2
  {
    DigitLenBeforeUnderscore(a1, r1);
    DigitLenBeforeUnderscore(a2, r2);
    assert a1 == (a1 + r1)[..|a1|];
    assert a2 == (a2 + r2)[..|a2|];
  }

  /** The digit run of `a + r` stops exactly at the `_` that starts `r`. */
  lemma DigitLenBeforeUnderscore(a: string, r: string)
    requires AllDigits(a) && r != [] && r[0] == '_'
    ensures DigitLen(a + r) == |a|
  {
    var s, n := a + r, DigitLen(a + r);
    assert AllDigits(s[..|a|]) by {
      assert s[..|a|] == a;
    }
    assert !IsDigit(s[|a|]);
    assert n <= |a| ==> s[..n] == s[..|a|][..n];
  }

  /** Every URL the pass records is stripped and non-empty, so it is read
      back from the cache file as itself. */
  lemma RecordedUrlsStripped(cfg: Config, posts: seq<Post>, fetch: nat -> Fetch)
    ensures forall k :: 0 <= k < |Pass(cfg, posts, fetch).urls| ==>
              Pass(cfg, posts, fetch).urls[k] != [] &&
              Strip(Pass(cfg, posts, fetch).urls[k]) == Pass(cfg, posts, fetch).urls[k]
  {
    var s := Pass(cfg, posts, fetch);
    PassSaves(cfg, posts, fetch);
    forall k | 0 <= k < |s.urls| ensures s.urls[k] != [] && Strip(s.urls[k]) == s.urls[k] {
      ImageUrlNonEmpty(s.urls[k]);
      StripIdempotent(posts[s.saved[k]].url);
    }
  }

  /** A URL saved by one pass and appended to the cache is never fetched
      again: whatever the next pass over the same cache file lists, none of
      its saves repeats a URL the first pass saved or had cached. */
  lemma NoUrlSavedTwice(cfg1: Config, posts1: seq<Post>, fetch1: nat -> Fetch, lines: seq<string>,
                        cfg2: Config, posts2: seq<Post>, fetch2: nat -> Fetch)
    requires cfg1.cached == LoadCache(lines)
    requires cfg2.cached == LoadCache(lines + Pass(cfg1, posts1, fetch1).urls)
    ensures forall u :: u in Pass(cfg2, posts2, fetch2).urls ==>
              u !in Pass(cfg1, posts1, fetch1).urls && u !in cfg1.cached
  {
    var s1 := Pass(cfg1, posts1, fetch1);
    var s2 := Pass(cfg2, posts2, fetch2);
    RecordedUrlsStripped(cfg1, posts1, fetch1);
    CacheKeepsAppended(lines, s1.urls);
    PassSaves(cfg2, posts2, fetch2);
    forall u | u in s2.urls ensures u !in s1.urls && u !in cfg1.cached {
      var k :| 0 <= k < |s2.urls| && s2.urls[k] == u;
      assert Eligible(u, cfg2.cached);
    }
  }

  // ---------------------------------------------------------------------------
  // The thread object

  class DownloaderThread {
    const subredditName: string
    const limit: nat
    const allowSfw: bool
    const allowNsfw: bool
    const masterFolder: string
    const cacheFolder: string

    /** The folders `os.makedirs` has made sure of. */
    var dirs: set<string>
    /** The files of the cache folder, as their lines. */
    var cacheFiles: map<string, seq<string>>
    /** The image files written, in order. */
    var written: seq<FileWrite>
    /** The `(current, total)` pairs sent to the progress signal. */
    var progress: seq<(nat, nat)>
    var log: seq<LogLine>

    constructor (subredditName: string, limit: nat, allowSfw: bool, allowNsfw: bool,
                 masterFolder: string, cacheFolder: string, cacheFiles: map<string, seq<string>>)
      ensures this.subredditName == subredditName && this.limit == limit
      ensures this.allowSfw == allowSfw && this.allowNsfw == allowNsfw
      ensures this.masterFolder == masterFolder && this.cacheFolder == cacheFolder
      ensures this.cacheFiles == cacheFiles
      ensures dirs == {} && written == [] && progress == [] && log == []
    {
      this.subredditName := subredditName;
      this.limit := limit;
      this.allowSfw := allowSfw;
      this.allowNsfw := allowNsfw;
      this.masterFolder := masterFolder;
      this.cacheFolder := cacheFolder;
      this.cacheFiles := cacheFiles;
      dirs := {};
      written := [];
      progress := [];
      log := [];
    }

    /** `run`. `subreddit` is None when creating the handle raises (an empty
        name), `listing` is None when fetching the hot listing raises;
        `fetch(i)` is the outcome of fetching and saving the post at listing
        position i. */
    method Run(subreddit: Option<Subreddit>, listing: Option<seq<Post>>, fetch: nat -> Fetch)
      modifies this
      ensures subreddit.None? ==>
                log == old(log) + [Error] && dirs == old(dirs) && cacheFiles == old(cacheFiles)
                && written == old(written) && progress == old(progress)
      ensures subreddit.Some? && subreddit.value.over18.None? ==>
                log == old(log) + [Starting(limit, subreddit.value.displayName), Error]
                && dirs == old(dirs) && cacheFiles == old(cacheFiles)
                && written == old(written) && progress == old(progress)
      ensures subreddit.Some? && subreddit.value.over18.Some?
              && !Admits(subreddit.value.over18.value, allowSfw, allowNsfw) ==>
                log == old(log) + [Starting(limit, subreddit.value.displayName), FilterMismatch]
                && dirs == old(dirs) && cacheFiles == old(cacheFiles)
                && written == old(written) && progress == old(progress)
      ensures subreddit.Some? && subreddit.value.over18.Some?
              && Admits(subreddit.value.over18.value, allowSfw, allowNsfw) ==>
                dirs == old(dirs) + {masterFolder, cacheFolder, DownloadFolder(masterFolder, subredditName)}
      ensures subreddit.Some? && subreddit.value.over18.Some?
              && Admits(subreddit.value.over18.value, allowSfw, allowNsfw) && listing.None? ==>
                log == old(log) + [Starting(limit, subreddit.value.displayName), Error]
                && cacheFiles == old(cacheFiles) && written == old(written) && progress == old(progress)
      ensures subreddit.Some? && subreddit.value.over18.Some?
              && Admits(subreddit.value.over18.value, allowSfw, allowNsfw) && listing.Some? ==>
                var posts := listing.value;
                var cfg := Configure(masterFolder, cacheFolder, subredditName, limit, old(cacheFiles), |posts|);
                var s := Pass(cfg, posts, fetch);
                && written == old(written) + s.writes
                && progress == old(progress) + [(0, cfg.total)] + s.ticks
                && cacheFiles == AppendCache(old(cacheFiles), CachePath(cacheFolder, subredditName), s.urls)
                && log == old(log) + [Starting(limit, subreddit.value.displayName)] + s.events
                          + [if |s.saved| == 0 then NoNewImages else Downloaded(|s.saved|, cfg.folder)]
    {
      if subreddit.None? {
        log := log + [Error];
        return;
      }
      var sub := subreddit.value;
      log := log + [Starting(limit, sub.displayName)];
      if sub.over18.None? {
        log := log + [Error];
        return;
      }
      var over18 := sub.over18.value;
      if (over18 && !allowNsfw) || (!over18 && !allowSfw) {
        log := log + [FilterMismatch];
        return;
      }
      Download(listing, fetch);
    }

    /** The part of `run` after the filter has admitted the subreddit. */
    method Download(listing: Option<seq<Post>>, fetch: nat -> Fetch)
      modifies this
      ensures dirs == old(dirs) + {masterFolder, cacheFolder, DownloadFolder(masterFolder, subredditName)}
      ensures listing.None? ==>
                log == old(log) + [Error]
                && cacheFiles == old(cacheFiles) && written == old(written) && progress == old(progress)
      ensures listing.Some? ==>
                var posts := listing.value;
                var cfg := Configure(masterFolder, cacheFolder, subredditName, limit, old(cacheFiles), |posts|);
                var s := Pass(cfg, posts, fetch);
                && written == old(written) + s.writes
                && progress == old(progress) + [(0, cfg.total)] + s.ticks
                && cacheFiles == AppendCache(old(cacheFiles), CachePath(cacheFolder, subredditName), s.urls)
                && log == old(log) + s.events
                          + [if |s.saved| == 0 then NoNewImages else Downloaded(|s.saved|, cfg.folder)]
    {
      dirs := dirs + {masterFolder, cacheFolder};
      var subfolder := SubfolderName(subredditName);
      var folder := Join(masterFolder, subfolder);
      dirs := dirs + {folder};
      var cacheFile := Join(cacheFolder, subfolder + ".txt");
      var cached := if cacheFile in cacheFiles then LoadCache(cacheFiles[cacheFile]) else {};
      if listing.None? {
        log := log + [Error];
        return;
      }
      var posts := listing.value;
      var total := if limit == 0 then |posts| else limit;
      progress := progress + [(0, total)];
      var cfg := Config(folder, subfolder, cached, limit, total);
      assert cfg == Configure(masterFolder, cacheFolder, subredditName, limit, old(cacheFiles), |posts|);
      var count, newUrls := Scan(cfg, posts, fetch);
      Finish(cacheFile, folder, count, newUrls);
    }

    /** Appends the new URLs to the cache file and logs the summary. */
    method Finish(cacheFile: string, folder: string, count: nat, newUrls: seq<string>)
      modifies this
      ensures cacheFiles == AppendCache(old(cacheFiles), cacheFile, newUrls)
      ensures log == old(log) + [if count == 0 then NoNewImages else Downloaded(count, folder)]
      ensures dirs == old(dirs) && written == old(written) && progress == old(progress)
    {
      if newUrls != [] {
        var lines := if cacheFile in cacheFiles then cacheFiles[cacheFile] else [];
        cacheFiles := cacheFiles[cacheFile := lines + newUrls];
      }
      if count == 0 {
        log := log + [NoNewImages];
      } else {
        log := log + [Downloaded(count, folder)];
      }
    }

    /** The `for post in posts` loop, with its break at the limit; `count`
        and `newUrls` are the locals of the same names. */
    method Scan(cfg: Config, posts: seq<Post>, fetch: nat -> Fetch) returns (count: nat, newUrls: seq<string>)
      modifies this
      ensures var s := Pass(cfg, posts, fetch);
              && count == |s.saved| && newUrls == s.urls
              && written == old(written) + s.writes
              && progress == old(progress) + s.ticks
              && log == old(log) + s.events
      ensures dirs == old(dirs) && cacheFiles == old(cacheFiles)
    {
      ghost var step := Steps(cfg, posts, fetch);
      ghost var s := Upto(cfg, step, 0);
      count, newUrls := 0, [];
      var i := 0;
      while i < |posts| && !LimitReached(cfg, count)
        invariant i <= |posts| && s == Upto(cfg, step, i)
        invariant count == |s.saved| && newUrls == s.urls
        invariant written == old(written) + s.writes
        invariant progress == old(progress) + s.ticks
        invariant log == old(log) + s.events
        invariant dirs == old(dirs) && cacheFiles == old(cacheFiles)
      {
        count, newUrls, s := Visit(cfg, posts, fetch, i, count, newUrls, s, old(written), old(progress), old(log));
        i := i + 1;
      }
      if i < |posts| {
        UptoFrozen(cfg, step, i, |posts|);
      }
    }

    /** One turn of the loop: the filter, and the save or the failure. */
    method Visit(cfg: Config, posts: seq<Post>, fetch: nat -> Fetch, i: nat, count: nat, newUrls: seq<string>,
                 ghost s: PassState, ghost written0: seq<FileWrite>, ghost progress0: seq<(nat, nat)>, ghost log0: seq<LogLine>)
      returns (count': nat, newUrls': seq<string>, ghost s': PassState)
      requires i < |posts| && !LimitReached(cfg, count) && s == Upto(cfg, Steps(cfg, posts, fetch), i)
      requires count == |s.saved| && newUrls == s.urls
      requires written == written0 + s.writes && progress == progress0 + s.ticks && log == log0 + s.events
      modifies this
      ensures s' == Upto(cfg, Steps(cfg, posts, fetch), i + 1)
      ensures count' == |s'.saved| && newUrls' == s'.urls
      ensures written == written0 + s'.writes && progress == progress0 + s'.ticks && log == log0 + s'.events
      ensures dirs == old(dirs) && cacheFiles == old(cacheFiles)
    {
      var st := Decide(cfg, count, posts[i], fetch(i));
      StepsAt(cfg, posts, fetch, count, i);
      UptoNext(cfg, Steps(cfg, posts, fetch), i);
      s' := Apply(cfg, s, i, st);
      count', newUrls' := count, newUrls;
      match st {
        case Skip =>
        case Failure(url) =>
          log := log + [FetchFailed(url)];
        case Save(url, filename, content) =>
          written := written + [FileWrite(filename, content)];
          log := log + [Saved(filename)];
          count' := count + 1;
          newUrls' := newUrls + [url];
          progress := progress + [(count', cfg.total)];
      }
    }
  }
}
