/** The social-aggregator provider (`queryBgImgUrlReddit`): the request URL built
    from the subreddit list, the keyed response cache, the post filter and the
    random choice of one surviving image URL. */
module Reddit {
  import opened Wrappers
  import opened Text

  /** Width and height of a post's first preview source image. */
  datatype Size = Size(width: int, height: int)

  /** One entry of `preview.images`; `source` may be missing. */
  datatype PreviewImage = PreviewImage(source: Option<Size>)

  /** The fields of `post.data` the filter reads. An absent `url` or `thumbnail`
      is the empty string (both are falsy); an absent `preview` is `None`. */
  datatype Post = Post(
    isVideo: bool,
    stickied: bool,
    url: string,
    thumbnail: string,
    domain: string,
    preview: Option<seq<PreviewImage>>)

  /** The two direct-image hosts a post must link to. */
  const ImageHosts: seq<string> := ["i.imgur.com", "i.redd.it"]

  /** The listing URL, and so the cache key, is this prefix, the path segment,
      then this suffix. */
  const ListingPrefix: string := "https://api.reddit.com/r/"
  const ListingSuffix: string := "/.json?limit=100"

  /** What `subreddits.trim()` throws when the configuration has no subreddit
      list, in the V8 engine's wording. */
  const NoSubredditsError: string := "TypeError: Cannot read properties of undefined (reading 'trim')"

  /** What `preview.images[0].source` throws when `images` is empty, in the V8
      engine's wording. */
  const EmptyImagesError: string := "TypeError: Cannot read properties of undefined (reading 'source')"

  // ---------------------------------------------------------------------------
  // Request URL

  /** The subreddit names: the trimmed argument split at commas, each piece
      stripped of the white space around it (the separator is a comma with
      optional white space on either side). Trimming the whole argument first
      makes no difference to the names. */
  function SubredditNames(subreddits: string): (names: seq<string>)
    ensures |names| >= 1
    ensures forall i :: 0 <= i < |names| ==> ',' !in names[i] && NoEdgeSpace(names[i])
    ensures names == TrimEach(SplitOn(subreddits, ','))
  {
    OuterTrimIrrelevant(subreddits, ',');
    TrimEach(SplitOn(Trim(subreddits), ','))
  }

  /** The path segment: the names joined with `+`, passed through `basename`. */
  function SubredditSegment(subreddits: string): (seg: string)
    ensures '/' !in seg
  {
    Basename(JoinWith(SubredditNames(subreddits), '+'))
  }

  /** The listing URL requested for (and the cache key of) a subreddit list:
      the listing prefix, one slash-free path segment, the listing suffix. */
  function RequestUrl(subreddits: string): (url: string)
    ensures |url| >= |ListingPrefix| + |ListingSuffix|
    ensures url[..|ListingPrefix|] == ListingPrefix
    ensures url[|url| - |ListingSuffix|..] == ListingSuffix
    ensures '/' !in url[|ListingPrefix|..|url| - |ListingSuffix|]
  {
    var seg := SubredditSegment(subreddits);
    Framed(ListingPrefix, seg, ListingSuffix);
    ListingPrefix + seg + ListingSuffix
  }

  /** The three parts of a concatenation can be sliced back out of it. */
  lemma Framed(a: string, m: string, b: string)
    ensures |a + m + b| == |a| + |m| + |b|
    ensures (a + m + b)[..|a|] == a
    ensures (a + m + b)[|a| + |m|..] == b
    ensures (a + m + b)[|a|..|a| + |m|] == m
  {
  }

  /** Names without edge white space come through the piece-wise trim unchanged. */
  lemma TrimEachKeepsNames(names: seq<string>)
    requires forall i :: 0 <= i < |names| ==> NoEdgeSpace(names[i])
    ensures TrimEach(names) == names
  {
    forall i | 0 <= i < |names| ensures TrimEach(names)[i] == names[i] {
      TrimKeepsTrimmed(names[i]);
    }
  }

  /** A comma list of plain subreddit names, with any white space around each
      name, gives back exactly those names. */
  lemma PaddedNames(names: seq<string>, pre: seq<string>, post: seq<string>)
    requires |names| >= 1 && |pre| == |names| && |post| == |names|
    requires forall i :: 0 <= i < |names| ==> ',' !in names[i] && NoEdgeSpace(names[i])
    requires forall i :: 0 <= i < |names| ==> SpaceOnly(pre[i]) && SpaceOnly(post[i])
    ensures SubredditNames(JoinWith(seq(|names|, i requires 0 <= i < |names| => pre[i] + names[i] + post[i]), ',')) == names
  {
    var padded := seq(|names|, i requires 0 <= i < |names| => pre[i] + names[i] + post[i]);
    forall i | 0 <= i < |names| ensures ',' !in padded[i] && Trim(padded[i]) == names[i] {
      BlankAvoids(pre[i], ',');
      BlankAvoids(post[i], ',');
      TrimIgnoresPadding(pre[i], names[i], post[i]);
      TrimKeepsTrimmed(names[i]);
    }
    SplitJoin(padded, ',');
    assert TrimEach(padded) == names;
  }

  /** A comma list of plain subreddit names (no comma, slash or edge white space)
      becomes exactly those names joined with `+`. */
  lemma SegmentOfNames(names: seq<string>)
    requires |names| >= 1
    requires forall i :: 0 <= i < |names| ==> ',' !in names[i] && '/' !in names[i] && NoEdgeSpace(names[i])
    ensures SubredditSegment(JoinWith(names, ',')) == JoinWith(names, '+')
  {
    var s := JoinWith(names, ',');
    SplitJoin(names, ',');
    TrimEachKeepsNames(names);
    assert SubredditNames(s) == names;
    JoinAvoids(names, '+', '/');
  }

  /** End to end: a comma list of plain subreddit names, with any white space
      around each name, is requested as exactly those names joined with `+`
      between the listing prefix and suffix. */
  lemma PaddedRequestUrl(names: seq<string>, pre: seq<string>, post: seq<string>)
    requires |names| >= 1 && |pre| == |names| && |post| == |names|
    requires forall i :: 0 <= i < |names| ==> ',' !in names[i] && '/' !in names[i] && NoEdgeSpace(names[i])
    requires forall i :: 0 <= i < |names| ==> SpaceOnly(pre[i]) && SpaceOnly(post[i])
    ensures RequestUrl(JoinWith(seq(|names|, i requires 0 <= i < |names| => pre[i] + names[i] + post[i]), ','))
            == ListingPrefix + JoinWith(names, '+') + ListingSuffix
  {
    PaddedNames(names, pre, post);
    JoinAvoids(names, '+', '/');
  }

  // ---------------------------------------------------------------------------
  // The post filter (lines 19-27)

  /** The first filter: not a video, not stickied, url and thumbnail present,
      domain one of the two image hosts. */
  predicate PassesBasicChecks(p: Post) {
    !p.isVideo && !p.stickied && p.url != "" && p.thumbnail != "" && p.domain in ImageHosts
  }

  /** The size test of the second filter. `width / height > 1.1` is written
      `10 * width > 11 * height`, which is the same since `height > 800`. */
  predicate LargeLandscape(sz: Size) {
    sz.height > 800 && sz.width > 1000 && 10 * sz.width > 11 * sz.height
  }

  /** The second filter's verdict on one post; it throws when `preview` is present
      but `preview.images` is empty. */
  function KeepBySize(p: Post): (r: Result<bool>)
    ensures r.Err? <==> p.preview == Some([])
    ensures r.Err? ==> r.error == EmptyImagesError
    ensures r == Ok(true) <==>
      && p.preview.Some? && |p.preview.value| > 0
      && p.preview.value[0].source.Some? && LargeLandscape(p.preview.value[0].source.value)
  {
    match p.preview
    case None => Ok(false)
    case Some(images) =>
      if |images| == 0 then Err(EmptyImagesError)
      else match images[0].source
        case None => Ok(false)
        case Some(sz) => Ok(LargeLandscape(sz))
  }

  /** The first `filter`: the posts passing the basic checks. */
  function FirstPass(posts: seq<Post>): (r: seq<Post>)
    ensures |r| <= |posts|
    ensures forall p :: p in r ==> p in posts && PassesBasicChecks(p)
  {
    if posts == [] then []
    else (if PassesBasicChecks(posts[0]) then [posts[0]] else []) + FirstPass(posts[1..])
  }

  /** The second `filter`, which stops at the first post whose predicate throws. */
  function SecondPass(posts: seq<Post>): (r: Result<seq<Post>>)
    ensures r.Ok? ==> |r.value| <= |posts|
    ensures r.Ok? ==> forall p :: p in r.value ==> p in posts && KeepBySize(p) == Ok(true)
    ensures r.Err? ==> r.error == EmptyImagesError && exists p :: p in posts && p.preview == Some([])
  {
    if posts == [] then Ok([])
    else match KeepBySize(posts[0])
      case Err(e) => Err(e)
      case Ok(keep) =>
        match SecondPass(posts[1..])
        case Err(e) => Err(e)
        case Ok(rest) => Ok((if keep then [posts[0]] else []) + rest)
  }

  /** The `map` to each post's URL. */
  function Urls(posts: seq<Post>): (u: seq<string>)
    ensures |u| == |posts|
    ensures forall i :: 0 <= i < |posts| ==> u[i] == posts[i].url
  {
    if posts == [] then [] else [posts[0].url] + Urls(posts[1..])
  }

  /** The filter/filter/map chain over `data.children`: at most one URL per
      post, each the URL of an eligible post; or the error of a post that passes
      the basic checks with an empty `preview.images`. */
  function FilteredUrls(posts: seq<Post>): (r: Result<seq<string>>)
    ensures r.Ok? ==> |r.value| <= |posts|
    ensures r.Ok? ==> forall u :: u in r.value ==> exists p :: p in posts && Eligible(p) && p.url == u
    ensures r.Err? ==> r.error == EmptyImagesError && exists p :: p in posts && Malformed(p)
  {
    match SecondPass(FirstPass(posts))
    case Err(e) => Err(e)
    case Ok(kept) => Ok(Urls(kept))
  }

  // Reference definitions of what the chain keeps and when it throws.

  /** A post whose URL survives: it passes the first filter and its first preview
      source is larger than 1000x800 and wider than 1.1:1. */
  predicate Eligible(p: Post) {
    && PassesBasicChecks(p)
    && p.preview.Some? && |p.preview.value| > 0
    && p.preview.value[0].source.Some?
    && LargeLandscape(p.preview.value[0].source.value)
  }

  /** A post that makes the second filter throw. */
  predicate Malformed(p: Post) {
    PassesBasicChecks(p) && p.preview == Some([])
  }

  function EligibleUrls(posts: seq<Post>): seq<string> {
    if posts == [] then []
    else (if Eligible(posts[0]) then [posts[0].url] else []) + EligibleUrls(posts[1..])
  }

  /** The chain applied to one more post, in front. */
  function PrependKept(p: Post, rest: Result<seq<string>>): Result<seq<string>> {
    match rest
    case Err(e) => Err(e)
    case Ok(urls) => Ok((if Eligible(p) then [p.url] else []) + urls)
  }

  /** One step of the chain: a malformed first post makes it throw, any other
      first post contributes its URL exactly when it is eligible. */
  lemma FilteredUrlsStep(posts: seq<Post>)
    requires posts != []
    ensures Malformed(posts[0]) ==> FilteredUrls(posts).Err?
    ensures !Malformed(posts[0]) ==> FilteredUrls(posts) == PrependKept(posts[0], FilteredUrls(posts[1..]))
  {
    var p := posts[0];
    var tail := FirstPass(posts[1..]);
    if PassesBasicChecks(p) {
      assert FirstPass(posts) == [p] + tail;
      assert ([p] + tail)[0] == p && ([p] + tail)[1..] == tail;
      if !Malformed(p) {
        assert KeepBySize(p) == Ok(Eligible(p));
        match SecondPass(tail)
        case Err(e) =>
        case Ok(kept) =>
          if Eligible(p) {
            assert ([p] + kept)[0] == p && ([p] + kept)[1..] == kept;
            assert Urls([p] + kept) == [p.url] + Urls(kept);
          } else {
            assert SecondPass([p] + tail) == Ok([] + kept);
            assert [] + kept == kept;
            assert FilteredUrls(posts) == Ok(Urls(kept));
            assert [] + Urls(kept) == Urls(kept);
          }
      }
    } else {
      assert FirstPass(posts) == tail;
      match FilteredUrls(posts[1..])
      case Err(e) =>
      case Ok(urls) => assert [] + urls == urls;
    }
  }

  /** The filter throws exactly when some post passes the first filter with an
      empty `preview.images`; otherwise it yields, in input order, the URLs of
      the eligible posts. */
  lemma {:induction false} FilteredUrlsMeaning(posts: seq<Post>)
    ensures FilteredUrls(posts).Err? <==> exists i :: 0 <= i < |posts| && Malformed(posts[i])
    ensures FilteredUrls(posts).Ok? ==> FilteredUrls(posts).value == EligibleUrls(posts)
  {
    if posts != [] {
      FilteredUrlsMeaning(posts[1..]);
      FilteredUrlsStep(posts);
      if exists i :: 0 <= i < |posts| && Malformed(posts[i]) {
        var i :| 0 <= i < |posts| && Malformed(posts[i]);
        if i > 0 { assert Malformed(posts[1..][i - 1]); }
      }
      if exists i :: 0 <= i < |posts| - 1 && Malformed(posts[1..][i]) {
        var i :| 0 <= i < |posts| - 1 && Malformed(posts[1..][i]);
        assert Malformed(posts[i + 1]);
      }
    }
  }

  /** A URL is kept exactly when some post carrying it is eligible. */
  lemma {:induction false} EligibleUrlsMembership(posts: seq<Post>, u: string)
    ensures u in EligibleUrls(posts) <==> exists i :: 0 <= i < |posts| && Eligible(posts[i]) && posts[i].url == u
  {
    if posts != [] {
      EligibleUrlsMembership(posts[1..], u);
      if exists i :: 0 <= i < |posts| - 1 && Eligible(posts[1..][i]) && posts[1..][i].url == u {
        var i :| 0 <= i < |posts| - 1 && Eligible(posts[1..][i]) && posts[1..][i].url == u;
        assert posts[i + 1] == posts[1..][i];
      }
      if exists i :: 0 <= i < |posts| && Eligible(posts[i]) && posts[i].url == u {
        var i :| 0 <= i < |posts| && Eligible(posts[i]) && posts[i].url == u;
        if i > 0 { assert posts[1..][i - 1] == posts[i]; }
      }
    }
  }

  /** The filter never yields more URLs than there are posts. */
  lemma {:induction false} EligibleUrlsLength(posts: seq<Post>)
    ensures |EligibleUrls(posts)| <= |posts|
  {
    if posts != [] { EligibleUrlsLength(posts[1..]); }
  }

  /** The filter keeps input order: filtering a concatenation is the
      concatenation of the filtered parts. */
  lemma {:induction false} EligibleUrlsAppend(a: seq<Post>, b: seq<Post>)
    ensures EligibleUrls(a + b) == EligibleUrls(a) + EligibleUrls(b)
  {
    if a == [] {
      assert a + b == b;
    } else {
      assert (a + b)[0] == a[0] && (a + b)[1..] == a[1..] + b;
      EligibleUrlsAppend(a[1..], b);
    }
  }

  // ---------------------------------------------------------------------------
  // Random choice and the cache

  /** `chooseRandom`: `pick` stands for the random draw. Nothing on an empty list,
      otherwise an element of the list. */
  function ChooseRandom<T>(s: seq<T>, pick: nat): (r: Option<T>)
    ensures r.None? <==> |s| == 0
    ensures r.Some? ==> r.value in s
  {
    if |s| == 0 then None else Some(s[pick % |s|])
  }

  /** The response cache keyed by request URL (`cache(url)` / `cache(url, value)`).
      Expiry of its entries is the cache's own business and appears here as a
      missing key. */
  class HttpCache {
    var entries: map<string, seq<string>>

    constructor ()
      ensures entries == map[]
    {
      entries := map[];
    }

    /** `cache(key)`: the stored list, if any. */
    method Lookup(key: string) returns (hit: Option<seq<string>>)
      ensures hit.Some? <==> key in entries
      ensures hit.Some? ==> hit.value == entries[key]
    {
      if key in entries { hit := Some(entries[key]); } else { hit := None; }
    }

    /** `cache(key, value)`: stores `value` under `key`. */
    method Store(key: string, value: seq<string>)
      modifies this
      ensures entries == old(entries)[key := value]
    {
      entries := entries[key := value];
    }
  }

  // ---------------------------------------------------------------------------
  // The query

  /** What `fetchPosts` does for a request URL: the candidate list (from the
      cache, or fetched and filtered) or the rejection, the URL it fetched if it
      fetched, and the cache after. */
  datatype Fetched = Fetched(
    urls: Result<seq<string>>,
    requested: Option<string>,
    entries: map<string, seq<string>>)

  /** `fetchPosts` on the cache `entries`; `fetch` gives the parsed `data.children`
      of the response to a URL, or why that failed. */
  function FetchPosts(entries: map<string, seq<string>>, url: string,
                      fetch: string -> Result<seq<Post>>): (f: Fetched)
    ensures url in entries ==> f == Fetched(Ok(entries[url]), None, entries)
    ensures url !in entries ==> f.requested == Some(url)
    ensures f.urls.Err? ==> f.entries == entries
    ensures f.urls.Ok? ==> url in f.entries && f.entries[url] == f.urls.value
  {
    if url in entries then Fetched(Ok(entries[url]), None, entries)
    else match fetch(url)
      case Err(e) => Fetched(Err(e), Some(url), entries)
      case Ok(posts) =>
        match FilteredUrls(posts)
        case Err(e) => Fetched(Err(e), Some(url), entries)
        case Ok(urls) => Fetched(Ok(urls), Some(url), entries[url := urls])
  }

  /** The cache changes only by storing, on a miss, the filtered list of a
      successful fetch under the request URL. */
  lemma FetchPostsCaching(entries: map<string, seq<string>>, url: string, fetch: string -> Result<seq<Post>>)
    ensures var f := FetchPosts(entries, url, fetch);
      (f.entries == entries || (
            && url !in entries && fetch(url).Ok?
            && FilteredUrls(fetch(url).value) == Ok(f.entries[url])
            && f.entries == entries[url := f.entries[url]]))
  {
    if url !in entries && fetch(url).Ok? && FilteredUrls(fetch(url).value).Ok? {
      var urls := FilteredUrls(fetch(url).value).value;
      assert FetchPosts(entries, url, fetch) == Fetched(Ok(urls), Some(url), entries[url := urls]);
    }
  }

  /** A second `fetchPosts` of the same URL after a successful one fetches nothing
      and returns the same list. */
  lemma RepeatedFetchHitsCache(entries: map<string, seq<string>>, url: string,
                               fetch1: string -> Result<seq<Post>>, fetch2: string -> Result<seq<Post>>)
    requires FetchPosts(entries, url, fetch1).urls.Ok?
    ensures var f1 := FetchPosts(entries, url, fetch1);
            FetchPosts(f1.entries, url, fetch2) == Fetched(f1.urls, None, f1.entries)
  {
    FetchPostsCaching(entries, url, fetch1);
  }

  /** On a miss with a well-formed listing, the eligible URLs (not the posts) are
      stored under the exact request URL and returned. */
  lemma MissStoresFiltered(entries: map<string, seq<string>>, url: string, fetch: string -> Result<seq<Post>>)
    requires url !in entries && fetch(url).Ok?
    requires forall i :: 0 <= i < |fetch(url).value| ==> !Malformed(fetch(url).value[i])
    ensures var f := FetchPosts(entries, url, fetch);
            && f.requested == Some(url)
            && f.urls == Ok(EligibleUrls(fetch(url).value))
            && f.entries == entries[url := EligibleUrls(fetch(url).value)]
  {
    FilteredUrlsMeaning(fetch(url).value);
  }

  /** What one call does: its result (rejection or the chosen URL, absent when no
      candidate survived), the URL it fetched if it fetched, and the cache after. */
  datatype RedditQuery = RedditQuery(
    result: Result<Option<string>>,
    requested: Option<string>,
    entries: map<string, seq<string>>)

  /** The behaviour of `queryBgImgUrlReddit`: parse the list, `fetchPosts` its
      request URL, `chooseRandom` from the candidates. */
  function RedditOutcome(entries: map<string, seq<string>>, subreddits: Option<string>,
                         fetch: string -> Result<seq<Post>>, pick: nat): (q: RedditQuery)
    ensures subreddits.None? ==> q == RedditQuery(Err(NoSubredditsError), None, entries)
    ensures q.result.Err? || q.requested.None? ==> q.entries == entries
  {
    match subreddits
    case None => RedditQuery(Err(NoSubredditsError), None, entries)
    case Some(s) =>
      var f := FetchPosts(entries, RequestUrl(s), fetch);
      match f.urls
      case Err(e) => RedditQuery(Err(e), f.requested, f.entries)
      case Ok(urls) => RedditQuery(Ok(ChooseRandom(urls, pick)), f.requested, f.entries)
  }

  /** A call rejects without touching anything when there is no subreddit list;
      otherwise it fetches at most the list's request URL, and a chosen URL is a
      member of the list cached under that URL (absent exactly when the list is
      empty). */
  lemma RedditChoice(entries: map<string, seq<string>>, subreddits: Option<string>,
                     fetch: string -> Result<seq<Post>>, pick: nat)
    ensures var q := RedditOutcome(entries, subreddits, fetch, pick);
      && (subreddits.None? ==> q == RedditQuery(Err(NoSubredditsError), None, entries))
      && (q.requested.Some? ==> subreddits.Some? && q.requested.value == RequestUrl(subreddits.value))
      && (q.result.Err? ==> q.entries == entries)
      && (q.result.Ok? ==>
            && subreddits.Some? && RequestUrl(subreddits.value) in q.entries
            && (q.result.value.None? <==> q.entries[RequestUrl(subreddits.value)] == [])
            && (q.result.value.Some? ==> q.result.value.value in q.entries[RequestUrl(subreddits.value)]))
  {
    if subreddits.Some? {
      FetchPostsCaching(entries, RequestUrl(subreddits.value), fetch);
    }
  }

  /** A second call with the same subreddit list after a successful one fetches
      nothing, draws from the same filtered list, and leaves the cache alone. */
  lemma RepeatedQueryHitsCache(entries: map<string, seq<string>>, s: string,
                               fetch1: string -> Result<seq<Post>>, fetch2: string -> Result<seq<Post>>,
                               pick1: nat, pick2: nat)
    requires RedditOutcome(entries, Some(s), fetch1, pick1).result.Ok?
    ensures var q1 := RedditOutcome(entries, Some(s), fetch1, pick1);
            var q2 := RedditOutcome(q1.entries, Some(s), fetch2, pick2);
            && q2.requested.None? && q2.entries == q1.entries
            && RequestUrl(s) in q1.entries
            && q2.result == Ok(ChooseRandom(q1.entries[RequestUrl(s)], pick2))
  {
    var url := RequestUrl(s);
    var f1 := FetchPosts(entries, url, fetch1);
    assert f1.urls.Ok?;
    FetchPostsCaching(entries, url, fetch1);
    RepeatedFetchHitsCache(entries, url, fetch1, fetch2);
    assert FetchPosts(f1.entries, url, fetch2) == Fetched(f1.urls, None, f1.entries);
    assert RedditOutcome(f1.entries, Some(s), fetch2, pick2) ==
      RedditQuery(Ok(ChooseRandom(f1.urls.value, pick2)), None, f1.entries);
  }

  /** `fetchPosts`, against the cache object: look up, or fetch, filter and store. */
  method FetchPostsIn(cache: HttpCache, url: string, fetch: string -> Result<seq<Post>>)
    returns (candidates: Result<seq<string>>, requested: Option<string>)
    modifies cache
    ensures Fetched(candidates, requested, cache.entries) == FetchPosts(old(cache.entries), url, fetch)
  {
    var hit := cache.Lookup(url);
    if hit.Some? {
      return Ok(hit.value), None;
    }
    requested := Some(url);
    var listing := fetch(url);
    if listing.Err? {
      return Err(listing.error), requested;
    }
    candidates := FilteredUrls(listing.value);
    if candidates.Ok? {
      cache.Store(url, candidates.value);
    }
  }

  /** `queryBgImgUrlReddit`, against the cache object. */
  method QueryBgImgUrlReddit(cache: HttpCache, subreddits: Option<string>,
                             fetch: string -> Result<seq<Post>>, pick: nat)
    returns (result: Result<Option<string>>, requested: Option<string>)
    modifies cache
    ensures RedditQuery(result, requested, cache.entries) == RedditOutcome(old(cache.entries), subreddits, fetch, pick)
  {
    if subreddits.None? {
      return Err(NoSubredditsError), None;
    }
    var candidates;
    candidates, requested := FetchPostsIn(cache, RequestUrl(subreddits.value), fetch);
    if candidates.Err? {
      result := Err(candidates.error);
    } else {
      result := Ok(ChooseRandom(candidates.value, pick));
    }
  }
}
