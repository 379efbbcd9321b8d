# Background resolution of a dashboard, modelled in Dafny

This project models how the dashboard server picks the current background image,
as implemented in `src/lib/server/background.ts`. It covers four parts:

- **Reddit provider** (`queryBgImgUrlReddit`). The subreddit argument is trimmed,
  split at commas (white space around each comma is removed), joined with `+`
  and passed through `basename`. The listing URL is looked up in a response
  cache keyed by URL. On a miss the listing is fetched and filtered. Kept posts
  are not videos and not stickied, have a url and a thumbnail, link to
  `i.imgur.com` or `i.redd.it`, and have a first preview source larger than
  1000x800 with a width-to-height ratio above 1.1. The list of their URLs is
  cached, and one URL is picked from it at random.
- **Unsplash provider** (`queryBgImgUrlUnsplash`). With no API key the call fails
  before any request. A 200 answer gives `urls.full`, which is `undefined` when
  the body's `urls` has no `full`; a body that is not JSON or has no `urls`
  fails. Any other status fails, and the error carries the response text.
- **Orchestrator** (`generateCurrentBgConfig`). A truthy current URL is reused
  as `{url}`. Otherwise the mode decides: random mode calls a provider, and
  static mode takes an uploaded path or a web URL. The result gets
  `expiresAt = now + random_image.duration` when that duration is truthy. A
  failed provider call becomes `{error: true}`. The render record copies `blur`
  and `dots`, sets `triangles` for triangles mode, and carries the particles
  result.
- **Expiry marker** (`setBgImgCookie`). Only a freshly resolved image is written
  to the `bgimg` cookie. A truthy `expiresAt` gives a timed expiry, `null`
  gives the year 9999, and `0` leaves the base date.

The image descriptor is a sum type, `Fresh(url, expiresAt) | Reused(knownUrl) | Failed`,
and `None` stands for `null`. The network, the application configuration, the
particles generator, the random draw and the clock are inputs, gathered in
`Background.Env`:
- `fetchListing` and `fetchPhoto` answer requests;
- `apiKey` is the configured Unsplash key;
- `particlesFor` is the particles generator;
- `pick` is the random draw;
- `now` is `epoch()`.

The response cache is a class, `Reddit.HttpCache`, whose map field is updated in
place. The cookie jar is a class, `BgCookie.CookieJar`. Four methods run against
these objects, and each is proved equal to a pure function of the old state:
- `Reddit.FetchPostsIn` to `Reddit.FetchPosts`;
- `Reddit.QueryBgImgUrlReddit` to `Reddit.RedditOutcome`;
- `Background.GenerateCurrentBgConfig` to `Background.BgConfigOutcome`;
- `BgCookie.SetBgImgCookie` to `BgCookie.Marker`, which says which cookie, if
  any, is written.

The lemmas are stated about these functions.

Where the code's behaviour is surprising, the model follows the code:
- A Reddit listing with no surviving post gives `chooseRandom([])`, which is
  absent. The orchestrator does not check for it and returns `{url: undefined,
  expiresAt}`. The model writes this as `Fresh(None, …)`, not as "no candidate".
- A 200 Unsplash answer whose `urls` has no `full` resolves to `undefined` in
  the same way, and also gives `Fresh(None, …)`.
- `expiresAt` is set for any non-zero duration, including a negative one, not
  only for a positive one.
- `random_image.duration` is also read in static mode. A static image therefore
  carries `expiresAt` (`null` when no duration is set).
- A post whose `preview.images` is empty makes the second filter throw, so the
  whole Reddit query fails (`Reddit.Malformed`).
- With no selected configuration, reading `bgCfg.particles` throws and the whole
  call fails. A rejected particles generator also fails the whole call, after
  the image job has run.
- An `expiresAt` of `0` still writes the cookie, with the unchanged base date.
- The timed expiry is the local-time date 1970-01-01 00:00 plus `expiresAt`
  seconds, not the epoch instant itself. The model keeps it abstract
  (`Timed(seconds)`).

## Model

| member | source | states |
|---|---|---|
| `Text.TrimStart` | src/lib/server/background.ts:29 | the result is the suffix of the input starting at its first non-space character; everything dropped is white space |
| `Text.TrimEnd` | src/lib/server/background.ts:29 | the result is the prefix of the input ending at its last non-space character; everything dropped is white space |
| `Text.Trim` | src/lib/server/background.ts:29 | the trimmed string has no white space at either edge and is no longer than the input; `TrimInfix` says which infix it is |
| `Text.TrimInfix` | src/lib/server/background.ts:29 | the trimmed string is the infix of the input between two cut points, with only white space before and after it |
| `Text.TrimIgnoresPadding` | src/lib/server/background.ts:29 | white space put around a string does not change its trim |
| `Text.TrimKeepsTrimmed` | src/lib/server/background.ts:29 | trimming leaves a string without edge white space unchanged (so trimming is idempotent) |
| `Text.SplitOn` | src/lib/server/background.ts:29 | a split yields at least one piece and no piece contains the separator |
| `Text.JoinSplit` | src/lib/server/background.ts:29 | joining the pieces of a split with the same separator gives back the string |
| `Text.SplitJoin` | src/lib/server/background.ts:11 | splitting a join of separator-free pieces gives back the pieces |
| `Text.JoinWith` | src/lib/server/background.ts:11 | the join holds no character other than the separator and characters of the pieces; `JoinSplit` and `SplitJoin` make it the inverse of the split |
| `Text.OuterTrimIrrelevant` | src/lib/server/background.ts:29 | for a separator that is not white space, trimming the whole string before the split changes none of the trimmed pieces |
| `Text.StripTrailingSlashes` | src/lib/server/background.ts:11 | the result is the longest prefix not ending in `/`; everything dropped is `/` |
| `Text.Basename` | src/lib/server/background.ts:11 | after the trailing slashes are dropped, the longest suffix without `/` (preceded by a `/` when it is not all of it); a string without `/` is its own basename |
| `Reddit.SubredditNames` | src/lib/server/background.ts:29 | the parsed names are at least one, contain no comma and have no edge white space, and are the trimmed comma pieces of the argument (the outer trim makes no difference) |
| `Reddit.PaddedNames` | src/lib/server/background.ts:29 | plain names joined with commas, with any white space around each name, parse back to exactly those names |
| `Reddit.SubredditSegment` | src/lib/server/background.ts:11 | the path segment put into the URL contains no `/` |
| `Reddit.RequestUrl` | src/lib/server/background.ts:11 | the request URL is `https://api.reddit.com/r/`, then one `/`-free segment, then `/.json?limit=100`; `PaddedRequestUrl` gives the segment for a list of plain names |
| `Reddit.PaddedRequestUrl` | src/lib/server/background.ts:9-31 | plain names (no `,` or `/`) with any white space around each, joined with commas, are requested as `https://api.reddit.com/r/` + the names joined with `+` + `/.json?limit=100` |
| `Reddit.SegmentOfNames` | src/lib/server/background.ts:11 | a comma list of plain names (no `,`, `/` or edge white space) becomes exactly those names joined with `+` |
| `Reddit.KeepBySize` | src/lib/server/background.ts:21-26 | the second filter throws exactly for an empty `preview.images`; it keeps a post exactly when the first image's source exists and is larger than 1000x800 and wider than 1.1:1 |
| `Reddit.FirstPass` | src/lib/server/background.ts:19-20 | the first filter keeps only posts of the input that pass the basic checks, never more than the input |
| `Reddit.SecondPass` | src/lib/server/background.ts:21-26 | the second filter keeps only posts of the input the size test accepts, or throws because some post has an empty `preview.images` |
| `Reddit.Urls` | src/lib/server/background.ts:27 | the map yields one URL per post, in order |
| `Reddit.FilteredUrls` | src/lib/server/background.ts:19-27 | the chain yields at most one URL per post, each the URL of an eligible post, or throws the empty-images error of a malformed post; `FilteredUrlsMeaning` gives the exact value |
| `Reddit.FilteredUrlsMeaning` | src/lib/server/background.ts:19-27 | the filter chain throws exactly when some post passing the first filter has an empty `preview.images`; otherwise it yields the URLs of the eligible posts in input order |
| `Reddit.FilteredUrlsStep` | src/lib/server/background.ts:19-27 | one more post in front either makes the chain throw or adds its URL in front exactly when it is eligible |
| `Reddit.EligibleUrlsMembership` | src/lib/server/background.ts:19-27 | a URL is kept exactly when some post carrying it passes every check: not video, not stickied, url and thumbnail present, domain `i.imgur.com` or `i.redd.it`, first preview source height > 800, width > 1000, ratio > 1.1 |
| `Reddit.EligibleUrlsLength` | src/lib/server/background.ts:19-27 | the filtered list is never longer than the posts |
| `Reddit.EligibleUrlsAppend` | src/lib/server/background.ts:19-27 | filtering keeps input order: the filter of a concatenation is the concatenation of the filters |
| `Reddit.ChooseRandom` | src/lib/server/background.ts:29 | the pick is absent exactly for an empty list and otherwise a member of the list |
| `Reddit.HttpCache.Lookup` | src/lib/server/background.ts:12 | a hit exactly when the key is stored, and then the stored list |
| `Reddit.HttpCache.Store` | src/lib/server/background.ts:19 | the cache afterwards is the old one with the key mapped to the value |
| `Reddit.FetchPosts` | src/lib/server/background.ts:10-28 | a cache hit returns the cached list with no request and no cache change; a miss requests the URL; a failure leaves the cache alone; a success is what the cache holds under the URL afterwards |
| `Reddit.FetchPostsCaching` | src/lib/server/background.ts:12-19 | the cache changes only by storing, on a miss, the filtered list of a successful fetch under the request URL |
| `Reddit.RepeatedFetchHitsCache` | src/lib/server/background.ts:12 | a second fetch of the same URL after a successful one fetches nothing and returns the same list |
| `Reddit.FetchPostsIn` | src/lib/server/background.ts:10-28 | the method's candidates, request and new cache are those of `FetchPosts` on the old cache |
| `Reddit.RedditOutcome` | src/lib/server/background.ts:9-31 | no subreddit list: rejects with nothing fetched or cached; a rejected call, or one that fetched nothing, leaves the cache unchanged; `RedditChoice` gives the rest |
| `Reddit.RedditChoice` | src/lib/server/background.ts:9-31 | no subreddit list: rejects with nothing fetched or cached; otherwise at most the list's request URL is fetched, a failed call leaves the cache unchanged, and a chosen URL is a member of the list cached under the request URL, absent exactly when that list is empty |
| `Reddit.RepeatedQueryHitsCache` | src/lib/server/background.ts:12-19 | after a successful call, the same subreddit list fetches nothing and draws from the same filtered list |
| `Reddit.MissStoresFiltered` | src/lib/server/background.ts:13-27 | on a miss with a well-formed listing, the URLs of the eligible posts (not the posts) are stored under the exact request URL and returned |
| `Reddit.QueryBgImgUrlReddit` | src/lib/server/background.ts:9-31 | the method's result, request and new cache are those of `RedditOutcome` on the old cache |
| `Unsplash.QueryBgImgUrlUnsplash` | src/lib/server/background.ts:33-50 | no key: fails with "no api key given" and sends nothing; with a key: one landscape request with the key and the search term; a value only from a 200 answer, and then `urls.full`, absent when `urls` has no `full`; any other status fails with the response text |
| `Unsplash.UnsplashSucceedsIff` | src/lib/server/background.ts:36-49 | the call succeeds exactly when there is a key, the answer is 200 and the body is JSON with a `urls` object |
| `Background.FirstSelected` | src/lib/server/background.ts:54 | the index of the first selected configuration, or none exactly when no entry is selected |
| `Background.PlanJob` | src/lib/server/background.ts:59-79 | a provider job exactly in random mode with provider `unsplash` or `reddit`; an immediate value exactly in static mode with source `upload` or `web`; no job otherwise |
| `Background.ExpiresAt` | src/lib/server/background.ts:87 | an expiry exactly when the duration is truthy, and then `now + duration` |
| `Background.Settle` | src/lib/server/background.ts:81-94 | `{error: true}` exactly when the job rejected, otherwise the job's URL with the expiry |
| `Background.ResolveImage` | src/lib/server/background.ts:57-97 | a truthy current URL is reused as it is; only a reused image comes from it; a request goes out only for a random-mode provider job, and then with an image; the cache changes only when a request went out |
| `Background.ParticlesOutcome` | src/lib/server/background.ts:55 | null exactly when no profile is named; a rejection exactly when the named profile's generator rejects; otherwise the generator's result |
| `Background.BgConfigOutcome` | src/lib/server/background.ts:52-107 | without a selected configuration the call rejects with nothing requested; the cache changes only when a provider request went out; a truthy current URL sends nothing; `ResultAssembly` and the lemmas below give the rest |
| `Background.ResultAssembly` | src/lib/server/background.ts:100-106 | the call fails exactly when nothing is selected or the named particles profile fails; otherwise the record comes from the first selected configuration, `triangles` holds exactly in triangles mode, `blur`/`dots` are copied, `particles` is null exactly when no profile is named |
| `Background.FastPath` | src/lib/server/background.ts:95-96 | a truthy current URL gives exactly `{url}`, whatever the mode, with no provider request and the cache unchanged |
| `Background.StaticImages` | src/lib/server/background.ts:72-79 | static upload gives `/background/` + the upload reference, static web gives the web URL when truthy and null otherwise, both with the duration's expiry; an unknown source gives null; nothing is requested |
| `Background.UnknownValuesGiveNull` | src/lib/server/background.ts:61-93 | an unknown mode, provider or source creates no job: the image is null and nothing is requested |
| `Background.ProviderOutcome` | src/lib/server/background.ts:63-66 | the awaited provider call: Unsplash rejects without a key, and Reddit rejects without a subreddit list; `RandomImages` ties it to the image |
| `Background.ProviderJobSettles` | src/lib/server/background.ts:81-92 | a provider job's image is its awaited outcome settled with the duration's expiry |
| `Background.RandomImages` | src/lib/server/background.ts:61-92 | random mode returns normally with an image: `{error: true}` exactly when the provider rejects, otherwise its URL with `now + duration` for a truthy duration and null for a falsy one |
| `Background.UnsplashSuccess` | src/lib/server/background.ts:63-88 | a 200 Unsplash answer whose `urls.full` is y (possibly absent) gives `{url: y, expiresAt: now + duration}` after one landscape request |
| `Background.GenerateCurrentBgConfig` | src/lib/server/background.ts:52-107 | the method's result, request and new cache are those of `BgConfigOutcome` on the old cache |
| `BgCookie.Marker` | src/lib/server/background.ts:109-118 | a marker exactly for a freshly resolved image, carrying its URL under path `/`; `null` expiry gives year 9999, zero the base date, a truthy value a timed expiry of that many seconds |
| `BgCookie.CookieJar.Set` | src/lib/server/background.ts:117 | the jar afterwards is the old one with the name mapped to the cookie |
| `BgCookie.SetBgImgCookie` | src/lib/server/background.ts:109-119 | the jar gains the `bgimg` marker exactly when one is due and is otherwise unchanged |
| `BgCookie.ReusedImageWritesNothing` | src/lib/server/background.ts:110 | a reused `{url}` image writes no marker |
| `BgCookie.FailedImageWritesNothing` | src/lib/server/background.ts:110 | a failed provider call writes no marker |
| `BgCookie.FreshImageMarker` | src/lib/server/background.ts:110-117 | a successful provider call writes a marker with its URL, timed at `now + duration` for a truthy duration whose sum with `now` is non-zero (a zero sum is falsy and keeps the base date), and year 9999 without a duration |
| `BgCookie.MarkerEnablesReuse` | src/lib/server/background.ts:96-117 | a marker with a non-empty URL, fed back as the current URL, makes the next call reuse it with no request, no cache change and no new marker |

## Left out

- HTTP: `fetchTimeout`, its `timeout`, `credentials` and `referrerPolicy` options, and `response.json()`/`text()` are inputs. A fetch answers with parsed data or a failure. The Reddit code does not check the status, so a body without `data.children` counts as a failed fetch.
- `getConfig()`: the Unsplash key is an input, and a failure of `getConfig` itself is not modelled.
- `getParticlesConfig` and the concurrent start of the particles and image jobs: the generator is an input function, and the two jobs run one after the other. Neither job affects the other, so the result is the same.
- `chooseRandom`: the random draw is an index parameter. The model states membership, not uniformity. An empty list gives an absent value, which is assumed behaviour of that helper; `src/lib/random` is not part of this model.
- The response cache `src/lib/server/httpcache` is not part of this model. Its time-to-live shows up only as a missing key, and `cache(url, value)` is assumed to store and return `value`.
- `Reddit.LargeLandscape`: `width / height > 1.1` is written as `10 * width > 11 * height`. This is exact for integer sizes because `height > 800`, but floating-point rounding at the boundary is not modelled. Sizes are integers, and missing width or height fields are not modelled.
- `Reddit.Post`: `preview` is either absent or a list of images, so a `preview` object without `images` is not modelled. For such a post, reading `images[0]` throws, and the whole Reddit query would fail.
- `Text.Basename`: trailing `/` are stripped and the part after the last `/` is kept. Other details of Node's `path.basename` are not modelled.
- `Reddit.SubredditNames`: the `/\s*,\s*/` split is modelled as a split at commas, then trimming each piece; the two agree because the whole argument is trimmed first. The white-space set is ECMAScript's. Unicode normalisation and regex-engine details are not modelled.
- `Unsplash.QueryBgImgUrlUnsplash`: the request carries the raw parameter values. `URLSearchParams` percent-encoding is not modelled.
- The `try`/`catch` around the provider calls (lines 62-71): the configuration records `random_image` and `static_image` are taken to be always present, so nothing there can throw synchronously. A configuration without them is not modelled.
- JavaScript truthiness is modelled only for the values used here: an absent or empty string, and an absent or zero number. `NaN` durations and non-string configuration values are not modelled.
- `BgCookie.Marker`: the `Date` is abstract (`Timed(seconds)`, `Forever`, `Base`). Local-time arithmetic and the cookie library's encoding of the value, including an absent URL, are not modelled.
- Logging through `console.warn` and `console.error` is not modelled.
