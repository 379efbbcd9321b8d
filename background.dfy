/** The background resolution orchestrator (`generateCurrentBgConfig`): picks the
    selected background configuration, reuses a known image or resolves one from
    a provider or a static source, attaches its expiry, and assembles the render
    configuration. */
module Background {
  import opened Wrappers
  import Js
  import Reddit
  import Unsplash

  /** `random_image`: the provider and its parameters, and the lifetime in seconds. */
  datatype RandomImage = RandomImage(
    provider: string,
    unsplashQuery: Option<string>,
    subreddits: Option<string>,
    duration: Option<int>)

  /** `static_image`: an uploaded file or a web URL. */
  datatype StaticImage = StaticImage(source: string, uploadUrl: Option<string>, webUrl: Option<string>)

  /** One entry of `userConfig.backgrounds`. `blur` and `dots` are only passed through. */
  datatype BackgroundConfig = BackgroundConfig(
    selected: bool,
    background: string,
    randomImage: RandomImage,
    staticImage: StaticImage,
    particles: Option<string>,
    blur: int,
    dots: bool)

  datatype UserConfig = UserConfig(backgrounds: seq<BackgroundConfig>)

  /** The image descriptor: freshly resolved `{url, expiresAt}` (the URL is absent
      when the provider had no candidate), reused `{url}`, or `{error: true}`. */
  datatype ResolvedImage = Fresh(url: Option<string>, expiresAt: Option<int>) | Reused(knownUrl: string) | Failed

  /** The orchestrator's result; `image` is `None` for `null`. */
  datatype RenderConfig<P> = RenderConfig(
    image: Option<ResolvedImage>,
    triangles: bool,
    particles: Option<P>,
    blur: int,
    dots: bool)

  /** `bgImgUrlJob`: nothing, a provider call, or a value known at once. */
  datatype Job = NoJob | UnsplashJob(searchTerm: Option<string>) | RedditJob(subreddits: Option<string>) | Immediate(value: Option<string>)

  /** A provider request sent over the network. */
  datatype NetRequest = RedditListing(url: string) | UnsplashPhoto(request: Unsplash.UnsplashRequest)

  /** Everything outside the core: the API key from the application configuration,
      the answers to listing and photo requests, the particles generator, the
      random draw, and `epoch()`. */
  datatype Env<P> = Env(
    apiKey: Option<string>,
    fetchListing: string -> Result<seq<Reddit.Post>>,
    fetchPhoto: Unsplash.UnsplashRequest -> Result<Unsplash.UnsplashResponse>,
    particlesFor: string -> Result<P>,
    pick: nat,
    now: int)

  /** What reading `bgCfg.particles` throws when no configuration is selected,
      in the V8 engine's wording. */
  const NoSelectionError: string := "TypeError: Cannot read properties of undefined (reading 'particles')"
  const UploadPrefix: string := "/background/"

  /** `backgrounds.find(c => c.selected)`, as the index of the first selected entry. */
  function FirstSelected(cs: seq<BackgroundConfig>): (i: Option<nat>)
    ensures i.Some? ==> i.value < |cs| && cs[i.value].selected
    ensures i.Some? ==> forall j :: 0 <= j < i.value ==> !cs[j].selected
    ensures i.None? ==> forall j :: 0 <= j < |cs| ==> !cs[j].selected
  {
    if cs == [] then None
    else if cs[0].selected then Some(0)
    else match FirstSelected(cs[1..])
      case None => None
      case Some(k) => Some(k + 1)
  }

  /** The image job of lines 59-79: a provider call only in random mode for a known
      provider, a value only in static mode for a known source, nothing otherwise. */
  function PlanJob(cfg: BackgroundConfig): (job: Job)
    ensures job.UnsplashJob? <==> cfg.background == "random" && cfg.randomImage.provider == "unsplash"
    ensures job.RedditJob? <==> cfg.background == "random" && cfg.randomImage.provider == "reddit"
    ensures job.Immediate? <==> cfg.background == "static" && cfg.staticImage.source in {"upload", "web"}
  {
    if cfg.background == "random" then
      if cfg.randomImage.provider == "unsplash" then UnsplashJob(cfg.randomImage.unsplashQuery)
      else if cfg.randomImage.provider == "reddit" then RedditJob(cfg.randomImage.subreddits)
      else NoJob
    else if cfg.background == "static" then
      if cfg.staticImage.source == "upload" then Immediate(Some(UploadPrefix + Js.ToText(cfg.staticImage.uploadUrl)))
      else if cfg.staticImage.source == "web" then Immediate(cfg.staticImage.webUrl)
      else NoJob
    else NoJob
  }

  /** `expiresAt`: `now + duration` when the duration is truthy, `null` otherwise. */
  function ExpiresAt(duration: Option<int>, now: int): (e: Option<int>)
    ensures e.Some? <==> Js.NumberTruthy(duration)
    ensures e.Some? ==> e.value == now + duration.value
  {
    if Js.NumberTruthy(duration) then Some(now + duration.value) else None
  }

  /** The awaited job: its URL with the expiry, or `{error: true}` when it rejected. */
  function Settle(outcome: Result<Option<string>>, expiresAt: Option<int>): (img: ResolvedImage)
    ensures img.Failed? <==> outcome.Err?
    ensures outcome.Ok? ==> img == Fresh(outcome.value, expiresAt)
  {
    match outcome
    case Err(_) => Failed
    case Ok(url) => Fresh(url, expiresAt)
  }

  /** The image part of one resolution: the descriptor, the provider request sent
      (if any), and the response cache after it. */
  datatype Resolution = Resolution(
    image: Option<ResolvedImage>,
    request: Option<NetRequest>,
    entries: map<string, seq<string>>)

  /** The `bgImg` of one call. A truthy current URL is reused as it is; only a
      provider job sends a request, and the cache changes only when a request
      went out; there is no request without an image. */
  function ResolveImage<P>(cfg: BackgroundConfig, currentBgImgUrl: Option<string>,
                           entries: map<string, seq<string>>, env: Env<P>): (r: Resolution)
    ensures Js.Truthy(currentBgImgUrl) ==> r == Resolution(Some(Reused(currentBgImgUrl.value)), None, entries)
    ensures r.image.Some? && r.image.value.Reused? ==> Js.Truthy(currentBgImgUrl)
    ensures r.request.Some? ==> r.image.Some? && cfg.background == "random" && cfg.randomImage.provider in {"unsplash", "reddit"}
    ensures r.request.None? ==> r.entries == entries
  {
    if Js.Truthy(currentBgImgUrl) then Resolution(Some(Reused(currentBgImgUrl.value)), None, entries)
    else
      var expiry := ExpiresAt(cfg.randomImage.duration, env.now);
      match PlanJob(cfg)
      case NoJob => Resolution(None, None, entries)
      case Immediate(v) => Resolution(if Js.Truthy(v) then Some(Fresh(v, expiry)) else None, None, entries)
      case UnsplashJob(term) =>
        var q := Unsplash.QueryBgImgUrlUnsplash(env.apiKey, term, env.fetchPhoto);
        Resolution(Some(Settle(q.result, expiry)),
                   if q.request.Some? then Some(UnsplashPhoto(q.request.value)) else None,
                   entries)
      case RedditJob(subreddits) =>
        var q := Reddit.RedditOutcome(entries, subreddits, env.fetchListing, env.pick);
        Resolution(Some(Settle(q.result, expiry)),
                   if q.requested.Some? then Some(RedditListing(q.requested.value)) else None,
                   q.entries)
  }

  /** `await particlesJob`: `null` when no profile is named, else the generator's
      result, whose rejection rejects the whole call. */
  function ParticlesOutcome<P>(cfg: BackgroundConfig, env: Env<P>): (r: Result<Option<P>>)
    ensures r == Ok(None) <==> !Js.Truthy(cfg.particles)
    ensures r.Err? <==> Js.Truthy(cfg.particles) && env.particlesFor(cfg.particles.value).Err?
    ensures r.Ok? && r.value.Some? ==> Js.Truthy(cfg.particles) && env.particlesFor(cfg.particles.value) == Ok(r.value.value)
  {
    if Js.Truthy(cfg.particles) then
      match env.particlesFor(cfg.particles.value)
      case Err(e) => Err(e)
      case Ok(p) => Ok(Some(p))
    else Ok(None)
  }

  /** The returned record of lines 100-106. */
  function Assemble<P>(cfg: BackgroundConfig, image: Option<ResolvedImage>, particles: Option<P>): RenderConfig<P> {
    RenderConfig(image, cfg.background == "triangles", particles, cfg.blur, cfg.dots)
  }

  /** What one call does: the render configuration or the rejection, the provider
      request sent, and the response cache after the call. */
  datatype Generation<P> = Generation(
    result: Result<RenderConfig<P>>,
    request: Option<NetRequest>,
    entries: map<string, seq<string>>)

  /** The behaviour of `generateCurrentBgConfig` on a response cache `entries`:
      without a selected configuration it rejects before anything else, and the
      cache changes only when a provider request went out. */
  function BgConfigOutcome<P>(entries: map<string, seq<string>>, currentBgImgUrl: Option<string>,
                              userConfig: UserConfig, env: Env<P>): (g: Generation<P>)
    ensures FirstSelected(userConfig.backgrounds).None? ==> g == Generation(Err(NoSelectionError), None, entries)
    ensures g.request.None? ==> g.entries == entries
    ensures Js.Truthy(currentBgImgUrl) ==> g.request.None?
  {
    match FirstSelected(userConfig.backgrounds)
    case None => Generation(Err(NoSelectionError), None, entries)
    case Some(i) =>
      var cfg := userConfig.backgrounds[i];
      var r := ResolveImage(cfg, currentBgImgUrl, entries, env);
      match ParticlesOutcome(cfg, env)
      case Err(e) => Generation(Err(e), r.request, r.entries)
      case Ok(particles) => Generation(Ok(Assemble(cfg, r.image, particles)), r.request, r.entries)
  }

  // ---------------------------------------------------------------------------
  // Properties of one call

  /** How the whole call ends: it rejects exactly when no configuration is selected
      or the particles generator rejects; otherwise the record is built from the
      first selected configuration, `triangles` is true exactly in triangles mode,
      `blur` and `dots` are copied, and `particles` is `null` exactly when no
      profile is named. */
  lemma ResultAssembly<P>(entries: map<string, seq<string>>, currentBgImgUrl: Option<string>,
                          userConfig: UserConfig, env: Env<P>)
    ensures var g := BgConfigOutcome(entries, currentBgImgUrl, userConfig, env);
      var cs := userConfig.backgrounds;
      && (g.result.Err? <==>
            (forall j :: 0 <= j < |cs| ==> !cs[j].selected) ||
            (exists i :: 0 <= i < |cs| && cs[i].selected && (forall j :: 0 <= j < i ==> !cs[j].selected)
                         && Js.Truthy(cs[i].particles) && env.particlesFor(cs[i].particles.value).Err?))
      && (g.result.Ok? ==>
            exists i :: 0 <= i < |cs| && cs[i].selected && (forall j :: 0 <= j < i ==> !cs[j].selected)
              && g.result.value.triangles == (cs[i].background == "triangles")
              && g.result.value.blur == cs[i].blur && g.result.value.dots == cs[i].dots
              && (g.result.value.particles.None? <==> !Js.Truthy(cs[i].particles))
              && (g.result.value.particles.Some? ==> env.particlesFor(cs[i].particles.value) == Ok(g.result.value.particles.value)))
  {
    var cs := userConfig.backgrounds;
    var sel := FirstSelected(cs);
    if sel.Some? {
      var i := sel.value;
      forall k | 0 <= k < |cs| && cs[k].selected && (forall j :: 0 <= j < k ==> !cs[j].selected)
        ensures k == i
      {
      }
    }
  }

  /** The fast path: a truthy current URL is reused as `{url}` without expiry,
      whatever the mode; no provider request is sent and the cache is untouched. */
  lemma FastPath<P>(entries: map<string, seq<string>>, url: string, userConfig: UserConfig, env: Env<P>)
    requires url != ""
    ensures var g := BgConfigOutcome(entries, Some(url), userConfig, env);
      && g.request.None? && g.entries == entries
      && (g.result.Ok? ==> g.result.value.image == Some(Reused(url)))
  {
  }

  /** A selected configuration and particles that resolve: the call returns normally. */
  predicate Resolvable<P>(cfg: BackgroundConfig, userConfig: UserConfig, env: Env<P>) {
    && FirstSelected(userConfig.backgrounds).Some?
    && userConfig.backgrounds[FirstSelected(userConfig.backgrounds).value] == cfg
    && ParticlesOutcome(cfg, env).Ok?
  }

  /** Static mode without a current URL: an upload resolves to `/background/` plus
      its reference, a web source to its URL when that is truthy (to `null`
      otherwise); the expiry still comes from `random_image.duration`, and nothing
      is requested. */
  lemma StaticImages<P>(entries: map<string, seq<string>>, currentBgImgUrl: Option<string>,
                        cfg: BackgroundConfig, userConfig: UserConfig, env: Env<P>)
    requires Resolvable(cfg, userConfig, env) && !Js.Truthy(currentBgImgUrl)
    requires cfg.background == "static"
    ensures var g := BgConfigOutcome(entries, currentBgImgUrl, userConfig, env);
      var expiry := ExpiresAt(cfg.randomImage.duration, env.now);
      && g.result.Ok? && g.request.None? && g.entries == entries
      && (cfg.staticImage.source == "upload" ==>
            g.result.value.image == Some(Fresh(Some(UploadPrefix + Js.ToText(cfg.staticImage.uploadUrl)), expiry)))
      && (cfg.staticImage.source == "web" ==>
            g.result.value.image == if Js.Truthy(cfg.staticImage.webUrl) then Some(Fresh(cfg.staticImage.webUrl, expiry)) else None)
      && (cfg.staticImage.source !in {"upload", "web"} ==> g.result.value.image.None?)
  {
  }

  /** No job, no image: an unknown mode, provider or source gives `null`, and
      nothing is requested. */
  lemma UnknownValuesGiveNull<P>(entries: map<string, seq<string>>, currentBgImgUrl: Option<string>,
                                 cfg: BackgroundConfig, userConfig: UserConfig, env: Env<P>)
    requires Resolvable(cfg, userConfig, env) && !Js.Truthy(currentBgImgUrl)
    requires || cfg.background !in {"random", "static"}
             || (cfg.background == "random" && cfg.randomImage.provider !in {"unsplash", "reddit"})
             || (cfg.background == "static" && cfg.staticImage.source !in {"upload", "web"})
    ensures var g := BgConfigOutcome(entries, currentBgImgUrl, userConfig, env);
      g.result == Ok(Assemble(cfg, None, ParticlesOutcome(cfg, env).value)) && g.request.None? && g.entries == entries
  {
  }

  /** The awaited outcome of a provider job: Unsplash rejects without a key,
      Reddit without a subreddit list. */
  function ProviderOutcome<P>(cfg: BackgroundConfig, entries: map<string, seq<string>>, env: Env<P>): (r: Result<Option<string>>)
    ensures cfg.randomImage.provider == "unsplash" && !Js.Truthy(env.apiKey) ==> r == Err(Unsplash.NoApiKeyError)
    ensures cfg.randomImage.provider == "reddit" && cfg.randomImage.subreddits.None? ==> r == Err(Reddit.NoSubredditsError)
  {
    if cfg.randomImage.provider == "unsplash"
    then Unsplash.QueryBgImgUrlUnsplash(env.apiKey, cfg.randomImage.unsplashQuery, env.fetchPhoto).result
    else Reddit.RedditOutcome(entries, cfg.randomImage.subreddits, env.fetchListing, env.pick).result
  }

  lemma ProviderJobSettles<P>(cfg: BackgroundConfig, currentBgImgUrl: Option<string>,
                              entries: map<string, seq<string>>, env: Env<P>)
    requires !Js.Truthy(currentBgImgUrl)
    requires cfg.background == "random" && cfg.randomImage.provider in {"unsplash", "reddit"}
    ensures ResolveImage(cfg, currentBgImgUrl, entries, env).image ==
      Some(Settle(ProviderOutcome(cfg, entries, env), ExpiresAt(cfg.randomImage.duration, env.now)))
  {
    if cfg.randomImage.provider == "unsplash" {
      assert PlanJob(cfg) == UnsplashJob(cfg.randomImage.unsplashQuery);
    } else {
      assert PlanJob(cfg) == RedditJob(cfg.randomImage.subreddits);
    }
  }

  /** Random mode with a known provider and no current URL: the call returns
      normally with an image; `{error: true}` exactly when the provider rejects,
      otherwise its URL with `expiresAt` = `now + duration` for a truthy duration
      and `null` for a falsy one. */
  lemma RandomImages<P>(entries: map<string, seq<string>>, currentBgImgUrl: Option<string>,
                        cfg: BackgroundConfig, userConfig: UserConfig, env: Env<P>)
    requires Resolvable(cfg, userConfig, env) && !Js.Truthy(currentBgImgUrl)
    requires cfg.background == "random" && cfg.randomImage.provider in {"unsplash", "reddit"}
    ensures var g := BgConfigOutcome(entries, currentBgImgUrl, userConfig, env);
      var d := cfg.randomImage.duration;
      var outcome := ProviderOutcome(cfg, entries, env);
      && g.result.Ok? && g.result.value.image.Some?
      && (g.result.value.image.value.Failed? <==> outcome.Err?)
      && (outcome.Ok? ==> g.result.value.image.value.Fresh? && g.result.value.image.value.url == outcome.value)
      && (outcome.Ok? && Js.NumberTruthy(d) ==> g.result.value.image.value.expiresAt == Some(env.now + d.value))
      && (outcome.Ok? && !Js.NumberTruthy(d) ==> g.result.value.image.value.expiresAt.None?)
  {
    ProviderJobSettles(cfg, currentBgImgUrl, entries, env);
    var r := ResolveImage(cfg, currentBgImgUrl, entries, env);
    assert BgConfigOutcome(entries, currentBgImgUrl, userConfig, env).result ==
      Ok(Assemble(cfg, r.image, ParticlesOutcome(cfg, env).value));
  }

  /** An Unsplash answer of 200 whose `urls.full` is `y` (absent when `y` is
      `None`) resolves to `{url: y, expiresAt: now + duration}` for a truthy
      duration. */
  lemma UnsplashSuccess<P>(entries: map<string, seq<string>>, cfg: BackgroundConfig, userConfig: UserConfig,
                           env: Env<P>, y: Option<string>)
    requires Resolvable(cfg, userConfig, env)
    requires cfg.background == "random" && cfg.randomImage.provider == "unsplash"
    requires Js.Truthy(env.apiKey) && Js.NumberTruthy(cfg.randomImage.duration)
    requires var res := env.fetchPhoto(Unsplash.UnsplashRequest(env.apiKey.value, "landscape", Js.ToText(cfg.randomImage.unsplashQuery)));
      res.Ok? && res.value.status == 200 && res.value.fullUrl == Ok(y)
    ensures var g := BgConfigOutcome(entries, None, userConfig, env);
      && g.result.Ok? && g.result.value.image == Some(Fresh(y, Some(env.now + cfg.randomImage.duration.value)))
      && g.request == Some(UnsplashPhoto(Unsplash.UnsplashRequest(env.apiKey.value, "landscape", Js.ToText(cfg.randomImage.unsplashQuery))))
  {
  }

  // ---------------------------------------------------------------------------
  // The call itself

  /** `generateCurrentBgConfig`, with `bgImgUrlJob` and `bgImg` assigned step by step
      and the Reddit query run against the cache object. */
  method GenerateCurrentBgConfig<P>(cache: Reddit.HttpCache, currentBgImgUrl: Option<string>,
                                    userConfig: UserConfig, env: Env<P>)
    returns (result: Result<RenderConfig<P>>, request: Option<NetRequest>)
    modifies cache
    ensures Generation(result, request, cache.entries) == BgConfigOutcome(old(cache.entries), currentBgImgUrl, userConfig, env)
  {
    var selected := FirstSelected(userConfig.backgrounds);
    if selected.None? {
      return Err(NoSelectionError), None;
    }
    var bgCfg := userConfig.backgrounds[selected.value];
    var particlesJob := ParticlesOutcome(bgCfg, env);

    var bgImg: Option<ResolvedImage> := None;
    request := None;
    if !Js.Truthy(currentBgImgUrl) {
      var bgImgUrlJob := NoJob;
      if bgCfg.background == "random" {
        if bgCfg.randomImage.provider == "unsplash" {
          bgImgUrlJob := UnsplashJob(bgCfg.randomImage.unsplashQuery);
        } else if bgCfg.randomImage.provider == "reddit" {
          bgImgUrlJob := RedditJob(bgCfg.randomImage.subreddits);
        }
      } else if bgCfg.background == "static" {
        if bgCfg.staticImage.source == "upload" {
          bgImgUrlJob := Immediate(Some(UploadPrefix + Js.ToText(bgCfg.staticImage.uploadUrl)));
        } else if bgCfg.staticImage.source == "web" {
          bgImgUrlJob := Immediate(bgCfg.staticImage.webUrl);
        }
      }

      var expiry := ExpiresAt(bgCfg.randomImage.duration, env.now);
      match bgImgUrlJob {
        case NoJob =>
        case Immediate(v) =>
          if Js.Truthy(v) {
            bgImg := Some(Fresh(v, expiry));
          }
        case UnsplashJob(term) =>
          var q := Unsplash.QueryBgImgUrlUnsplash(env.apiKey, term, env.fetchPhoto);
          if q.request.Some? {
            request := Some(UnsplashPhoto(q.request.value));
          }
          bgImg := Some(Settle(q.result, expiry));
        case RedditJob(subreddits) =>
          var url, requested := Reddit.QueryBgImgUrlReddit(cache, subreddits, env.fetchListing, env.pick);
          if requested.Some? {
            request := Some(RedditListing(requested.value));
          }
          bgImg := Some(Settle(url, expiry));
      }
    } else {
      bgImg := Some(Reused(currentBgImgUrl.value));
    }

    match particlesJob {
      case Err(e) => result := Err(e);
      case Ok(particles) => result := Ok(Assemble(bgCfg, bgImg, particles));
    }
  }
}
