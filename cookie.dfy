/** The expiry-marker policy (`setBgImgCookie`): whether a resolved image is
    recorded in the `bgimg` cookie, and with which expiry. */
module BgCookie {
  import opened Wrappers
  import Js
  import opened Background

  /** The cookie's expiry date, built from `new Date(1970, 0, 1, 0, 0)`: that base
      moved on by `setSeconds(seconds)`, moved to the year 9999 by `setFullYear`,
      or left as it is. */
  datatype Expiry = Timed(seconds: int) | Forever | Base

  datatype Cookie = Cookie(value: Option<string>, path: string, expires: Expiry)

  const CookieName: string := "bgimg"

  /** The marker written for a resolved image, if any: only a freshly resolved
      image (one with `expiresAt` and without `error`) is recorded, under path
      `/` with its URL; a truthy `expiresAt` gives a timed expiry, `null` the year
      9999, zero the unchanged base date. */
  function Marker(img: Option<ResolvedImage>): (c: Option<Cookie>)
    ensures c.Some? <==> img.Some? && img.value.Fresh?
    ensures c.Some? ==> c.value.value == img.value.url && c.value.path == "/"
    ensures c.Some? ==> (c.value.expires.Forever? <==> img.value.expiresAt.None?)
    ensures c.Some? ==> (c.value.expires.Base? <==> img.value.expiresAt == Some(0))
    ensures c.Some? && c.value.expires.Timed? ==> img.value.expiresAt == Some(c.value.expires.seconds)
  {
    match img
    case Some(Fresh(url, expiresAt)) =>
      var expires :=
        if Js.NumberTruthy(expiresAt) then Timed(expiresAt.value)
        else if expiresAt.None? then Forever
        else Base;
      Some(Cookie(url, "/", expires))
    case _ => None
  }

  /** The response's cookie jar. */
  class CookieJar {
    var cookies: map<string, Cookie>

    constructor ()
      ensures cookies == map[]
    {
      cookies := map[];
    }

    /** `cookies.set(name, value, options)`. */
    method Set(name: string, cookie: Cookie)
      modifies this
      ensures cookies == old(cookies)[name := cookie]
    {
      cookies := cookies[name := cookie];
    }
  }

  /** `setBgImgCookie`: the expiry date is adjusted step by step and the marker
      written into the jar; nothing else in the jar changes. */
  method SetBgImgCookie(jar: CookieJar, bgImg: Option<ResolvedImage>)
    modifies jar
    ensures Marker(bgImg).Some? ==> jar.cookies == old(jar.cookies)[CookieName := Marker(bgImg).value]
    ensures Marker(bgImg).None? ==> jar.cookies == old(jar.cookies)
  {
    match bgImg {
      case Some(Fresh(url, expiresAt)) =>
        var expires := Base;
        if Js.NumberTruthy(expiresAt) {
          expires := Timed(expiresAt.value);
        } else if expiresAt.None? {
          expires := Forever;
        }
        jar.Set(CookieName, Cookie(url, "/", expires));
      case _ =>
    }
  }

  // ---------------------------------------------------------------------------
  // The marker across resolution cycles

  /** The fast path never writes a marker, so an existing one is left untouched. */
  lemma ReusedImageWritesNothing<P>(entries: map<string, seq<string>>, url: string,
                                    userConfig: UserConfig, env: Env<P>)
    requires url != ""
    ensures var g := BgConfigOutcome(entries, Some(url), userConfig, env);
      g.result.Ok? ==> Marker(g.result.value.image) == None
  {
    FastPath(entries, url, userConfig, env);
  }

  /** A failed provider call writes no marker, so the next cycle resolves anew. */
  lemma FailedImageWritesNothing<P>(entries: map<string, seq<string>>, currentBgImgUrl: Option<string>,
                                    cfg: BackgroundConfig, userConfig: UserConfig, env: Env<P>)
    requires Resolvable(cfg, userConfig, env) && !Js.Truthy(currentBgImgUrl)
    requires cfg.background == "random" && cfg.randomImage.provider in {"unsplash", "reddit"}
    requires ProviderOutcome(cfg, entries, env).Err?
    ensures var g := BgConfigOutcome(entries, currentBgImgUrl, userConfig, env);
      g.result.Ok? && Marker(g.result.value.image) == None
  {
    RandomImages(entries, currentBgImgUrl, cfg, userConfig, env);
  }

  /** A successful provider call writes a marker carrying its URL that expires
      `duration` seconds after `now`, or never when no duration is configured. */
  lemma FreshImageMarker<P>(entries: map<string, seq<string>>, currentBgImgUrl: Option<string>,
                            cfg: BackgroundConfig, userConfig: UserConfig, env: Env<P>)
    requires Resolvable(cfg, userConfig, env) && !Js.Truthy(currentBgImgUrl)
    requires cfg.background == "random" && cfg.randomImage.provider in {"unsplash", "reddit"}
    requires ProviderOutcome(cfg, entries, env).Ok?
    ensures var g := BgConfigOutcome(entries, currentBgImgUrl, userConfig, env);
      var d := cfg.randomImage.duration;
      && g.result.Ok? && Marker(g.result.value.image).Some?
      && Marker(g.result.value.image).value.value == ProviderOutcome(cfg, entries, env).value
      && (Js.NumberTruthy(d) && env.now + d.value != 0 ==> Marker(g.result.value.image).value.expires == Timed(env.now + d.value))
      && (!Js.NumberTruthy(d) ==> Marker(g.result.value.image).value.expires == Forever)
  {
    RandomImages(entries, currentBgImgUrl, cfg, userConfig, env);
  }

  /** The reuse cycle: when one call's marker records a non-empty URL and the next
      call is given that URL, the next call reuses it as `{url}`, sends no provider
      request, leaves the response cache alone and writes no new marker. */
  lemma MarkerEnablesReuse<P>(entries1: map<string, seq<string>>, currentBgImgUrl: Option<string>,
                              userConfig: UserConfig, env1: Env<P>,
                              entries2: map<string, seq<string>>, env2: Env<P>)
    requires var g1 := BgConfigOutcome(entries1, currentBgImgUrl, userConfig, env1);
      g1.result.Ok? && Marker(g1.result.value.image).Some? && Js.Truthy(Marker(g1.result.value.image).value.value)
    requires ParticlesOutcome(userConfig.backgrounds[FirstSelected(userConfig.backgrounds).value], env2).Ok?
    ensures var g1 := BgConfigOutcome(entries1, currentBgImgUrl, userConfig, env1);
      var url := Marker(g1.result.value.image).value.value.value;
      var g2 := BgConfigOutcome(entries2, Some(url), userConfig, env2);
      && g2.request.None? && g2.entries == entries2
      && g2.result.Ok? && g2.result.value.image == Some(Reused(url))
      && Marker(g2.result.value.image).None?
  {
    var g1 := BgConfigOutcome(entries1, currentBgImgUrl, userConfig, env1);
    var url := Marker(g1.result.value.image).value.value.value;
    FastPath(entries2, url, userConfig, env2);
  }
}
