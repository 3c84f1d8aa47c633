/** `getUrlPrefix` and `reset`: the HUD API memoises, per site, the callback URL ZAP
    generates for it, so that a site keeps its URL until the cache is cleared. */
module UrlPrefixes {

  /** What one lookup returns and leaves in the cache: the cached URL when the site has
      one, otherwise the freshly generated URL, which is then stored. */
  function Lookup(siteUrls: map<string, string>, site: string, generated: string): (r: (string, map<string, string>))
    ensures r.1.Keys == siteUrls.Keys + {site}
    ensures site in r.1 && r.1[site] == r.0
    ensures site in siteUrls ==> r == (siteUrls[site], siteUrls)
    ensures site !in siteUrls ==> r == (generated, siteUrls[site := generated])
    ensures forall s :: s in siteUrls && s != site ==> r.1[s] == siteUrls[s]
  {
    if site in siteUrls then (siteUrls[site], siteUrls) else (generated, siteUrls[site := generated])
  }

  /** The part of the HUD API that owns the `siteUrls` cache. */
  class HudApi {
    var siteUrls: map<string, string>

    constructor()
      ensures siteUrls == map[]
    {
      siteUrls := map[];
    }

    /** `getUrlPrefix`; `generated` is the URL ZAP would hand out for `site` on this call. */
    method GetUrlPrefix(site: string, generated: string) returns (url: string)
      modifies this
      ensures (url, siteUrls) == Lookup(old(siteUrls), site, generated)
    {
      if site in siteUrls {
        url := siteUrls[site];
      } else {
        url := generated;
        siteUrls := siteUrls[site := url];
      }
    }

    /** `reset`. */
    method Reset()
      modifies this
      ensures siteUrls == map[]
    {
      siteUrls := map[];
    }
  }

  /** Once a site has a URL, later lookups return that URL whatever is generated then,
      and leave the cache as it is. */
  lemma LookupIsStable(siteUrls: map<string, string>, site: string, g1: string, g2: string)
    ensures var (u1, m1) := Lookup(siteUrls, site, g1);
      Lookup(m1, site, g2) == (u1, m1)
  {
  }

  /** A lookup for one site never changes the URL of another. */
  lemma LookupIsolatesSites(siteUrls: map<string, string>, site: string, other: string, generated: string)
    requires other != site
    ensures var m := Lookup(siteUrls, site, generated).1;
      (other in m <==> other in siteUrls) && (other in siteUrls ==> m[other] == siteUrls[other])
  {
  }

  /** After a reset, the next lookup takes the newly generated URL. */
  lemma ResetForgets(site: string, generated: string)
    ensures Lookup(map[], site, generated) == (generated, map[site := generated])
  {
  }
}
