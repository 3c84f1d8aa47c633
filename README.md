# HUD API rules, modelled in Dafny

This project models the deterministic core of the HUD API class of ZAP's Heads Up Display
add-on (`HudAPI.java`). The model covers:

- **UI-option keys** (`validateKey`, with `setUiOption` and `getUiOption`). A key must be
  1 to 50 ASCII letters or digits before the option store is read or written.
- **Alert summaries** (`getAlertSummaries`).
  - The page part collects the alerts of all siblings that carry the node's hierarchic
    name. An alert is kept only when its own URI resolves to a node of that name. Kept
    alerts go into one set per risk label.
  - The site part climbs from the closest parent to the node just below the root. It
    collects that node's alert names, one set per risk label.
  - The site tree is an arena of nodes. Each node has a parent index, child indices, a
    hierarchic name and an alert list. `findNode` and `findClosestParent` are given maps
    from URI to node.
- **Asset templating** (`getFile`).
  - The request URL is cut at the callback path. For `inject.js` the referrer replaces
    it.
  - Every file gets the minimal tokens: the URL and the secret for `inject.js`, and the
    files base URL for all files.
  - Only files served under `https://zap/` get the trusted tokens: the WebSocket URL, the
    tools manifest, the layout options, the locale, dev mode, and the welcome, tutorial
    and secret values of `management.js`.
  - A reference rule table states which token gets which value for each request.
    `GetFile` applies the tokens one `String.replace` at a time and is proved equal to
    that table.
- **Callback gate** (`handleCallBack`). It serves only `inject.js`, chosen by the last
  path segment. Everything else is URL_NOT_FOUND.
- **Response header** (`getAllowFramingResponseHeader`). The header is built line by
  line, each line ending in CRLF.
- **URL-prefix memo** (`getUrlPrefix`/`reset`). A class holds the `siteUrls` map.
- **Cookie lookup** (`getRequestCookieValue`). A loop returns at the first cookie with
  the matching name.

Module by module:

- `wrappers.dfy`: `Option`, `Result` and the API exceptions.
- `java_strings.dfy`: the `java.lang.String` operations the code uses: `indexOf`,
  `lastIndexOf`, left-to-right non-overlapping `replace`, `endsWith` after a lower-case
  conversion, and `Integer.toString`.
- `ui_options.dfy`: key validation and the option store.
- `site_tree.dfy`: the arena and the functions that specify the summaries.
- `alert_summaries.dfy`: the imperative `getAlertSummaries` and its properties.
- `asset_templates.dfy`: `getFile`.
- `callback.dfy`: `handleCallBack`.
- `response_headers.dfy`: the header builder.
- `url_prefixes.dfy`: the prefix cache.
- `cookies.dfy`: the cookie lookup.

Collaborators are parameters:

- `HudSettings` holds the files base URL, the shared secret, the tutorial test-mode flag
  and the values only trusted files need. A value ZAP would fail to supply (no WebSocket
  URL, no tools directory listing) is `None`.
- `AssetSource` holds the script-extension copy and the on-disk copy of one file.
- The callback URL ZAP would generate for a site is an argument of `GetUrlPrefix`.

## Model

Source paths are relative to the repository root.

| member | source | states |
|---|---|---|
| UiOptions.MatchesAlnumPlus | src/main/java/org/zaproxy/zap/extension/hud/HudAPI.java:264 | `key.matches("[a-zA-Z0-9]+")` holds exactly when the key is non-empty and every character is an ASCII letter or digit |
| UiOptions.ValidateKey | src/main/java/org/zaproxy/zap/extension/hud/HudAPI.java:263-267 | a key is accepted exactly when its length is 1..50 and every character is an ASCII letter or digit; otherwise the error is ILLEGAL_PARAMETER for "key" |
| UiOptions.SetUiOption | src/main/java/org/zaproxy/zap/extension/hud/HudAPI.java:249-254 | the result is the key check's result; on success the key maps to the value (empty when absent) and nothing else changes; on failure the store is unchanged |
| UiOptions.GetUiOption | src/main/java/org/zaproxy/zap/extension/hud/HudAPI.java:304-307 | the store is read only after the key check passes; the error is the key check's error |
| UiOptions.UnderscoreKeyRefused | src/main/java/org/zaproxy/zap/extension/hud/HudAPI.java:264 | every key containing '_' is refused with IllegalParameter("key") |
| SiteTree.TopLevel | src/main/java/org/zaproxy/zap/extension/hud/HudAPI.java:384-386 | the climb's end node is a node of the tree |
| SiteTree.TopLevelClimb | src/main/java/org/zaproxy/zap/extension/hud/HudAPI.java:384-386 | the climb fails exactly when it starts at the root; otherwise it stops at an ancestor-or-self whose parent is a root |
| SiteTree.KeptOfRiskMembership | src/main/java/org/zaproxy/zap/extension/hud/HudAPI.java:352-361 | an alert of one node's list is kept for risk r exactly when it is in the list, has risk r and its own URI resolves to a node with the page's name |
| SiteTree.SiblingAlertsMembership | src/main/java/org/zaproxy/zap/extension/hud/HudAPI.java:346-364 | page-bucket membership in both directions: a sibling carrying the page's name holds the alert, its risk matches, and its URI resolves to that name |
| SiteTree.NamesOfRiskMembership | src/main/java/org/zaproxy/zap/extension/hud/HudAPI.java:391-393 | a name is in a site bucket exactly when some alert of the node has that name and the bucket's risk |
| AlertSummaries.NewRiskMap | src/main/java/org/zaproxy/zap/extension/hud/HudAPI.java:341-344 | the new map has exactly the four risk labels as keys, each with an empty set |
| AlertSummaries.AddKeptAlerts | src/main/java/org/zaproxy/zap/extension/hud/HudAPI.java:352-362 | every risk bucket grows by exactly the kept alerts of that risk |
| AlertSummaries.CollectPageAlerts | src/main/java/org/zaproxy/zap/extension/hud/HudAPI.java:341-364 | the sibling loop yields the page-bucket map that `PageBuckets` defines |
| AlertSummaries.ClimbToTopLevel | src/main/java/org/zaproxy/zap/extension/hud/HudAPI.java:384-386 | the while loop ends at the climb's top-level node, or fails from the root |
| AlertSummaries.CollectSiteNames | src/main/java/org/zaproxy/zap/extension/hud/HudAPI.java:387-393 | the loop over the top-level node's alerts yields the site-bucket map that `SiteBuckets` defines |
| AlertSummaries.GetAlertSummaries | src/main/java/org/zaproxy/zap/extension/hud/HudAPI.java:330-404 | the method computes the page and site buckets that `Summaries` defines, or the null dereference error |
| AlertSummaries.OneBucketPerRisk | src/main/java/org/zaproxy/zap/extension/hud/HudAPI.java:333-401 | with a node there is exactly one page bucket per risk label, and none without one; the same holds for the site buckets and the closest parent |
| AlertSummaries.SummariesFailure | src/main/java/org/zaproxy/zap/extension/hud/HudAPI.java:339-386 | the view fails, with a null dereference, exactly when the found node or the closest parent is the root |
| AlertSummaries.PageAlertMembership | src/main/java/org/zaproxy/zap/extension/hud/HudAPI.java:346-361 | an alert is in the page bucket for risk r exactly when a child of the node's parent with the node's name holds it, its risk is r and its URI resolves to a node of that name |
| AlertSummaries.PageBucketRevisit | src/main/java/org/zaproxy/zap/extension/hud/HudAPI.java:341-360 | visiting a sibling again adds nothing: repeated alerts collapse in the set |
| AlertSummaries.SiteAlertClimb | src/main/java/org/zaproxy/zap/extension/hud/HudAPI.java:380-400 | the site buckets come from one ancestor-or-self of the closest parent whose parent is a root, and each holds exactly the names of its alerts of that risk |
| AlertSummaries.SiteBucketNameDedup | src/main/java/org/zaproxy/zap/extension/hud/HudAPI.java:387-393 | a further alert whose name and risk already occur changes no site bucket |
| AlertSummaries.ExamplePage | src/main/java/org/zaproxy/zap/extension/hud/HudAPI.java:339-379 | in a five-node tree with two entries for one page, the High bucket holds exactly the alert that resolves to that page and the other three buckets are empty, so the Low alert on the second entry is dropped |
| AlertSummaries.ExampleStrayDropped | src/main/java/org/zaproxy/zap/extension/hud/HudAPI.java:352-360 | an alert on a same-named sibling whose own URI resolves to a node of another name is in no page bucket |
| AlertSummaries.ExampleSite | src/main/java/org/zaproxy/zap/extension/hud/HudAPI.java:380-401 | in the same tree the site buckets hold only the top-level node's alert name |
| AlertSummaries.SameLogicalPageExample | src/main/java/org/zaproxy/zap/extension/hud/HudAPI.java:330-404 | the whole view for that tree: four page buckets with the one alert in High, and the site map |
| AssetTemplates.Resolve | src/main/java/org/zaproxy/zap/extension/hud/HudAPI.java:421-436 | the script extension's copy wins over the file on disk; the asset is missing only when neither exists |
| AssetTemplates.StripCallbackPath | src/main/java/org/zaproxy/zap/extension/hud/HudAPI.java:438-442 | the URL is unchanged unless "/zapCallBackUrl" occurs after index 0; then it is cut at its first occurrence, leaving a prefix without it |
| AssetTemplates.EffectiveUrl | src/main/java/org/zaproxy/zap/extension/hud/HudAPI.java:438-449 | the URL written into the asset and tested for the ZAP domain is the escaped referrer for target/inject.js when the request has one, and the stripped request URL otherwise |
| AssetTemplates.JsToolsMembership | src/main/java/org/zaproxy/zap/extension/hud/HudAPI.java:470-471 | a tool is in the manifest exactly when it is in the listing and ends in ".js", ignoring case |
| AssetTemplates.BuildToolsManifest | src/main/java/org/zaproxy/zap/extension/hud/HudAPI.java:467-478 | the StringBuilder loop produces one quoted entry line per ".js" name, in listing order |
| AssetTemplates.Rules | src/main/java/org/zaproxy/zap/extension/hud/HudAPI.java:444-533 | the files token is replaced in every file; trusted-only tokens are replaced only under the ZAP URL; the secret token is replaced only in inject.js (by the active secret) and in trusted management.js (by the active secret when on-domain messages are on, else by "") |
| AssetTemplates.RulesInTwoParts | src/main/java/org/zaproxy/zap/extension/hud/HudAPI.java:444-533 | applying the table is applying the replacements every file gets and then, under the ZAP URL, the WebSocket rule and the file's own rules |
| AssetTemplates.ApplyMinimal | src/main/java/org/zaproxy/zap/extension/hud/HudAPI.java:444-458 | the replacements every request gets equal the inject.js rules followed by the files rule |
| AssetTemplates.ApplyServiceWorker | src/main/java/org/zaproxy/zap/extension/hud/HudAPI.java:463-496 | after the WebSocket URL, the tools manifest and the left, right and drawer layouts are replaced in that order, as the serviceworker.js rule table says |
| AssetTemplates.ApplyManagement | src/main/java/org/zaproxy/zap/extension/hud/HudAPI.java:511-531 | after the WebSocket URL, the welcome flag, the tutorial URL and the secret (or an empty one when on-domain messages are off) are replaced in that order, as the management.js rule table says |
| AssetTemplates.InjectUrlFromReferrer | src/main/java/org/zaproxy/zap/extension/hud/HudAPI.java:444-449 | for target/inject.js with a Referer header, the result does not depend on the request URI: the referrer alone decides the URL and the domain check |
| AssetTemplates.ReferrerIgnoredElsewhere | src/main/java/org/zaproxy/zap/extension/hud/HudAPI.java:444-449 | for every file other than target/inject.js, the result does not depend on the Referer header |
| AssetTemplates.ScriptCopyWins | src/main/java/org/zaproxy/zap/extension/hud/HudAPI.java:421-424 | when the script extension has the asset, the result does not depend on the copy on disk |
| AssetTemplates.MissingAssetGivesNull | src/main/java/org/zaproxy/zap/extension/hud/HudAPI.java:426-433 | with neither a script nor a file on disk, getFile answers null |
| AssetTemplates.ApplyOnDomain | src/main/java/org/zaproxy/zap/extension/hud/HudAPI.java:460-533 | the trusted-domain replacements equal the WebSocket rule followed by the file's rule table; a missing WebSocket URL or tools listing gives null |
| AssetTemplates.GetFile | src/main/java/org/zaproxy/zap/extension/hud/HudAPI.java:418-541 | the step-by-step replacement equals the rule table's result; a missing file gives null |
| AssetTemplates.ApplyAllUntouched | src/main/java/org/zaproxy/zap/extension/hud/HudAPI.java:456-531 | rules whose tokens do not occur leave the contents as they are |
| AssetTemplates.OffDomainGetsMinimalRules | src/main/java/org/zaproxy/zap/extension/hud/HudAPI.java:458-460 | off the ZAP domain a file gets only the inject.js rules and the files token |
| AssetTemplates.OffDomainIgnoresTrustedSettings | src/main/java/org/zaproxy/zap/extension/hud/HudAPI.java:460-533 | off the ZAP domain the result does not depend on any trusted-only setting |
| AssetTemplates.SecretConfined | src/main/java/org/zaproxy/zap/extension/hud/HudAPI.java:444-531 | outside inject.js, and in management.js with on-domain messages off, the result does not depend on the secret or the test mode |
| AssetTemplates.InjectOffDomainSteps | src/main/java/org/zaproxy/zap/extension/hud/HudAPI.java:444-458 | off the ZAP domain inject.js gets the URL, then the active secret, then the files base URL |
| AssetTemplates.SecretTokenKeepsThroughUrl | src/main/java/org/zaproxy/zap/extension/hud/HudAPI.java:456 | the token `<<ZAP_SHARED_SECRET>>` contains no `<<URL>>`, so on its own it comes through the URL replacement unchanged and is then replaced by the secret |
| AssetTemplates.InjectSecretChoice | src/main/java/org/zaproxy/zap/extension/hud/HudAPI.java:444-456 | the secret is the test constant exactly in tutorial test mode, the real secret otherwise |
| AssetTemplates.ManagementSecretSteps | src/main/java/org/zaproxy/zap/extension/hud/HudAPI.java:511-531 | on the ZAP domain, a management.js without the other tokens only has its secret token replaced, by a value chosen by the on-domain messages flag |
| AssetTemplates.SecretTokenLacksManagementTokens | src/main/java/org/zaproxy/zap/extension/hud/HudAPI.java:458-521 | the token `<<ZAP_SHARED_SECRET>>` contains none of `<<ZAP_HUD_FILES>>`, `<<ZAP_HUD_WS>>`, `<<SHOW_WELCOME_SCREEN>>` and `<<TUTORIAL_URL>>` |
| AssetTemplates.ManagementSecretByFlag | src/main/java/org/zaproxy/zap/extension/hud/HudAPI.java:522-531 | the management.js secret is the active secret when on-domain messages are on, and "" when they are off |
| Callback.LastSegment | src/main/java/org/zaproxy/zap/extension/hud/HudAPI.java:191-193 | the file name is the suffix of the path after its last '/' (the whole path when there is none) |
| Callback.LastSegmentHasNoSlash | src/main/java/org/zaproxy/zap/extension/hud/HudAPI.java:192-193 | the file name holds no '/' |
| Callback.ServedPath | src/main/java/org/zaproxy/zap/extension/hud/HudAPI.java:197-200 | the allow-listed name under the target directory is "target/inject.js" |
| Callback.CallbackResult | src/main/java/org/zaproxy/zap/extension/hud/HudAPI.java:188-216 | a body is returned exactly when the path exists, its last segment is allow-listed and getFile finds the file; it is getFile's result with the JavaScript content type; every failure is URL_NOT_FOUND for the request URI |
| Callback.HandleCallBack | src/main/java/org/zaproxy/zap/extension/hud/HudAPI.java:188-216 | the method gives the callback result |
| Callback.SegmentSplit | src/main/java/org/zaproxy/zap/extension/hud/HudAPI.java:191-193 | a path is a directory part ending in '/' (or nothing) followed by its last segment |
| Callback.ServesOnlyInject | src/main/java/org/zaproxy/zap/extension/hud/HudAPI.java:191-200 | a served body comes from a path ending in the segment "inject.js" and is getFile of "target/inject.js" |
| Callback.LastSegmentUnderDirectory | src/main/java/org/zaproxy/zap/extension/hud/HudAPI.java:191-192 | the name after the last '/' of `dir + "/" + seg` is `seg` when `seg` holds no '/' |
| Callback.DirectoryIgnored | src/main/java/org/zaproxy/zap/extension/hud/HudAPI.java:191-196 | the directory part of the path plays no role |
| Callback.ManagementRefused | src/main/java/org/zaproxy/zap/extension/hud/HudAPI.java:196-215 | management.js is never served on the target domain |
| Callback.NoPathRefused | src/main/java/org/zaproxy/zap/extension/hud/HudAPI.java:190-215 | a URI without a path gives URL_NOT_FOUND |
| ResponseHeaders.HeaderLineAt | src/main/java/org/zaproxy/zap/extension/hud/HudAPI.java:587-609 | the header has 10 lines with caching and 11 without: the status line, the cache lines, the six fixed lines, the length, the type |
| ResponseHeaders.GetAllowFramingResponseHeader | src/main/java/org/zaproxy/zap/extension/hud/HudAPI.java:587-609 | the appended text is the header lines, each followed by CRLF |
| ResponseHeaders.RenderEndsInCrlf | src/main/java/org/zaproxy/zap/extension/hud/HudAPI.java:591-606 | the header ends with CRLF |
| ResponseHeaders.SplitFirstLine | src/main/java/org/zaproxy/zap/extension/hud/HudAPI.java:591 | a first line without CR followed by CRLF is cut off whole, and splitting resumes after the CRLF |
| ResponseHeaders.SplitRender | src/main/java/org/zaproxy/zap/extension/hud/HudAPI.java:591-606 | lines without CR joined by CRLF terminators split back into the same lines |
| ResponseHeaders.CacheLinesInFront | src/main/java/org/zaproxy/zap/extension/hud/HudAPI.java:592-598 | the status line and the cache lines contain the chosen directive and not the other one |
| ResponseHeaders.CacheLinesNotEntity | src/main/java/org/zaproxy/zap/extension/hud/HudAPI.java:605-606 | neither the Content-Length nor the Content-Type line is a cache directive |
| ResponseHeaders.CacheDirectiveExclusive | src/main/java/org/zaproxy/zap/extension/hud/HudAPI.java:592-598 | with canCache only the public directive appears; without it only the no-cache pair appears |
| ResponseHeaders.NeverUnsafeEval | src/main/java/org/zaproxy/zap/extension/hud/HudAPI.java:74-80 | the policy line is CSP_POLICY; the unsafe-eval policy never appears |
| ResponseHeaders.ContentLengthReadsBack | src/main/java/org/zaproxy/zap/extension/hud/HudAPI.java:605 | the Content-Length line reads back as the given length |
| ResponseHeaders.CspPolicyHasNoCr | src/main/java/org/zaproxy/zap/extension/hud/HudAPI.java:74-75 | the content security policy contains no CR |
| ResponseHeaders.HeaderLinesHaveNoCr | src/main/java/org/zaproxy/zap/extension/hud/HudAPI.java:587-609 | with a status and a content type free of CR, no header line contains a CR |
| ResponseHeaders.HeaderRoundTrip | src/main/java/org/zaproxy/zap/extension/hud/HudAPI.java:587-609 | with a status and a content type free of CR, the header splits at CRLF into exactly its lines |
| UrlPrefixes.Lookup | src/main/java/org/zaproxy/zap/extension/hud/HudAPI.java:167-174 | a cached site keeps its URL and the cache; an unknown site gets the generated URL, which is stored; other sites are untouched |
| UrlPrefixes.HudApi.constructor | src/main/java/org/zaproxy/zap/extension/hud/HudAPI.java:86 | the cache starts empty |
| UrlPrefixes.HudApi.GetUrlPrefix | src/main/java/org/zaproxy/zap/extension/hud/HudAPI.java:167-174 | the returned URL and the new cache are those of the lookup |
| UrlPrefixes.HudApi.Reset | src/main/java/org/zaproxy/zap/extension/hud/HudAPI.java:176-178 | the cache is empty afterwards |
| UrlPrefixes.LookupIsStable | src/main/java/org/zaproxy/zap/extension/hud/HudAPI.java:167-174 | once a site has a URL, later lookups return it whatever is generated, and change nothing |
| UrlPrefixes.LookupIsolatesSites | src/main/java/org/zaproxy/zap/extension/hud/HudAPI.java:167-174 | a lookup for one site never changes another site's entry |
| UrlPrefixes.ResetForgets | src/main/java/org/zaproxy/zap/extension/hud/HudAPI.java:167-178 | after a reset the next lookup takes the newly generated URL |
| Cookies.FirstValue | src/main/java/org/zaproxy/zap/extension/hud/HudAPI.java:558-566 | None exactly when no cookie has the name; otherwise the value of a cookie with that name before which no cookie has it |
| Cookies.GetRequestCookieValue | src/main/java/org/zaproxy/zap/extension/hud/HudAPI.java:558-566 | the loop with its early return gives the first match's value, or None |
| Cookies.LaterCookiesIgnored | src/main/java/org/zaproxy/zap/extension/hud/HudAPI.java:560-563 | cookies after a match do not change the answer |

## Left out

- File and script I/O. The source reads the script by `ScriptWrapper`, reads the
  on-disk copy with `Files.readAllBytes` and lists the tools directory. Here the contents
  and the listing are inputs. `getImage` is not part of this model.
- Logging, `Stats` counters and high-water marks, and the View output panel. They have
  no checkable behaviour.
- Random values. The shared secret and the HUD cookie come from `UUID.randomUUID()`;
  here they are opaque inputs. The callback URL ZAP generates per site is an argument of
  `GetUrlPrefix`.
- URI parsing and escaping. `new URI(...)`, `getEscapedPath`,
  `StringEscapeUtils.escapeJavaScript` and the Referer header lookup give already-escaped
  strings. The `URIException` for a malformed alert URI is not modelled.
- The WebSocket extension lookup (`getWebSocketUrl`). Its URL is a setting; a null URL
  is `None`.
- JSON serialisation (`ApiResponseListWithoutArray`, `ApiResponseListJustArray`). The
  summaries are maps from risk label to sets. In the JSON, page alerts are keyed by alert
  name, so two kept alerts with one name would share a key. That collapse is not modelled.
- `getSite`, the constructor's action and view registration, and the actions and views
  `log`, `recordRequest`, `resetTutorialTasks`, `heartbeat`, `tutorialUpdates`,
  `upgradedDomains` and `changesInHtml`. They are framework plumbing.
- `allowUnsafeEval`. It reads a flag, and nothing in the header builder uses it.
- Concurrency. The model is sequential.
- `UiOptions.GetUiOption`: the option is returned as a value. The JSON element wrapping
  it is not modelled.
- `AssetTemplates.GetFile`: a null layout option makes `String.replace` throw, so the
  source answers null. Here layout options are never null.
- `AssetTemplates.GetFile`: other exceptions caught by the catch-all in the source, such
  as an I/O failure, are not modelled.
- `Callback.CallbackResult`: when getFile returns null, the model answers URL_NOT_FOUND.
  ZAP's handling of a null response body is not part of this model.
- `Callback.ServedPath`: `ExtensionHUD.TARGET_DIRECTORY` is not part of this model. Its
  value "target" is the one `getFile` compares against in "target/inject.js".
- `SiteTree.Risk`: alert risks are in 0..3, so the index into `MSG_RISK` is always in
  range. The `ArrayIndexOutOfBoundsException` for other risks is not modelled.
- Site buckets: `getAlertSummaries` reads only the top-level node's own
  alert list (`parent.getAlerts()`, HudAPI.java:391). Alerts of its descendants count only
  if ZAP also stores them on that node. The model follows the code.
- `SiteTree.Alert`: an alert's identity is modelled as equality of its six stored fields
  (name, risk, parameter, alert id, URI, evidence). In the source the page buckets are
  `HashSet<Alert>`s, which use `Alert.equals` and `hashCode`. `Alert` is not part of this
  model, and ZAP's `Alert` compares further fields (such as the plugin id, confidence,
  attack and other info). Two alerts that agree on the six fields and differ elsewhere
  are one bucket element here and two in ZAP.
- `AssetTemplates.IsOnDomain`: `API.API_URL_S` is not part of this model. Its value
  is taken to be "https://zap/", the base URL of ZAP's own API domain.
- `SiteTree.MsgRisk`: `Alert.MSG_RISK` is not part of this model. Its four labels are
  taken to be "Informational", "Low", "Medium" and "High", in risk order.
- `Cookies.GetRequestCookieValue`: parsing the Cookie header (`getHttpCookies()`,
  HudAPI.java:559) is not modelled. The parsed cookies, in header order, are an input.
- `ResponseHeaders.GetAllowFramingResponseHeader`: the StringBuilder's initial capacity
  of 250 has no observable effect and is not modelled.
