/** `getFile`: the asset is resolved, the callback path is stripped from the request URL,
    and literal placeholder tokens are replaced depending on the file name. The tokens that
    carry trusted-origin values are replaced only when the URL is on the ZAP callback domain.

    The reference definition is a table: the list of (token, value) rules a request gets,
    applied left to right with `String.replace`. The method performs the replacements one
    by one, as the Java code does, and is proved to produce the table's result. */
module AssetTemplates {
  import opened Wrappers
  import opened JavaStrings

  /** API.API_URL_S in ZAP: the root of the trusted callback domain. */
  const ApiUrlS: string := "https://zap/"
  /** SHARED_TEST_NON_SECRET. */
  const SharedTestNonSecret: string := "TEST_MODE"
  const CallBackPath: string := "/zapCallBackUrl"
  const InjectFile: string := "target/inject.js"

  const UrlToken: string := "<<URL>>"
  const SecretToken: string := "<<ZAP_SHARED_SECRET>>"
  const FilesToken: string := "<<ZAP_HUD_FILES>>"
  const WsToken: string := "<<ZAP_HUD_WS>>"
  const ToolsToken: string := "'<<ZAP_HUD_TOOLS>>'"
  const LeftToken: string := "'<<ZAP_HUD_CONFIG_TOOLS_LEFT>>'"
  const RightToken: string := "'<<ZAP_HUD_CONFIG_TOOLS_RIGHT>>'"
  const DrawerToken: string := "'<<ZAP_HUD_CONFIG_DRAWER>>'"
  const LocaleToken: string := "<<ZAP_LOCALE>>"
  const DevModeToken: string := "<<DEV_MODE>>"
  const WelcomeToken: string := "<<SHOW_WELCOME_SCREEN>>"
  const TutorialToken: string := "<<TUTORIAL_URL>>"

  /** The tokens that carry values only the trusted origin may see. */
  const TrustedOnlyTokens: set<string> :=
    {WsToken, ToolsToken, LeftToken, RightToken, DrawerToken, LocaleToken, DevModeToken, WelcomeToken, TutorialToken}

  /** The settings and collaborators whose values reach only trusted-origin assets:
      the WebSocket callback URL (none when the WebSocket extension is missing), the
      listing of the tools directory (none when it cannot be listed), the three layout
      options, the locale, and the HUD flags. */
  datatype OnDomainSettings = OnDomainSettings(
    websocketUrl: Option<string>,
    toolsListing: Option<seq<string>>,
    leftPanel: string,
    rightPanel: string,
    drawer: string,
    locale: string,
    developmentMode: bool,
    showWelcomeScreen: bool,
    tutorialUrl: string,
    enableOnDomainMsgs: bool)

  /** The files base URL, the process-wide random secret, the tutorial test-mode flag,
      and the trusted-origin settings. */
  datatype HudSettings = HudSettings(
    hudFileUrl: string,
    sharedSecret: string,
    tutorialTestMode: bool,
    onDomain: OnDomainSettings)

  /** The request: its URI as a string and its Referer header, already escaped for
      JavaScript, if it has one. */
  datatype FileRequest = FileRequest(uri: string, escapedReferrer: Option<string>)

  /** Where the asset's text comes from: the script extension first, then the file on disk. */
  datatype AssetSource = AssetSource(script: Option<string>, onDisk: Option<string>)

  datatype Rule = Rule(token: string, value: string)

  /** The asset's text: the script extension's copy wins over the file on disk; none
      when neither exists. */
  function Resolve(src: AssetSource): (r: Option<string>)
    ensures r.None? <==> src.script.None? && src.onDisk.None?
    ensures src.script.Some? ==> r == src.script
    ensures src.script.None? ==> r == src.onDisk
  {
    if src.script.Some? then src.script else src.onDisk
  }

  /** The secret written into assets: the public test value in tutorial test mode. */
  function ActiveSecret(testMode: bool, secret: string): string {
    if testMode then SharedTestNonSecret else secret
  }

  /** Java's `Boolean.toString`. */
  function BoolToString(b: bool): string {
    if b then "true" else "false"
  }

  /** The URL is cut at the first "/zapCallBackUrl", but only when that occurs after
      the start. The result is a prefix of the URL without the callback path in it. */
  function StripCallbackPath(url: string): (r: string)
    ensures |r| <= |url| && r == url[..|r|]
    ensures IndexOf(url, CallBackPath) <= 0 ==> r == url
    ensures IndexOf(url, CallBackPath) > 0 ==> |r| == IndexOf(url, CallBackPath) && !Contains(r, CallBackPath)
  {
    var i := IndexOf(url, CallBackPath);
    if i > 0 then
      var r := url[..i];
      assert forall j :: OccursAt(r, CallBackPath, j) ==> OccursAt(url, CallBackPath, j) && j < i by {
        forall j | OccursAt(r, CallBackPath, j) ensures OccursAt(url, CallBackPath, j) && j < i {
          assert r[j..j + |CallBackPath|] == url[j..j + |CallBackPath|];
        }
      }
      r
    else url
  }

  /** The URL inject.js and the domain check see: for inject.js the referrer, when the
      request has one, replaces the stripped request URL. */
  function EffectiveUrl(file: string, req: FileRequest): (r: string)
    ensures file == InjectFile && req.escapedReferrer.Some? ==> r == req.escapedReferrer.value
    ensures file != InjectFile || req.escapedReferrer.None? ==> r == StripCallbackPath(req.uri)
  {
    if file == InjectFile && req.escapedReferrer.Some? then req.escapedReferrer.value
    else StripCallbackPath(req.uri)
  }

  predicate IsOnDomain(url: string) {
    StartsWith(url, ApiUrlS)
  }

  // ---- the tools manifest ----

  predicate IsJsName(tool: string) {
    EndsWithIgnoreCase(tool, ".js")
  }

  /** The names of the listing that end in ".js", ignoring case, in listing order. */
  function JsTools(tools: seq<string>): seq<string>
    decreases |tools|
  {
    if tools == [] then []
    else
      var t := tools[|tools| - 1];
      JsTools(tools[..|tools| - 1]) + (if IsJsName(t) then [t] else [])
  }

  function ToolEntry(hudFileUrl: string, tool: string): string {
    "\t\"" + hudFileUrl + "/file/tools/" + tool + "\",\n"
  }

  /** One quoted URL line per name. */
  function Entries(hudFileUrl: string, names: seq<string>): string
    decreases |names|
  {
    if names == [] then ""
    else Entries(hudFileUrl, names[..|names| - 1]) + ToolEntry(hudFileUrl, names[|names| - 1])
  }

  function ToolsManifest(hudFileUrl: string, tools: seq<string>): string {
    Entries(hudFileUrl, JsTools(tools))
  }

  /** The manifest lists exactly the ".js" names of the listing. */
  lemma {:induction false} JsToolsMembership(tools: seq<string>, name: string)
    ensures name in JsTools(tools) <==> name in tools && IsJsName(name)
    decreases |tools|
  {
    if tools != [] {
      var init := tools[..|tools| - 1];
      JsToolsMembership(init, name);
      assert tools == init + [tools[|tools| - 1]];
    }
  }

  /** The StringBuilder loop over the directory listing. */
  method BuildToolsManifest(hudFileUrl: string, tools: seq<string>) returns (sb: string)
    ensures sb == ToolsManifest(hudFileUrl, tools)
  {
    sb := "";
    for i := 0 to |tools|
      invariant sb == Entries(hudFileUrl, JsTools(tools[..i]))
    {
      var tool := tools[i];
      assert tools[..i + 1][..i] == tools[..i];
      ghost var names := JsTools(tools[..i]);
      if IsJsName(tool) {
        assert JsTools(tools[..i + 1]) == names + [tool];
        assert (names + [tool])[..|names|] == names;
        assert Entries(hudFileUrl, names + [tool]) == sb + ToolEntry(hudFileUrl, tool);
        sb := sb + ("\t\"" + hudFileUrl + "/file/tools/" + tool + "\",\n");
      } else {
        assert JsTools(tools[..i + 1]) == names;
      }
    }
    assert tools[..|tools|] == tools;
  }

  // ---- the rule table ----

  predicate TokensNonEmpty(rules: seq<Rule>) {
    forall i :: 0 <= i < |rules| ==> |rules[i].token| > 0
  }

  /** The rules applied in order, each with `String.replace`. */
  function ApplyAll(s: string, rules: seq<Rule>): string
    requires TokensNonEmpty(rules)
    decreases |rules|
  {
    if rules == [] then s
    else
      var r := rules[|rules| - 1];
      Replace(ApplyAll(s, rules[..|rules| - 1]), r.token, r.value)
  }

  lemma ApplyAllSnoc(s: string, rules: seq<Rule>, r: Rule)
    requires TokensNonEmpty(rules) && |r.token| > 0
    ensures TokensNonEmpty(rules + [r])
    ensures ApplyAll(s, rules + [r]) == Replace(ApplyAll(s, rules), r.token, r.value)
  {
    assert (rules + [r])[..|rules|] == rules;
  }

  /** Rules for inject.js: the URL and the active secret. */
  function InjectRules(settings: HudSettings, file: string, url: string): seq<Rule> {
    if file == InjectFile then
      [Rule(UrlToken, url), Rule(SecretToken, ActiveSecret(settings.tutorialTestMode, settings.sharedSecret))]
    else []
  }

  /** What a trusted-origin file needs from its collaborators is there. */
  predicate Available(od: OnDomainSettings, file: string) {
    od.websocketUrl.Some? && (file == "serviceworker.js" ==> od.toolsListing.Some?)
  }

  /** Rules for a file served on the trusted domain, keyed by file name. */
  function FileRules(settings: HudSettings, file: string): seq<Rule>
    requires Available(settings.onDomain, file)
  {
    var od := settings.onDomain;
    if file == "serviceworker.js" then
      [ Rule(ToolsToken, ToolsManifest(settings.hudFileUrl, od.toolsListing.value)),
        Rule(LeftToken, od.leftPanel), Rule(RightToken, od.rightPanel), Rule(DrawerToken, od.drawer) ]
    else if file == "i18n.js" then [Rule(LocaleToken, od.locale)]
    else if file == "utils.js" then [Rule(DevModeToken, BoolToString(od.developmentMode))]
    else if file == "management.js" then
      [ Rule(WelcomeToken, BoolToString(od.showWelcomeScreen)), Rule(TutorialToken, od.tutorialUrl),
        Rule(SecretToken,
             if od.enableOnDomainMsgs then ActiveSecret(settings.tutorialTestMode, settings.sharedSecret) else "") ]
    else []
  }

  /** The whole table for one request. The files token is replaced in every file; a
      trusted-only token appears only on the trusted domain; the secret token appears
      only for inject.js and for management.js on the trusted domain, and there it is
      blanked when on-domain messages are off. */
  function Rules(settings: HudSettings, file: string, url: string): (rules: seq<Rule>)
    requires IsOnDomain(url) ==> Available(settings.onDomain, file)
    ensures TokensNonEmpty(rules)
    ensures Rule(FilesToken, settings.hudFileUrl) in rules
    ensures forall i :: 0 <= i < |rules| && rules[i].token in TrustedOnlyTokens ==> IsOnDomain(url)
    ensures forall i :: 0 <= i < |rules| && rules[i].token == SecretToken ==>
      || (file == InjectFile && rules[i].value == ActiveSecret(settings.tutorialTestMode, settings.sharedSecret))
      || (file == "management.js" && IsOnDomain(url) &&
          rules[i].value == if settings.onDomain.enableOnDomainMsgs
                            then ActiveSecret(settings.tutorialTestMode, settings.sharedSecret) else "")
  {
    InjectRules(settings, file, url) + [Rule(FilesToken, settings.hudFileUrl)]
      + (if IsOnDomain(url) then [Rule(WsToken, settings.onDomain.websocketUrl.value)] + FileRules(settings, file)
         else [])
  }

  /** What `getFile` returns: null for a missing asset, null when a trusted-domain
      collaborator is missing (the exception is caught), otherwise the table's result. */
  function GetFileSpec(settings: HudSettings, file: string, req: FileRequest, src: AssetSource): Option<string> {
    match Resolve(src)
    case None => None
    case Some(contents) =>
      var url := EffectiveUrl(file, req);
      if IsOnDomain(url) && !Available(settings.onDomain, file) then None
      else Some(ApplyAll(contents, Rules(settings, file, url)))
  }

  /** The serviceworker.js replacements: the tools manifest and the three panel layouts,
      applied after the WebSocket URL. */
  method ApplyServiceWorker(settings: HudSettings, contents: string, c0: string) returns (c: string)
    requires Available(settings.onDomain, "serviceworker.js")
    requires c0 == ApplyAll(contents, [Rule(WsToken, settings.onDomain.websocketUrl.value)])
    ensures c == ApplyAll(contents, [Rule(WsToken, settings.onDomain.websocketUrl.value)]
                                    + FileRules(settings, "serviceworker.js"))
  {
    var od := settings.onDomain;
    ghost var done := [Rule(WsToken, od.websocketUrl.value)];
    var manifest := BuildToolsManifest(settings.hudFileUrl, od.toolsListing.value);
    ghost var rs := FileRules(settings, "serviceworker.js");
    c := Replace(c0, ToolsToken, manifest);
    ApplyAllSnoc(contents, done, rs[0]);
    c := Replace(c, LeftToken, od.leftPanel);
    ApplyAllSnoc(contents, done + [rs[0]], rs[1]);
    c := Replace(c, RightToken, od.rightPanel);
    ApplyAllSnoc(contents, done + [rs[0], rs[1]], rs[2]);
    assert done + [rs[0]] + [rs[1]] == done + [rs[0], rs[1]];
    c := Replace(c, DrawerToken, od.drawer);
    ApplyAllSnoc(contents, done + [rs[0], rs[1], rs[2]], rs[3]);
    assert done + [rs[0], rs[1]] + [rs[2]] == done + [rs[0], rs[1], rs[2]];
    assert done + [rs[0], rs[1], rs[2]] + [rs[3]] == done + rs;
  }

  /** The management.js replacements: the welcome-screen flag, the tutorial URL and the
      secret, blanked when on-domain messages are off, applied after the WebSocket URL. */
  method ApplyManagement(settings: HudSettings, contents: string, c0: string) returns (c: string)
    requires Available(settings.onDomain, "management.js")
    requires c0 == ApplyAll(contents, [Rule(WsToken, settings.onDomain.websocketUrl.value)])
    ensures c == ApplyAll(contents, [Rule(WsToken, settings.onDomain.websocketUrl.value)]
                                    + FileRules(settings, "management.js"))
  {
    var od := settings.onDomain;
    ghost var done := [Rule(WsToken, od.websocketUrl.value)];
    ghost var rs := FileRules(settings, "management.js");
    c := Replace(c0, WelcomeToken, BoolToString(od.showWelcomeScreen));
    ApplyAllSnoc(contents, done, rs[0]);
    c := Replace(c, TutorialToken, od.tutorialUrl);
    ApplyAllSnoc(contents, done + [rs[0]], rs[1]);
    if od.enableOnDomainMsgs {
      var secret := ActiveSecret(settings.tutorialTestMode, settings.sharedSecret);
      c := Replace(c, SecretToken, secret);
    } else {
      // an empty secret turns on-domain messages off
      c := Replace(c, SecretToken, "");
    }
    ApplyAllSnoc(contents, done + [rs[0]] + [rs[1]], rs[2]);
    assert done + [rs[0]] + [rs[1]] + [rs[2]] == done + rs;
  }

  /** For inject.js with a Referer header, the request URI plays no role: the referrer
      alone decides the URL written into the file and the trusted-domain check. */
  lemma InjectUrlFromReferrer(settings: HudSettings, req: FileRequest, otherUri: string, src: AssetSource)
    requires req.escapedReferrer.Some?
    ensures GetFileSpec(settings, InjectFile, req, src) == GetFileSpec(settings, InjectFile, req.(uri := otherUri), src)
  {
    assert EffectiveUrl(InjectFile, req) == EffectiveUrl(InjectFile, req.(uri := otherUri));
  }

  /** For every other file the Referer header plays no role. */
  lemma ReferrerIgnoredElsewhere(settings: HudSettings, file: string, req: FileRequest,
                                 otherReferrer: Option<string>, src: AssetSource)
    requires file != InjectFile
    ensures GetFileSpec(settings, file, req, src) == GetFileSpec(settings, file, req.(escapedReferrer := otherReferrer), src)
  {
    assert EffectiveUrl(file, req) == EffectiveUrl(file, req.(escapedReferrer := otherReferrer));
  }

  /** When the script extension has the asset, the copy on disk plays no role. */
  lemma ScriptCopyWins(settings: HudSettings, file: string, req: FileRequest, script: string,
                       onDisk: Option<string>, otherOnDisk: Option<string>)
    ensures GetFileSpec(settings, file, req, AssetSource(Some(script), onDisk))
         == GetFileSpec(settings, file, req, AssetSource(Some(script), otherOnDisk))
  {
    assert Resolve(AssetSource(Some(script), onDisk)) == Resolve(AssetSource(Some(script), otherOnDisk));
  }

  /** With neither a script nor a file, `getFile` answers null. */
  lemma MissingAssetGivesNull(settings: HudSettings, file: string, req: FileRequest)
    ensures GetFileSpec(settings, file, req, AssetSource(None, None)).None?
  {
  }

  /** The trusted-domain half of `getFile`. */
  method ApplyOnDomain(settings: HudSettings, file: string, contents: string) returns (r: Option<string>)
    ensures r == if Available(settings.onDomain, file)
                 then Some(ApplyAll(contents, [Rule(WsToken, settings.onDomain.websocketUrl.value)] + FileRules(settings, file)))
                 else None
  {
    var od := settings.onDomain;
    if od.websocketUrl.None? {
      return None;
    }
    var c := Replace(contents, WsToken, od.websocketUrl.value);
    ghost var done := [Rule(WsToken, od.websocketUrl.value)];
    ApplyAllSnoc(contents, [], done[0]);
    assert [] + [done[0]] == done;
    if file == "serviceworker.js" {
      if od.toolsListing.None? {
        return None;
      }
      c := ApplyServiceWorker(settings, contents, c);
    } else if file == "i18n.js" {
      c := Replace(c, LocaleToken, od.locale);
      ApplyAllSnoc(contents, done, FileRules(settings, file)[0]);
    } else if file == "utils.js" {
      c := Replace(c, DevModeToken, BoolToString(od.developmentMode));
      ApplyAllSnoc(contents, done, FileRules(settings, file)[0]);
    } else if file == "management.html" {
      // only a usage statistic is recorded for this file
    } else if file == "management.js" {
      c := ApplyManagement(settings, contents, c);
    }
    r := Some(c);
  }

  lemma ApplyAllConcat(s: string, a: seq<Rule>, b: seq<Rule>)
    requires TokensNonEmpty(a) && TokensNonEmpty(b)
    ensures TokensNonEmpty(a + b)
    ensures ApplyAll(s, a + b) == ApplyAll(ApplyAll(s, a), b)
    decreases |b|
  {
    if b != [] {
      var init := b[..|b| - 1];
      ApplyAllConcat(s, a, init);
      assert (a + b)[..|a + b| - 1] == a + init;
      assert (a + b)[|a + b| - 1] == b[|b| - 1];
      assert ApplyAll(s, a + b) == Replace(ApplyAll(s, a + init), b[|b| - 1].token, b[|b| - 1].value);
    } else {
      assert a + b == a;
    }
  }

  /** The part of `getFile` every request gets: the inject.js rules, then the files token. */
  method ApplyMinimal(settings: HudSettings, file: string, url: string, contents: string) returns (c: string)
    ensures c == ApplyAll(contents, InjectRules(settings, file, url) + [Rule(FilesToken, settings.hudFileUrl)])
  {
    c := contents;
    if file == InjectFile {
      var secret := ActiveSecret(settings.tutorialTestMode, settings.sharedSecret);
      c := Replace(c, UrlToken, url);
      c := Replace(c, SecretToken, secret);
      ApplyAllSnoc(contents, [], Rule(UrlToken, url));
      ApplyAllSnoc(contents, [Rule(UrlToken, url)], Rule(SecretToken, secret));
      assert [] + [Rule(UrlToken, url)] == [Rule(UrlToken, url)];
    }
    ghost var pre := InjectRules(settings, file, url);
    assert c == ApplyAll(contents, pre);
    c := Replace(c, FilesToken, settings.hudFileUrl);
    ApplyAllSnoc(contents, pre, Rule(FilesToken, settings.hudFileUrl));
  }

  /** `getFile`. */
  method GetFile(settings: HudSettings, file: string, req: FileRequest, src: AssetSource)
      returns (r: Option<string>)
    ensures r == GetFileSpec(settings, file, req, src)
  {
    var contents: string;
    if src.script.Some? {
      contents := src.script.value;
    } else if src.onDisk.Some? {
      contents := src.onDisk.value;
    } else {
      return None;
    }
    var url := StripCallbackPath(req.uri);
    if file == InjectFile && req.escapedReferrer.Some? {
      url := req.escapedReferrer.value;
    }
    assert Resolve(src) == Some(contents) && url == EffectiveUrl(file, req);
    var c := ApplyMinimal(settings, file, url, contents);
    if IsOnDomain(url) {
      // only on the ZAP domain
      r := ApplyOnDomain(settings, file, c);
      if r.Some? {
        RulesInTwoParts(settings, file, url, contents);
      }
    } else {
      RulesInTwoParts(settings, file, url, contents);
      r := Some(c);
    }
  }

  /** The table is the part every file gets followed, on the trusted domain, by the
      WebSocket rule and the file's own rules. */
  lemma RulesInTwoParts(settings: HudSettings, file: string, url: string, contents: string)
    requires IsOnDomain(url) ==> Available(settings.onDomain, file)
    ensures var minimal := ApplyAll(contents, InjectRules(settings, file, url) + [Rule(FilesToken, settings.hudFileUrl)]);
      ApplyAll(contents, Rules(settings, file, url))
      == if IsOnDomain(url)
         then ApplyAll(minimal, [Rule(WsToken, settings.onDomain.websocketUrl.value)] + FileRules(settings, file))
         else minimal
  {
    var minimal := InjectRules(settings, file, url) + [Rule(FilesToken, settings.hudFileUrl)];
    if IsOnDomain(url) {
      var rest := [Rule(WsToken, settings.onDomain.websocketUrl.value)] + FileRules(settings, file);
      ApplyAllConcat(contents, minimal, rest);
      assert Rules(settings, file, url) == minimal + rest;
    } else {
      assert Rules(settings, file, url) == minimal;
    }
  }

  // ---- properties of the templating ----

  /** Rules none of whose tokens occur leave the text as it is. */
  lemma {:induction false} ApplyAllUntouched(s: string, rules: seq<Rule>)
    requires TokensNonEmpty(rules)
    requires forall i :: 0 <= i < |rules| ==> !Contains(s, rules[i].token)
    ensures ApplyAll(s, rules) == s
    decreases |rules|
  {
    if rules != [] {
      var n := |rules| - 1;
      ApplyAllUntouched(s, rules[..n]);
      ReplaceAbsent(s, rules[n].token, rules[n].value);
    }
  }

  /** Trust asymmetry: off the ZAP domain a file gets only the inject.js rules (for
      inject.js) and the files token. */
  lemma OffDomainGetsMinimalRules(settings: HudSettings, file: string, req: FileRequest, src: AssetSource)
    requires Resolve(src).Some? && !IsOnDomain(EffectiveUrl(file, req))
    ensures GetFileSpec(settings, file, req, src)
         == Some(ApplyAll(Resolve(src).value,
                          InjectRules(settings, file, EffectiveUrl(file, req)) + [Rule(FilesToken, settings.hudFileUrl)]))
  {
    var url := EffectiveUrl(file, req);
    assert Rules(settings, file, url) == InjectRules(settings, file, url) + [Rule(FilesToken, settings.hudFileUrl)];
  }

  /** Trust asymmetry as non-interference: off the ZAP domain the result does not depend
      on any trusted-origin setting (WebSocket URL, tools listing, layout options, locale,
      development mode, welcome flag, tutorial URL, on-domain messages flag). */
  lemma OffDomainIgnoresTrustedSettings(s1: HudSettings, s2: HudSettings, file: string, req: FileRequest, src: AssetSource)
    requires s1.hudFileUrl == s2.hudFileUrl && s1.sharedSecret == s2.sharedSecret
    requires s1.tutorialTestMode == s2.tutorialTestMode
    requires !IsOnDomain(EffectiveUrl(file, req))
    ensures GetFileSpec(s1, file, req, src) == GetFileSpec(s2, file, req, src)
  {
    assert Rules(s1, file, EffectiveUrl(file, req)) == Rules(s2, file, EffectiveUrl(file, req));
  }

  /** The secret reaches no file but inject.js and management.js, and not management.js
      when on-domain messages are off: there the result does not depend on the secret or
      on the test mode. */
  lemma SecretConfined(s1: HudSettings, s2: HudSettings, file: string, req: FileRequest, src: AssetSource)
    requires s1.hudFileUrl == s2.hudFileUrl && s1.onDomain == s2.onDomain
    requires file != InjectFile
    requires file == "management.js" ==> !s1.onDomain.enableOnDomainMsgs
    ensures GetFileSpec(s1, file, req, src) == GetFileSpec(s2, file, req, src)
  {
    var url := EffectiveUrl(file, req);
    if !IsOnDomain(url) || Available(s1.onDomain, file) {
      assert Rules(s1, file, url) == Rules(s2, file, url);
    }
  }

  /** Off the ZAP domain, inject.js gets three replacements: the URL, the active secret
      and the files base URL. */
  lemma InjectOffDomainSteps(settings: HudSettings, req: FileRequest, c: string)
    requires !IsOnDomain(EffectiveUrl(InjectFile, req))
    ensures GetFileSpec(settings, InjectFile, req, AssetSource(Some(c), None))
         == Some(Replace(Replace(Replace(c, UrlToken, EffectiveUrl(InjectFile, req)),
                                 SecretToken, ActiveSecret(settings.tutorialTestMode, settings.sharedSecret)),
                         FilesToken, settings.hudFileUrl))
  {
    var url := EffectiveUrl(InjectFile, req);
    var secret := ActiveSecret(settings.tutorialTestMode, settings.sharedSecret);
    var r1, r2, r3 := Rule(UrlToken, url), Rule(SecretToken, secret), Rule(FilesToken, settings.hudFileUrl);
    assert Rules(settings, InjectFile, url) == [r1, r2, r3];
    assert GetFileSpec(settings, InjectFile, req, AssetSource(Some(c), None)) == Some(ApplyAll(c, [r1, r2, r3]));
    ApplyAllSnoc(c, [], r1);
    assert [] + [r1] == [r1];
    assert ApplyAll(c, [r1]) == Replace(c, UrlToken, url);
    ApplyAllSnoc(c, [r1], r2);
    assert [r1] + [r2] == [r1, r2];
    assert ApplyAll(c, [r1, r2]) == Replace(Replace(c, UrlToken, url), SecretToken, secret);
    ApplyAllSnoc(c, [r1, r2], r3);
    assert [r1, r2] + [r3] == [r1, r2, r3];
  }

  /** The token `<<ZAP_SHARED_SECRET>>` does not contain the URL token, so on its own it
      survives the URL replacement. */
  lemma SecretTokenKeepsThroughUrl(url: string, secret: string)
    ensures Replace(Replace(SecretToken, UrlToken, url), SecretToken, secret) == secret
  {
    AbsentByCharacter(SecretToken, UrlToken, 2);
    ReplaceAbsent(SecretToken, UrlToken, url);
    ReplaceWhole(SecretToken, secret);
  }

  /** Secret choice: an inject.js that is just the secret token, served off the ZAP
      domain, becomes the public test value in tutorial test mode and the real secret
      otherwise (a secret with no '<', as a UUID is). */
  lemma InjectSecretChoice(settings: HudSettings, req: FileRequest)
    requires '<' !in settings.sharedSecret
    requires !IsOnDomain(EffectiveUrl(InjectFile, req))
    ensures GetFileSpec(settings, InjectFile, req, AssetSource(Some(SecretToken), None))
         == Some(if settings.tutorialTestMode then SharedTestNonSecret else settings.sharedSecret)
  {
    var url := EffectiveUrl(InjectFile, req);
    var secret := ActiveSecret(settings.tutorialTestMode, settings.sharedSecret);
    InjectOffDomainSteps(settings, req, SecretToken);
    SecretTokenKeepsThroughUrl(url, secret);
    AbsentByCharacter(secret, FilesToken, 0);
    ReplaceAbsent(secret, FilesToken, settings.hudFileUrl);
  }

  /** On the ZAP domain, a management.js without the files, WebSocket, welcome and tutorial
      tokens only has its secret token replaced: by the active secret when on-domain
      messages are on, by the empty string when they are off. */
  lemma ManagementSecretSteps(settings: HudSettings, req: FileRequest, c: string)
    requires IsOnDomain(EffectiveUrl("management.js", req)) && Available(settings.onDomain, "management.js")
    requires !Contains(c, FilesToken) && !Contains(c, WsToken)
    requires !Contains(c, WelcomeToken) && !Contains(c, TutorialToken)
    ensures GetFileSpec(settings, "management.js", req, AssetSource(Some(c), None))
         == Some(Replace(c, SecretToken,
                         if settings.onDomain.enableOnDomainMsgs
                         then ActiveSecret(settings.tutorialTestMode, settings.sharedSecret) else ""))
  {
    var url := EffectiveUrl("management.js", req);
    var rules := Rules(settings, "management.js", url);
    assert |rules| == 5 && rules[4].token == SecretToken;
    assert rules[0].token == FilesToken && rules[1].token == WsToken;
    assert rules[2].token == WelcomeToken && rules[3].token == TutorialToken;
    ApplyAllUntouched(c, rules[..4]);
  }

  /** The token `<<ZAP_SHARED_SECRET>>` contains none of the files, WebSocket, welcome
      and tutorial tokens. */
  lemma SecretTokenLacksManagementTokens()
    ensures !Contains(SecretToken, FilesToken) && !Contains(SecretToken, WsToken)
    ensures !Contains(SecretToken, WelcomeToken) && !Contains(SecretToken, TutorialToken)
  {
    AbsentByCharacter(SecretToken, FilesToken, 7);
    AbsentByCharacter(SecretToken, WsToken, 7);
    AbsentByCharacter(SecretToken, WelcomeToken, 4);
    AbsentByCharacter(SecretToken, TutorialToken, 3);
  }

  /** On-domain messages flag: a management.js that is just the secret token, served on
      the ZAP domain, gets the active secret when on-domain messages are on and the
      empty string when they are off. */
  lemma ManagementSecretByFlag(settings: HudSettings, req: FileRequest)
    requires IsOnDomain(EffectiveUrl("management.js", req)) && Available(settings.onDomain, "management.js")
    ensures GetFileSpec(settings, "management.js", req, AssetSource(Some(SecretToken), None))
         == Some(if settings.onDomain.enableOnDomainMsgs
                 then ActiveSecret(settings.tutorialTestMode, settings.sharedSecret) else "")
  {
    SecretTokenLacksManagementTokens();
    ManagementSecretSteps(settings, req, SecretToken);
    ReplaceWhole(SecretToken, if settings.onDomain.enableOnDomainMsgs
                              then ActiveSecret(settings.tutorialTestMode, settings.sharedSecret) else "");
  }
}
