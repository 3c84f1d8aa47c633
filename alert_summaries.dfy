/** `getAlertSummaries`: the page-scope and site-scope alert buckets for a URI. */
module AlertSummaries {
  import opened Wrappers
  import opened SiteTree

  /** The view's result: `pageAlerts` maps a risk label to the alerts found for the page,
      `siteAlerts` maps a risk label to the distinct alert names of the site. */
  datatype AlertSummary = AlertSummary(pageAlerts: map<string, set<Alert>>, siteAlerts: map<string, set<string>>)

  /** The page part: no buckets when the URI has no node; a null dereference when the
      node has no parent; otherwise one bucket per risk over the node's same-named siblings. */
  function PageAlerts(t: Tree, uri: string): Result<map<string, set<Alert>>, Exception>
    requires Valid(t)
  {
    match FindNode(t, uri)
    case None => Ok(map[])
    case Some(n) =>
      match t.nodes[n].parent
      case None => Err(NullPointer)
      case Some(p) => Ok(PageBuckets(t, t.nodes[p].children, t.nodes[n].hierarchicName))
  }

  /** The site part: no buckets when there is no closest parent; a null dereference when
      the climb starts at the root; otherwise the name buckets of the top-level node. */
  function SiteAlerts(t: Tree, uri: string): Result<map<string, set<string>>, Exception>
    requires Valid(t)
  {
    match FindClosestParent(t, uri)
    case None => Ok(map[])
    case Some(c) =>
      match TopLevel(t, c)
      case None => Err(NullPointer)
      case Some(top) => Ok(SiteBuckets(t.nodes[top].alerts))
  }

  /** The whole view: the page part runs first, so its failure is the one reported. */
  function Summaries(t: Tree, uri: string): Result<AlertSummary, Exception>
    requires Valid(t)
  {
    match PageAlerts(t, uri)
    case Err(e) => Err(e)
    case Ok(page) =>
      match SiteAlerts(t, uri)
      case Err(e) => Err(e)
      case Ok(site) => Ok(AlertSummary(page, site))
  }

  /** The map of one empty set per risk label that both halves start from. */
  method NewRiskMap<T>() returns (m: map<string, set<T>>)
    ensures forall l :: l in m <==> l in MsgRisk
    ensures forall l :: l in m ==> m[l] == {}
  {
    m := map[];
    for k := 0 to |MsgRisk|
      invariant forall l :: l in m <==> l in MsgRisk[..k]
      invariant forall l :: l in m ==> m[l] == {}
    {
      m := m[MsgRisk[k] := {}];
    }
    assert MsgRisk[..|MsgRisk|] == MsgRisk;
  }

  /** Distinct risks have distinct labels. */
  lemma RiskLabelsDistinct(r1: Risk, r2: Risk)
    requires r1 != r2
    ensures MsgRisk[r1] != MsgRisk[r2]
  {
  }

  /** One more alert extends the kept set by that alert at most. */
  lemma KeptOfRiskStep(t: Tree, alerts: seq<Alert>, j: nat, clean: string, r: Risk)
    requires Valid(t) && j < |alerts|
    ensures KeptOfRisk(t, alerts[..j + 1], clean, r)
         == KeptOfRisk(t, alerts[..j], clean, r)
            + (if alerts[j].risk == r && Resolves(t, alerts[j], clean) then {alerts[j]} else {})
  {
    assert alerts[..j + 1][..j] == alerts[..j];
  }

  /** One more alert adds at most its own name. */
  lemma NamesOfRiskStep(alerts: seq<Alert>, j: nat, r: Risk)
    requires j < |alerts|
    ensures NamesOfRisk(alerts[..j + 1], r)
         == NamesOfRisk(alerts[..j], r) + (if alerts[j].risk == r then {alerts[j].name} else {})
  {
    assert alerts[..j + 1][..j] == alerts[..j];
  }

  /** The inner loop over one sibling's alerts: an alert is added to its risk's bucket
      when its own URI resolves to a node named `clean`. */
  method AddKeptAlerts(t: Tree, alerts: seq<Alert>, clean: string, m0: map<string, set<Alert>>)
      returns (m: map<string, set<Alert>>)
    requires Valid(t)
    requires forall l :: l in m0 <==> l in MsgRisk
    ensures forall l :: l in m <==> l in MsgRisk
    ensures forall r: Risk :: m[MsgRisk[r]] == m0[MsgRisk[r]] + KeptOfRisk(t, alerts, clean, r)
  {
    m := m0;
    for j := 0 to |alerts|
      invariant forall l :: l in m <==> l in MsgRisk
      invariant forall r: Risk :: m[MsgRisk[r]] == m0[MsgRisk[r]] + KeptOfRisk(t, alerts[..j], clean, r)
    {
      var alert := alerts[j];
      var alertNode := FindNode(t, alert.uri);
      if alertNode.Some? && t.nodes[alertNode.value].hierarchicName == clean {
        var riskLabel := MsgRisk[alert.risk];
        m := m[riskLabel := m[riskLabel] + {alert}];
        forall r: Risk
          ensures m[MsgRisk[r]] == m0[MsgRisk[r]] + KeptOfRisk(t, alerts[..j + 1], clean, r)
        {
          KeptOfRiskStep(t, alerts, j, clean, r);
          if r != alert.risk {
            RiskLabelsDistinct(r, alert.risk);
          }
        }
      } else {
        forall r: Risk
          ensures m[MsgRisk[r]] == m0[MsgRisk[r]] + KeptOfRisk(t, alerts[..j + 1], clean, r)
        {
          KeptOfRiskStep(t, alerts, j, clean, r);
        }
      }
    }
    assert alerts[..|alerts|] == alerts;
  }

  /** One more sibling adds its kept alerts when it bears the page's name. */
  lemma SiblingAlertsStep(t: Tree, sibs: seq<nat>, i: nat, clean: string, r: Risk)
    requires Valid(t) && i < |sibs|
    requires forall k :: 0 <= k < |sibs| ==> sibs[k] < |t.nodes|
    ensures SiblingAlerts(t, sibs[..i + 1], clean, r)
         == SiblingAlerts(t, sibs[..i], clean, r)
            + (if t.nodes[sibs[i]].hierarchicName == clean then KeptOfRisk(t, t.nodes[sibs[i]].alerts, clean, r) else {})
  {
    assert sibs[..i + 1][..i] == sibs[..i];
  }

  /** The loop over the children of the node's parent. */
  method CollectPageAlerts(t: Tree, sibs: seq<nat>, clean: string) returns (m: map<string, set<Alert>>)
    requires Valid(t)
    requires forall k :: 0 <= k < |sibs| ==> sibs[k] < |t.nodes|
    ensures m == PageBuckets(t, sibs, clean)
  {
    m := NewRiskMap();
    for i := 0 to |sibs|
      invariant forall l :: l in m <==> l in MsgRisk
      invariant forall r: Risk :: m[MsgRisk[r]] == SiblingAlerts(t, sibs[..i], clean, r)
    {
      var sibling := sibs[i];
      if t.nodes[sibling].hierarchicName == clean {
        m := AddKeptAlerts(t, t.nodes[sibling].alerts, clean, m);
      }
      forall r: Risk ensures m[MsgRisk[r]] == SiblingAlerts(t, sibs[..i + 1], clean, r) {
        SiblingAlertsStep(t, sibs, i, clean, r);
      }
    }
    assert sibs[..|sibs|] == sibs;
    forall l | l in m ensures m[l] == PageBuckets(t, sibs, clean)[l] {
      assert MsgRisk[RiskOf(l)] == l;
    }
  }

  /** The climb to the node just below the root; none where Java dereferences null. */
  method ClimbToTopLevel(t: Tree, start: nat) returns (top: Option<nat>)
    requires Valid(t) && start < |t.nodes|
    ensures top == TopLevel(t, start)
  {
    if t.nodes[start].parent.None? {
      return None;
    }
    var n: nat := start;
    while t.nodes[t.nodes[n].parent.value].parent.Some?
      invariant n < |t.nodes| && t.nodes[n].parent.Some?
      invariant TopLevel(t, n) == TopLevel(t, start)
      decreases n
    {
      n := t.nodes[n].parent.value;
    }
    top := Some(n);
  }

  /** The loop over the top-level node's alerts, keeping only their names. */
  method CollectSiteNames(alerts: seq<Alert>) returns (m: map<string, set<string>>)
    ensures m == SiteBuckets(alerts)
  {
    m := NewRiskMap();
    for j := 0 to |alerts|
      invariant forall l :: l in m <==> l in MsgRisk
      invariant forall r: Risk :: m[MsgRisk[r]] == NamesOfRisk(alerts[..j], r)
    {
      var alert := alerts[j];
      var riskLabel := MsgRisk[alert.risk];
      m := m[riskLabel := m[riskLabel] + {alert.name}];
      forall r: Risk ensures m[MsgRisk[r]] == NamesOfRisk(alerts[..j + 1], r) {
        NamesOfRiskStep(alerts, j, r);
        if r != alert.risk {
          RiskLabelsDistinct(r, alert.risk);
        }
      }
    }
    assert alerts[..|alerts|] == alerts;
    forall l | l in m ensures m[l] == SiteBuckets(alerts)[l] {
      assert MsgRisk[RiskOf(l)] == l;
    }
  }

  /** `getAlertSummaries` itself. */
  method GetAlertSummaries(t: Tree, uri: string) returns (res: Result<AlertSummary, Exception>)
    requires Valid(t)
    ensures res == Summaries(t, uri)
  {
    var pageAlerts: map<string, set<Alert>> := map[];
    var found := FindNode(t, uri);
    if found.Some? {
      var node := found.value;
      var parent := t.nodes[node].parent;
      if parent.None? {
        return Err(NullPointer);
      }
      pageAlerts := CollectPageAlerts(t, t.nodes[parent.value].children, t.nodes[node].hierarchicName);
    }
    var siteAlerts: map<string, set<string>> := map[];
    var closest := FindClosestParent(t, uri);
    if closest.Some? {
      var top := ClimbToTopLevel(t, closest.value);
      if top.None? {
        return Err(NullPointer);
      }
      siteAlerts := CollectSiteNames(t.nodes[top.value].alerts);
    }
    res := Ok(AlertSummary(pageAlerts, siteAlerts));
  }

  // ---- properties of the view ----

  /** Risk-label buckets: present for every risk label when the URI has a node (a
      closest parent), and no bucket at all otherwise. */
  lemma OneBucketPerRisk(t: Tree, uri: string)
    requires Valid(t) && Summaries(t, uri).Ok?
    ensures var s := Summaries(t, uri).value;
      && (FindNode(t, uri).Some? ==> s.pageAlerts.Keys == set l | l in MsgRisk)
      && (FindNode(t, uri).None? ==> s.pageAlerts == map[])
      && (FindClosestParent(t, uri).Some? ==> s.siteAlerts.Keys == set l | l in MsgRisk)
      && (FindClosestParent(t, uri).None? ==> s.siteAlerts == map[])
  {
  }

  /** The view fails exactly when a root is dereferenced: the found node is a root, or
      (the page part having passed) the closest parent is a root. */
  lemma SummariesFailure(t: Tree, uri: string)
    requires Valid(t)
    ensures Summaries(t, uri).Err? ==> Summaries(t, uri).error == NullPointer
    ensures Summaries(t, uri).Err? <==>
      var pageFails := FindNode(t, uri).Some? && IsRoot(t, FindNode(t, uri).value);
      || pageFails
      || (FindClosestParent(t, uri).Some? && IsRoot(t, FindClosestParent(t, uri).value))
  {
    if FindClosestParent(t, uri).Some? {
      TopLevelClimb(t, FindClosestParent(t, uri).value);
    }
  }

  /** An alert is in the page bucket for risk `r` exactly when it is attached to a child
      of the node's parent carrying the node's hierarchic name, its own URI resolves to a
      node of that name, and its risk is `r`. */
  lemma PageAlertMembership(t: Tree, uri: string, n: nat, p: nat, r: Risk, a: Alert)
    requires Valid(t) && Summaries(t, uri).Ok?
    requires FindNode(t, uri) == Some(n) && t.nodes[n].parent == Some(p)
    ensures MsgRisk[r] in Summaries(t, uri).value.pageAlerts
    ensures var sibs := t.nodes[p].children; var clean := t.nodes[n].hierarchicName;
      a in Summaries(t, uri).value.pageAlerts[MsgRisk[r]] <==>
        && (exists k :: 0 <= k < |sibs| && t.nodes[sibs[k]].hierarchicName == clean && a in t.nodes[sibs[k]].alerts)
        && a.risk == r
        && Resolves(t, a, clean)
  {
    SiblingAlertsMembership(t, t.nodes[p].children, t.nodes[n].hierarchicName, r, a);
  }

  /** Visiting a sibling a second time adds nothing: a page bucket is a set. */
  lemma PageBucketRevisit(t: Tree, sibs: seq<nat>, s: nat, clean: string, r: Risk)
    requires Valid(t)
    requires forall k :: 0 <= k < |sibs| ==> sibs[k] < |t.nodes|
    requires s in sibs
    ensures SiblingAlerts(t, sibs + [s], clean, r) == SiblingAlerts(t, sibs, clean, r)
  {
    var more := sibs + [s];
    forall a ensures a in SiblingAlerts(t, more, clean, r) <==> a in SiblingAlerts(t, sibs, clean, r) {
      SiblingAlertsMembership(t, more, clean, r, a);
      SiblingAlertsMembership(t, sibs, clean, r, a);
      var i :| 0 <= i < |sibs| && sibs[i] == s;
      assert more[i] == s;
      assert forall k :: 0 <= k < |sibs| ==> more[k] == sibs[k];
    }
  }

  /** The site buckets come from one node: an ancestor of (or equal to) the closest
      parent that sits directly below a root, and each bucket holds the distinct names of
      that node's alerts of the bucket's risk. */
  lemma SiteAlertClimb(t: Tree, uri: string, c: nat)
    requires Valid(t) && Summaries(t, uri).Ok?
    requires FindClosestParent(t, uri) == Some(c)
    ensures exists top: nat ::
      && top < |t.nodes| && AncestorOrSelf(t, top, c)
      && t.nodes[top].parent.Some? && IsRoot(t, t.nodes[top].parent.value)
      && (forall r: Risk, name :: MsgRisk[r] in Summaries(t, uri).value.siteAlerts &&
           (name in Summaries(t, uri).value.siteAlerts[MsgRisk[r]] <==>
              exists a :: a in t.nodes[top].alerts && a.risk == r && a.name == name))
  {
    TopLevelClimb(t, c);
    var top := TopLevel(t, c).value;
    forall r: Risk, name
      ensures name in Summaries(t, uri).value.siteAlerts[MsgRisk[r]] <==>
              exists a :: a in t.nodes[top].alerts && a.risk == r && a.name == name
    {
      NamesOfRiskMembership(t.nodes[top].alerts, r, name);
    }
  }

  /** Site buckets keep names only: a further alert whose name and risk already occur
      changes no bucket. */
  lemma SiteBucketNameDedup(alerts: seq<Alert>, a: Alert)
    requires exists b :: b in alerts && b.name == a.name && b.risk == a.risk
    ensures SiteBuckets(alerts + [a]) == SiteBuckets(alerts)
  {
    var more := alerts + [a];
    assert more[..|more| - 1] == alerts;
    forall r: Risk ensures NamesOfRisk(more, r) == NamesOfRisk(alerts, r) {
      if a.risk == r {
        NamesOfRiskMembership(alerts, r, a.name);
      }
    }
  }

  // The example of two tree entries for one logical page: `/app/login?session=1`
  // (node 3, holding a High alert about itself) and `/app/login?session=2` (node 4), both
  // named `https://app/app/login`, below the site node 1 that also lists the alert.
  // Node 4 also carries a Low alert whose own URI is the site node's, so the
  // re-resolution check drops it from the page buckets.

  function ExampleAlert(): Alert {
    Alert("XSS", 3, "q", 40012, "https://app/app/login?session=1", "<script>")
  }

  function StrayAlert(): Alert {
    Alert("Cookie", 1, "", 10010, "https://app", "")
  }

  function ExampleTree(): Tree {
    Tree(
      [ SiteNode(None, [1], "", []),
        SiteNode(Some(0), [2], "https://app", [ExampleAlert()]),
        SiteNode(Some(1), [3, 4], "https://app/app", []),
        SiteNode(Some(2), [], "https://app/app/login", [ExampleAlert()]),
        SiteNode(Some(2), [], "https://app/app/login", [StrayAlert()]) ],
      map["https://app" := 1, "https://app/app/login?session=1" := 3, "https://app/app/login?session=2" := 4],
      map["https://app/app/login?session=2" := 4])
  }

  lemma ExampleTreeValid()
    ensures Valid(ExampleTree())
  {
  }

  lemma ExampleSiblings(r: Risk)
    ensures Valid(ExampleTree())
    ensures SiblingAlerts(ExampleTree(), [3, 4], "https://app/app/login", r)
         == (if r == 3 then {ExampleAlert()} else {})
  {
    ExampleTreeValid();
    var t := ExampleTree();
    var high := ExampleAlert();
    var clean := "https://app/app/login";
    assert Resolves(t, high, clean);
    assert [high][..0] == [];
    assert KeptOfRisk(t, [high], clean, r) == (if r == 3 then {high} else {});
    var stray := StrayAlert();
    assert !Resolves(t, stray, clean);
    assert KeptOfRisk(t, [stray], clean, r) == {};
    assert [3, 4][..1] == [3];
    assert [3][..0] == [];
    assert SiblingAlerts(t, [3], clean, r) == KeptOfRisk(t, [high], clean, r);
  }

  lemma ExamplePageBuckets()
    ensures Valid(ExampleTree())
    ensures var page := PageBuckets(ExampleTree(), [3, 4], "https://app/app/login");
      && page.Keys == {"Informational", "Low", "Medium", "High"}
      && page["Informational"] == {} && page["Low"] == {} && page["Medium"] == {}
      && page["High"] == {ExampleAlert()}
  {
    ExampleTreeValid();
    ExampleSiblings(0);
    ExampleSiblings(1);
    ExampleSiblings(2);
    ExampleSiblings(3);
    assert RiskOf("Informational") == 0 && RiskOf("Low") == 1;
    assert RiskOf("Medium") == 2 && RiskOf("High") == 3;
  }

  lemma ExamplePage()
    ensures Valid(ExampleTree())
    ensures PageAlerts(ExampleTree(), "https://app/app/login?session=2").Ok?
    ensures var page := PageAlerts(ExampleTree(), "https://app/app/login?session=2").value;
      && page.Keys == {"Informational", "Low", "Medium", "High"}
      && page["Informational"] == {} && page["Low"] == {} && page["Medium"] == {}
      && page["High"] == {ExampleAlert()}
  {
    ExamplePageBuckets();
    var t := ExampleTree();
    assert FindNode(t, "https://app/app/login?session=2") == Some(4);
    assert t.nodes[4].parent == Some(2) && t.nodes[4].hierarchicName == "https://app/app/login";
    assert t.nodes[2].children == [3, 4];
  }

  /** The stray alert sits on a sibling with the page's name, yet it is in no page
      bucket, because its own URI resolves to a node of another name. */
  lemma ExampleStrayDropped()
    ensures Valid(ExampleTree())
    ensures var t := ExampleTree();
      && StrayAlert() in t.nodes[4].alerts && t.nodes[4].hierarchicName == "https://app/app/login"
      && !Resolves(t, StrayAlert(), "https://app/app/login")
    ensures PageAlerts(ExampleTree(), "https://app/app/login?session=2").Ok?
    ensures var page := PageAlerts(ExampleTree(), "https://app/app/login?session=2").value;
      forall l :: l in page ==> StrayAlert() !in page[l]
  {
    ExamplePage();
    var t := ExampleTree();
    assert t.exact["https://app"] == 1;
  }

  lemma ExampleSiteBuckets()
    ensures SiteBuckets([ExampleAlert()])
         == map["Informational" := {}, "Low" := {}, "Medium" := {}, "High" := {"XSS"}]
  {
    var high := ExampleAlert();
    assert [high][..0] == [];
    forall r: Risk ensures NamesOfRisk([high], r) == (if r == 3 then {"XSS"} else {}) {
    }
    var site := SiteBuckets([high]);
    assert RiskOf("Informational") == 0 && RiskOf("Low") == 1;
    assert RiskOf("Medium") == 2 && RiskOf("High") == 3;
    assert site.Keys == {"Informational", "Low", "Medium", "High"};
  }

  lemma ExampleSite()
    ensures Valid(ExampleTree())
    ensures SiteAlerts(ExampleTree(), "https://app/app/login?session=2")
         == Ok(map["Informational" := {}, "Low" := {}, "Medium" := {}, "High" := {"XSS"}])
  {
    ExampleTreeValid();
    ExampleSiteBuckets();
    var t := ExampleTree();
    assert TopLevel(t, 4) == Some(1);
    assert FindClosestParent(t, "https://app/app/login?session=2") == Some(4);
    assert t.nodes[1].alerts == [ExampleAlert()];
  }

  /** Asking about the second entry finds the alert in the High page bucket and
      nothing in the others; the site High bucket holds its name. */
  lemma SameLogicalPageExample()
    ensures Valid(ExampleTree())
    ensures Summaries(ExampleTree(), "https://app/app/login?session=2").Ok?
    ensures var s := Summaries(ExampleTree(), "https://app/app/login?session=2").value;
      && s.pageAlerts.Keys == {"Informational", "Low", "Medium", "High"}
      && s.pageAlerts["Informational"] == {} && s.pageAlerts["Low"] == {} && s.pageAlerts["Medium"] == {}
      && s.pageAlerts["High"] == {ExampleAlert()}
      && s.siteAlerts == map["Informational" := {}, "Low" := {}, "Medium" := {}, "High" := {"XSS"}]
  {
    ExamplePage();
    ExampleSite();
  }
}
