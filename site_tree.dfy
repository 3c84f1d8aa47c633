/** The site tree the alert correlation reads, as an arena: every node is addressed by
    its index, stores the index of its parent (none for the root) and the indices of its
    children, its hierarchic node name and the alerts attached to it. The tree's two
    lookups, `findNode` and `findClosestParent`, are given as maps from URI to node. */
module SiteTree {
  import opened Wrappers

  /** An alert's risk: an index into the risk labels. */
  type Risk = r: nat | r < 4

  /** Alert.MSG_RISK, in risk order. */
  const MsgRisk: seq<string> := ["Informational", "Low", "Medium", "High"]

  /** The risk whose label is `riskLabel`. */
  function RiskOf(riskLabel: string): (r: Risk)
    requires riskLabel in MsgRisk
    ensures MsgRisk[r] == riskLabel
  {
    if riskLabel == "Informational" then 0
    else if riskLabel == "Low" then 1
    else if riskLabel == "Medium" then 2
    else 3
  }

  datatype Alert = Alert(name: string, risk: Risk, param: string, alertId: int, uri: string, evidence: string)

  datatype SiteNode = SiteNode(parent: Option<nat>, children: seq<nat>, hierarchicName: string, alerts: seq<Alert>)

  datatype Tree = Tree(nodes: seq<SiteNode>, exact: map<string, nat>, closest: map<string, nat>)

  /** Every index refers to a node, each child names its parent back, and a parent
      comes before its children (so the tree has no cycle). */
  predicate Valid(t: Tree) {
    && (forall i :: 0 <= i < |t.nodes| && t.nodes[i].parent.Some? ==> t.nodes[i].parent.value < i)
    && (forall i, k :: 0 <= i < |t.nodes| && 0 <= k < |t.nodes[i].children| ==>
          t.nodes[i].children[k] < |t.nodes| && t.nodes[t.nodes[i].children[k]].parent == Some(i))
    && (forall u :: u in t.exact ==> t.exact[u] < |t.nodes|)
    && (forall u :: u in t.closest ==> t.closest[u] < |t.nodes|)
  }

  /** `findNode(uri)`: the node for exactly this URI, if there is one. */
  function FindNode(t: Tree, uri: string): (r: Option<nat>)
    requires Valid(t)
    ensures r.Some? ==> r.value < |t.nodes|
  {
    if uri in t.exact then Some(t.exact[uri]) else None
  }

  /** `findClosestParent(uri)`: the node for the URI or its closest ancestor, if any. */
  function FindClosestParent(t: Tree, uri: string): (r: Option<nat>)
    requires Valid(t)
    ensures r.Some? ==> r.value < |t.nodes|
  {
    if uri in t.closest then Some(t.closest[uri]) else None
  }

  predicate IsRoot(t: Tree, n: nat)
    requires n < |t.nodes|
  {
    t.nodes[n].parent.None?
  }

  /** `a` is `n` or one of its ancestors. */
  predicate AncestorOrSelf(t: Tree, a: nat, n: nat)
    requires Valid(t) && n < |t.nodes|
    decreases n
  {
    a == n || (t.nodes[n].parent.Some? && AncestorOrSelf(t, a, t.nodes[n].parent.value))
  }

  /** The node the climb `while (!parent.getParent().isRoot()) parent = parent.getParent()`
      stops at; none when `n` is itself the root, where the climb dereferences null. */
  function TopLevel(t: Tree, n: nat): (r: Option<nat>)
    requires Valid(t) && n < |t.nodes|
    ensures r.Some? ==> r.value < |t.nodes|
    decreases n
  {
    match t.nodes[n].parent
    case None => None
    case Some(p) => if IsRoot(t, p) then Some(n) else TopLevel(t, p)
  }

  /** The climb fails exactly from the root, and otherwise stops at an ancestor of `n`
      (or `n` itself) that sits directly below a root. */
  lemma {:induction false} TopLevelClimb(t: Tree, n: nat)
    requires Valid(t) && n < |t.nodes|
    ensures TopLevel(t, n).None? <==> IsRoot(t, n)
    ensures TopLevel(t, n).Some? ==>
      var top := TopLevel(t, n).value;
      && top < |t.nodes|
      && AncestorOrSelf(t, top, n)
      && t.nodes[top].parent.Some?
      && IsRoot(t, t.nodes[top].parent.value)
    decreases n
  {
    match t.nodes[n].parent
    case None =>
    case Some(p) =>
      if !IsRoot(t, p) {
        TopLevelClimb(t, p);
      }
  }

  // ---- page scope ----

  /** The check made on every candidate alert: its own URI resolves to a node whose
      hierarchic name is `clean`. */
  predicate Resolves(t: Tree, a: Alert, clean: string)
    requires Valid(t)
  {
    a.uri in t.exact && t.nodes[t.exact[a.uri]].hierarchicName == clean
  }

  /** The alerts of `alerts` that pass the check and have risk `r`. */
  function KeptOfRisk(t: Tree, alerts: seq<Alert>, clean: string, r: Risk): set<Alert>
    requires Valid(t)
    decreases |alerts|
  {
    if alerts == [] then {}
    else
      var a := alerts[|alerts| - 1];
      KeptOfRisk(t, alerts[..|alerts| - 1], clean, r)
        + (if a.risk == r && Resolves(t, a, clean) then {a} else {})
  }

  /** What the sibling loop collects for risk `r` from the siblings `sibs`: the kept
      alerts of every sibling whose hierarchic name is `clean`. */
  function SiblingAlerts(t: Tree, sibs: seq<nat>, clean: string, r: Risk): set<Alert>
    requires Valid(t)
    requires forall k :: 0 <= k < |sibs| ==> sibs[k] < |t.nodes|
    decreases |sibs|
  {
    if sibs == [] then {}
    else
      var s := sibs[|sibs| - 1];
      SiblingAlerts(t, sibs[..|sibs| - 1], clean, r)
        + (if t.nodes[s].hierarchicName == clean then KeptOfRisk(t, t.nodes[s].alerts, clean, r) else {})
  }

  lemma {:induction false} KeptOfRiskMembership(t: Tree, alerts: seq<Alert>, clean: string, r: Risk, a: Alert)
    requires Valid(t)
    ensures a in KeptOfRisk(t, alerts, clean, r) <==> a in alerts && a.risk == r && Resolves(t, a, clean)
    decreases |alerts|
  {
    if alerts != [] {
      var init := alerts[..|alerts| - 1];
      KeptOfRiskMembership(t, init, clean, r, a);
      assert alerts == init + [alerts[|alerts| - 1]];
    }
  }

  /** Membership in a page bucket, both directions. */
  lemma {:induction false} SiblingAlertsMembership(t: Tree, sibs: seq<nat>, clean: string, r: Risk, a: Alert)
    requires Valid(t)
    requires forall k :: 0 <= k < |sibs| ==> sibs[k] < |t.nodes|
    ensures a in SiblingAlerts(t, sibs, clean, r) <==>
      (exists k :: 0 <= k < |sibs| && t.nodes[sibs[k]].hierarchicName == clean && a in t.nodes[sibs[k]].alerts)
      && a.risk == r && Resolves(t, a, clean)
    decreases |sibs|
  {
    if sibs != [] {
      var n := |sibs| - 1;
      var init := sibs[..n];
      SiblingAlertsMembership(t, init, clean, r, a);
      KeptOfRiskMembership(t, t.nodes[sibs[n]].alerts, clean, r, a);
      assert forall k :: 0 <= k < n ==> init[k] == sibs[k];
    }
  }

  /** The page buckets: one per risk label, holding what the sibling loop collects for that risk. */
  function PageBuckets(t: Tree, sibs: seq<nat>, clean: string): (m: map<string, set<Alert>>)
    requires Valid(t)
    requires forall k :: 0 <= k < |sibs| ==> sibs[k] < |t.nodes|
  {
    map l | l in MsgRisk :: SiblingAlerts(t, sibs, clean, RiskOf(l))
  }

  // ---- site scope ----

  /** The distinct names of the alerts in `alerts` that have risk `r`. */
  function NamesOfRisk(alerts: seq<Alert>, r: Risk): set<string>
    decreases |alerts|
  {
    if alerts == [] then {}
    else
      var a := alerts[|alerts| - 1];
      NamesOfRisk(alerts[..|alerts| - 1], r) + (if a.risk == r then {a.name} else {})
  }

  lemma {:induction false} NamesOfRiskMembership(alerts: seq<Alert>, r: Risk, name: string)
    ensures name in NamesOfRisk(alerts, r) <==> exists a :: a in alerts && a.risk == r && a.name == name
    decreases |alerts|
  {
    if alerts != [] {
      var init := alerts[..|alerts| - 1];
      NamesOfRiskMembership(init, r, name);
      assert alerts == init + [alerts[|alerts| - 1]];
    }
  }

  function SiteBuckets(alerts: seq<Alert>): (m: map<string, set<string>>) {
    map l | l in MsgRisk :: NamesOfRisk(alerts, RiskOf(l))
  }
}
