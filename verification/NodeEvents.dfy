/** Which Node events can be dropped. */
module NodeEvents {
  import opened Ports

  type Cluster = map<string, Node>
  datatype Event = Created(node: Node) | Updated(before: Node, after: Node)

  /** nodeEventPredicate, for node creations and updates. */
  predicate Accepts(e: Event) {
    match e
    case Created(node) => IsNodeIncluded(node)
    case Updated(before, after) =>
      if IsNodeIncluded(before) != IsNodeIncluded(after) then true
      else if !IsNodeIncluded(after) then false
      else IsNodeReady(before) != IsNodeReady(after)
  }

  /** The event happens in c: a new node appears, or a present one changes and keeps its addresses. */
  ghost predicate Happens(c: Cluster, e: Event) {
    match e
    case Created(node) => node.name !in c
    case Updated(before, after) =>
      before.name in c && c[before.name] == before && after.name == before.name && after.addresses == before.addresses
  }

  function After(c: Cluster, e: Event): Cluster {
    match e
    case Created(node) => c[node.name := node]
    case Updated(_, after) => c[after.name := after]
  }

  /** All of them happen in turn and every one is rejected; the cluster ends as last. */
  ghost predicate AllDropped(c: Cluster, events: seq<Event>, last: Cluster)
    decreases |events|
  {
    if |events| == 0 then c == last
    else Happens(c, events[0]) && !Accepts(events[0]) && AllDropped(After(c, events[0]), events[1..], last)
  }

  /** ip is a backend address: some usable node has it as an internal address. */
  ghost predicate IsBackend(c: Cluster, ip: string) {
    exists n | n in c :: Usable(c[n]) && ip in InternalIps(c[n].addresses)
  }

  /** A node list is a listing of a cluster when it holds exactly its nodes, in any order. */
  ghost predicate Lists(nodes: seq<Node>, c: Cluster) {
    forall n :: n in nodes <==> n in c.Values
  }

  lemma {:induction false} BackendIpsMembers(nodes: seq<Node>, ip: string)
    ensures ip in BackendIps(nodes) <==> exists n | n in nodes :: Usable(n) && ip in InternalIps(n.addresses)
  {
    if |nodes| > 0 {
      BackendIpsMembers(nodes[1..], ip);
      if n :| n in nodes && Usable(n) && ip in InternalIps(n.addresses) {
        if n != nodes[0] { assert n in nodes[1..]; }
      }
    }
  }

  lemma ListedBackends(nodes: seq<Node>, c: Cluster, ip: string)
    requires Lists(nodes, c)
    ensures ip in BackendIps(nodes) <==> IsBackend(c, ip)
  {
    BackendIpsMembers(nodes, ip);
    if n :| n in nodes && Usable(n) && ip in InternalIps(n.addresses) {
      var k :| k in c && c[k] == n;
    }
    if k :| k in c && Usable(c[k]) && ip in InternalIps(c[k].addresses) {
      assert c[k] in c.Values;
    }
  }

  lemma DroppedEventKeepsBackends(c: Cluster, e: Event, ip: string)
    requires Happens(c, e) && !Accepts(e)
    ensures IsBackend(After(c, e), ip) <==> IsBackend(c, ip)
  {
    var c' := After(c, e);
    var changed := if e.Created? then e.node.name else e.after.name;
    if n :| n in c && Usable(c[n]) && ip in InternalIps(c[n].addresses) {
      assert n in c' && Usable(c'[n]) && ip in InternalIps(c'[n].addresses);
    }
    if n :| n in c' && Usable(c'[n]) && ip in InternalIps(c'[n].addresses) {
      assert n in c && Usable(c[n]) && ip in InternalIps(c[n].addresses);
    }
  }

  /** After any run of rejected events, any listing of the nodes gives the same backend addresses. */
  lemma {:induction false} DroppedEventsHarmless(c: Cluster, events: seq<Event>, last: Cluster,
                                                 before: seq<Node>, after: seq<Node>, ip: string)
    requires AllDropped(c, events, last)
    requires Lists(before, c) && Lists(after, last)
    ensures ip in BackendIps(before) <==> ip in BackendIps(after)
  {
    DroppedKeepBackends(c, events, last, ip);
    ListedBackends(before, c, ip);
    ListedBackends(after, last, ip);
  }

  lemma {:induction false} DroppedKeepBackends(c: Cluster, events: seq<Event>, last: Cluster, ip: string)
    requires AllDropped(c, events, last)
    ensures IsBackend(c, ip) <==> IsBackend(last, ip)
    decreases |events|
  {
    if |events| > 0 {
      DroppedEventKeepsBackends(c, events[0], ip);
      DroppedKeepBackends(After(c, events[0]), events[1..], last, ip);
    }
  }

  /** An event is worth a reconcile exactly when the node may serve, or its serving or being excluded changes. */
  lemma AcceptsExact(e: Event)
    ensures match e
            case Created(node) => Accepts(e) <==> IsNodeIncluded(node)
            case Updated(before, after) =>
              Accepts(e) <==> Usable(before) != Usable(after) || IsNodeIncluded(before) != IsNodeIncluded(after)
  {
  }
}
