/** What the safety theorems say of the reconciler: any number of its passes, at any point. */
module ControllerSafety {
  import opened Model
  import opened Protocol
  import opened Invariant
  import opened Theorems
  import opened Tracking
  import opened Apis

  /** Every state a reconciler's calls lead to, with everybody else acting in between, is one of a run
      of the protocol, and so: names are used once, a stored record is the Service's own, and so is
      what it tracks of its firewall rule. */
  lemma CallsAreSafe(w: World, n: nat)
    requires w.Valid() && n < |w.sys.svcs[w.k].versions| && w.sys.svcs[w.k].versions[n].Some?
    ensures forall i, j, name | NamedLb(w.sys.cloud, i, name) && NamedLb(w.sys.cloud, j, name) :: i == j
    ensures var ann := w.sys.svcs[w.k].versions[n].value.ann;
            && RecordsOwn(w.cfg, w.sys.cloud, w.k, ann)
            && (RuleId in ann || OpId in ann ==> NameOf(w.cfg, w.k).Some? && Own(w.sys.cloud, ann, NameOf(w.cfg, w.k).value))
  {
    ReachableIsRun(w.cfg, w.start, w.sys);
    var acts :| w.sys == Run(w.cfg, w.start, acts);
    AtMostOneLoadBalancer(w.cfg, w.start, acts);
    RecordsOwnRule(w.cfg, w.start, acts, w.k, n);
  }
}
