/** Runs that release a Service and leave one of its firewall rules behind. */
module RuleWitnesses {
  import opened Wrappers
  import opened MergePatch
  import opened Ports
  import opened FirewallArgs
  import opened Model
  import opened Protocol
  import opened Permits
  import opened ReleaseSafety
  import opened Apis
  import opened Deletion
  import opened Witnesses

  /** The Service wants a managed rule. */
  predicate Manages(cfg: Config, s: Sys, k: Id, protocol: string) {
    && Untouched(cfg, s, k, protocol) && cfg.project
    && Managed(s.svcs[k].versions[0].value) && s.svcs[k].versions[0].value.ingress == []
  }

  /** A load balancer is created and recorded. */
  lemma RecordsNew(cfg: Config, s0: Sys, k: Id, protocol: string) returns (acts: seq<Action>, s: Sys)
    requires Init(cfg, s0) && Untouched(cfg, s0, k, protocol)
    ensures s == Run(cfg, s0, acts) && k in s.svcs && NoRules(s.cloud) && HasOne(cfg, s.cloud, k, "lb", protocol)
    ensures var o, v := Finalized(s0, k), s.svcs[k]; var recorded := WithRecord(o, "lb", protocol);
            && v.versions == [s0.svcs[k].versions[0], Some(o), Some(recorded)] && v.seen == 0 && !v.cleaned
            && v.pass.Working? && v.pass.work.mem == Copy(2, recorded) && "vip" in v.pass.work.vips
  {
    acts, s := CreatesNew(cfg, s0, k, protocol, "lb", CALM);
    var ann := Finalized(s0, k).ann;
    DiffRecords(ann, "lb", protocol, ann);
    assert RecordsLb(s.svcs[k].pass.work, RecordDiff(ann, "lb", protocol));
    AnnotationsLand(cfg, s, k, RecordDiff(ann, "lb", protocol));
    acts, s := Reaches(cfg, s0, acts, s, Do(k, PatchAnn(RecordDiff(ann, "lb", protocol)), CALM));
  }

  /** The Service with its load balancer recorded and the address published. */
  function Published(s0: Sys, k: Id, protocol: string): Object
    requires k in s0.svcs && |s0.svcs[k].versions| == 1 && s0.svcs[k].versions[0].Some?
  {
    WithRecord(Finalized(s0, k), "lb", protocol).(ingress := ["vip"])
  }

  lemma Publishes(cfg: Config, s0: Sys, k: Id, protocol: string) returns (acts: seq<Action>, s: Sys)
    requires Init(cfg, s0) && Untouched(cfg, s0, k, protocol) && s0.svcs[k].versions[0].value.ingress == []
    ensures s == Run(cfg, s0, acts) && k in s.svcs && NoRules(s.cloud) && HasOne(cfg, s.cloud, k, "lb", protocol)
    ensures var v := s.svcs[k];
            && |v.versions| == 4 && Latest(v.versions) == Some(Published(s0, k, protocol)) && v.seen == 0
            && v.pass.Working? && v.pass.work.mem == Copy(3, Published(s0, k, protocol))
  {
    acts, s := RecordsNew(cfg, s0, k, protocol);
    acts, s := Reaches(cfg, s0, acts, s, Do(k, PatchStatus("vip"), CALM));
  }

  lemma MayCreateRule(cfg: Config, k: Id, w: Work, args: RuleArgs)
    requires Managed(w.mem.obj) && LbId in w.mem.obj.ann && RuleOf(cfg, k, w.mem.obj, args)
    ensures Allowed(cfg, k, Working(w), CreateRule(args))
  {
  }

  /** The Service as stored last, not deleted. */
  predicate Alive(s: Sys, k: Id, o: Object) {
    && k in s.svcs && s.svcs[k].seen < |s.svcs[k].versions| && Latest(s.svcs[k].versions) == Some(o)
    && o.deletedAt.None? && o.finalizer && o.spec.lbClass.None?
  }

  /** A pass knows it as it is. */
  predicate AtWork(s: Sys, k: Id, o: Object) {
    Alive(s, k, o) && s.svcs[k].pass.Working? && s.svcs[k].pass.work.mem == Copy(|s.svcs[k].versions| - 1, o)
  }

  lemma CreateServed(c: Cloud, v: Versions, args: RuleArgs, f: Fate)
    requires f.lands && f.op !in c.ops && f.op != ""
    ensures ServeRule(c, v, CreateRule(args), f) ==
            Served(c.(ops := c.ops[f.op := InFlight(args)]), v, if f.heard then RuleOp(f.op) else Fail(f, {}))
  {
  }

  /** A create of the rule takes effect; its answer may be lost. */
  lemma RuleSubmitted(cfg: Config, s0: Sys, acts: seq<Action>, s: Sys, k: Id, o: Object, args: RuleArgs, op: Id, heard: bool)
    returns (acts': seq<Action>, s': Sys)
    requires s == Run(cfg, s0, acts) && AtWork(s, k, o) && op !in s.cloud.ops && op != ""
    requires Allowed(cfg, k, s.svcs[k].pass, CreateRule(args))
    ensures s' == Run(cfg, s0, acts') && AtWork(s', k, o) && (heard ==> op in s'.svcs[k].pass.work.made)
    ensures s'.cloud == s.cloud.(ops := s.cloud.ops[op := InFlight(args)])
  {
    var fate := CALM.(heard := heard, op := op);
    CreateServed(s.cloud, s.svcs[k].versions, args, fate);
    DoIsStep(cfg, s, k, CreateRule(args), fate);
    acts', s' := Reaches(cfg, s0, acts, s, Do(k, CreateRule(args), fate));
  }

  /** The pass ends, and the next one begins with the latest state. */
  lemma NextPass(cfg: Config, s0: Sys, acts: seq<Action>, s: Sys, k: Id) returns (acts': seq<Action>, s': Sys)
    requires s == Run(cfg, s0, acts) && k in s.svcs && s.svcs[k].seen < |s.svcs[k].versions|
    ensures s' == Run(cfg, s0, acts') && s'.cloud == s.cloud && k in s'.svcs
    ensures var v := s.svcs[k].versions;
            && s'.svcs[k].versions == v && s'.svcs[k].seen < |v|
            && s'.svcs[k].pass == StartPass(cfg, k, |v| - 1, Latest(v))
  {
    acts', s' := Reaches(cfg, s0, acts, s, End(k));
    acts', s' := Reaches(cfg, s0, acts', s', CacheAdvances(k, |s.svcs[k].versions| - 1));
    acts', s' := Reaches(cfg, s0, acts', s', Begin(k));
  }

  /** The Service is deleted, and a deleting pass begins. */
  lemma DeletionBegins(cfg: Config, s0: Sys, acts: seq<Action>, s: Sys, k: Id, o: Object)
    returns (acts': seq<Action>, s': Sys)
    requires s == Run(cfg, s0, acts) && k in s.svcs && s.svcs[k].seen < |s.svcs[k].versions|
    requires Latest(s.svcs[k].versions) == Some(o) && o.deletedAt.None? && o.finalizer
    ensures s' == Run(cfg, s0, acts') && s'.cloud == s.cloud && k in s'.svcs
    ensures var copy := Copy(|s.svcs[k].versions|, o.(deletedAt := Some(s.now)));
            && s'.svcs[k].versions == s.svcs[k].versions + [Some(copy.obj)]
            && s'.svcs[k].pass == Cleaning(Clean(copy, copy, FwStart(cfg, k, copy.obj),
                                                 if Text(o.ann, LbId) == "" then Gone else Present))
  {
    acts', s' := Reaches(cfg, s0, acts, s, UserDeletes(k));
    acts', s' := NextPass(cfg, s0, acts', s', k);
  }

  /** It finds no rule of the name. */
  lemma NoneFound(cfg: Config, s: Sys, k: Id)
    requires k in s.svcs && s.svcs[k].pass.Cleaning? && s.svcs[k].pass.clean.fw == AskName(false) && s.cloud.rules == map[]
    ensures var p := s.svcs[k].pass.clean;
            Step(cfg, s, Do(k, ListRules, CALM)) ==
            s.(svcs := s.svcs[k := s.svcs[k].(pass := Cleaning(p.(fw := Cleared(false))))])
  {
    assert ServeRule(s.cloud, s.svcs[k].versions, ListRules, CALM).reply == RuleList([]);
  }

  /** The rule step is done; the load balancer is deleted and the Service released. */
  lemma RestReleased(cfg: Config, s0: Sys, acts: seq<Action>, s: Sys, k: Id) returns (acts': seq<Action>, s': Sys)
    requires s == Run(cfg, s0, acts) && k in s.svcs && Latest(s.svcs[k].versions).Some? && "lb" in s.cloud.live
    requires s.svcs[k].pass.Cleaning? && s.svcs[k].pass.clean.fw == Cleared(false) && s.svcs[k].pass.clean.lb.Present?
    requires var p := s.svcs[k].pass.clean;
             Text(p.start.obj.ann, LbId) == "lb" && p.mem.obj.deletedAt.Some? && p.mem.version + 1 == |s.svcs[k].versions|
    ensures s' == Run(cfg, s0, acts') && k in s'.svcs && Latest(s'.svcs[k].versions).None?
    ensures s'.cloud.rules == s.cloud.rules && s'.cloud.spent == s.cloud.spent && s'.cloud.ops == s.cloud.ops
  {
    acts', s' := Reaches(cfg, s0, acts, s, Do(k, DeleteLb("lb"), CALM));
    acts', s' := Reaches(cfg, s0, acts', s', Do(k, Update(s'.svcs[k].pass.clean.mem.obj.(finalizer := false)), CALM));
  }

  /** Released, with a live rule of the Service's name. */
  ghost predicate LeavesRule(cfg: Config, s: Sys, k: Id) {
    && k in s.svcs && Latest(s.svcs[k].versions).None? && NameOf(cfg, k).Some?
    && exists i :: RuleNamed(s.cloud, i, NameOf(cfg, k).value)
  }

  lemma LeavesIt(cfg: Config, s0: Sys, acts: seq<Action>, s: Sys, k: Id, id: Id)
    requires s == Run(cfg, s0, acts) && k in s.svcs && Latest(s.svcs[k].versions).None?
    requires NameOf(cfg, k).Some? && RuleNamed(s.cloud, id, NameOf(cfg, k).value)
    ensures exists acts' :: LeavesRule(cfg, Run(cfg, s0, acts'), k)
  {
    assert LeavesRule(cfg, Run(cfg, s0, acts), k);
  }

  lemma RuleAppears(cfg: Config, s: Sys, k: Id, args: RuleArgs)
    requires k in s.svcs && Latest(s.svcs[k].versions).None? && NameOf(cfg, k) == Some(args.name)
    requires s.cloud.rules == map[] && s.cloud.spent == {} && s.cloud.ops == map["op" := InFlight(args)]
    ensures LeavesRule(cfg, Step(cfg, s, OpSettles("op", "rule", WithId, true, None, None)), k)
  {
    assert RuleNamed(Step(cfg, s, OpSettles("op", "rule", WithId, true, None, None)).cloud, "rule", args.name);
  }

  /** A deletion that knows of no rule and finds none. */
  lemma ReleasesUnaware(cfg: Config, s0: Sys, acts: seq<Action>, s: Sys, k: Id, o: Object)
    returns (acts': seq<Action>, s': Sys)
    requires s == Run(cfg, s0, acts) && Alive(s, k, o) && s.cloud.rules == map[] && "lb" in s.cloud.live
    requires Managed(o) && cfg.project && NameOf(cfg, k).Some?
    requires Text(o.ann, LbId) == "lb" && Text(o.ann, RuleId) == "" && Text(o.ann, OpId) == ""
    ensures s' == Run(cfg, s0, acts') && k in s'.svcs && Latest(s'.svcs[k].versions).None?
    ensures s'.cloud.rules == s.cloud.rules && s'.cloud.spent == s.cloud.spent && s'.cloud.ops == s.cloud.ops
  {
    acts', s' := DeletionBegins(cfg, s0, acts, s, k, o);
    NoneFound(cfg, s', k);
    acts', s' := Reaches(cfg, s0, acts', s', Do(k, ListRules, CALM));
    acts', s' := RestReleased(cfg, s0, acts', s', k);
  }

  /** A first create of the rule, by a pass that has recorded and published the load balancer. */
  lemma FirstCreate(cfg: Config, s0: Sys, k: Id, protocol: string, args: RuleArgs, heard: bool)
    returns (acts: seq<Action>, s: Sys)
    requires Init(cfg, s0) && Manages(cfg, s0, k, protocol) && RuleOf(cfg, k, Published(s0, k, protocol), args)
    ensures s == Run(cfg, s0, acts) && AtWork(s, k, Published(s0, k, protocol)) && "lb" in s.cloud.live
    ensures s.cloud.rules == map[] && s.cloud.spent == {} && s.cloud.ops == map["op" := InFlight(args)] && s.cloud.aged == {}
    ensures heard ==> "op" in s.svcs[k].pass.work.made
  {
    acts, s := Publishes(cfg, s0, k, protocol);
    MayCreateRule(cfg, k, s.svcs[k].pass.work, args);
    acts, s := RuleSubmitted(cfg, s0, acts, s, k, Published(s0, k, protocol), args, "op", heard);
  }

  /** Why ReleaseSafe asks that an unrecorded create is not in flight: when the answer to a rule create
      is lost and the Service is deleted before the operation settles, the release finds no rule and the
      operation makes one afterwards. */
  lemma ReleaseCanLeaveRule(cfg: Config, s0: Sys, k: Id, protocol: string, args: RuleArgs)
    requires Init(cfg, s0) && Manages(cfg, s0, k, protocol)
    requires RuleOf(cfg, k, Published(s0, k, protocol), args)
    ensures exists acts :: LeavesRule(cfg, Run(cfg, s0, acts), k)
  {
    var acts, s := FirstCreate(cfg, s0, k, protocol, args, false);
    RuleName(cfg, k, Published(s0, k, protocol), args);
    acts, s := ReleasesUnaware(cfg, s0, acts, s, k, Published(s0, k, protocol));
    RuleAppears(cfg, s, k, args);
    acts, s := Reaches(cfg, s0, acts, s, OpSettles("op", "rule", WithId, true, None, None));
    assert LeavesRule(cfg, Run(cfg, s0, acts), k);
  }

  /* ---- Beside a recorded one ---- */

  function WithOp(o: Object): Object { o.(ann := o.ann[OpId := "op"]) }
  function WithRule(o: Object): Object { o.(ann := o.ann[RuleId := "rule"]) }

  /** The Service as recorded and tracked. */
  predicate Tracked(cfg: Config, o: Object) {
    && Managed(o) && cfg.project && Text(o.ann, LbId) == "lb" && LbId in o.ann && RuleId in o.ann && o.ann[RuleId] == "rule"
  }

  /** A tracking patch that takes effect and is heard. */
  lemma TrackingLands(cfg: Config, s0: Sys, acts: seq<Action>, s: Sys, k: Id, o: Object, ann: Annotations)
    returns (acts': seq<Action>, s': Sys)
    requires s == Run(cfg, s0, acts) && AtWork(s, k, o) && ann != o.ann && TracksRule(s.svcs[k].pass.work, Diff(o.ann, ann))
    ensures s' == Run(cfg, s0, acts') && AtWork(s', k, o.(ann := ann)) && s'.cloud == s.cloud
  {
    PatchExact(o.ann, ann, o.ann);
    AnnotationsLand(cfg, s, k, Diff(o.ann, ann));
    acts', s' := Reaches(cfg, s0, acts, s, Do(k, PatchAnn(Diff(o.ann, ann)), CALM));
  }

  /** A new rule of a settled create. */
  lemma SettlesNew(c: Cloud, op: Id, args: RuleArgs, id: Id)
    requires c.rules == map[] && op in c.ops && c.ops[op] == InFlight(args) && id !in c.spent && id != ""
    ensures SettleOp(c, OpSettles(op, id, WithId, true, None, None)) ==
            c.(ops := c.ops[op := Succeeded(id, WithId)], rules := map[id := args], spent := c.spent + {id})
  {
  }

  lemma RuleSettles(cfg: Config, s0: Sys, acts: seq<Action>, s: Sys, k: Id, o: Object, op: Id, args: RuleArgs, id: Id)
    returns (acts': seq<Action>, s': Sys)
    requires s == Run(cfg, s0, acts) && Alive(s, k, o)
    requires s.cloud.rules == map[] && op in s.cloud.ops && s.cloud.ops[op] == InFlight(args) && id !in s.cloud.spent && id != ""
    ensures s' == Run(cfg, s0, acts') && Alive(s', k, o)
    ensures s'.cloud == s.cloud.(ops := s.cloud.ops[op := Succeeded(id, WithId)], rules := map[id := args],
                                 spent := s.cloud.spent + {id})
  {
    SettlesNew(s.cloud, op, args, id);
    acts', s' := Reaches(cfg, s0, acts, s, OpSettles(op, id, WithId, true, None, None));
  }

  /** The operation is recorded and makes the rule, and the next pass begins. */
  lemma OpRecorded(cfg: Config, s0: Sys, acts: seq<Action>, s: Sys, k: Id, o: Object, args: RuleArgs)
    returns (acts': seq<Action>, s': Sys)
    requires s == Run(cfg, s0, acts) && AtWork(s, k, o) && LbId in o.ann && RuleId !in o.ann && OpId !in o.ann
    requires "op" in s.svcs[k].pass.work.made
    requires s.cloud.rules == map[] && s.cloud.spent == {} && s.cloud.ops == map["op" := InFlight(args)]
    ensures s' == Run(cfg, s0, acts') && AtWork(s', k, WithOp(o)) && s'.cloud.live == s.cloud.live
    ensures s'.cloud.rules == map["rule" := args] && s'.cloud.spent == {"rule"} && s'.cloud.aged == s.cloud.aged
    ensures s'.cloud.ops == map["op" := Succeeded("rule", WithId)]
  {
    assert o.ann - {RuleId, OpId} == o.ann;
    MadeTracks(s.svcs[k].pass.work, WithOp(o).ann, "op");
    acts', s' := TrackingLands(cfg, s0, acts, s, k, o, WithOp(o).ann);
    acts', s' := RuleSettles(cfg, s0, acts', s', k, WithOp(o), "op", args, "rule");
    acts', s' := NextPass(cfg, s0, acts', s', k);
  }

  lemma ResultRead(cfg: Config, s: Sys, k: Id, o: Object)
    requires AtWork(s, k, o) && OpId in o.ann && o.ann[OpId] == "op"
    requires s.cloud.ops == map["op" := Succeeded("rule", WithId)] && s.cloud.aged == {}
    ensures var w := s.svcs[k].pass.work;
            Step(cfg, s, Do(k, GetOp("op"), CALM)) ==
            s.(svcs := s.svcs[k := s.svcs[k].(pass := Working(w.(found := w.found + {"rule"})))])
  {
    DoIsStep(cfg, s, k, GetOp("op"), CALM);
  }

  /** A pass reads the operation's result and records the rule. */
  lemma ResultRecorded(cfg: Config, s0: Sys, acts: seq<Action>, s: Sys, k: Id, o: Object)
    returns (acts': seq<Action>, s': Sys)
    requires s == Run(cfg, s0, acts) && AtWork(s, k, WithOp(o)) && LbId in o.ann && RuleId !in o.ann
    requires s.cloud.ops == map["op" := Succeeded("rule", WithId)] && s.cloud.aged == {}
    ensures s' == Run(cfg, s0, acts') && AtWork(s', k, WithRule(WithOp(o))) && s'.cloud == s.cloud
  {
    ResultRead(cfg, s, k, WithOp(o));
    acts', s' := Reaches(cfg, s0, acts, s, Do(k, GetOp("op"), CALM));
    FoundTracks(s'.svcs[k].pass.work, WithRule(WithOp(o)).ann, "rule");
    acts', s' := TrackingLands(cfg, s0, acts', s', k, WithOp(o), WithRule(WithOp(o)).ann);
  }

  /** The recorded rule is dropped, and a new pass begins. */
  lemma RuleLost(cfg: Config, s0: Sys, acts: seq<Action>, s: Sys, k: Id, o: Object, args: RuleArgs)
    returns (acts': seq<Action>, s': Sys)
    requires s == Run(cfg, s0, acts) && AtWork(s, k, o) && s.cloud.rules == map["rule" := args]
    ensures s' == Run(cfg, s0, acts') && AtWork(s', k, o) && s'.cloud == s.cloud.(rules := map[])
  {
    acts', s' := Reaches(cfg, s0, acts, s, RuleDropped("rule"));
    acts', s' := NextPass(cfg, s0, acts', s', k);
  }

  /** A new rule comes of a create whose answer is lost. */
  lemma RuleRemade(cfg: Config, s0: Sys, acts: seq<Action>, s: Sys, k: Id, o: Object, args: RuleArgs)
    returns (acts': seq<Action>, s': Sys)
    requires s == Run(cfg, s0, acts) && AtWork(s, k, o) && Allowed(cfg, k, s.svcs[k].pass, CreateRule(args))
    requires s.cloud.rules == map[] && "rule2" !in s.cloud.spent && "op2" !in s.cloud.ops
    ensures s' == Run(cfg, s0, acts') && Alive(s', k, o) && s'.cloud.live == s.cloud.live
    ensures s'.cloud.rules == map["rule2" := args]
  {
    acts', s' := RuleSubmitted(cfg, s0, acts, s, k, o, args, "op2", false);
    acts', s' := RuleSettles(cfg, s0, acts', s', k, o, "op2", args, "rule2");
  }

  /** The deletion heads for the recorded id, which is gone, and drops the tracking. */
  lemma RecordedGone(cfg: Config, s0: Sys, acts: seq<Action>, s: Sys, k: Id) returns (acts': seq<Action>, s': Sys)
    requires s == Run(cfg, s0, acts) && k in s.svcs && s.svcs[k].pass.Cleaning? && "rule" !in s.cloud.rules
    requires s.svcs[k].pass.clean.fw == Target("rule", false)
    requires Latest(s.svcs[k].versions) == Some(s.svcs[k].pass.clean.mem.obj)
    ensures s' == Run(cfg, s0, acts') && k in s'.svcs && s'.cloud == s.cloud
    ensures s'.svcs[k] == s.svcs[k].(pass := Cleaning(s.svcs[k].pass.clean.(fw := Removed(false))))
  {
    DoIsStep(cfg, s, k, DeleteRule("rule"), CALM);
    acts', s' := Reaches(cfg, s0, acts, s, Do(k, DeleteRule("rule"), CALM));
  }

  lemma TrackingDropped(cfg: Config, s0: Sys, acts: seq<Action>, s: Sys, k: Id, o: Object)
    returns (acts': seq<Action>, s': Sys)
    requires s == Run(cfg, s0, acts) && k in s.svcs && s.svcs[k].pass.Cleaning? && s.svcs[k].pass.clean.fw == Removed(false)
    requires s.svcs[k].pass.clean.mem.obj == o && Latest(s.svcs[k].versions) == Some(o) && RuleId in o.ann
    ensures s' == Run(cfg, s0, acts') && k in s'.svcs && s'.cloud == s.cloud && s'.svcs[k].pass.Cleaning?
    ensures var v, p := s'.svcs[k].versions, s'.svcs[k].pass.clean;
            && |v| > 0 && Latest(v) == Some(Untracked(o))
            && p == s.svcs[k].pass.clean.(fw := Cleared(false), mem := Copy(|v| - 1, Untracked(o)))
  {
    var diff := Diff(o.ann, Untracked(o).ann);
    PatchExact(o.ann, Untracked(o).ann, o.ann);
    PatchLands(s.cloud, s.svcs[k].versions, s.svcs[k].pass.clean.mem, diff);
    DoIsStep(cfg, s, k, PatchAnn(diff), CALM);
    acts', s' := Reaches(cfg, s0, acts, s, Do(k, PatchAnn(diff), CALM));
  }

  /** A deletion whose recorded rule is gone. */
  lemma ReleasesRecorded(cfg: Config, s0: Sys, acts: seq<Action>, s: Sys, k: Id, o: Object)
    returns (acts': seq<Action>, s': Sys)
    requires s == Run(cfg, s0, acts) && Alive(s, k, o) && "rule" !in s.cloud.rules && "lb" in s.cloud.live
    requires Tracked(cfg, o)
    ensures s' == Run(cfg, s0, acts') && k in s'.svcs && Latest(s'.svcs[k].versions).None?
    ensures s'.cloud.rules == s.cloud.rules
  {
    acts', s' := DeletionBegins(cfg, s0, acts, s, k, o);
    var o' := s'.svcs[k].pass.clean.mem.obj;
    acts', s' := RecordedGone(cfg, s0, acts', s', k);
    acts', s' := TrackingDropped(cfg, s0, acts', s', k, o');
    acts', s' := RestReleased(cfg, s0, acts', s', k);
  }

  /** Rule and operation recorded, the rule lost, and a pass that will make a new one. */
  lemma UpToLoss(cfg: Config, s0: Sys, acts: seq<Action>, s: Sys, k: Id, o: Object, args: RuleArgs)
    returns (acts': seq<Action>, s': Sys)
    requires s == Run(cfg, s0, acts) && AtWork(s, k, o) && "op" in s.svcs[k].pass.work.made
    requires LbId in o.ann && RuleId !in o.ann && OpId !in o.ann
    requires s.cloud.rules == map[] && s.cloud.spent == {} && s.cloud.ops == map["op" := InFlight(args)] && s.cloud.aged == {}
    ensures s' == Run(cfg, s0, acts') && AtWork(s', k, WithRule(WithOp(o))) && s'.cloud.live == s.cloud.live
    ensures s'.cloud.rules == map[] && s'.cloud.spent == {"rule"}
    ensures s'.cloud.ops == map["op" := Succeeded("rule", WithId)]
  {
    acts', s' := OpRecorded(cfg, s0, acts, s, k, o, args);
    acts', s' := ResultRecorded(cfg, s0, acts', s', k, o);
    acts', s' := RuleLost(cfg, s0, acts', s', k, WithRule(WithOp(o)), args);
  }

  lemma RemadeAndReleased(cfg: Config, s0: Sys, acts: seq<Action>, s: Sys, k: Id, o: Object, args: RuleArgs)
    returns (acts': seq<Action>, s': Sys)
    requires s == Run(cfg, s0, acts) && AtWork(s, k, o) && RuleOf(cfg, k, o, args) && "lb" in s.cloud.live
    requires s.cloud.rules == map[] && "rule2" !in s.cloud.spent && "op2" !in s.cloud.ops
    requires Tracked(cfg, o)
    ensures s' == Run(cfg, s0, acts') && k in s'.svcs && Latest(s'.svcs[k].versions).None?
    ensures s'.cloud.rules == map["rule2" := args]
  {
    MayCreateRule(cfg, k, s.svcs[k].pass.work, args);
    acts', s' := RuleRemade(cfg, s0, acts, s, k, o, args);
    acts', s' := ReleasesRecorded(cfg, s0, acts', s', k, o);
  }

  lemma LostAfterAll(cfg: Config, s0: Sys, k: Id, protocol: string, args: RuleArgs) returns (acts: seq<Action>, s: Sys)
    requires Init(cfg, s0) && Manages(cfg, s0, k, protocol) && RuleOf(cfg, k, Published(s0, k, protocol), args)
    ensures s == Run(cfg, s0, acts) && AtWork(s, k, WithRule(WithOp(Published(s0, k, protocol)))) && "lb" in s.cloud.live
    ensures s.cloud.rules == map[] && "rule2" !in s.cloud.spent && "op2" !in s.cloud.ops
  {
    acts, s := FirstCreate(cfg, s0, k, protocol, args, true);
    acts, s := UpToLoss(cfg, s0, acts, s, k, Published(s0, k, protocol), args);
  }

  lemma TrackedFacts(cfg: Config, s0: Sys, k: Id, protocol: string)
    requires k in s0.svcs && Manages(cfg, s0, k, protocol)
    ensures var o := Published(s0, k, protocol); var t := WithRule(WithOp(o));
            Tracked(cfg, t) && t.spec == o.spec && Recorded(t) == Recorded(o)
  {
  }

  lemma OrphanedFrom(cfg: Config, s0: Sys, k: Id, protocol: string, args: RuleArgs, t: Object)
    requires Init(cfg, s0) && Manages(cfg, s0, k, protocol) && RuleOf(cfg, k, Published(s0, k, protocol), args)
    requires t == WithRule(WithOp(Published(s0, k, protocol))) && Tracked(cfg, t) && RuleOf(cfg, k, t, args)
    requires NameOf(cfg, k) == Some(args.name)
    ensures exists acts :: LeavesRule(cfg, Run(cfg, s0, acts), k)
  {
    var acts, s := LostAfterAll(cfg, s0, k, protocol, args);
    Orphaned(cfg, s0, acts, s, k, t, args);
  }

  lemma Orphaned(cfg: Config, s0: Sys, acts: seq<Action>, s: Sys, k: Id, o: Object, args: RuleArgs)
    requires s == Run(cfg, s0, acts) && AtWork(s, k, o) && RuleOf(cfg, k, o, args) && "lb" in s.cloud.live
    requires s.cloud.rules == map[] && "rule2" !in s.cloud.spent && "op2" !in s.cloud.ops
    requires Tracked(cfg, o)
    requires NameOf(cfg, k) == Some(args.name)
    ensures exists acts' :: LeavesRule(cfg, Run(cfg, s0, acts'), k)
  {
    var acts', s' := RemadeAndReleased(cfg, s0, acts, s, k, o, args);
    LeavesIt(cfg, s0, acts', s', k, "rule2");
  }

  /** The tracking does not bear on which rule is wanted. */
  lemma SameWanted(cfg: Config, k: Id, o: Object, o': Object, args: RuleArgs, vpc: Option<string>, nodes: Option<seq<Node>>)
    requires ArgsFor(cfg.project, vpc, NameOf(cfg, k), o.spec.ports, Recorded(o), o.spec.ranges, nodes) == Needs(args)
    requires o'.spec == o.spec && Recorded(o') == Recorded(o)
    ensures RuleOf(cfg, k, o, args) && RuleOf(cfg, k, o', args) && NameOf(cfg, k) == Some(args.name)
  {
    RuleOfLookups(cfg, k, o, args, args, vpc, nodes);
    RuleOfLookups(cfg, k, o', args, args, vpc, nodes);
    RuleName(cfg, k, o, args);
  }

  /** ReleaseLeavesRule's condition is met by a run: the recorded rule is dropped from outside, a new one
      comes of a create whose answer is lost, and the deletion looks for the recorded one only. */
  lemma ReleaseCanOrphanRule(cfg: Config, s0: Sys, k: Id, protocol: string, args: RuleArgs, vpc: Option<string>,
                             nodes: Option<seq<Node>>)
    requires Init(cfg, s0) && Manages(cfg, s0, k, protocol)
    requires var o := Published(s0, k, protocol);
             ArgsFor(cfg.project, vpc, NameOf(cfg, k), o.spec.ports, Recorded(o), o.spec.ranges, nodes) == Needs(args)
    ensures exists acts :: LeavesRule(cfg, Run(cfg, s0, acts), k)
  {
    var o := Published(s0, k, protocol);
    TrackedFacts(cfg, s0, k, protocol);
    SameWanted(cfg, k, o, WithRule(WithOp(o)), args, vpc, nodes);
    OrphanedFrom(cfg, s0, k, protocol, args, WithRule(WithOp(o)));
  }
}
