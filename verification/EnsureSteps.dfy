/** The firewall pass on one store is what the whole system makes of it, call by call. */
module EnsureSteps {
  import opened Wrappers
  import opened Ports
  import opened RuleCompare
  import opened Model
  import opened Protocol
  import opened Invariant
  import opened InvariantProof
  import opened Tracking
  import opened FirewallPass
  import opened Apis
  import opened Permits

  /** The store and the pass over k as the firewall step at p has them. */
  function SiteOf(s: Sys, k: Id, p: Ensuring): Site
    requires k in s.svcs && s.svcs[k].pass.Working?
  {
    Site(s.cloud, s.svcs[k].versions, s.svcs[k].pass.work.mem, p)
  }

  /** Its call is a step the whole system takes. */
  lemma EnsureCallIsStep(cfg: Config, k: Id, s: Sys, args: RuleArgs, p: Ensuring, call: Call, f: Fate)
    requires k in s.svcs && s.svcs[k].pass.Working? && Allowed(cfg, k, s.svcs[k].pass, call)
    requires NameOf(cfg, k) == Some(args.name) && EnsureNext(s.svcs[k].pass.work.mem.obj.ann, args, p) == Some(call)
    ensures var v, r := s.svcs[k], DoCall(cfg, s, k, call, f);
            && EnsureCall(cfg, args, s.now, SiteOf(s, k, p), f) ==
               Site(r.cloud, r.versions, v.pass.work.mem, EnsureLearn(v.pass.work.mem.obj.ann, args, p, r.reply))
            && Step(cfg, s, Do(k, call, f)) ==
               s.(cloud := r.cloud, svcs := s.svcs[k := v.(versions := r.versions, pass := Learn(cfg, k, v.pass, call, r.reply))])
  {
  }

  /** k's pass is at p of the firewall step for args, in a state of a run. */
  ghost predicate InEnsure(cfg: Config, k: Id, args: RuleArgs, s: Sys, p: Ensuring) {
    && ValidConfig(cfg) && Inv(cfg, s) && Tracks(cfg, s) && k in s.svcs && s.svcs[k].pass.Working?
    && var w := s.svcs[k].pass.work;
       && EnsureStage(w, p) && WantsRule(cfg, k, w.mem.obj, args) && RuleOf(cfg, k, w.mem.obj, Sorted(args))
       && NameOf(cfg, k) == Some(args.name)
  }

  lemma EnsureOn(cfg: Config, k: Id, args: RuleArgs, s: Sys, p: Ensuring, call: Call, f: Fate)
    requires InEnsure(cfg, k, args, s, p) && EnsureNext(s.svcs[k].pass.work.mem.obj.ann, args, p) == Some(call)
    ensures Allowed(cfg, k, s.svcs[k].pass, call)
    ensures var t, q := Step(cfg, s, Do(k, call, f)), EnsureCall(cfg, args, s.now, SiteOf(s, k, p), f);
            && k in t.svcs && t.svcs[k].pass.Working? && t.now == s.now
            && q.cloud == t.cloud && q.versions == t.svcs[k].versions
            && (!q.at.Ended? ==> InEnsure(cfg, k, args, t, q.at) && q == SiteOf(t, k, q.at))
  {
    var w, r := s.svcs[k].pass.work, DoCall(cfg, s, k, call, f);
    MayEnsure(cfg, k, w, args, p, call);
    EnsureCallIsStep(cfg, k, s, args, p, call, f);
    ReplyShape(cfg, s, k, call, f);
    EnsureGoesOn(cfg, k, w, args, p, call, r.reply);
    LearnIsWorking(cfg, k, w, args.name, call, r.reply);
    StepInv(cfg, s, Do(k, call, f));
    StepTracks(cfg, s, Do(k, call, f));
  }

  /** The actions of a pass that meets those fates. */
  ghost function EnsureActs(cfg: Config, k: Id, args: RuleArgs, now: Time, s: Site, fates: seq<Fate>): seq<Action>
    decreases |fates|
  {
    if |fates| == 0 || EnsureNext(s.mem.obj.ann, args, s.at).None? then []
    else [Do(k, EnsureNext(s.mem.obj.ann, args, s.at).value, fates[0])] +
         EnsureActs(cfg, k, args, now, EnsureCall(cfg, args, now, s, fates[0]), fates[1..])
  }

  lemma StepFirst(cfg: Config, s: Sys, a: Action, rest: seq<Action>)
    ensures Run(cfg, s, [a] + rest) == Run(cfg, Step(cfg, s, a), rest)
  {
    RunConcat(cfg, s, [a], rest);
    assert [a][..0] == [];
    assert Run(cfg, s, [a]) == Step(cfg, Run(cfg, s, []), a);
  }

  lemma {:induction false} EndedActs(cfg: Config, k: Id, args: RuleArgs, now: Time, s: Site, fates: seq<Fate>)
    requires s.at.Ended?
    ensures EnsureActs(cfg, k, args, now, s, fates) == [] && EnsureRun(cfg, args, now, s, fates) == s
    decreases |fates|
  {
    if |fates| > 0 { EndedActs(cfg, k, args, now, s, fates[1..]); }
  }

  /** A whole firewall pass, whatever the fates of its calls, is a run of the system that ends with
      the same cloud and the same stored Service. */
  lemma {:induction false} EnsureRunIsRun(cfg: Config, k: Id, args: RuleArgs, s: Sys, p: Ensuring, fates: seq<Fate>)
    requires InEnsure(cfg, k, args, s, p)
    ensures var site := SiteOf(s, k, p);
            var t, u := EnsureRun(cfg, args, s.now, site, fates), Run(cfg, s, EnsureActs(cfg, k, args, s.now, site, fates));
            u.cloud == t.cloud && k in u.svcs && u.svcs[k].versions == t.versions
    decreases |fates|
  {
    var site := SiteOf(s, k, p);
    if p.Ended? {
      EndedActs(cfg, k, args, s.now, site, fates);
    } else if |fates| > 0 {
      var call := EnsureNext(site.mem.obj.ann, args, p).value;
      var next, q := Step(cfg, s, Do(k, call, fates[0])), EnsureCall(cfg, args, s.now, site, fates[0]);
      EnsureOn(cfg, k, args, s, p, call, fates[0]);
      StepFirst(cfg, s, Do(k, call, fates[0]), EnsureActs(cfg, k, args, s.now, q, fates[1..]));
      if q.at.Ended? {
        EndedActs(cfg, k, args, s.now, q, fates[1..]);
      } else {
        EnsureRunIsRun(cfg, k, args, next, q.at, fates[1..]);
      }
    }
  }
}
