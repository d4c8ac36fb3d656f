/** What the transcripts of whole passes show, whatever the answers in them. */
module PassTheorems {
  import opened Wrappers
  import opened Ports
  import opened Model
  import opened FirewallPass
  import opened PassSpec

  predicate NoCreate(t: Transcript) { forall x | x in t :: !x.0.CreateLb? }

  lemma NoCreateParts(t: Transcript, n: nat)
    requires n <= |t| && NoCreate(t[..n]) && NoCreate(t[n..])
    ensures NoCreate(t)
  {
    assert t == t[..n] + t[n..];
  }

  /* ---- Only the create branch creates ---- */

  lemma {:induction false} StepCreatesNone(ann: Annotations, args: RuleArgs, t: Transcript)
    requires After(ann, args, t).Some?
    ensures NoCreate(t)
    decreases |t|
  {
    if |t| > 0 {
      StepCreatesNone(ann, args, t[..|t| - 1]);
      assert t == t[..|t| - 1] + [t[|t| - 1]];
    }
  }

  lemma RuleCreatesNone(cfg: Config, k: Id, o: Object, t: Transcript, wait: int, err: bool)
    requires EnsuresRule(cfg, k, o, t, wait, err)
    ensures NoCreate(t)
  {
    if Managed(o) {
      var n: nat, r :| EnsuresRuleAfter(cfg, k, o, t, n, r, wait, err);
      if r.Needs? {
        StepCreatesNone(o.ann, r.args, t[n..]);
      } else {
        assert t[n..] == [];
      }
      NoCreateParts(t, n);
    }
  }

  lemma RecordsCreateNone(cfg: Config, k: Id, ann: Annotations, id: Id, vip: string, protocol: string,
                          t: Transcript, requeueAfter: int, err: bool)
    requires Records(cfg, k, ann, id, vip, protocol, t, requeueAfter, err)
    ensures NoCreate(t)
  {
    if |t| >= 2 && t[1].1.Stored? {
      var o := t[1].1.copy.obj;
      if EnsuresRule(cfg, k, o, t[2..], requeueAfter, false) {
        RuleCreatesNone(cfg, k, o, t[2..], requeueAfter, false);
      } else {
        var wait :| EnsuresRule(cfg, k, o, t[2..], wait, true);
        RuleCreatesNone(cfg, k, o, t[2..], wait, true);
      }
      NoCreateParts(t, 2);
    }
  }

  lemma UpdateCreatesNone(cfg: Config, k: Id, o: Object, t: Transcript, requeueAfter: int, err: bool)
    requires HandlesUpdate(cfg, k, o, t, requeueAfter, err)
    ensures NoCreate(t)
  {
    var n: nat, ingressRequeue: int :|
      && n <= |t| && RestoresIngress(o, t[..n], ingressRequeue)
      && UpdatesRest(cfg, k, Reported(o, t[..n]), t[n..], ingressRequeue, requeueAfter, err);
    RestCreatesNone(cfg, k, Reported(o, t[..n]), t[n..], ingressRequeue, requeueAfter, err);
    NoCreateParts(t, n);
  }

  lemma RestCreatesNone(cfg: Config, k: Id, o: Object, t: Transcript, ingressRequeue: int, requeueAfter: int, err: bool)
    requires UpdatesRest(cfg, k, o, t, ingressRequeue, requeueAfter, err)
    ensures NoCreate(t)
  {
    var n: nat :| n <= |t| && UpdatesRestAfter(cfg, k, o, t, n, ingressRequeue, requeueAfter, err);
    if UpdatesRule(cfg, k, o, t[n..], ingressRequeue, requeueAfter, err) {
      var wait :| EnsuresRule(cfg, k, o, t[n..], wait, err);
      RuleCreatesNone(cfg, k, o, t[n..], wait, err);
    } else {
      assert t[n..] == [];
    }
    NoCreateParts(t, n);
  }

  /* ---- One create, on good grounds ---- */

  /** The create at i is the only one of the pass. Right before it the cloud listed no load balancer of
      the name, and before that the direct read did not forbid it. When it is answered with an operation
      the pass waits for that one next. */
  ghost predicate CreatesOnGrounds(name: Option<string>, t: Transcript, i: nat) {
    && 4 <= i < |t| && name.Some?
    && NoCreate(t[..i]) && NoCreate(t[i + 1..])
    && t[i - 4].0.FreshGet? && StalenessOf(t[i - 4].1) == UpToDate
    && t[i - 1].0.LookupLb? && t[i - 1].1.Lbs? && (forall v | v in t[i - 1].1.items :: v.name != name.value)
    && (t[i].1.LbOp? ==> i + 1 < |t| && t[i + 1].0 == AwaitLb(t[i].1.op.id))
  }

  /** The tail after the lookup holds no create but its first call. */
  lemma CreateIsFirst(cfg: Config, k: Id, ann: Annotations, protocol: string, listeners: seq<Listener>,
                      t: Transcript, requeueAfter: int, err: bool)
    requires CreatesAndRecords(cfg, k, ann, protocol, listeners, t, requeueAfter, err)
    ensures NoCreate(t[1..])
  {
    if t[0].1.LbOp? {
      var created := CreatedBy(t[0].1.op, t[1].1.script);
      if created.Some? {
        RecordsCreateNone(cfg, k, ann, created.value.0, created.value.1, protocol, t[2..], requeueAfter, err);
      }
      assert t[1..] == [t[1]] + t[2..];
    }
  }

  /** Of a pass that came past the direct read: it creates nothing, or at its fourth call from there. */
  lemma LookupBeforeCreate(cfg: Config, k: Id, ann: Annotations, name: string, protocol: string,
                           listeners: seq<Listener>, t: Transcript, requeueAfter: int, err: bool)
    requires AdoptsOrCreates(cfg, k, ann, name, protocol, listeners, t, requeueAfter, err)
    ensures NoCreate(t) ||
            (&& |t| >= 2 && t[0].0.LookupLb? && t[0].1.Lbs? && (forall v | v in t[0].1.items :: v.name != name)
             && NoCreate(t[2..]) && (t[1].1.LbOp? ==> |t| > 2 && t[2].0 == AwaitLb(t[1].1.op.id)))
  {
    if t[0].1.Lbs? {
      var matches := ExactMatches(t[0].1.items, name);
      if |matches| > 0 {
        RecordsCreateNone(cfg, k, ann, matches[0].id, matches[0].vip, ActualProtocol(matches[0].protocol, protocol), t[1..],
                          requeueAfter, err);
        assert t == [t[0]] + t[1..];
      } else {
        CreateIsFirst(cfg, k, ann, protocol, listeners, t[1..], requeueAfter, err);
        forall v | v in t[0].1.items ensures v.name != name { assert v !in matches; }
        assert t[1..][1..] == t[2..];
      }
    }
  }

  lemma CreateAtFifth(cfg: Config, k: Id, o: Object, t: Transcript, requeueAfter: int, err: bool)
    requires HandlesCreate(cfg, k, o, t, requeueAfter, err)
    ensures NoCreate(t) || CreatesOnGrounds(NameOf(cfg, k), t, 4)
  {
    if Derive(o.spec.ports).Serves? && StalenessOf(t[0].1) == UpToDate {
      var protocol := Derive(o.spec.ports).lbProtocol;
      assert Prepares(cfg, k, o, protocol, t[1..], requeueAfter, err);
      if t[2].1.Vpc? && NameOf(cfg, k).Some? {
        var listeners := Payload(PortsFor(o.spec.ports, protocol), t[1].1.nodes);
        assert t[1..][2..] == t[3..];
        LookupBeforeCreate(cfg, k, o.ann, NameOf(cfg, k).value, protocol, listeners, t[3..], requeueAfter, err);
        FirstThree(t);
      }
    }
  }

  lemma FirstThree(t: Transcript)
    requires |t| >= 3 && !t[0].0.CreateLb? && !t[1].0.CreateLb? && !t[2].0.CreateLb?
    ensures NoCreate(t[..3]) && t == t[..3] + t[3..] && (|t| >= 5 ==> t[3..][2..] == t[5..] && t[..4] == t[..3] + [t[3]])
  {
  }

  lemma Shifted(name: Option<string>, x: (Call, Reply), t: Transcript, i: nat)
    requires !x.0.CreateLb? && CreatesOnGrounds(name, t, i)
    ensures CreatesOnGrounds(name, [x] + t, i + 1)
  {
    assert ([x] + t)[..i + 1] == [x] + t[..i];
    assert ([x] + t)[i + 2..] == t[i + 1..];
  }

  lemma OperateCreates(cfg: Config, k: Id, o: Object, t: Transcript, requeueAfter: int, err: bool)
    requires Operates(cfg, k, o, t, requeueAfter, err)
    ensures NoCreate(t) || CreatesOnGrounds(NameOf(cfg, k), t, 4)
  {
    if LbId in o.ann {
      UpdateCreatesNone(cfg, k, o, t, requeueAfter, err);
    } else {
      CreateAtFifth(cfg, k, o, t, requeueAfter, err);
    }
  }

  /** A pass creates at most one load balancer, whatever is answered, and only after its own direct read
      and its own complete lookup by name allowed it. */
  lemma OneCreateOnGrounds(cfg: Config, k: Id, o: Object, t: Transcript, requeueAfter: int, err: bool, i: nat)
    requires Reconciles(cfg, k, o, t, requeueAfter, err) && i < |t| && t[i].0.CreateLb?
    ensures CreatesOnGrounds(NameOf(cfg, k), t, i)
  {
    if o.finalizer {
      OperateCreates(cfg, k, o, t, requeueAfter, err);
      OnlyThere(NameOf(cfg, k), t, 4, i);
    } else {
      assert t == [t[0]] + t[1..];
      OperateCreates(cfg, k, t[0].1.copy.obj, t[1..], requeueAfter, err);
      OnlyThere(NameOf(cfg, k), t[1..], 4, i - 1);
      Shifted(NameOf(cfg, k), t[0], t[1..], 4);
    }
  }

  lemma OnlyThere(name: Option<string>, t: Transcript, n: nat, i: nat)
    requires NoCreate(t) || CreatesOnGrounds(name, t, n)
    requires i < |t| && t[i].0.CreateLb?
    ensures i == n && CreatesOnGrounds(name, t, n)
  {
    assert t[i] in t;
    if n < |t| { NoCreateAt(t, n, i); }
  }

  lemma NoCreateAt(t: Transcript, n: nat, i: nat)
    requires n < |t| && i < |t|
    ensures NoCreate(t[..n]) && i < n ==> !t[i].0.CreateLb?
    ensures NoCreate(t[n + 1..]) && i > n ==> !t[i].0.CreateLb?
  {
    if i < n { assert t[..n][i] == t[i]; }
    if i > n { assert t[n + 1..][i - n - 1] == t[i]; }
  }
}
