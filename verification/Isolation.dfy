/** A call among calls on other paths. */
module Isolation {
  import opened NodeServer
  import opened TempFiles
  import opened Mounts
  import Serial

  // ----- a step is local to its call and its path -----

  lemma PublishIsLocal(n: Node, id: CallId, o: Outcome)
    requires id in n.calls && Fits(n.calls[id]) && n.calls[id].req.Publish?
    ensures Local(n, Step(n, id, o), id)
  {
    hide MountOptions, ReplyFor, Depth;
  }

  lemma UnpublishIsLocal(n: Node, id: CallId, o: Outcome)
    requires id in n.calls && Fits(n.calls[id]) && n.calls[id].req.Unpublish?
    ensures Local(n, Step(n, id, o), id)
  {
  }

  lemma StepIsLocal(n: Node, id: CallId, o: Outcome)
    requires id in n.calls && Fits(n.calls[id])
    ensures Local(n, Step(n, id, o), id)
  {
    hide Local, Step;
    if n.calls[id].req.Publish? {
      PublishIsLocal(n, id, o);
    } else {
      UnpublishIsLocal(n, id, o);
    }
  }

  /** What a call on path `p` sees of the node: the mounts and the directory there, and how far it is. */
  datatype View = View(stack: seq<Entry>, dir: bool, call: Call)

  function ViewOf(n: Node, id: CallId): View
    requires id in n.calls
  {
    var p := n.calls[id].req.target;
    View(Stack(n, p), p in n.dirs, n.calls[id])
  }

  /** An event of another call; with one call per path it is on another path. */
  predicate Elsewhere(n: Node, e: Event, id: CallId)
    requires id in n.calls && Enabled(n, e)
  {
    match e
    case Begin(_, req) => req.target != n.calls[id].req.target
    case Do(k, _) => k != id && n.calls[k].req.target != n.calls[id].req.target
    case Return(k) => k != id
  }

  lemma OthersLeaveView(n: Node, e: Event, id: CallId)
    requires id in n.calls && Enabled(n, e) && Elsewhere(n, e, id)
    ensures id in Apply(n, e).calls && ViewOf(Apply(n, e), id) == ViewOf(n, id)
  {
    if e.Do? {
      StepIsLocal(n, e.id, e.outcome);
      hide Step;
    }
  }

  lemma KeepsExclusive(n: Node, e: Event)
    requires Exclusive(n) && Enabled(n, e) && (e.Begin? ==> !Busy(n, e.req.target))
    ensures Exclusive(Apply(n, e))
  {
    if e.Do? {
      StepIsLocal(n, e.id, e.outcome);
      hide Step;
    }
  }

  /** Every event of an exclusive run is call `id`'s own or elsewhere. */
  lemma OwnOrElsewhere(n: Node, e: Event, id: CallId)
    requires Exclusive(n) && id in n.calls && Enabled(n, e) && (e.Begin? ==> !Busy(n, e.req.target))
    requires e != Return(id)
    ensures (e.Do? && e.id == id) || Elsewhere(n, e, id)
  {
  }

  // ----- publish on a mounted path -----

  predicate Settled(stage: Stage) {
    stage == Check || stage == Replied(OK) || stage == Replied(Internal)
  }

  /** The call is a publish on a path that is mounted, and it will not go beyond its check. */
  predicate Idempotent(v: View) {
    v.call.req.Publish? && v.stack != [] && v.dir && Settled(v.call.stage)
  }

  lemma OwnStepSettles(n: Node, id: CallId, o: Outcome)
    requires id in n.calls && Fits(n.calls[id]) && Idempotent(ViewOf(n, id))
    ensures var n' := Step(n, id, o);
            && id in n'.calls && Idempotent(ViewOf(n', id)) && ViewOf(n', id).stack == ViewOf(n, id).stack
            && n'.mounts == n.mounts && n'.dirs == n.dirs && n'.temps == n.temps
            && (n.calls[id].stage == Check ==> n'.calls[id].stage == Replied(if o.Failure? then Internal else OK))
            && (n.calls[id].stage != Check ==> n' == n)
  {
  }

  /** The steps of call `id` among the events. */
  function Own(events: seq<Event>, id: CallId): (own: seq<Event>)
    ensures forall e :: e in own ==> e.Do? && e.id == id
  {
    if events == [] then []
    else (if events[0].Do? && events[0].id == id then [events[0]] else []) + Own(events[1..], id)
  }

  /** No step of call `id` touches the temporary files or any mount. */
  ghost predicate OwnTouchNothing(n: Node, events: seq<Event>, id: CallId)
    requires ValidRun(n, events)
    decreases |events|
  {
    events != [] ==>
      var n1 := Apply(n, events[0]);
      && (events[0].Do? && events[0].id == id ==> n1.temps == n.temps && n1.mounts == n.mounts && n1.dirs == n.dirs)
      && OwnTouchNothing(n1, events[1..], id)
  }

  /** What a publish on a mounted path replies: its first step is the check. */
  function Checked(stage: Stage, own: seq<Event>): Stage
    requires forall e :: e in own ==> e.Do?
  {
    if stage != Check || own == [] then stage
    else
      assert own[0] in own;
      Replied(if own[0].outcome.Failure? then Internal else OK)
  }

  /**
    After any history and among any calls on other paths, a publish that begins on a mounted path leaves
    the mounts there as they are, and touches no mount, directory or temporary file; it replies Internal
    if and only if its check fails, and otherwise OK.
   */
  lemma {:induction false} PublishOnMounted(n: Node, events: seq<Event>, id: CallId)
    requires Exclusive(n) && ValidRun(n, events) && ExclusiveRun(n, events) && Return(id) !in events
    requires id in n.calls && Fits(n.calls[id]) && Idempotent(ViewOf(n, id))
    ensures var n' := RunOf(n, events);
            && id in n'.calls && Idempotent(ViewOf(n', id)) && ViewOf(n', id).stack == ViewOf(n, id).stack
            && n'.calls[id].stage == Checked(n.calls[id].stage, Own(events, id))
    ensures OwnTouchNothing(n, events, id)
    decreases |events|
  {
    if events != [] {
      var e := events[0];
      KeepsExclusive(n, e);
      OwnOrElsewhere(n, e, id);
      hide Step, Idempotent, Exclusive, Busy, Fits;
      var rest := Own(events[1..], id);
      if e.Do? && e.id == id {
        OwnStepSettles(n, id, e.outcome);
        StepIsLocal(n, id, e.outcome);
        assert Own(events, id) == [e] + rest;
      } else {
        OthersLeaveView(n, e, id);
        assert Own(events, id) == rest;
      }
      IdempotentFits(Apply(n, e), id);
      PublishOnMounted(Apply(n, e), events[1..], id);
    }
  }

  lemma IdempotentFits(n: Node, id: CallId)
    requires id in n.calls && Idempotent(ViewOf(n, id))
    ensures Fits(n.calls[id])
  {
  }

  // ----- unpublish -----

  /** A step of an unpublish depends on the view alone. */
  ghost predicate SameViews(n: Node, m: Node, id: CallId) {
    id in n.calls && id in m.calls && ViewOf(n, id) == ViewOf(m, id)
  }

  lemma SameQuestions(n: Node, m: Node, id: CallId, p: Path, o: Outcome)
    requires SameViews(n, m, id) && n.calls[id].req == Unpublish(p)
    ensures SameViews(UnCheckStep(n, id, p, o), UnCheckStep(m, id, p, o), id)
  {
  }

  lemma SameProbe(n: Node, m: Node, id: CallId, p: Path, o: Outcome)
    requires SameViews(n, m, id) && n.calls[id].req == Unpublish(p)
    ensures SameViews(ProbeStep(n, id, p, o), ProbeStep(m, id, p, o), id)
  {
  }

  lemma SameStat(n: Node, m: Node, id: CallId, p: Path, o: Outcome)
    requires SameViews(n, m, id) && n.calls[id].req == Unpublish(p)
    ensures SameViews(StatStep(n, id, p, o), StatStep(m, id, p, o), id)
  {
  }

  lemma SameUnmount(n: Node, m: Node, id: CallId, p: Path, o: Outcome)
    requires SameViews(n, m, id) && n.calls[id].req == Unpublish(p)
    ensures SameViews(UnmountStep(n, id, p, o), UnmountStep(m, id, p, o), id)
  {
  }

  lemma SameRemoval(n: Node, m: Node, id: CallId, p: Path, o: Outcome)
    requires SameViews(n, m, id) && n.calls[id].req == Unpublish(p)
    ensures SameViews(ProbeAgainStep(n, id, p, o), ProbeAgainStep(m, id, p, o), id)
    ensures SameViews(RemoveDirStep(n, id, p, o), RemoveDirStep(m, id, p, o), id)
  {
  }

  lemma SameView(n: Node, m: Node, id: CallId, o: Outcome)
    requires SameViews(n, m, id) && n.calls[id].req.Unpublish? && Fits(n.calls[id])
    ensures SameViews(Step(n, id, o), Step(m, id, o), id)
  {
    var p := n.calls[id].req.target;
    SameQuestions(n, m, id, p, o);
    SameProbe(n, m, id, p, o);
    SameStat(n, m, id, p, o);
    SameUnmount(n, m, id, p, o);
    SameRemoval(n, m, id, p, o);
    assert m.calls[id] == n.calls[id];
    hide SameViews, UnCheckStep, StatStep, ProbeStep, UnmountStep, ProbeAgainStep, RemoveDirStep, CheckStep, MkdirStep,
      FirstTempStep, SecondTempStep, WriteStep, MountStep, RemoveTemp;
  }

  /**
    In every interleaving with calls on other paths, an unpublish does to its path, and replies, what it
    does and replies when only its own steps are taken.
   */
  lemma {:induction false} UnpublishIsIsolated(n: Node, m: Node, events: seq<Event>, id: CallId)
    requires Exclusive(n) && ValidRun(n, events) && ExclusiveRun(n, events) && Return(id) !in events
    requires id in n.calls && n.calls[id].req.Unpublish? && Fits(n.calls[id])
    requires id in m.calls && ViewOf(m, id) == ViewOf(n, id)
    ensures ValidRun(m, Own(events, id))
    ensures id in RunOf(n, events).calls && id in RunOf(m, Own(events, id)).calls
    ensures ViewOf(RunOf(n, events), id) == ViewOf(RunOf(m, Own(events, id)), id)
    decreases |events|
  {
    if events != [] {
      var e := events[0];
      KeepsExclusive(n, e);
      OwnOrElsewhere(n, e, id);
      hide Step, Exclusive, Busy, Fits;
      if e.Do? && e.id == id {
        SameView(n, m, id, e.outcome);
        StepIsLocal(n, id, e.outcome);
        StepFits(n, id, e.outcome);
        UnpublishIsIsolated(Apply(n, e), Apply(m, e), events[1..], id);
        assert Own(events, id) == [e] + Own(events[1..], id);
        OneMore(m, e, Own(events[1..], id));
      } else {
        OthersLeaveView(n, e, id);
        UnpublishIsIsolated(Apply(n, e), m, events[1..], id);
        assert Own(events, id) == Own(events[1..], id);
      }
    }
  }

  lemma StepFits(n: Node, id: CallId, o: Outcome)
    requires id in n.calls && Fits(n.calls[id])
    ensures id in Step(n, id, o).calls && Fits(Step(n, id, o).calls[id])
  {
    hide Step, Fits;
    if n.calls[id].stage.Replied? {
      RepliedStays(n, id, o);
    } else {
      Serial.StepProgresses(n, id, o);
    }
  }

  lemma RepliedStays(n: Node, id: CallId, o: Outcome)
    requires id in n.calls && Fits(n.calls[id]) && n.calls[id].stage.Replied?
    ensures Step(n, id, o) == n
  {
  }

  // ----- publish -----

  /** A name that is in use is as good as none. */
  function Heard(n: Node, id: CallId, o: Outcome): Outcome {
    if id in n.calls && (n.calls[id].stage.FirstTemp? || n.calls[id].stage.SecondTemp?) && o.Named? && o.file in n.temps
    then Failure(OtherError)
    else o
  }

  /** The steps of call `id` among the events, with the answers as the call takes them. */
  function OwnHeard(n: Node, events: seq<Event>, id: CallId): seq<Event>
    requires ValidRun(n, events)
    decreases |events|
  {
    if events == [] then []
    else
      (if events[0].Do? && events[0].id == id then [Do(id, Heard(n, id, events[0].outcome))] else [])
      + OwnHeard(Apply(n, events[0]), events[1..], id)
  }

  /** To call `id`, node `m` looks like `n`; its temporary files are some of those there, and nobody else's. */
  ghost predicate Alike(n: Node, m: Node, id: CallId) {
    && SameViews(n, m, id)
    && Holds(n.calls[id].stage) <= m.temps.Keys <= n.temps.Keys
    && m.temps.Keys !! HeldByOthers(n.calls, id)
  }

  // What a step of each stage does to the files.

  lemma AlikeCheck(n: Node, m: Node, id: CallId, req: Request, o: Outcome)
    requires Alike(n, m, id) && n.calls[id].req == req && req.Publish? && Holds(n.calls[id].stage) == {}
    ensures Alike(CheckStep(n, id, req.target, o), CheckStep(m, id, req.target, o), id)
  {
    OthersHold(n, id, CheckStep(n, id, req.target, o).calls[id]);
    hide HeldByOthers;
  }

  lemma AlikeMkdir(n: Node, m: Node, id: CallId, req: Request, o: Outcome)
    requires Alike(n, m, id) && n.calls[id].req == req && req.Publish? && Holds(n.calls[id].stage) == {}
    ensures Alike(MkdirStep(n, id, req.target, o), MkdirStep(m, id, req.target, o), id)
  {
    OthersHold(n, id, MkdirStep(n, id, req.target, o).calls[id]);
    hide HeldByOthers;
  }

  /** What others hold does not depend on call `id`. */
  lemma OthersHold(n: Node, id: CallId, call: Call)
    ensures HeldByOthers(n.calls[id := call], id) == HeldByOthers(n.calls, id)
  {
    var calls := n.calls[id := call];
    hide Holds;
    assert forall k :: k != id ==> (k in calls <==> k in n.calls) && (k in calls ==> calls[k] == n.calls[k]);
    forall f ensures f in HeldByOthers(calls, id) <==> f in HeldByOthers(n.calls, id) {
      if f in HeldByOthers(n.calls, id) {
        var k :| k in n.calls && k != id && f in Holds(n.calls[k].stage);
        assert k in calls && f in Holds(calls[k].stage);
      }
    }
  }

  lemma AlikeFirst(n: Node, m: Node, id: CallId, o: Outcome)
    requires Alike(n, m, id) && TempInv(n) && n.calls[id].stage == FirstTemp
    ensures Alike(FirstTempStep(n, id, o), FirstTempStep(m, id, Heard(n, id, o)), id)
  {
    if o.Named? && o.file !in n.temps {
      NotHeldByOthers(n, id, {o.file});
    }
    OthersHold(n, id, FirstTempStep(n, id, o).calls[id]);
    hide HeldByOthers, TempInv;
  }

  lemma AlikeSecond(n: Node, m: Node, id: CallId, conf: File, o: Outcome)
    requires Alike(n, m, id) && TempInv(n) && n.calls[id].stage == SecondTemp(conf)
    ensures Alike(SecondTempStep(n, id, conf, o), SecondTempStep(m, id, conf, Heard(n, id, o)), id)
  {
    if o.Named? && o.file !in n.temps {
      NotHeldByOthers(n, id, {o.file});
    }
    OthersHold(n, id, SecondTempStep(n, id, conf, o).calls[id]);
    hide HeldByOthers, TempInv;
  }

  lemma AlikeWrite(n: Node, m: Node, id: CallId, conf: File, cred: File, o: Outcome)
    requires Alike(n, m, id) && n.calls[id].stage == Write(conf, cred)
    ensures Alike(WriteStep(n, id, conf, cred, o), WriteStep(m, id, conf, cred, o), id)
  {
    OthersHold(n, id, WriteStep(n, id, conf, cred, o).calls[id]);
    hide HeldByOthers;
  }

  lemma AlikeMount(n: Node, m: Node, id: CallId, req: Request, conf: File, cred: File, o: Outcome)
    requires Alike(n, m, id) && n.calls[id].req == req && req.Publish? && n.calls[id].stage == Mounting(conf, cred)
    ensures Alike(MountStep(n, id, req, conf, cred, o), MountStep(m, id, req, conf, cred, o), id)
  {
    OthersHold(n, id, MountStep(n, id, req, conf, cred, o).calls[id]);
    hide HeldByOthers, MountOptions;
  }

  lemma AlikeRemove(n: Node, m: Node, id: CallId, f: File, o: Outcome, stage: Stage)
    requires Alike(n, m, id) && Holds(stage) <= Holds(n.calls[id].stage) - {f}
    ensures Alike(At(RemoveTemp(n, f, o), id, stage), At(RemoveTemp(m, f, o), id, stage), id)
  {
    OthersHold(n, id, n.calls[id].(stage := stage));
    hide HeldByOthers, Holds;
  }

  lemma AlikeStep(n: Node, m: Node, id: CallId, o: Outcome)
    requires Alike(n, m, id) && TempInv(n) && n.calls[id].req.Publish? && GoodCall(n.temps, n.calls[id])
    ensures Fits(m.calls[id]) && Alike(Step(n, id, o), Step(m, id, Heard(n, id, o)), id)
  {
    var req := n.calls[id].req;
    assert m.calls[id] == n.calls[id];
    hide SameViews, HeldByOthers, TempInv, SelfReferring, ReplyFor, ViewOf;
    hide CheckStep, MkdirStep, FirstTempStep, SecondTempStep, WriteStep, MountStep, RemoveTemp;
    match n.calls[id].stage
    case Check => AlikeCheck(n, m, id, req, o);
    case Mkdir => AlikeMkdir(n, m, id, req, o);
    case FirstTemp => AlikeFirst(n, m, id, o);
    case SecondTemp(conf) => AlikeSecond(n, m, id, conf, o);
    case Write(conf, cred) => AlikeWrite(n, m, id, conf, cred, o);
    case Mounting(conf, cred) => AlikeMount(n, m, id, req, conf, cred, o);
    case RemoveConf(conf, cred, error) => AlikeRemove(n, m, id, conf, o, RemoveCred(cred, error));
    case RemoveCred(cred, error) => AlikeRemove(n, m, id, cred, o, Replied(ReplyFor(error)));
    case Replied(_) =>
  }

  /** A step of another call removes no files but its own, and takes none that were there. */
  lemma OtherFiles(n: Node, k: CallId, o: Outcome)
    requires k in n.calls && Fits(n.calls[k])
    ensures var n' := Step(n, k, o);
            && n.temps.Keys - Holds(n.calls[k].stage) <= n'.temps.Keys
            && k in n'.calls && n'.calls == n.calls[k := n'.calls[k]]
            && Holds(n'.calls[k].stage) - Holds(n.calls[k].stage) !! n.temps.Keys
  {
    hide Stack, MountOptions, ReplyFor, Depth;
    StepIsLocal(n, k, o);
    if n.calls[k].req.Unpublish? {
      UnpublishFiles(n, k, o);
      hide Step;
    }
  }

  lemma UnpublishFiles(n: Node, k: CallId, o: Outcome)
    requires k in n.calls && Fits(n.calls[k]) && n.calls[k].req.Unpublish?
    ensures var n' := Step(n, k, o);
            n'.temps == n.temps && k in n'.calls && Holds(n'.calls[k].stage) == {}
  {
    hide Stack, Depth;
  }

  lemma OthersAlike(n: Node, m: Node, e: Event, id: CallId)
    requires Alike(n, m, id) && Enabled(n, e) && Elsewhere(n, e, id)
    ensures Alike(Apply(n, e), m, id)
  {
    OthersLeaveView(n, e, id);
    if e.Do? {
      OtherFiles(n, e.id, e.outcome);
      assert Holds(n.calls[e.id].stage) <= HeldByOthers(n.calls, id);
    }
    hide Step, ViewOf, Holds;
  }

  /**
    In every interleaving with calls on other paths, a publish does to its path, and replies, what it does
    and replies when only its own steps are taken, with the same answers but for names already in use.
   */
  lemma {:induction false} PublishIsIsolated(n: Node, m: Node, events: seq<Event>, id: CallId)
    requires Exclusive(n) && TempInv(n) && ValidRun(n, events) && ExclusiveRun(n, events) && Return(id) !in events
    requires id in n.calls && n.calls[id].req.Publish? && Alike(n, m, id)
    ensures ValidRun(m, OwnHeard(n, events, id))
    ensures id in RunOf(n, events).calls && id in RunOf(m, OwnHeard(n, events, id)).calls
    ensures ViewOf(RunOf(n, events), id) == ViewOf(RunOf(m, OwnHeard(n, events, id)), id)
    decreases |events|
  {
    AlikeViews(n, m, id);
    if events != [] {
      var e, n1 := events[0], Apply(n, events[0]);
      KeepsExclusive(n, e);
      ApplyKeepsTemps(n, e);
      OwnOrElsewhere(n, e, id);
      hide Step, Exclusive, Busy, Fits, TempInv, Alike, Heard;
      if e.Do? && e.id == id {
        GoodOf(n, id);
        AlikeStep(n, m, id, e.outcome);
        StepIsLocal(n, id, e.outcome);
        var d := Do(id, Heard(n, id, e.outcome));
        PublishIsIsolated(n1, Apply(m, d), events[1..], id);
        assert OwnHeard(n, events, id) == [d] + OwnHeard(n1, events[1..], id);
        OneMore(m, d, OwnHeard(n1, events[1..], id));
      } else {
        OthersAlike(n, m, e, id);
        OthersLeaveView(n, e, id);
        PublishIsIsolated(n1, m, events[1..], id);
        assert OwnHeard(n, events, id) == OwnHeard(n1, events[1..], id);
      }
    }
  }

  lemma GoodOf(n: Node, id: CallId)
    requires TempInv(n) && id in n.calls
    ensures GoodCall(n.temps, n.calls[id])
  {
  }

  lemma AlikeViews(n: Node, m: Node, id: CallId)
    requires Alike(n, m, id)
    ensures SameViews(n, m, id)
  {
  }
}
