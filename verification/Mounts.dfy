/** How deep each path is mounted, and what a reply says about it. */
module Mounts {
  import opened Options
  import opened NodeServer

  // ----- conservation, whatever the interleaving -----

  /** The mount command of call `e.id` on `p` has just succeeded. */
  predicate Mounted(n: Node, e: Event, p: Path)
    requires Enabled(n, e)
  {
    && e.Do? && n.calls[e.id].stage.Mounting? && n.calls[e.id].req.target == p
    && Apply(n, e).calls[e.id].stage.RemoveConf? && Apply(n, e).calls[e.id].stage.error == None
  }

  /** The unmount command of call `e.id` on `p` has just succeeded. */
  predicate Unmounted(n: Node, e: Event, p: Path)
    requires Enabled(n, e)
  {
    && e.Do? && n.calls[e.id].stage.Unmounting? && n.calls[e.id].req.target == p
    && Apply(n, e).calls[e.id].stage.ProbeAgain?
  }

  function MountsOf(n: Node, events: seq<Event>, p: Path): nat
    requires ValidRun(n, events)
    decreases |events|
  {
    if events == [] then 0
    else (if Mounted(n, events[0], p) then 1 else 0) + MountsOf(Apply(n, events[0]), events[1..], p)
  }

  function UnmountsOf(n: Node, events: seq<Event>, p: Path): nat
    requires ValidRun(n, events)
    decreases |events|
  {
    if events == [] then 0
    else (if Unmounted(n, events[0], p) then 1 else 0) + UnmountsOf(Apply(n, events[0]), events[1..], p)
  }

  /** What a step of a call does to the mounts: one path, at most one layer. */
  lemma StepDepth(n: Node, e: Event, p: Path)
    requires Enabled(n, e)
    ensures Depth(Apply(n, e), p)
         == Depth(n, p) + (if Mounted(n, e, p) then 1 else 0) - (if Unmounted(n, e, p) then 1 else 0)
  {
    if e.Do? {
      hide MountOptions, ReplyFor;
      match n.calls[e.id].stage
      case Mounting(_, _) =>
      case Unmounting =>
      case _ => hide MountStep, UnmountStep; assert Apply(n, e).mounts == n.mounts;
    }
  }

  /** In every run, depth grows by the successful mounts less the successful unmounts. */
  lemma {:induction false} DepthIsConserved(n: Node, events: seq<Event>, p: Path)
    requires ValidRun(n, events)
    ensures Depth(RunOf(n, events), p) + UnmountsOf(n, events, p) == Depth(n, p) + MountsOf(n, events, p)
    decreases |events|
  {
    hide Apply, Enabled, Depth, Mounted, Unmounted;
    if events != [] {
      StepDepth(n, events[0], p);
      DepthIsConserved(Apply(n, events[0]), events[1..], p);
    }
  }

  ghost predicate MountPointsExist(n: Node) {
    forall p :: Depth(n, p) > 0 ==> p in n.dirs
  }

  lemma ApplyKeepsMountPoints(n: Node, e: Event, p: Path)
    requires Enabled(n, e) && MountPointsExist(n)
    ensures Depth(Apply(n, e), p) > 0 ==> p in Apply(n, e).dirs
  {
    hide MountOptions, ReplyFor, FlagOptions, RemoveTemp;
    assert Depth(n, p) > 0 ==> p in n.dirs;
    if e.Do? {
      match n.calls[e.id].stage
      case Mounting(_, _) =>
      case Unmounting =>
      case RemoveDir =>
      case Mkdir =>
      case _ =>
        hide MountStep, UnmountStep, RemoveDirStep, MkdirStep;
        SameMounts(n, e);
    }
  }

  lemma SameMounts(n: Node, e: Event)
    requires Enabled(n, e) && e.Do?
    requires var stage := n.calls[e.id].stage;
             !stage.Mounting? && !stage.Unmounting? && !stage.RemoveDir? && !stage.Mkdir?
    ensures Apply(n, e).mounts == n.mounts && Apply(n, e).dirs == n.dirs
  {
    hide MountOptions, ReplyFor, MountStep, UnmountStep, RemoveDirStep, MkdirStep;
  }

  /** In every interleaving, whatever is mounted is mounted on a directory that exists. */
  lemma {:induction false} MountPointsAreDirectories(n: Node, events: seq<Event>)
    requires MountPointsExist(n) && ValidRun(n, events)
    ensures MountPointsExist(RunOf(n, events))
    decreases |events|
  {
    hide Apply, Enabled;
    if events != [] {
      forall p ensures Depth(Apply(n, events[0]), p) > 0 ==> p in Apply(n, events[0]).dirs {
        ApplyKeepsMountPoints(n, events[0], p);
      }
      MountPointsAreDirectories(Apply(n, events[0]), events[1..]);
    }
  }

  // ----- one call per path at a time -----

  ghost predicate Exclusive(n: Node) {
    forall i, j :: i in n.calls && j in n.calls && i != j ==> n.calls[i].req.target != n.calls[j].req.target
  }

  predicate Busy(n: Node, p: Path) {
    exists id :: id in n.calls && n.calls[id].req.target == p
  }

  /** A run in which no call begins on a path that has one in flight. */
  predicate ExclusiveRun(n: Node, events: seq<Event>)
    requires ValidRun(n, events)
    decreases |events|
  {
    events == []
    || ((events[0].Begin? ==> !Busy(n, events[0].req.target)) && ExclusiveRun(Apply(n, events[0]), events[1..]))
  }

  /** What the stage of a call says about its path: its mount depth and whether it is a directory. */
  predicate Knows(call: Call, depth: nat, dir: bool) {
    match call.stage
    case Check => true
    case Mkdir => !dir
    case FirstTemp => dir && depth == 0
    case SecondTemp(_) => dir && depth == 0
    case Write(_, _) => dir && depth == 0
    case Mounting(_, _) => dir && depth == 0
    case RemoveConf(_, _, error) => depth == if error == None then 1 else 0
    case RemoveCred(_, error) => depth == if error == None then 1 else 0
    case UnCheck => true
    case Stat => depth == 1
    case Probe => depth == 1
    case Unmounting => depth == 1
    case ProbeAgain => depth == 0
    case RemoveDir => depth == 0
    case Replied(OK) => if call.req.Publish? then depth == 1 else (depth == 0 <==> !call.skipped)
    case Replied(NotFound) => call.req.Unpublish? && depth == 0
    case Replied(_) => true
  }

  ghost predicate PathOk(n: Node, p: Path) {
    Depth(n, p) <= 1 && (Depth(n, p) > 0 ==> p in n.dirs)
  }

  predicate CallOk(n: Node, call: Call) {
    && Fits(call) && (call.skipped ==> call.req.Unpublish? && call.stage == Replied(OK))
    && Knows(call, Depth(n, call.req.target), call.req.target in n.dirs)
  }

  ghost predicate Safe(n: Node) {
    && Exclusive(n)
    && (forall p :: PathOk(n, p))
    && (forall id :: id in n.calls ==> CallOk(n, n.calls[id]))
  }

  /** A step touches only its own call and its own path. */
  ghost predicate Local(n: Node, n': Node, id: CallId) {
    && id in n.calls && id in n'.calls && n'.calls == n.calls[id := n'.calls[id]]
    && n'.calls[id].req == n.calls[id].req
    && (forall q :: q != n.calls[id].req.target ==>
          Stack(n', q) == Stack(n, q) && (q in n'.dirs <==> q in n.dirs))
  }

  ghost predicate Advances(n: Node, n': Node, id: CallId) {
    Local(n, n', id) && CallOk(n', n'.calls[id]) && PathOk(n', n.calls[id].req.target)
  }

  lemma AdvanceKeeps(n: Node, n': Node, id: CallId)
    requires Safe(n) && Advances(n, n', id)
    ensures Safe(n')
  {
    var p := n.calls[id].req.target;
    forall q ensures PathOk(n', q) {
      assert PathOk(n, q);
    }
    forall k | k in n'.calls ensures CallOk(n', n'.calls[k]) {
      if k != id {
        assert CallOk(n, n.calls[k]) && n.calls[k].req.target != p;
      }
    }
    assert forall k :: k in n.calls ==> n'.calls[k].req == n.calls[k].req;
  }

  lemma PublishChecks(n: Node, id: CallId, p: Path, o: Outcome)
    requires id in n.calls && n.calls[id].req.Publish? && n.calls[id].req.target == p
    requires PathOk(n, p) && !n.calls[id].skipped
    ensures Advances(n, CheckStep(n, id, p, o), id)
    ensures p !in n.dirs ==> Advances(n, MkdirStep(n, id, p, o), id)
  {
  }

  lemma PublishTemps(n: Node, id: CallId, o: Outcome)
    requires id in n.calls && n.calls[id].req.Publish? && CallOk(n, n.calls[id]) && PathOk(n, n.calls[id].req.target)
    requires n.calls[id].stage.FirstTemp? || n.calls[id].stage.SecondTemp? || n.calls[id].stage.Write?
    ensures Advances(n, Step(n, id, o), id)
  {
  }

  lemma PublishMounts(n: Node, id: CallId, o: Outcome)
    requires id in n.calls && n.calls[id].req.Publish? && CallOk(n, n.calls[id]) && PathOk(n, n.calls[id].req.target)
    requires n.calls[id].stage.Mounting?
    ensures Advances(n, Step(n, id, o), id)
  {
    hide MountOptions;
  }

  lemma PublishRemoves(n: Node, id: CallId, o: Outcome)
    requires id in n.calls && n.calls[id].req.Publish? && CallOk(n, n.calls[id]) && PathOk(n, n.calls[id].req.target)
    requires n.calls[id].stage.RemoveConf? || n.calls[id].stage.RemoveCred?
    ensures Advances(n, Step(n, id, o), id)
  {
  }

  lemma UnpublishChecks(n: Node, id: CallId, o: Outcome)
    requires id in n.calls && n.calls[id].req.Unpublish? && CallOk(n, n.calls[id]) && PathOk(n, n.calls[id].req.target)
    requires n.calls[id].stage.UnCheck? || n.calls[id].stage.Stat? || n.calls[id].stage.Probe?
    ensures Advances(n, Step(n, id, o), id)
  {
  }

  lemma UnpublishUnmounts(n: Node, id: CallId, o: Outcome)
    requires id in n.calls && n.calls[id].req.Unpublish? && CallOk(n, n.calls[id]) && PathOk(n, n.calls[id].req.target)
    requires n.calls[id].stage.Unmounting? || n.calls[id].stage.ProbeAgain? || n.calls[id].stage.RemoveDir?
    ensures Advances(n, Step(n, id, o), id)
  {
  }

  lemma StepKeepsSafe(n: Node, id: CallId, o: Outcome)
    requires Safe(n) && id in n.calls && Fits(n.calls[id])
    ensures Safe(Step(n, id, o))
  {
    var call := n.calls[id];
    assert CallOk(n, call) && PathOk(n, call.req.target);
    hide Safe, CheckStep, MkdirStep, UnCheckStep, StatStep, ProbeStep, UnmountStep, ProbeAgainStep, RemoveDirStep,
      FirstTempStep, SecondTempStep, WriteStep, MountStep, RemoveTemp, Advances, PathOk;
    if call.stage.Replied? {
      return;
    }
    match call.stage {
      case Check => PublishChecks(n, id, call.req.target, o);
      case Mkdir => PublishChecks(n, id, call.req.target, o);
      case FirstTemp => PublishTemps(n, id, o);
      case SecondTemp(_) => PublishTemps(n, id, o);
      case Write(_, _) => PublishTemps(n, id, o);
      case Mounting(_, _) => PublishMounts(n, id, o);
      case RemoveConf(_, _, _) => PublishRemoves(n, id, o);
      case RemoveCred(_, _) => PublishRemoves(n, id, o);
      case UnCheck => UnpublishChecks(n, id, o);
      case Stat => UnpublishChecks(n, id, o);
      case Probe => UnpublishChecks(n, id, o);
      case _ => UnpublishUnmounts(n, id, o);
    }
    AdvanceKeeps(n, Step(n, id, o), id);
  }

  lemma ApplyKeepsSafe(n: Node, e: Event)
    requires Safe(n) && Enabled(n, e) && (e.Begin? ==> !Busy(n, e.req.target))
    ensures Safe(Apply(n, e))
  {
    match e
    case Do(id, o) => StepKeepsSafe(n, id, o);
    case Begin(id, req) => BeginKeepsSafe(n, id, req);
    case Return(id) => ReturnKeepsSafe(n, id);
  }

  lemma BeginKeepsSafe(n: Node, id: CallId, req: Request)
    requires Safe(n) && id !in n.calls && !Busy(n, req.target)
    ensures Safe(Apply(n, Begin(id, req)))
  {
    var n' := Apply(n, Begin(id, req));
    assert forall q :: PathOk(n, q) ==> PathOk(n', q);
    assert forall k :: k in n.calls ==> CallOk(n, n.calls[k]) && n.calls[k].req.target != req.target;
  }

  lemma ReturnKeepsSafe(n: Node, id: CallId)
    requires Safe(n) && Enabled(n, Return(id))
    ensures Safe(Apply(n, Return(id)))
  {
    var n' := Apply(n, Return(id));
    assert forall q :: PathOk(n, q) ==> PathOk(n', q);
    assert forall k :: k in n.calls ==> CallOk(n, n.calls[k]);
  }

  lemma {:induction false} RunKeepsSafe(n: Node, events: seq<Event>)
    requires Safe(n) && ValidRun(n, events) && ExclusiveRun(n, events)
    ensures Safe(RunOf(n, events))
    decreases |events|
  {
    hide Apply, Enabled, Safe, Busy;
    if events != [] {
      ApplyKeepsSafe(n, events[0]);
      RunKeepsSafe(Apply(n, events[0]), events[1..]);
    }
  }

  /**
    With at most one call in flight per path, in every interleaving across paths and under any
    failures, no path is ever mounted twice. A publish answered OK has its path mounted; an
    unpublish answered NotFound has it not mounted; an unpublish answered OK has it not mounted
    exactly when UnmountPath did not give up after an error of stat.
   */
  lemma MountSafety(n: Node, events: seq<Event>)
    requires n.calls == map[] && MountPointsExist(n) && (forall p :: Depth(n, p) <= 1)
    requires ValidRun(n, events) && ExclusiveRun(n, events)
    ensures var n' := RunOf(n, events);
            && (forall p :: Depth(n', p) <= 1)
            && (forall id :: id in n'.calls && n'.calls[id].stage == Replied(OK) && n'.calls[id].req.Publish?
                  ==> Depth(n', n'.calls[id].req.target) == 1)
            && (forall id :: id in n'.calls && n'.calls[id].stage == Replied(OK) && n'.calls[id].req.Unpublish?
                  ==> (Depth(n', n'.calls[id].req.target) == 0 <==> !n'.calls[id].skipped))
            && (forall id :: id in n'.calls && n'.calls[id].stage == Replied(NotFound)
                  ==> Depth(n', n'.calls[id].req.target) == 0)
  {
    hide RunOf, ValidRun, ExclusiveRun;
    RunKeepsSafe(n, events);
    var n' := RunOf(n, events);
    forall p ensures Depth(n', p) <= 1 {
      assert PathOk(n', p);
    }
    assert forall id :: id in n'.calls ==> CallOk(n', n'.calls[id]);
  }

  // ----- why one call per path is needed -----

  lemma OneMore(n: Node, e: Event, rest: seq<Event>)
    requires Enabled(n, e) && ValidRun(Apply(n, e), rest)
    ensures ValidRun(n, [e] + rest) && RunOf(n, [e] + rest) == RunOf(Apply(n, e), rest)
  {
    assert ([e] + rest)[1..] == rest;
  }

  lemma {:induction false} RunsCompose(n: Node, first: seq<Event>, second: seq<Event>)
    requires ValidRun(n, first) && ValidRun(RunOf(n, first), second)
    ensures ValidRun(n, first + second) && RunOf(n, first + second) == RunOf(RunOf(n, first), second)
    decreases |first|
  {
    if first == [] {
      assert first + second == second;
    } else {
      assert (first + second)[1..] == first[1..] + second;
      RunsCompose(Apply(n, first[0]), first[1..], second);
    }
  }

  /** From Check on, call `id` makes two files and stops before the mount. */
  function ToMount(id: CallId, conf: File, cred: File): seq<Event> {
    [Do(id, Named(conf)), Do(id, Named(cred)), Do(id, Success)]
  }

  lemma ReachesMount(n: Node, id: CallId, conf: File, cred: File)
    requires id in n.calls && n.calls[id].req.Publish? && n.calls[id].stage == FirstTemp
    requires conf !in n.temps && cred !in n.temps && conf != cred
    ensures ValidRun(n, ToMount(id, conf, cred))
    ensures RunOf(n, ToMount(id, conf, cred))
         == At(n.(temps := n.temps[conf := Config(conf)][cred := Empty]), id, Mounting(conf, cred))
  {
    var n1 := Apply(n, Do(id, Named(conf)));
    var n2 := Apply(n1, Do(id, Named(cred)));
    var n3 := Apply(n2, Do(id, Success));
    assert n3.temps == n.temps[conf := Config(conf)][cred := Empty];
    assert n3.calls == n.calls[id := n.calls[id].(stage := Mounting(conf, cred))];
    hide Apply;
    OneMore(n2, Do(id, Success), []);
    OneMore(n1, Do(id, Named(cred)), [Do(id, Success)]);
    OneMore(n, Do(id, Named(conf)), [Do(id, Named(cred)), Do(id, Success)]);
  }

  function BothCheck(req: Request): seq<Event> {
    [Begin(0, req), Begin(1, req), Do(0, Success), Do(1, Success)]
  }

  lemma BothPass(n: Node, req: Request)
    requires Idle(n) && req.Publish? && req.target in n.dirs && Depth(n, req.target) == 0
    ensures ValidRun(n, BothCheck(req))
    ensures RunOf(n, BothCheck(req))
         == n.(calls := map[0 := Call(req, FirstTemp, false), 1 := Call(req, FirstTemp, false)])
  {
    var n1 := Apply(n, Begin(0, req));
    var n2 := Apply(n1, Begin(1, req));
    var n3 := Apply(n2, Do(0, Success));
    var n4 := Apply(n3, Do(1, Success));
    assert n4.calls == map[0 := Call(req, FirstTemp, false), 1 := Call(req, FirstTemp, false)];
    hide Apply;
    OneMore(n3, Do(1, Success), []);
    OneMore(n2, Do(0, Success), [Do(1, Success)]);
    OneMore(n1, Begin(1, req), [Do(0, Success), Do(1, Success)]);
    OneMore(n, Begin(0, req), [Begin(1, req), Do(0, Success), Do(1, Success)]);
  }

  lemma BothMount(n: Node, req: Request)
    requires req.Publish? && req.target in n.dirs && Depth(n, req.target) == 0
    requires n.calls == map[0 := Call(req, Mounting(0, 1), false), 1 := Call(req, Mounting(2, 3), false)]
    ensures ValidRun(n, [Do(0, Success), Do(1, Success)])
    ensures Depth(RunOf(n, [Do(0, Success), Do(1, Success)]), req.target) == 2
  {
    hide MountOptions;
    var n1 := Apply(n, Do(0, Success));
    var n2 := Apply(n1, Do(1, Success));
    assert Depth(n2, req.target) == 2;
    OneMore(n1, Do(1, Success), []);
    OneMore(n, Do(0, Success), [Do(1, Success)]);
  }

  /** The run of two publish calls on one path that both pass the check before either mounts. */
  function DoubleMount(req: Request): seq<Event> {
    BothCheck(req) + (ToMount(0, 0, 1) + (ToMount(1, 2, 3) + [Do(0, Success), Do(1, Success)]))
  }

  /** On any idle node and any unmounted directory, two publish calls at once can mount it twice. */
  lemma TwoCallsMountTwice(n: Node, req: Request)
    requires Idle(n) && req.Publish? && req.target in n.dirs && Depth(n, req.target) == 0
    ensures ValidRun(n, DoubleMount(req)) && Depth(RunOf(n, DoubleMount(req)), req.target) == 2
  {
    hide Apply, Enabled, ValidRun, RunOf, MountOptions, ToMount, BothCheck;
    BothPass(n, req);
    var n1 := RunOf(n, BothCheck(req));
    ReachesMount(n1, 0, 0, 1);
    var n2 := RunOf(n1, ToMount(0, 0, 1));
    ReachesMount(n2, 1, 2, 3);
    var n3 := RunOf(n2, ToMount(1, 2, 3));
    var last := [Do(0, Success), Do(1, Success)];
    BothMount(n3, req);
    hide Depth;
    RunsCompose(n2, ToMount(1, 2, 3), last);
    RunsCompose(n1, ToMount(0, 0, 1), ToMount(1, 2, 3) + last);
    RunsCompose(n, BothCheck(req), ToMount(0, 0, 1) + (ToMount(1, 2, 3) + last));
  }
}
