/** Who owns the temporary files of the node server, in every interleaving. */
module TempFiles {
  import opened NodeServer

  /** The files a call in flight will still remove, or leak. */
  function Holds(stage: Stage): set<File> {
    match stage
    case SecondTemp(conf) => {conf}
    case Write(conf, cred) => {conf, cred}
    case Mounting(conf, cred) => {conf, cred}
    case RemoveConf(conf, cred, _) => {conf, cred}
    case RemoveCred(cred, _) => {cred}
    case _ => {}
  }

  predicate TwoFiles(stage: Stage) {
    match stage
    case Write(conf, cred) => conf != cred
    case Mounting(conf, cred) => conf != cred
    case RemoveConf(conf, cred, _) => conf != cred
    case _ => true
  }

  /** From the mount on, the configuration file names itself as its secrets file. */
  predicate SelfReferring(temps: map<File, Content>, stage: Stage) {
    match stage
    case Mounting(conf, _) => conf in temps && temps[conf] == Config(conf)
    case RemoveConf(conf, _, _) => conf in temps && temps[conf] == Config(conf)
    case _ => true
  }

  // ----- ownership, apart from what the calls are doing -----

  type Owners = map<CallId, set<File>>

  function OwnersOf(calls: map<CallId, Call>): Owners {
    map id | id in calls :: Holds(calls[id].stage)
  }

  ghost predicate HasOwner(own: Owners, leaked: set<File>, stuck: set<File>, f: File) {
    f in leaked || f in stuck || exists id :: id in own && f in own[id]
  }

  /**
    The temporary files `files` are the disjoint union of those held by calls in flight, those
    leaked by CreateConfigFile, and those os.Remove failed on.
   */
  ghost predicate Partition(files: set<File>, own: Owners, leaked: set<File>, stuck: set<File>) {
    && (forall f :: f in files <==> HasOwner(own, leaked, stuck, f))
    && leaked !! stuck
    && (forall id :: id in own ==> own[id] !! leaked && own[id] !! stuck)
    && (forall i, j :: i in own && j in own && i != j ==> own[i] !! own[j])
  }

  lemma OwnerMoves(own: Owners, own': Owners, leaked: set<File>, stuck: set<File>, id: CallId, f: File)
    requires forall k :: k in own && k != id ==> k in own' && own'[k] == own[k]
    requires id in own && f in own[id] ==> id in own' && f in own'[id]
    requires HasOwner(own, leaked, stuck, f)
    ensures HasOwner(own', leaked, stuck, f)
  {
    if f !in leaked && f !in stuck {
      var k :| k in own && f in own[k];
      assert k in own' && f in own'[k];
    }
  }

  /** A new file for call `id`. */
  lemma PartitionGains(files: set<File>, own: Owners, leaked: set<File>, stuck: set<File>, id: CallId, f: File)
    requires Partition(files, own, leaked, stuck) && id in own && f !in files
    ensures Partition(files + {f}, own[id := own[id] + {f}], leaked, stuck)
  {
    var own' := own[id := own[id] + {f}];
    assert !HasOwner(own, leaked, stuck, f);
    forall g | g in files ensures HasOwner(own', leaked, stuck, g) {
      OwnerMoves(own, own', leaked, stuck, id, g);
    }
    forall g | HasOwner(own', leaked, stuck, g) && g != f ensures HasOwner(own, leaked, stuck, g) {
      if g !in leaked && g !in stuck {
        var k :| k in own' && g in own'[k];
        assert k in own && g in own[k];
      }
    }
    assert f in own'[id];
    assert forall k :: k in own ==> f !in own[k];
  }

  /** Call `id` lets go of the files `gone`; they are removed, or counted as leaked or stuck. */
  lemma PartitionDrops(
    files: set<File>, own: Owners, leaked: set<File>, stuck: set<File>, id: CallId, gone: set<File>)
    requires Partition(files, own, leaked, stuck) && id in own && gone <= own[id]
    ensures Partition(files - gone, own[id := own[id] - gone], leaked, stuck)
    ensures Partition(files, own[id := own[id] - gone], leaked + gone, stuck)
    ensures Partition(files, own[id := own[id] - gone], leaked, stuck + gone)
  {
    var own' := own[id := own[id] - gone];
    forall g | HasOwner(own', leaked, stuck, g) ensures HasOwner(own, leaked, stuck, g) {
      if g !in leaked && g !in stuck {
        var k :| k in own' && g in own'[k];
        assert k in own && g in own[k];
      }
    }
    forall g | g in files && g !in gone ensures HasOwner(own', leaked, stuck, g) {
      OwnerMoves(own, own', leaked, stuck, id, g);
    }
    forall g | g in gone ensures !HasOwner(own', leaked, stuck, g) && g in files {
      assert g in own[id];
      assert forall k :: k in own && k != id ==> own[k] !! own[id];
    }
  }

  lemma PartitionEmpty(files: set<File>, own: Owners, leaked: set<File>, stuck: set<File>, id: CallId)
    requires Partition(files, own, leaked, stuck)
    ensures id !in own ==> Partition(files, own[id := {}], leaked, stuck)
    ensures id in own && own[id] == {} ==> Partition(files, own - {id}, leaked, stuck)
  {
    if id !in own {
      forall g | g in files ensures HasOwner(own[id := {}], leaked, stuck, g) {
        OwnerMoves(own, own[id := {}], leaked, stuck, id, g);
      }
      forall g | HasOwner(own[id := {}], leaked, stuck, g) ensures HasOwner(own, leaked, stuck, g) {
        if g !in leaked && g !in stuck {
          var k :| k in own[id := {}] && g in own[id := {}][k];
          assert k in own && g in own[k];
        }
      }
    } else if own[id] == {} {
      forall g | g in files ensures HasOwner(own - {id}, leaked, stuck, g) {
        OwnerMoves(own, own - {id}, leaked, stuck, id, g);
      }
    }
  }

  // ----- the invariant -----

  predicate GoodCall(temps: map<File, Content>, call: Call) {
    Fits(call) && TwoFiles(call.stage) && SelfReferring(temps, call.stage)
  }

  /** Files have exactly one owner each, and leaks are accounted for. */
  ghost predicate TempInv(n: Node) {
    && Partition(n.temps.Keys, OwnersOf(n.calls), n.leaked, n.stuck)
    && (forall id :: id in n.calls ==> GoodCall(n.temps, n.calls[id]))
    && |n.leaked| == n.halfMade + 2 * n.unwritten
  }

  lemma OwnersUpdate(calls: map<CallId, Call>, id: CallId, call: Call)
    ensures OwnersOf(calls[id := call]) == OwnersOf(calls)[id := Holds(call.stage)]
    ensures OwnersOf(calls - {id}) == OwnersOf(calls) - {id}
  {
  }

  /** Other calls do not notice a change to files they do not hold. */
  lemma OthersGood(n: Node, temps: map<File, Content>, id: CallId, changed: set<File>)
    requires TempInv(n) && changed !! HeldByOthers(n.calls, id)
    requires forall f :: f in n.temps && f !in changed ==> f in temps && temps[f] == n.temps[f]
    ensures forall k :: k in n.calls && k != id ==> GoodCall(temps, n.calls[k])
  {
    forall k | k in n.calls && k != id ensures GoodCall(temps, n.calls[k]) {
      assert GoodCall(n.temps, n.calls[k]);
      assert Holds(n.calls[k].stage) <= HeldByOthers(n.calls, id);
    }
  }

  /** The files of all calls but `id`. */
  function HeldByOthers(calls: map<CallId, Call>, id: CallId): set<File> {
    set k, f | k in calls && k != id && f in Holds(calls[k].stage) :: f
  }

  lemma NotHeldByOthers(n: Node, id: CallId, files: set<File>)
    requires TempInv(n)
    requires (forall f :: f in files ==> f !in n.temps) || (id in n.calls && files <= Holds(n.calls[id].stage))
    ensures files !! HeldByOthers(n.calls, id)
  {
    var own := OwnersOf(n.calls);
    forall k | k in n.calls && k != id ensures files !! Holds(n.calls[k].stage) {
      assert k in own && own[k] == Holds(n.calls[k].stage);
      assert forall f :: f in own[k] ==> HasOwner(own, n.leaked, n.stuck, f);
      if id in n.calls {
        assert id in own && own[id] !! own[k];
      }
    }
  }

  lemma Assembled(n: Node, id: CallId, stage: Stage)
    requires id in n.calls
    requires Partition(n.temps.Keys, OwnersOf(n.calls)[id := Holds(stage)], n.leaked, n.stuck)
    requires forall k :: k in n.calls && k != id ==> GoodCall(n.temps, n.calls[k])
    requires GoodCall(n.temps, n.calls[id].(stage := stage))
    requires |n.leaked| == n.halfMade + 2 * n.unwritten
    ensures TempInv(At(n, id, stage))
  {
    OwnersUpdate(n.calls, id, n.calls[id].(stage := stage));
  }

  // ----- the steps -----

  ghost predicate SameFiles(n: Node, n': Node) {
    && n'.temps == n.temps && n'.leaked == n.leaked && n'.stuck == n.stuck
    && n'.halfMade == n.halfMade && n'.unwritten == n.unwritten
  }

  /** Only call `id` moves, and no file is touched. */
  ghost predicate OnlyMoves(n: Node, n': Node, id: CallId) {
    && SameFiles(n, n') && id in n.calls && id in n'.calls
    && n'.calls == n.calls[id := n'.calls[id]] && n'.calls[id].req == n.calls[id].req
  }

  lemma Moves(n: Node, n': Node, id: CallId)
    requires TempInv(n) && OnlyMoves(n, n', id)
    requires Holds(n'.calls[id].stage) == Holds(n.calls[id].stage)
    requires GoodCall(n.temps, n'.calls[id])
    ensures TempInv(n')
  {
    OwnersUpdate(n.calls, id, n'.calls[id]);
    assert OwnersOf(n.calls)[id := Holds(n'.calls[id].stage)] == OwnersOf(n.calls);
    hide Partition, Holds, GoodCall, OwnersOf;
    assert n'.calls[id := n'.calls[id]] == n'.calls;
  }

  lemma Gains(n: Node, id: CallId, f: File, stage: Stage)
    requires TempInv(n) && id in n.calls && f !in n.temps
    requires Holds(stage) == Holds(n.calls[id].stage) + {f}
    requires GoodCall(n.temps[f := Empty], n.calls[id].(stage := stage))
    ensures TempInv(At(n.(temps := n.temps[f := Empty]), id, stage))
  {
    hide *;
    var n' := n.(temps := n.temps[f := Empty]);
    Accounts(n, id);
    NotHeldByOthers(n, id, {f});
    OthersGood(n, n'.temps, id, {f});
    PartitionGains(n.temps.Keys, OwnersOf(n.calls), n.leaked, n.stuck, id, f);
    assert n'.temps.Keys == n.temps.Keys + {f};
    Assembled(n', id, stage);
  }

  lemma Accounts(n: Node, id: CallId)
    requires TempInv(n) && id in n.calls
    ensures Partition(n.temps.Keys, OwnersOf(n.calls), n.leaked, n.stuck)
    ensures id in OwnersOf(n.calls) && OwnersOf(n.calls)[id] == Holds(n.calls[id].stage)
    ensures GoodCall(n.temps, n.calls[id]) && |n.leaked| == n.halfMade + 2 * n.unwritten
  {
    hide Partition;
  }

  /** `n'` differs from `n` in what became of the files `gone` of call `id`. */
  lemma Drops(n: Node, n': Node, id: CallId, gone: set<File>, stage: Stage)
    requires TempInv(n) && id in n.calls && gone <= Holds(n.calls[id].stage) && n'.calls == n.calls
    requires Holds(stage) == Holds(n.calls[id].stage) - gone
    requires GoodCall(n'.temps, n.calls[id].(stage := stage))
    requires || (n'.temps == n.temps - gone && n'.leaked == n.leaked && n'.stuck == n.stuck)
             || (n'.temps == n.temps && n'.leaked == n.leaked && n'.stuck == n.stuck + gone)
             || (n'.temps == n.temps && n'.leaked == n.leaked + gone && n'.stuck == n.stuck)
    requires |n'.leaked| == n'.halfMade + 2 * n'.unwritten
    ensures TempInv(At(n', id, stage))
  {
    hide *;
    Accounts(n, id);
    NotHeldByOthers(n, id, gone);
    OthersGood(n, n'.temps, id, gone);
    PartitionDrops(n.temps.Keys, OwnersOf(n.calls), n.leaked, n.stuck, id, gone);
    assert (n.temps - gone).Keys == n.temps.Keys - gone;
    Assembled(n', id, stage);
  }

  lemma Writes(n: Node, id: CallId, conf: File, cred: File)
    requires TempInv(n) && id in n.calls && n.calls[id].stage == Write(conf, cred)
    ensures TempInv(At(n.(temps := n.temps[conf := Config(conf)]), id, Mounting(conf, cred)))
  {
    var n' := n.(temps := n.temps[conf := Config(conf)]);
    NotHeldByOthers(n, id, {conf});
    OthersGood(n, n'.temps, id, {conf});
    assert GoodCall(n.temps, n.calls[id]);
    HeldExists(n, id, conf);
    assert n'.temps.Keys == n.temps.Keys;
    assert OwnersOf(n.calls)[id := {conf, cred}] == OwnersOf(n.calls);
    hide Partition;
    Assembled(n', id, Mounting(conf, cred));
  }

  lemma HeldExists(n: Node, id: CallId, f: File)
    requires TempInv(n) && id in n.calls && f in Holds(n.calls[id].stage)
    ensures f in n.temps && f !in n.leaked && f !in n.stuck
  {
    var own := OwnersOf(n.calls);
    assert id in own && f in own[id];
    assert HasOwner(own, n.leaked, n.stuck, f);
  }

  lemma SecondTempFails(n: Node, id: CallId, conf: File)
    requires TempInv(n) && id in n.calls && n.calls[id].stage == SecondTemp(conf) && conf !in n.leaked
    ensures TempInv(At(n.(leaked := n.leaked + {conf}, halfMade := n.halfMade + 1), id, Replied(Internal)))
  {
    assert GoodCall(n.temps, n.calls[id]);
    assert |n.leaked + {conf}| == |n.leaked| + 1;
    hide Partition, OwnersOf;
    Drops(n, n.(leaked := n.leaked + {conf}, halfMade := n.halfMade + 1), id, {conf}, Replied(Internal));
  }

  lemma SecondTempKeeps(n: Node, id: CallId, conf: File, o: Outcome)
    requires TempInv(n) && id in n.calls && n.calls[id].stage == SecondTemp(conf)
    ensures TempInv(SecondTempStep(n, id, conf, o))
  {
    assert GoodCall(n.temps, n.calls[id]);
    HeldExists(n, id, conf);
    hide TempInv;
    if o.Named? && o.file !in n.temps {
      Gains(n, id, o.file, Write(conf, o.file));
    } else {
      SecondTempFails(n, id, conf);
    }
  }

  lemma WriteKeeps(n: Node, id: CallId, conf: File, cred: File, o: Outcome)
    requires TempInv(n) && id in n.calls && n.calls[id].stage == Write(conf, cred)
    ensures TempInv(WriteStep(n, id, conf, cred, o))
  {
    hide TempInv, Partition;
    WriteFacts(n, id, conf, cred);
    if o.Failure? {
      Drops(n, n.(leaked := n.leaked + {conf, cred}, unwritten := n.unwritten + 1), id, {conf, cred},
            Replied(Internal));
    } else {
      Writes(n, id, conf, cred);
    }
  }

  lemma WriteFacts(n: Node, id: CallId, conf: File, cred: File)
    requires TempInv(n) && id in n.calls && n.calls[id].stage == Write(conf, cred)
    ensures n.calls[id].req.Publish? && GoodCall(n.temps, n.calls[id])
    ensures |n.leaked + {conf, cred}| == |n.leaked| + 2 == n.halfMade + 2 * (n.unwritten + 1)
  {
    assert GoodCall(n.temps, n.calls[id]);
    HeldExists(n, id, conf);
    HeldExists(n, id, cred);
    hide Partition;
    assert n.leaked + {conf, cred} == n.leaked + {conf} + {cred};
  }

  lemma RemoveKeeps(n: Node, id: CallId, f: File, stage: Stage, o: Outcome)
    requires TempInv(n) && id in n.calls && f in Holds(n.calls[id].stage)
    requires Holds(stage) == Holds(n.calls[id].stage) - {f} && Fits(n.calls[id].(stage := stage))
    requires stage.RemoveCred? || stage.Replied?
    ensures TempInv(At(RemoveTemp(n, f, o), id, stage))
  {
    assert |n.leaked| == n.halfMade + 2 * n.unwritten;
    hide TempInv;
    Drops(n, RemoveTemp(n, f, o), id, {f}, stage);
  }

  /** Stages in which a call holds no files. */
  predicate Light(stage: Stage) {
    match stage
    case SecondTemp(_) => false
    case Write(_, _) => false
    case Mounting(_, _) => false
    case RemoveConf(_, _, _) => false
    case RemoveCred(_, _) => false
    case _ => true
  }

  ghost predicate Quietly(n: Node, n': Node, id: CallId) {
    OnlyMoves(n, n', id) && Light(n'.calls[id].stage) && Fits(n'.calls[id])
  }

  lemma QuietKeeps(n: Node, n': Node, id: CallId)
    requires TempInv(n) && Quietly(n, n', id) && Light(n.calls[id].stage)
    ensures TempInv(n')
  {
    Moves(n, n', id);
  }

  lemma QuietPublish(n: Node, id: CallId, p: Path, o: Outcome)
    requires id in n.calls && n.calls[id].req.Publish?
    ensures Quietly(n, CheckStep(n, id, p, o), id) && Quietly(n, MkdirStep(n, id, p, o), id)
  {
  }

  lemma QuietCheck(n: Node, id: CallId, p: Path, o: Outcome)
    requires id in n.calls && n.calls[id].req.Unpublish?
    ensures Quietly(n, UnCheckStep(n, id, p, o), id) && Quietly(n, ProbeStep(n, id, p, o), id)
  {
    hide Depth;
  }

  lemma QuietStat(n: Node, id: CallId, p: Path, o: Outcome)
    requires id in n.calls && n.calls[id].req.Unpublish?
    ensures Quietly(n, StatStep(n, id, p, o), id)
  {
  }

  lemma QuietUnmount(n: Node, id: CallId, p: Path, o: Outcome)
    requires id in n.calls && n.calls[id].req.Unpublish?
    ensures Quietly(n, UnmountStep(n, id, p, o), id)
    ensures Quietly(n, ProbeAgainStep(n, id, p, o), id)
    ensures Quietly(n, RemoveDirStep(n, id, p, o), id)
  {
    hide Stack;
  }

  lemma QuietStep(n: Node, id: CallId, o: Outcome)
    requires id in n.calls && Fits(n.calls[id]) && Light(n.calls[id].stage)
    requires !n.calls[id].stage.FirstTemp? && !n.calls[id].stage.Replied?
    ensures Quietly(n, Step(n, id, o), id)
  {
    var p := n.calls[id].req.target;
    if n.calls[id].req.Publish? {
      QuietPublish(n, id, p, o);
    } else {
      QuietCheck(n, id, p, o);
      QuietStat(n, id, p, o);
      QuietUnmount(n, id, p, o);
    }
    hide CheckStep, MkdirStep, UnCheckStep, StatStep, ProbeStep, UnmountStep, ProbeAgainStep, RemoveDirStep, Quietly,
      FirstTempStep, SecondTempStep, WriteStep, MountStep, RemoveTemp;
  }

  lemma MountKeeps(n: Node, id: CallId, conf: File, cred: File, o: Outcome)
    requires TempInv(n) && id in n.calls && n.calls[id].stage == Mounting(conf, cred)
    ensures n.calls[id].req.Publish? && TempInv(MountStep(n, id, n.calls[id].req, conf, cred, o))
  {
    assert GoodCall(n.temps, n.calls[id]);
    hide TempInv, Stack, MountOptions;
    Moves(n, MountStep(n, id, n.calls[id].req, conf, cred, o), id);
  }

  lemma FirstTempKeeps(n: Node, id: CallId, o: Outcome)
    requires TempInv(n) && id in n.calls && n.calls[id].stage == FirstTemp
    ensures TempInv(FirstTempStep(n, id, o))
  {
    assert GoodCall(n.temps, n.calls[id]);
    hide TempInv;
    if o.Named? && o.file !in n.temps {
      Gains(n, id, o.file, SecondTemp(o.file));
    } else {
      Moves(n, At(n, id, Replied(Internal)), id);
    }
  }

  lemma StepKeepsTemps(n: Node, id: CallId, o: Outcome)
    requires TempInv(n) && id in n.calls
    ensures Fits(n.calls[id]) && TempInv(Step(n, id, o))
  {
    assert GoodCall(n.temps, n.calls[id]);
    hide TempInv, CheckStep, MkdirStep, UnCheckStep, StatStep, ProbeStep, UnmountStep, ProbeAgainStep, RemoveDirStep,
      FirstTempStep, SecondTempStep, WriteStep, MountStep, RemoveTemp, Quietly;
    match n.calls[id].stage
    case FirstTemp => FirstTempKeeps(n, id, o);
    case SecondTemp(conf) => SecondTempKeeps(n, id, conf, o);
    case Write(conf, cred) => WriteKeeps(n, id, conf, cred, o);
    case Mounting(conf, cred) => MountKeeps(n, id, conf, cred, o);
    case RemoveConf(conf, cred, error) => RemoveKeeps(n, id, conf, RemoveCred(cred, error), o);
    case RemoveCred(cred, error) => RemoveKeeps(n, id, cred, Replied(ReplyFor(error)), o);
    case Replied(_) =>
    case _ =>
      QuietStep(n, id, o);
      QuietKeeps(n, Step(n, id, o), id);
  }

  lemma ApplyKeepsTemps(n: Node, e: Event)
    requires TempInv(n) && Enabled(n, e)
    ensures TempInv(Apply(n, e))
  {
    match e
    case Do(id, o) => StepKeepsTemps(n, id, o);
    case Begin(id, req) =>
      PartitionEmpty(n.temps.Keys, OwnersOf(n.calls), n.leaked, n.stuck, id);
      OwnersUpdate(n.calls, id, Call(req, FirstStage(req), false));
      hide Partition;
    case Return(id) =>
      PartitionEmpty(n.temps.Keys, OwnersOf(n.calls), n.leaked, n.stuck, id);
      OwnersUpdate(n.calls, id, n.calls[id]);
      hide Partition;
  }

  /** Ownership of temporary files is exclusive and complete in every interleaving, with any failures. */
  lemma {:induction false} TempOwnership(n: Node, events: seq<Event>)
    requires TempInv(n) && ValidRun(n, events)
    ensures TempInv(RunOf(n, events))
    decreases |events|
  {
    if events != [] {
      ApplyKeepsTemps(n, events[0]);
      TempOwnership(Apply(n, events[0]), events[1..]);
    }
  }

  lemma IdleIsOwned(n: Node)
    requires Idle(n)
    ensures TempInv(n)
  {
  }

  predicate FailedRemove(n: Node, e: Event)
    requires Enabled(n, e)
  {
    e.Do? && (n.calls[e.id].stage.RemoveConf? || n.calls[e.id].stage.RemoveCred?) && e.outcome.Failure?
  }

  /** No os.Remove of this run fails. */
  predicate RemovesSucceed(n: Node, events: seq<Event>)
    requires ValidRun(n, events)
    decreases |events|
  {
    events == []
    || (!FailedRemove(n, events[0]) && RemovesSucceed(Apply(n, events[0]), events[1..]))
  }

  lemma OnlyRemoveSticks(n: Node, e: Event)
    requires Enabled(n, e) && !FailedRemove(n, e)
    ensures Apply(n, e).stuck == n.stuck
  {
    hide Stack, MountOptions, Depth, ReplyFor, FlagOptions;
    if e.Do? && Light(n.calls[e.id].stage) && !n.calls[e.id].stage.FirstTemp? && !n.calls[e.id].stage.Replied? {
      QuietStep(n, e.id, e.outcome);
      hide CheckStep, MkdirStep, UnCheckStep, StatStep, ProbeStep, UnmountStep, ProbeAgainStep, RemoveDirStep, Step;
    } else {
      hide CheckStep, MkdirStep, UnCheckStep, StatStep, ProbeStep, UnmountStep, ProbeAgainStep, RemoveDirStep;
    }
  }

  lemma {:induction false} NothingStuck(n: Node, events: seq<Event>)
    requires ValidRun(n, events) && RemovesSucceed(n, events)
    ensures RunOf(n, events).stuck == n.stuck
    decreases |events|
  {
    hide Apply, Enabled, FailedRemove;
    if events != [] {
      OnlyRemoveSticks(n, events[0]);
      NothingStuck(Apply(n, events[0]), events[1..]);
    }
  }

  /**
    If os.Remove never fails, then after any run that ends with no call in flight only the leaks of
    CreateConfigFile are left: one file for each call stopped by its second TempFile, two for each
    call stopped by WriteString. Calls that got to the mount leave none, mounted or not.
   */
  lemma OnlyCreateConfigFileLeaks(n: Node, events: seq<Event>)
    requires Idle(n) && ValidRun(n, events) && RemovesSucceed(n, events)
    requires RunOf(n, events).calls == map[]
    ensures var n' := RunOf(n, events);
            n'.temps.Keys == n'.leaked && |n'.temps| == n'.halfMade + 2 * n'.unwritten
  {
    IdleIsOwned(n);
    TempOwnership(n, events);
    NothingStuck(n, events);
    var n' := RunOf(n, events);
    assert OwnersOf(n'.calls) == map[];
    assert forall f :: f in n'.temps ==> HasOwner(OwnersOf(n'.calls), n'.leaked, n'.stuck, f);
    assert forall f :: f in n'.leaked ==> HasOwner(OwnersOf(n'.calls), n'.leaked, n'.stuck, f);
    assert |n'.temps| == |n'.temps.Keys|;
  }
}
