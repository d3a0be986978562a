/**
  Whole histories: convergence of deploy.sh after any mixture of cut and uncut runs of both scripts,
  the order in which runs of deploy.sh advance, and what clean.sh leaves behind.
 */
module Convergence {
  import opened ArgGroups
  import opened Cluster
  import opened Steps
  import opened Reconciler

  // ----- clean.sh -----

  function KindsOf(cmds: seq<Command>): set<Kind> {
    set i | 0 <= i < |cmds| && cmds[i].DeleteLabelled? :: cmds[i].kind
  }

  lemma KindsOfCons(cmd: Command, rest: seq<Command>)
    ensures KindsOf([cmd] + rest) == (if cmd.DeleteLabelled? then {cmd.kind} else {}) + KindsOf(rest)
  {
    var all := [cmd] + rest;
    forall k | k in KindsOf(rest) ensures k in KindsOf(all) {
      var i :| 0 <= i < |rest| && rest[i].DeleteLabelled? && rest[i].kind == k;
      assert all[i + 1] == rest[i];
    }
    if cmd.DeleteLabelled? {
      assert all[0] == cmd;
    }
  }

  function Min(a: nat, b: nat): nat { if a < b then a else b }

  lemma FirstDelete(w: World, cmds: seq<Command>)
    requires !w.halted && w.left > 0 && cmds != [] && (cmds[0].External? || cmds[0].DeleteLabelled?)
    ensures var w1, n := Run(w, cmds[0]), Min(w.left, |cmds|);
            && RunAll(w, cmds) == RunAll(w1, cmds[1..]) && !w1.halted && w1.left == w.left - 1 && w1.tmp == w.tmp
            && WithoutLabelled(w1.cluster, KindsOf(cmds[1..][..n - 1]))
               == WithoutLabelled(w.cluster, KindsOf(cmds[..n]))
  {
    hide KindsOf, WithoutLabelled, RunAll;
    var n := Min(w.left, |cmds|);
    var rest := cmds[1..][..n - 1];
    FirstOf(cmds, n);
    KindsOfCons(cmds[0], rest);
    if cmds[0].DeleteLabelled? {
      DeletedTwice(w.cluster, cmds[0].kind, KindsOf(rest));
    }
    assert {} + KindsOf(rest) == KindsOf(rest);
    RunsFirst(w, cmds);
  }

  lemma RunsFirst(w: World, cmds: seq<Command>)
    requires cmds != []
    ensures RunAll(w, cmds) == RunAll(Run(w, cmds[0]), cmds[1..])
  {
    hide Run;
  }

  lemma FirstOf(cmds: seq<Command>, n: nat)
    requires 0 < n <= |cmds|
    ensures cmds[..n] == [cmds[0]] + cmds[1..][..n - 1]
  {
  }

  lemma DeletedTwice(c: Resources, kind: Kind, kinds: set<Kind>)
    ensures WithoutLabelled(WithoutLabelled(c, {kind}), kinds) == WithoutLabelled(c, {kind} + kinds)
  {
  }

  lemma {:induction false} DeletesEffect(w: World, cmds: seq<Command>)
    requires !w.halted && forall i :: 0 <= i < |cmds| ==> cmds[i].External? || cmds[i].DeleteLabelled?
    ensures var w', n := RunAll(w, cmds), Min(w.left, |cmds|);
            && w'.cluster == WithoutLabelled(w.cluster, KindsOf(cmds[..n]))
            && w'.tmp == w.tmp && (w'.halted <==> w.left < |cmds|)
    decreases |cmds|
  {
    if cmds == [] {
      assert cmds[..0] == [];
    } else if w.left == 0 {
      assert cmds[..0] == [];
      HaltedRunAll(Halt(w), cmds[1..]);
    } else {
      var w1 := Run(w, cmds[0]);
      DeletesEffect(w1, cmds[1..]);
      FirstDelete(w, cmds);
      hide Run, RunAll, KindsOf, WithoutLabelled;
    }
  }

  lemma {:induction false} HaltedRunAll(w: World, cmds: seq<Command>)
    requires w.halted
    ensures RunAll(w, cmds) == w
    decreases |cmds|
  {
    if cmds != [] {
      HaltedRunAll(w, cmds[1..]);
    }
  }

  /**
    A script does exactly its longest prefix of commands: those before the cut and before the first
    command that fails. Nothing is executed behind that.
   */
  lemma {:induction false} LongestPrefix(w: World, cmds: seq<Command>) returns (n: nat)
    requires !w.halted
    ensures n <= |cmds| && n <= w.left
    ensures var m := RunAll(w, cmds[..n]);
            && !m.halted && m.left == w.left - n
            && RunAll(w, cmds) == (if n == |cmds| then m else Halt(m))
            && (n < |cmds| ==> m.left == 0 || !Succeeds(m, cmds[n]))
    decreases |cmds|
  {
    if cmds == [] || w.left == 0 || !Succeeds(w, cmds[0]) {
      n := 0;
      assert cmds[..0] == [];
      if cmds != [] {
        HaltedRunAll(Halt(w), cmds[1..]);
      }
    } else {
      var w1 := Run(w, cmds[0]);
      OneCommand(w, cmds[0]);
      var k := LongestPrefix(w1, cmds[1..]);
      n := k + 1;
      assert cmds[..n] == [cmds[0]] + cmds[1..][..k];
      assert cmds[..n][1..] == cmds[1..][..k];
      hide Run, Succeeds;
    }
  }

  lemma OneCommand(w: World, cmd: Command)
    requires !w.halted && w.left > 0 && Succeeds(w, cmd)
    ensures !Run(w, cmd).halted && Run(w, cmd).left == w.left - 1
  {
  }

  lemma CleanOrder(n: nat)
    requires n <= |CLEAN_COMMANDS|
    ensures var kinds := KindsOf(CLEAN_COMMANDS[..n]);
            OtherKind !in kinds && (kinds != {} ==> Deployment in kinds) && (n > 2 ==> Deployment in kinds)
  {
    var cmds := CLEAN_COMMANDS[..n];
    if n > 2 {
      assert cmds[2] == DeleteLabelled(Deployment);
    }
  }

  lemma CleanKinds()
    ensures forall k: Kind :: k != OtherKind ==> k in KindsOf(CLEAN_COMMANDS)
  {
    forall k: Kind | k != OtherKind ensures k in KindsOf(CLEAN_COMMANDS) {
      var i := match k
        case Deployment => 2 case Service => 3 case Ingress => 4 case PersistentVolume => 5
        case PersistentVolumeClaim => 6 case Secret => 7 case ConfigMap => 8 case ServiceAccount => 9
        case ClusterRole => 10 case ClusterRoleBinding => 11 case Role => 12 case _ => 13;
      assert CLEAN_COMMANDS[i] == DeleteLabelled(k);
    }
  }

  /** Cut anywhere, clean.sh has deleted the labelled resources of some kinds, deployments first. */
  lemma CleanEffect(w: World) returns (kinds: set<Kind>)
    requires !w.halted
    ensures CleanScript(w).cluster == WithoutLabelled(w.cluster, kinds) && CleanScript(w).tmp == w.tmp
    ensures OtherKind !in kinds && (kinds != {} ==> Deployment in kinds) && (w.left >= 3 ==> Deployment in kinds)
    ensures w.left >= |CLEAN_COMMANDS| ==>
              !CleanScript(w).halted && forall k: Kind :: k != OtherKind ==> k in kinds
  {
    hide RunAll, KindsOf, WithoutLabelled;
    DeletesEffect(w, CLEAN_COMMANDS);
    var n := Min(w.left, |CLEAN_COMMANDS|);
    kinds := KindsOf(CLEAN_COMMANDS[..n]);
    CleanOrder(n);
    if n == |CLEAN_COMMANDS| {
      assert CLEAN_COMMANDS[..n] == CLEAN_COMMANDS;
      CleanKinds();
    }
  }

  /** The kinds in the order clean.sh names them. */
  const CLEANED: seq<Kind> :=
    [Deployment, Service, Ingress, PersistentVolume, PersistentVolumeClaim, Secret, ConfigMap,
     ServiceAccount, ClusterRole, ClusterRoleBinding, Role, RoleBinding]

  /** Cut behind `n` kinds, it has deleted the labelled resources of those and no others. */
  lemma CleanedSoFar(w: World, n: nat)
    requires !w.halted && n <= 12 && w.left == 2 + n
    ensures forall k :: k in CleanScript(w).cluster <==>
              k in w.cluster && !(w.cluster[k].labelled && k.kind in CLEANED[..n])
    ensures forall k :: k in CleanScript(w).cluster ==> CleanScript(w).cluster[k] == w.cluster[k]
  {
    OnlyDeletes();
    hide RunAll, KindsOf, CLEAN_COMMANDS, CLEANED;
    DeletesEffect(w, CLEAN_COMMANDS);
    CleanedKinds(n);
  }

  lemma OnlyDeletes()
    ensures forall i :: 0 <= i < |CLEAN_COMMANDS| ==> CLEAN_COMMANDS[i].External? || CLEAN_COMMANDS[i].DeleteLabelled?
  {
  }

  lemma CleanedKinds(n: nat)
    requires n <= 12
    ensures |CLEAN_COMMANDS| == 15 && |CLEANED| == 12
    ensures forall kind :: kind in KindsOf(CLEAN_COMMANDS[..2 + n]) <==> kind in CLEANED[..n]
  {
    var cmds := CLEAN_COMMANDS[..2 + n];
    assert forall i :: 0 <= i < 12 ==> CLEAN_COMMANDS[i + 2] == DeleteLabelled(CLEANED[i]);
    forall kind ensures kind in KindsOf(cmds) <==> kind in CLEANED[..n] {
      if kind in KindsOf(cmds) {
        var i :| 0 <= i < |cmds| && cmds[i].DeleteLabelled? && cmds[i].kind == kind;
        assert i >= 2 && CLEANED[..n][i - 2] == kind;
      }
      if kind in CLEANED[..n] {
        var i :| 0 <= i < n && CLEANED[i] == kind;
        assert cmds[i + 2] == DeleteLabelled(kind);
      }
    }
  }

  // ----- histories -----

  ghost predicate NothingLabelled(base: Resources) {
    forall k :: k in base && k.kind != OtherKind ==> !base[k].labelled
  }

  /** clean.sh may be part of the history if nothing but this deployment carries its label. */
  ghost predicate MayClean(base: Resources, history: seq<Event>) {
    (exists e :: e in history && e.Clean?) ==> NothingLabelled(base)
  }

  /** The run `e` on `w` does harm. */
  ghost predicate Harmful(s: Setup, steps: seq<Step>, w: World, e: Event) {
    e.Deploy? && !Harmless(s, Prologue(Fresh(w, e.cut, e.failing)), e.cont, steps, 0)
  }

  /** Any queries may fail, but no run does harm. */
  ghost predicate Allowed(s: Setup, w0: World, steps: seq<Step>, history: seq<Event>) {
    && MayClean(w0.cluster, history)
    && forall j :: 0 <= j < |history| ==> !Harmful(s, steps, Replay(s, w0, steps, history[..j]), history[j])
  }

  ghost predicate SeesDeployments(e: Event) {
    e.Deploy? ==> forall q :: q in e.failing ==> q.kind != Deployment
  }

  /** A condition on the failing queries alone. */
  lemma Sighted(s: Setup, w: World, steps: seq<Step>, e: Event)
    requires SeesDeployments(e)
    ensures !Harmful(s, steps, w, e)
  {
    if e.Deploy? {
      EpilogueKeepsCluster(Fresh(w, e.cut, e.failing));
      NothingHarmed(s, Prologue(Fresh(w, e.cut, e.failing)), e.cont, steps, 0);
    }
  }

  lemma SightedIsAllowed(s: Setup, w0: World, steps: seq<Step>, history: seq<Event>)
    requires MayClean(w0.cluster, history) && forall e :: e in history ==> SeesDeployments(e)
    ensures Allowed(s, w0, steps, history)
  {
    forall j | 0 <= j < |history| ensures !Harmful(s, steps, Replay(s, w0, steps, history[..j]), history[j]) {
      Sighted(s, Replay(s, w0, steps, history[..j]), steps, history[j]);
    }
  }

  lemma AllowedFront(s: Setup, w0: World, steps: seq<Step>, front: seq<Event>, e: Event)
    ensures Allowed(s, w0, steps, front + [e])
       <==> && Allowed(s, w0, steps, front) && MayClean(w0.cluster, [e])
            && !Harmful(s, steps, Replay(s, w0, steps, front), e)
  {
    hide Harmful, Replay, NothingLabelled;
    var history := front + [e];
    assert history[..|front|] == front && history[|front|] == e;
    assert forall j :: 0 <= j < |front| ==> history[..j] == front[..j] && history[j] == front[j];
    assert forall d :: d in history <==> d in front || d == e;
    assert e in [e] && e in history;
  }

  ghost predicate Starts(s: Setup, w0: World, steps: seq<Step>) {
    GoodPlan(s, w0.cluster, steps) && TidyTmp(w0.tmp)
  }

  /** Losing labelled resources, deployments no later than their files, keeps a step sound. */
  lemma CleanKeepsSound(s: Setup, u: set<Key>, c: Resources, kinds: set<Kind>, step: Step)
    requires GoodStep(s, u, step) && Sound(s, step, c)
    requires kinds != {} ==> Deployment in kinds
    ensures Sound(s, step, WithoutLabelled(c, kinds))
  {
    var c' := WithoutLabelled(c, kinds);
    if step.StartedService? {
      var name, groups := step.name, ParseGroups(step.args).groups;
      var dep := FileKey(s, "deployment-" + name, "");
      assert dep.kind == Deployment;
      forall k | k in ConfigKeys(name, groups) && k in c' ensures FromGroup(c'[k], name, groups, k) {
        assert FromGroup(c[k], name, groups, k);
      }
      if dep in c' {
        assert Configured(c, name, groups) && FileKey(s, "service-" + name, "") in c;
        assert Deployment !in kinds && FileKey(s, "service-" + name, "").kind == Service;
        assert Configured(c', name, groups);
      }
    }
  }

  lemma InvokeKeeps(s: Setup, base: Resources, steps: seq<Step>, w: World, e: Event)
    requires GoodPlan(s, base, steps) && Inv(s, base, steps, w)
    requires MayClean(base, [e]) && !Harmful(s, steps, w, e)
    ensures Inv(s, base, steps, Invoke(s, w, steps, e))
  {
    assert e in [e];
    match e
    case Deploy(cont, cut, failing) =>
      DeployEffect(s, base, steps, Fresh(w, cut, failing), cont);
    case Clean(cut) =>
      var kinds := CleanEffect(Fresh(w, cut));
      forall i | 0 <= i < |steps| ensures Sound(s, steps[i], WithoutLabelled(w.cluster, kinds)) {
        CleanKeepsSound(s, Universe(s, base, steps), w.cluster, kinds, steps[i]);
      }
  }

  lemma StartInv(s: Setup, w0: World, steps: seq<Step>)
    requires Starts(s, w0, steps)
    ensures Inv(s, w0.cluster, steps, w0)
    ensures forall i :: 0 <= i < |steps| ==> !Done(s, steps[i], w0.cluster) && Owned(s, steps[i]) !! w0.cluster.Keys
  {
    forall i | 0 <= i < |steps|
      ensures Sound(s, steps[i], w0.cluster) && !Done(s, steps[i], w0.cluster)
    {
      OwnedNonempty(s, steps[i]);
      assert forall k :: k in Owned(s, steps[i]) ==> k !in w0.cluster;
      if steps[i].StartedService? {
        assert FileKey(s, "deployment-" + steps[i].name, "") in Owned(s, steps[i]);
      }
    }
  }

  lemma OwnedNonempty(s: Setup, step: Step)
    ensures exists k :: k in Owned(s, step)
  {
    match step
    case TLSSecret(name, _, _) => assert Key(Secret, name) in Owned(s, step);
    case GuardedYaml(_, _, file) => assert FileKey(s, file, "") in Owned(s, step);
    case Unguarded(file) => assert FileKey(s, file, "") in Owned(s, step);
    case Volume(name) => assert FileKey(s, "volume-claim", name) in Owned(s, step);
    case StartedService(name, _) => assert FileKey(s, "service-" + name, "") in Owned(s, step);
  }

  lemma StartsGood(s: Setup, w0: World, steps: seq<Step>)
    requires Starts(s, w0, steps)
    ensures GoodPlan(s, w0.cluster, steps)
  {
  }

  lemma ReplayOn(s: Setup, w0: World, steps: seq<Step>, front: seq<Event>, e: Event)
    ensures Replay(s, w0, steps, front + [e]) == Invoke(s, Replay(s, w0, steps, front), steps, e)
  {
    assert (front + [e])[..|front|] == front;
    hide Invoke;
  }

  /** The invariant holds after every history. */
  lemma {:induction false} ReplayKeeps(s: Setup, w0: World, steps: seq<Step>, history: seq<Event>)
    requires Starts(s, w0, steps) && Allowed(s, w0, steps, history)
    ensures Inv(s, w0.cluster, steps, Replay(s, w0, steps, history))
    decreases |history|
  {
    hide *;
    if history == [] {
      StartInv(s, w0, steps);
      ReplayNothing(s, w0, steps);
    } else {
      var front, e := history[..|history| - 1], history[|history| - 1];
      assert history == front + [e];
      AllowedFront(s, w0, steps, front, e);
      StartsGood(s, w0, steps);
      ReplayKeeps(s, w0, steps, front);
      InvokeKeeps(s, w0.cluster, steps, Replay(s, w0, steps, front), e);
      ReplayOn(s, w0, steps, front, e);
    }
  }

  lemma ReplayNothing(s: Setup, w0: World, steps: seq<Step>)
    ensures Replay(s, w0, steps, []) == w0
  {
  }

  // ----- convergence -----

  /** The world after one uncut run on the initial world. */
  function Ideal(s: Setup, w0: World, steps: seq<Step>): World {
    Invoke(s, w0, steps, Deploy(true, TotalCost(steps)))
  }

  lemma IdealIsComplete(s: Setup, w0: World, steps: seq<Step>)
    requires Starts(s, w0, steps)
    ensures var w := Ideal(s, w0, steps);
            && !w.halted && Inv(s, w0.cluster, steps, w)
            && forall i :: 0 <= i < |steps| ==> AllLabelled(s, steps[i], w.cluster) && Done(s, steps[i], w.cluster)
  {
    StartInv(s, w0, steps);
    Sighted(s, w0, steps, Deploy(true, TotalCost(steps)));
    DeployEffect(s, w0.cluster, steps, Fresh(w0, TotalCost(steps)), true);
  }

  ghost predicate IsTLS(steps: seq<Step>, k: Key) {
    exists i :: 0 <= i < |steps| && steps[i].TLSSecret? && k == Key(Secret, steps[i].name)
  }

  /**
    `c` is `ideal`, except that a TLS secret that was there unlabelled before the run keeps lacking
    its label.
   */
  ghost predicate Agrees(steps: seq<Step>, before: Resources, c: Resources, ideal: Resources) {
    && c.Keys == ideal.Keys
    && forall k :: k in c ==>
         || c[k] == ideal[k]
         || (IsTLS(steps, k) && k in before && !before[k].labelled && c[k] == before[k]
             && c[k] == ideal[k].(labelled := false))
  }

  lemma CompleteKeys(s: Setup, base: Resources, steps: seq<Step>, w: World)
    requires Inv(s, base, steps, w) && forall i :: 0 <= i < |steps| ==> Done(s, steps[i], w.cluster)
    ensures w.cluster.Keys == Universe(s, base, steps)
  {
  }

  lemma SameMake(s: Setup, c: Resources, c': Resources, step: Step, k: Key)
    requires Sound(s, step, c) && Sound(s, step, c') && Done(s, step, c) && Done(s, step, c') && k in Owned(s, step)
    ensures k in c && k in c' && c[k].files == c'[k].files
    ensures step.TLSSecret? || (c[k] == c'[k] && c[k].labelled)
  {
    if step.StartedService? && k in ConfigKeys(step.name, ParseGroups(step.args).groups) {
      var groups := ParseGroups(step.args).groups;
      var g :| g in groups && ConfigKey(step.name, g.flag) == k;
      assert FileKey(s, "deployment-" + step.name, "") in Owned(s, step);
      assert Configured(c, step.name, groups) && Configured(c', step.name, groups);
    }
  }

  lemma CompleteAgrees(s: Setup, base: Resources, steps: seq<Step>, w: World, w': World, ideal: World, cont: bool)
    requires Inv(s, base, steps, w') && Inv(s, base, steps, ideal)
    requires DeployResult(s, w, w', cont, steps) && !w'.halted
    requires forall i :: 0 <= i < |steps| ==>
      AllLabelled(s, steps[i], ideal.cluster) && Done(s, steps[i], ideal.cluster)
    ensures Agrees(steps, w.cluster, w'.cluster, ideal.cluster)
  {
    CompleteKeys(s, base, steps, w');
    CompleteKeys(s, base, steps, ideal);
    var c, id := w'.cluster, ideal.cluster;
    forall k | k in c
      ensures c[k] == id[k]
              || (IsTLS(steps, k) && k in w.cluster && !w.cluster[k].labelled && c[k] == w.cluster[k]
                  && c[k] == id[k].(labelled := false))
    {
      if k !in base {
        var i :| 0 <= i < |steps| && k in Owned(s, steps[i]);
        SameMake(s, c, id, steps[i], k);
        assert Fate(s, steps[i], w, w', true);
        assert id[k].labelled;
        if steps[i].TLSSecret? {
          assert Owned(s, steps[i]) == {k};
          assert k == Key(Secret, steps[i].name);
          if !c[k].labelled {
            assert Done(s, steps[i], w.cluster);
          }
        }
      }
    }
  }

  /**
    Convergence. Whatever history came before, a run of deploy.sh that is not cut and has no failing
    query completes unless a step is blocked: a step without a guard, or one that -c makes unconditional,
    whose resource is already there. A run that completes arrives where one uncut run would have, and
    leaves no tmp.
   */
  lemma Converges(s: Setup, w0: World, steps: seq<Step>, history: seq<Event>, e: Event)
    requires Starts(s, w0, steps) && Allowed(s, w0, steps, history)
    requires e.Deploy? && !Harmful(s, steps, Replay(s, w0, steps, history), e)
    ensures Arrives(s, w0, steps, Replay(s, w0, steps, history), e)
  {
    ReplayKeeps(s, w0, steps, history);
    hide *;
    ConvergesFrom(s, w0, steps, Replay(s, w0, steps, history), e);
  }

  /** Where the run `e` on `w` gets. */
  ghost predicate Arrives(s: Setup, w0: World, steps: seq<Step>, w: World, e: Event)
    requires e.Deploy?
  {
    var w' := Invoke(s, w, steps, e);
    && (AnyBlocked(s, w.cluster, e.cont, steps, 0) ==> w'.halted)
    && (e.cut >= TotalCost(steps) && e.failing == {} && !AnyBlocked(s, w.cluster, e.cont, steps, 0) ==> !w'.halted)
    && (!w'.halted ==>
          && Agrees(steps, w.cluster, w'.cluster, Ideal(s, w0, steps).cluster)
          && !w'.tmpDir && w'.tmp == {})
  }

  /** All it takes is the invariant. */
  lemma ConvergesFrom(s: Setup, w0: World, steps: seq<Step>, w: World, e: Event)
    requires Starts(s, w0, steps) && Inv(s, w0.cluster, steps, w) && e.Deploy? && !Harmful(s, steps, w, e)
    ensures Arrives(s, w0, steps, w, e)
  {
    DeployEffect(s, w0.cluster, steps, Fresh(w, e.cut, e.failing), e.cont);
    IdealIsComplete(s, w0, steps);
    var w' := Invoke(s, w, steps, e);
    if !w'.halted {
      CompleteAgrees(s, w0.cluster, steps, Fresh(w, e.cut, e.failing), w', Ideal(s, w0, steps), e.cont);
    }
    hide GoodPlan, Inv, AnyBlocked, Agrees, DeployScript;
  }

  /** With CONTINUE=1 and every step guarded, nothing can block: the next uncut run always completes. */
  lemma GuardedConverges(s: Setup, w0: World, steps: seq<Step>, history: seq<Event>, cut: nat)
    requires Starts(s, w0, steps) && Allowed(s, w0, steps, history)
    requires (forall i :: 0 <= i < |steps| ==> !steps[i].Unguarded?) && cut >= TotalCost(steps)
    ensures var w := Replay(s, w0, steps, history);
            var w' := Invoke(s, w, steps, Deploy(true, cut));
            !w'.halted && Agrees(steps, w.cluster, w'.cluster, Ideal(s, w0, steps).cluster)
  {
    Sighted(s, Replay(s, w0, steps, history), steps, Deploy(true, cut));
    Converges(s, w0, steps, history, Deploy(true, cut));
  }

  // ----- what a history leaves -----

  /**
    After every history, a deployment that exists has its service and all its secrets and configmaps,
    labelled and current.
   */
  lemma DeploymentsAreConfigured(s: Setup, w0: World, steps: seq<Step>, history: seq<Event>, i: nat)
    requires Starts(s, w0, steps) && Allowed(s, w0, steps, history) && i < |steps| && steps[i].StartedService?
    ensures var c := Replay(s, w0, steps, history).cluster;
            FileKey(s, "deployment-" + steps[i].name, "") in c ==>
              && FileKey(s, "service-" + steps[i].name, "") in c
              && Configured(c, steps[i].name, ParseGroups(steps[i].args).groups)
  {
    ReplayKeeps(s, w0, steps, history);
    SoundAt(s, w0.cluster, steps, Replay(s, w0, steps, history), i);
    hide Starts, GoodPlan, Inv, Allowed, Replay;
  }

  lemma SoundAt(s: Setup, base: Resources, steps: seq<Step>, w: World, i: nat)
    requires Inv(s, base, steps, w) && i < |steps|
    ensures Sound(s, steps[i], w.cluster)
  {
  }

  /** A TLS secret that lacks its label never gets it back from deploy.sh, whatever the options. */
  lemma LostLabelStaysLost(s: Setup, w0: World, steps: seq<Step>, history: seq<Event>, e: Event, i: nat)
    requires Starts(s, w0, steps) && Allowed(s, w0, steps, history)
    requires e.Deploy? && !Harmful(s, steps, Replay(s, w0, steps, history), e)
    requires i < |steps| && steps[i].TLSSecret?
    ensures var k, c := Key(Secret, steps[i].name), Replay(s, w0, steps, history).cluster;
            var c' := Invoke(s, Replay(s, w0, steps, history), steps, e).cluster;
            k in c && !c[k].labelled ==> k in c' && !c'[k].labelled
  {
    hide *;
    ReplayKeeps(s, w0, steps, history);
    StartsGood(s, w0, steps);
    SecretKept(s, w0.cluster, steps, Replay(s, w0, steps, history), e, i);
  }

  lemma SecretKept(s: Setup, base: Resources, steps: seq<Step>, w: World, e: Event, i: nat)
    requires GoodPlan(s, base, steps) && Inv(s, base, steps, w) && e.Deploy? && !Harmful(s, steps, w, e)
    requires i < |steps| && steps[i].TLSSecret?
    ensures var k, c' := Key(Secret, steps[i].name), Invoke(s, w, steps, e).cluster;
            k in w.cluster ==> k in c' && c'[k] == w.cluster[k]
  {
    var w1 := Fresh(w, e.cut, e.failing);
    DeployEffect(s, base, steps, w1, e.cont);
    hide GoodPlan, Inv, DeployScript, AnyBlocked;
    assert Fate(s, steps[i], w1, Invoke(s, w, steps, e), true);
    assert Owned(s, steps[i]) == {Key(Secret, steps[i].name)};
  }

  // ----- clean.sh as the inverse -----

  lemma OwnedKinds(s: Setup, u: set<Key>, step: Step, k: Key)
    requires GoodStep(s, u, step) && k in Owned(s, step)
    ensures k.kind != OtherKind
  {
  }

  function Unlabelled(c: Resources, base: Resources): Resources {
    map k | k in c && (k in base || !c[k].labelled) :: c[k]
  }

  lemma Filtered(s: Setup, base: Resources, steps: seq<Step>, w: World, kinds: set<Kind>)
    requires GoodPlan(s, base, steps) && Inv(s, base, steps, w) && NothingLabelled(base)
    requires OtherKind !in kinds && forall k: Kind :: k != OtherKind ==> k in kinds
    ensures WithoutLabelled(w.cluster, kinds) == Unlabelled(w.cluster, base)
  {
    forall k | k in w.cluster && k !in base ensures k.kind in kinds {
      var i :| 0 <= i < |steps| && k in Owned(s, steps[i]);
      OwnedKinds(s, Universe(s, base, steps), steps[i], k);
    }
  }

  /** What an uncut clean.sh makes of a state of the plan: the initial resources and the unlabelled rest. */
  lemma CleanFilters(s: Setup, base: Resources, steps: seq<Step>, w: World, cut: nat)
    requires GoodPlan(s, base, steps) && Inv(s, base, steps, w)
    requires NothingLabelled(base) && cut >= |CLEAN_COMMANDS|
    ensures Invoke(s, w, steps, Clean(cut)).cluster == Unlabelled(w.cluster, base)
  {
    var kinds := CleanEffect(Fresh(w, cut));
    Filtered(s, base, steps, w, kinds);
  }

  lemma AllLabelledFilter(s: Setup, base: Resources, steps: seq<Step>, w: World)
    requires Inv(s, base, steps, w)
    requires forall i :: 0 <= i < |steps| ==> AllLabelled(s, steps[i], w.cluster)
    ensures Unlabelled(w.cluster, base) == base
  {
    forall k | k in w.cluster && k !in base ensures w.cluster[k].labelled {
      var i :| 0 <= i < |steps| && k in Owned(s, steps[i]);
      assert AllLabelled(s, steps[i], w.cluster);
    }
  }

  /** One uncut deploy.sh and then clean.sh restore exactly the initial resources. */
  lemma DeployThenClean(s: Setup, w0: World, steps: seq<Step>, cut: nat)
    requires Starts(s, w0, steps) && NothingLabelled(w0.cluster) && cut >= |CLEAN_COMMANDS|
    ensures Invoke(s, Ideal(s, w0, steps), steps, Clean(cut)).cluster == w0.cluster
  {
    IdealIsComplete(s, w0, steps);
    CleanFilters(s, w0.cluster, steps, Ideal(s, w0, steps), cut);
    AllLabelledFilter(s, w0.cluster, steps, Ideal(s, w0, steps));
  }
}
