/**
  Runs that do harm: what they leave, what does not repair it, and what does.
 */
module Harm {
  import opened ArgGroups
  import opened Cluster
  import opened Steps
  import opened Queries
  import opened Reconciler
  import opened Convergence
  import opened WholeTale

  // ----- which runs do harm -----

  lemma HarmStops(s: Setup, base: Resources, steps: seq<Step>, w: World, cont: bool, i: nat)
    requires GoodPlan(s, base, steps) && Inv(s, base, steps, w) && i < |steps| && Harms(s, w, steps[i])
    ensures var w' := RunStep(s, w, cont, steps[i]);
            && w'.halted && !Sound(s, steps[i], w'.cluster) && Harmed(s, base, steps, w', i)
  {
    var step, u := steps[i], Universe(s, base, steps);
    var name, groups := step.name, ParseGroups(step.args).groups;
    var dep := FileKey(s, "deployment-" + name, "");
    CanRunHere(s, base, steps, w, i);
    MisreadLeaves(s, u, w, cont, step);
    MisreadRuns(s, u, w, cont, step);
    AnyStep(s, u, w, cont, step);
    HarmedService(s, u, w.cluster, RunStep(s, w, cont, step).cluster, step);
    HarmedOthers(s, base, steps, w, RunStep(s, w, cont, step), i);
    hide *;
    MakeHarmed(s, base, steps, RunStep(s, w, cont, step), i);
  }

  lemma CanRunHere(s: Setup, base: Resources, steps: seq<Step>, w: World, i: nat)
    requires GoodPlan(s, base, steps) && i < |steps| && w.cluster.Keys <= Universe(s, base, steps)
    requires Sound(s, steps[i], w.cluster)
    ensures CanRun(s, Universe(s, base, steps), w, steps[i])
  {
    assert forall k :: k in Owned(s, steps[i]) ==> k in AllOwned(s, steps);
  }

  /** Step `j` is a service whose deployment is there without all its files; all else is in order. */
  ghost predicate Harmed(s: Setup, base: Resources, steps: seq<Step>, w: World, j: nat)
    requires j < |steps|
  {
    && HarmedStep(s, steps[j], w.cluster)
    && InvBut(s, base, steps, w, j)
  }

  ghost predicate InvBut(s: Setup, base: Resources, steps: seq<Step>, w: World, j: nat) {
    && w.cluster.Keys <= Universe(s, base, steps) && Preserves(base, w.cluster) && TidyTmp(w.tmp)
    && forall i :: 0 <= i < |steps| && i != j ==> Sound(s, steps[i], w.cluster)
  }

  ghost predicate HarmedStep(s: Setup, step: Step, c: Resources) {
    && step.StartedService?
    && var dep := FileKey(s, "deployment-" + step.name, "");
       && FileKey(s, "service-" + step.name, "") in c && dep in c && c[dep].labelled
       && !Configured(c, step.name, ParseGroups(step.args).groups)
       && Sound(s, step, c - {dep})
  }

  lemma MakeHarmed(s: Setup, base: Resources, steps: seq<Step>, w: World, j: nat)
    requires j < |steps| && HarmedStep(s, steps[j], w.cluster) && InvBut(s, base, steps, w, j)
    ensures Harmed(s, base, steps, w, j)
  {
  }

  lemma HarmedService(s: Setup, u: set<Key>, c: Resources, c': Resources, step: Step)
    requires step.StartedService? && GoodStep(s, u, step) && Sound(s, step, c)
    requires FileKey(s, "deployment-" + step.name, "") in c
    requires var groups := ParseGroups(step.args).groups;
             ConfigsMade(c, c', step.name, groups) && !Configured(c', step.name, groups)
    ensures HarmedStep(s, step, c')
  {
    var name, groups := step.name, ParseGroups(step.args).groups;
    var svc, dep := FileKey(s, "service-" + name, ""), FileKey(s, "deployment-" + name, "");
    ConfigKeysAreConfigs(name, groups);
    ServiceKinds(s, u, step);
    hide GoodStep, ParseGroups;
    var d := c' - {dep};
    forall k | k in ConfigKeys(name, groups) && k in d ensures FromGroup(d[k], name, groups, k) {
      assert k in c' && d[k] == c'[k];
    }
  }

  lemma HarmedOthers(s: Setup, base: Resources, steps: seq<Step>, w: World, w': World, i: nat)
    requires GoodPlan(s, base, steps) && Inv(s, base, steps, w) && i < |steps| && steps[i].StartedService?
    requires TmpGrows(w, w') && w'.cluster.Keys <= w.cluster.Keys
    requires SameOutside(w.cluster, w'.cluster, ConfigKeys(steps[i].name, ParseGroups(steps[i].args).groups))
    ensures InvBut(s, base, steps, w', i)
  {
    var keys := ConfigKeys(steps[i].name, ParseGroups(steps[i].args).groups);
    assert keys <= Owned(s, steps[i]);
    assert Preserves(base, w'.cluster) by {
      assert forall k :: k in base ==> k !in Owned(s, steps[i]);
    }
    forall j | 0 <= j < |steps| && j != i ensures Sound(s, steps[j], w'.cluster) {
      Apart(s, base, steps, i, j);
      Undisturbed(s, Universe(s, base, steps), w.cluster, w'.cluster, keys, steps[j]);
    }
  }

  lemma Apart(s: Setup, base: Resources, steps: seq<Step>, i: nat, j: nat)
    requires GoodPlan(s, base, steps) && i < |steps| && j < |steps| && i != j
    ensures Owned(s, steps[i]) !! Owned(s, steps[j])
  {
    if j < i {
      assert Owned(s, steps[j]) !! Owned(s, steps[i]);
    }
  }

  /** A run keeps the invariant if and only if no step of it does harm; if one does, it is the last. */
  lemma {:induction false} StepsExactly(
    s: Setup, base: Resources, steps: seq<Step>, w: World, cont: bool, i: nat) returns (j: nat)
    requires GoodPlan(s, base, steps) && i <= |steps| && Inv(s, base, steps, w)
    ensures var w' := RunSteps(s, w, cont, steps, i);
            && (Inv(s, base, steps, w') <==> Harmless(s, w, cont, steps, i))
            && (!Harmless(s, w, cont, steps, i) ==> w'.halted && j < |steps| && Harmed(s, base, steps, w', j))
    decreases |steps| - i
  {
    hide GoodPlan, Inv, RunStep, Harms, Harmed, Sound, StepResult;
    j := i;
    if i < |steps| {
      var mid := RunStep(s, w, cont, steps[i]);
      if Harms(s, w, steps[i]) {
        HarmStops(s, base, steps, w, cont, i);
        HaltedStays(s, mid, cont, steps, i + 1);
        NotSound(s, base, steps, mid, i);
      } else {
        StepKeeps(s, base, steps, w, cont, i);
        j := StepsExactly(s, base, steps, mid, cont, i + 1);
      }
    }
  }

  lemma NotSound(s: Setup, base: Resources, steps: seq<Step>, w: World, i: nat)
    requires i < |steps| && !Sound(s, steps[i], w.cluster)
    ensures !Inv(s, base, steps, w)
  {
  }

  /**
    A run of either script, whatever queries fail and wherever it is cut, keeps the invariant if and only
    if it does no harm; if it does, one service is harmed and all else is in order.
   */
  lemma InvokeExactly(s: Setup, base: Resources, steps: seq<Step>, w: World, e: Event) returns (j: nat)
    requires GoodPlan(s, base, steps) && Inv(s, base, steps, w) && MayClean(base, [e])
    ensures var w' := Invoke(s, w, steps, e);
            && (Inv(s, base, steps, w') <==> !Harmful(s, steps, w, e))
            && (Harmful(s, steps, w, e) ==> j < |steps| && Harmed(s, base, steps, w', j))
  {
    j := 0;
    if Harmful(s, steps, w, e) {
      var w1 := Fresh(w, e.cut, e.failing);
      PrologueKeepsInv(s, base, steps, w, e.cut, e.failing);
      j := StepsExactly(s, base, steps, Prologue(w1), e.cont, 0);
      HarmedToTheEnd(s, base, steps, RunSteps(s, Prologue(w1), e.cont, steps, 0), j);
      hide GoodPlan, Inv, Prologue, Epilogue, RunSteps, Harmless, Harmed;
    } else {
      InvokeKeeps(s, base, steps, w, e);
    }
  }

  lemma HarmedToTheEnd(s: Setup, base: Resources, steps: seq<Step>, w: World, j: nat)
    requires j < |steps| && Harmed(s, base, steps, w, j)
    ensures Harmed(s, base, steps, Epilogue(w), j) && !Inv(s, base, steps, Epilogue(w))
    ensures forall k :: k in w.cluster <==> k in Epilogue(w).cluster
  {
    EpilogueKeepsCluster(w);
    EpilogueEffect(w);
    HarmedIsUnsound(s, steps[j], w.cluster);
    hide Epilogue, Sound, HarmedStep;
  }

  lemma HarmedIsUnsound(s: Setup, step: Step, c: Resources)
    requires HarmedStep(s, step, c)
    ensures !Sound(s, step, c)
  {
  }

  // ----- what does not repair it -----

  /** The resources of step `j` are what they were. */
  ghost predicate SameOf(s: Setup, step: Step, c: Resources, c': Resources) {
    forall k :: k in Owned(s, step) ==> (k in c <==> k in c') && (k in c && k in c' ==> c[k] == c'[k])
  }

  lemma HarmedAlone(s: Setup, u: set<Key>, w: World, cont: bool, step: Step)
    requires GoodStep(s, u, step) && w.cluster.Keys <= u && HarmedStep(s, step, w.cluster)
    requires forall q :: q in w.failing ==> q.kind != Deployment
    ensures var w' := RunStep(s, w, cont, step);
            w'.cluster == w.cluster && TmpGrows(w, w')
  {
    var svc := "service-" + step.name;
    SeesIff(u, w, Service, step.name, FileKey(s, svc, ""));
    SeesIff(u, w, Deployment, step.name, FileKey(s, "deployment-" + step.name, ""));
    TmpOfYaml(s, w, svc);
    assert ".service-" + step.name == "." + svc;
    hide Sees, StartDeployment, ParseGroups, Sound, CreateFromYaml, Configured, FileKey, IsDotYaml;
  }

  lemma SameStaysHarmed(s: Setup, u: set<Key>, step: Step, c: Resources, c': Resources)
    requires GoodStep(s, u, step) && HarmedStep(s, step, c) && SameOf(s, step, c, c')
    ensures HarmedStep(s, step, c')
  {
    var name, groups := step.name, ParseGroups(step.args).groups;
    var svc, dep := FileKey(s, "service-" + name, ""), FileKey(s, "deployment-" + name, "");
    assert svc in Owned(s, step) && dep in Owned(s, step);
    assert ConfigKeys(name, groups) <= Owned(s, step);
    assert SameOf(s, step, c - {dep}, c' - {dep});
    UndisturbedService(s, c - {dep}, c' - {dep}, step);
    hide GoodStep, ParseGroups, FileKey;
  }

  lemma OtherStep(s: Setup, base: Resources, steps: seq<Step>, w: World, cont: bool, i: nat, j: nat)
    requires GoodPlan(s, base, steps) && InvBut(s, base, steps, w, j) && i < |steps| && j < |steps| && i != j
    requires forall q :: q in w.failing ==> q.kind != Deployment
    ensures var w' := RunStep(s, w, cont, steps[i]);
            && InvBut(s, base, steps, w', j) && w'.failing == w.failing
            && SameOf(s, steps[j], w.cluster, w'.cluster)
  {
    hide *;
    var u := Universe(s, base, steps);
    SoundBut(s, base, steps, w, j, i);
    CanRunHere(s, base, steps, w, i);
    NotMisread(s, w, steps[i]);
    StepEffect(s, u, w, cont, steps[i]);
    StepFrame(s, u, w, RunStep(s, w, cont, steps[i]), cont, steps[i]);
    OthersIn(s, base, steps, w, RunStep(s, w, cont, steps[i]), i, j);
  }

  lemma SoundBut(s: Setup, base: Resources, steps: seq<Step>, w: World, j: nat, i: nat)
    requires InvBut(s, base, steps, w, j) && i < |steps| && i != j
    ensures Sound(s, steps[i], w.cluster) && w.cluster.Keys <= Universe(s, base, steps)
  {
  }

  lemma NotMisread(s: Setup, w: World, step: Step)
    requires forall q :: q in w.failing ==> q.kind != Deployment
    ensures !Misread(s, w, step)
  {
  }

  lemma StepFrame(s: Setup, u: set<Key>, w: World, w': World, cont: bool, step: Step)
    requires StepResult(s, u, w, w', cont, step)
    ensures TmpGrows(w, w') && w'.cluster.Keys <= u && Sound(s, step, w'.cluster)
    ensures SameOutside(w.cluster, w'.cluster, Owned(s, step)) && w'.failing == w.failing
  {
    hide Sound, SameOutside, Owned;
  }

  lemma OthersIn(s: Setup, base: Resources, steps: seq<Step>, w: World, w': World, i: nat, j: nat)
    requires GoodPlan(s, base, steps) && InvBut(s, base, steps, w, j) && i < |steps| && j < |steps| && i != j
    requires TmpGrows(w, w') && w'.cluster.Keys <= Universe(s, base, steps) && Sound(s, steps[i], w'.cluster)
    requires SameOutside(w.cluster, w'.cluster, Owned(s, steps[i]))
    ensures InvBut(s, base, steps, w', j) && SameOf(s, steps[j], w.cluster, w'.cluster)
  {
    hide *;
    BaseKept(s, base, steps, w, w', i, j);
    forall l | 0 <= l < |steps| && l != i
      ensures SameOf(s, steps[l], w.cluster, w'.cluster) && (l != j ==> Sound(s, steps[l], w'.cluster))
    {
      Apart(s, base, steps, i, l);
      OtherSame(s, base, steps, w, w', i, l);
      if l != j {
        SoundBut(s, base, steps, w, j, l);
      }
    }
    MakeInvBut(s, base, steps, w', j);
  }

  lemma BaseKept(s: Setup, base: Resources, steps: seq<Step>, w: World, w': World, i: nat, j: nat)
    requires GoodPlan(s, base, steps) && InvBut(s, base, steps, w, j) && i < |steps|
    requires TmpGrows(w, w') && SameOutside(w.cluster, w'.cluster, Owned(s, steps[i]))
    ensures Preserves(base, w'.cluster) && TidyTmp(w'.tmp)
  {
    hide Sound, GoodStep, Universe;
    assert forall k :: k in base ==> k !in Owned(s, steps[i]);
    hide Owned;
  }

  lemma OtherSame(s: Setup, base: Resources, steps: seq<Step>, w: World, w': World, i: nat, l: nat)
    requires GoodPlan(s, base, steps) && i < |steps| && l < |steps| && Owned(s, steps[i]) !! Owned(s, steps[l])
    requires SameOutside(w.cluster, w'.cluster, Owned(s, steps[i]))
    ensures SameOf(s, steps[l], w.cluster, w'.cluster)
    ensures Sound(s, steps[l], w.cluster) ==> Sound(s, steps[l], w'.cluster)
  {
    Undisturbed(s, Universe(s, base, steps), w.cluster, w'.cluster, Owned(s, steps[i]), steps[l]);
    hide Sound, Owned, GoodStep, Ordered, AllLabelled, Done, Universe;
  }

  lemma MakeInvBut(s: Setup, base: Resources, steps: seq<Step>, w: World, j: nat)
    requires w.cluster.Keys <= Universe(s, base, steps) && Preserves(base, w.cluster) && TidyTmp(w.tmp)
    requires forall i :: 0 <= i < |steps| && i != j ==> Sound(s, steps[i], w.cluster)
    ensures InvBut(s, base, steps, w, j)
  {
    hide Sound, Universe;
  }

  lemma HarmedSteps(s: Setup, base: Resources, steps: seq<Step>, w: World, cont: bool, i: nat, j: nat)
    requires GoodPlan(s, base, steps) && i < |steps| && j < |steps| && Harmed(s, base, steps, w, j)
    requires forall q :: q in w.failing ==> q.kind != Deployment
    ensures var w' := RunStep(s, w, cont, steps[i]);
            && Harmed(s, base, steps, w', j) && w'.failing == w.failing
            && SameOf(s, steps[j], w.cluster, w'.cluster)
  {
    var u := Universe(s, base, steps);
    assert GoodStep(s, u, steps[j]) && w.cluster.Keys <= u;
    var w' := RunStep(s, w, cont, steps[i]);
    if i == j {
      HarmedAlone(s, u, w, cont, steps[i]);
    } else {
      OtherStep(s, base, steps, w, cont, i, j);
    }
    SameStaysHarmed(s, u, steps[j], w.cluster, w'.cluster);
    hide RunStep, GoodPlan, GoodStep, HarmedStep, Sound, Owned, Universe;
  }

  lemma SameOfOn(s: Setup, step: Step, c: Resources, m: Resources, c': Resources)
    requires SameOf(s, step, c, m) && SameOf(s, step, m, c')
    ensures SameOf(s, step, c, c')
  {
    hide Owned;
  }

  lemma {:induction false} HarmedRun(
    s: Setup, base: Resources, steps: seq<Step>, w: World, cont: bool, i: nat, j: nat)
    requires GoodPlan(s, base, steps) && i <= |steps| && j < |steps| && Harmed(s, base, steps, w, j)
    requires forall q :: q in w.failing ==> q.kind != Deployment
    ensures var w' := RunSteps(s, w, cont, steps, i);
            Harmed(s, base, steps, w', j) && SameOf(s, steps[j], w.cluster, w'.cluster)
    decreases |steps| - i
  {
    hide *;
    if i == |steps| {
      SameOfSelf(s, steps[j], w.cluster);
      Unfolded(s, w, cont, steps, i);
    } else {
      var mid := RunStep(s, w, cont, steps[i]);
      HarmedSteps(s, base, steps, w, cont, i, j);
      HarmedRun(s, base, steps, mid, cont, i + 1, j);
      Unfolded(s, w, cont, steps, i);
      SameOfOn(s, steps[j], w.cluster, mid.cluster, RunSteps(s, w, cont, steps, i).cluster);
    }
  }

  lemma Unfolded(s: Setup, w: World, cont: bool, steps: seq<Step>, i: nat)
    requires i <= |steps|
    ensures RunSteps(s, w, cont, steps, i)
         == if i == |steps| then w else RunSteps(s, RunStep(s, w, cont, steps[i]), cont, steps, i + 1)
  {
    hide RunStep;
  }

  lemma SameOfSelf(s: Setup, step: Step, c: Resources)
    ensures SameOf(s, step, c, c)
  {
  }

  lemma HarmedPrologue(s: Setup, base: Resources, steps: seq<Step>, w: World, e: Event, j: nat)
    requires j < |steps| && Harmed(s, base, steps, w, j) && e.Deploy?
    ensures var w1 := Prologue(Fresh(w, e.cut, e.failing));
            Harmed(s, base, steps, w1, j) && w1.failing == e.failing && w1.cluster == w.cluster
  {
    EpilogueKeepsCluster(Fresh(w, e.cut, e.failing));
    hide Prologue, HarmedStep, Sound;
  }

  lemma HarmedInvoke(s: Setup, base: Resources, steps: seq<Step>, w: World, e: Event, j: nat)
    requires GoodPlan(s, base, steps) && j < |steps| && Harmed(s, base, steps, w, j)
    requires e.Deploy? && SeesDeployments(e)
    ensures var w' := Invoke(s, w, steps, e);
            Harmed(s, base, steps, w', j) && SameOf(s, steps[j], w.cluster, w'.cluster)
  {
    var w1 := Prologue(Fresh(w, e.cut, e.failing));
    HarmedPrologue(s, base, steps, w, e, j);
    HarmedRun(s, base, steps, w1, e.cont, 0, j);
    HarmedToTheEnd(s, base, steps, RunSteps(s, w1, e.cont, steps, 0), j);
    EpilogueKeepsCluster(RunSteps(s, w1, e.cont, steps, 0));
    hide GoodPlan, Harmed, Prologue, Epilogue, RunSteps, SameOf;
  }

  ghost predicate AllSee(more: seq<Event>) {
    forall e :: e in more ==> e.Deploy? && SeesDeployments(e)
  }

  lemma LastSees(front: seq<Event>, e: Event)
    requires AllSee(front + [e])
    ensures AllSee(front) && e.Deploy? && SeesDeployments(e)
  {
    hide SeesDeployments;
    assert e in front + [e] && forall d :: d in front ==> d in front + [e];
  }

  /**
    No number of further runs of deploy.sh that see the deployments repairs a harmed service: the deployment
    stays, and its missing or unlabelled secret or configmap stays as it is.
   */
  lemma {:induction false} HarmLasts(
    s: Setup, base: Resources, steps: seq<Step>, w: World, more: seq<Event>, j: nat)
    requires GoodPlan(s, base, steps) && j < |steps| && Harmed(s, base, steps, w, j)
    requires AllSee(more)
    ensures var w' := Replay(s, w, steps, more);
            Harmed(s, base, steps, w', j) && SameOf(s, steps[j], w.cluster, w'.cluster)
    decreases |more|
  {
    hide *;
    if more == [] {
      ReplayNothing(s, w, steps);
      SameOfSelf(s, steps[j], w.cluster);
    } else {
      var front, e := more[..|more| - 1], more[|more| - 1];
      assert more == front + [e];
      LastSees(front, e);
      HarmLasts(s, base, steps, w, front, j);
      ReplayOn(s, w, steps, front, e);
      var m := Replay(s, w, steps, front);
      HarmedInvoke(s, base, steps, m, e, j);
      SameOfOn(s, steps[j], w.cluster, m.cluster, Replay(s, w, steps, more).cluster);
    }
  }

  // ----- what does -----

  lemma WithoutDeployment(c: Resources, dep: Key, kinds: set<Kind>)
    requires dep in c && c[dep].labelled && dep.kind in kinds
    ensures WithoutLabelled(c - {dep}, kinds) == WithoutLabelled(c, kinds)
  {
  }

  lemma CleanKeepsBase(base: Resources, c: Resources, kinds: set<Kind>)
    requires NothingLabelled(base) && Preserves(base, c) && OtherKind !in kinds
    ensures Preserves(base, WithoutLabelled(c, kinds))
  {
  }

  lemma HarmedCleaned(s: Setup, u: set<Key>, step: Step, c: Resources, kinds: set<Kind>)
    requires GoodStep(s, u, step) && HarmedStep(s, step, c) && Deployment in kinds
    ensures Sound(s, step, WithoutLabelled(c, kinds))
  {
    var dep := FileKey(s, "deployment-" + step.name, "");
    ServiceKinds(s, u, step);
    WithoutDeployment(c, dep, kinds);
    CleanKeepsSound(s, u, c - {dep}, kinds, step);
    hide GoodStep, Sound, WithoutLabelled, Configured;
  }

  /** A clean.sh that gets as far as deleting the deployments puts everything in order again. */
  lemma CleanRepairs(s: Setup, base: Resources, steps: seq<Step>, w: World, cut: nat, j: nat)
    requires GoodPlan(s, base, steps) && j < |steps| && Harmed(s, base, steps, w, j)
    requires NothingLabelled(base) && cut >= 3
    ensures Inv(s, base, steps, Invoke(s, w, steps, Clean(cut)))
  {
    var u := Universe(s, base, steps);
    var kinds := CleanEffect(Fresh(w, cut));
    var c' := WithoutLabelled(w.cluster, kinds);
    CleanKeepsBase(base, w.cluster, kinds);
    assert c'.Keys <= u;
    hide CleanScript, WithoutLabelled, HarmedStep, Sound, Universe, GoodStep, NothingLabelled, CLEAN_COMMANDS;
    forall i | 0 <= i < |steps| ensures Sound(s, steps[i], c') {
      if i == j {
        HarmedCleaned(s, u, steps[i], w.cluster, kinds);
      } else {
        CleanKeepsSound(s, u, w.cluster, kinds, steps[i]);
      }
    }
  }

  /** After it, a run of deploy.sh in which every step is guarded arrives where a first run would have. */
  lemma CleanThenDeploy(s: Setup, w0: World, steps: seq<Step>, w: World, cut: nat, cut': nat, j: nat)
    requires Starts(s, w0, steps) && j < |steps| && Harmed(s, w0.cluster, steps, w, j)
    requires NothingLabelled(w0.cluster) && cut >= 3
    requires (forall i :: 0 <= i < |steps| ==> !steps[i].Unguarded?) && cut' >= TotalCost(steps)
    ensures var w1 := Invoke(s, w, steps, Clean(cut));
            var w2 := Invoke(s, w1, steps, Deploy(true, cut'));
            !w2.halted && Agrees(steps, w1.cluster, w2.cluster, Ideal(s, w0, steps).cluster)
  {
    var w1, e := Invoke(s, w, steps, Clean(cut)), Deploy(true, cut');
    StartsGood(s, w0, steps);
    CleanRepairs(s, w0.cluster, steps, w, cut, j);
    Sighted(s, w1, steps, e);
    hide Invoke, Starts, GoodPlan, Inv, Harmed, Agrees, Done, NothingLabelled, Harmful, TotalCost;
    ConvergesFrom(s, w0, steps, w1, e);
  }

  // ----- the real steps, were they all guarded -----

  /** Finished steps none of whose queries fail take no command. */
  lemma {:induction false} FreeSteps(s: Setup, base: Resources, steps: seq<Step>, w: World, cont: bool, i: nat)
    requires GoodPlan(s, base, steps) && Inv(s, base, steps, w) && i <= |steps| && !w.halted
    requires forall j :: 0 <= j < i ==> Free(s, w, cont, steps[j])
    ensures RunSteps(s, w, cont, steps, 0) == RunSteps(s, w, cont, steps, i)
  {
    hide *;
    if i > 0 {
      FreeSteps(s, base, steps, w, cont, i - 1);
      CanRunStep(s, base, steps, w, i - 1);
      IsFree(s, Universe(s, base, steps), w, cont, steps[i - 1]);
      Unfolded(s, w, cont, steps, i - 1);
    }
  }

  ghost predicate Free(s: Setup, w: World, cont: bool, step: Step) {
    Done(s, step, w.cluster) && !Repeats(cont, step) && Asked(step) !! w.failing
  }

  lemma IsFree(s: Setup, u: set<Key>, w: World, cont: bool, step: Step)
    requires CanRun(s, u, w, step) && Free(s, w, cont, step) && !w.halted
    ensures RunStep(s, w, cont, step) == w
  {
    hide CanRun, Done, Asked, Harms;
    FailedQueryStops(s, u, w, cont, step);
  }

  const BLIND: set<Query> := {Query(Deployment, "girder")}

  lemma RealGuardedSteps(i: nat)
    requires i < 9
    ensures |GUARDED_STEPS| == 13 && GUARDED_STEPS[9] == StartedService("girder", GIRDER_ARGS)
    ensures !GUARDED_STEPS[i].Unguarded? && Asked(GUARDED_STEPS[i]) !! BLIND
  {
    hide MANIFESTS;
    assert GUARDED_STEPS[i] == if i < 6 then STEPS[i] else STEPS[i + 2];
  }

  lemma GirderUnharmed(left: nat)
    ensures Seen(BLIND, "girder", GIRDER_GROUPS) == 1
    ensures Unharmed(GIRDER_GROUPS, left, 1) <==> left != 1 && left != 2
  {
    DistinctIsCurrent(GIRDER_GROUPS, Whole(left, 1));
  }

  lemma GirderMisread(w: World, cont: bool)
    requires Done(SETUP, StartedService("girder", GIRDER_ARGS), w.cluster) && !w.halted && w.failing == BLIND
    ensures var step := StartedService("girder", GIRDER_ARGS);
            && Misread(SETUP, w, step) && ParseGroups(step.args).groups == GIRDER_GROUPS
            && (Harms(SETUP, w, step) <==> w.left == 1 || w.left == 2)
  {
    ArgsParse();
    GirderUnharmed(w.left);
    assert FileKey(SETUP, "deployment-" + "girder", "") in Owned(SETUP, StartedService("girder", GIRDER_ARGS));
    hide ParseGroups, MANIFESTS, Unharmed, Seen, FileKey;
  }

  lemma MakeFree(w: World, cont: bool, step: Step)
    requires cont && !step.Unguarded? && Asked(step) !! w.failing && Done(SETUP, step, w.cluster)
    ensures Free(SETUP, w, cont, step)
  {
    hide Done, Asked;
  }

  lemma GirderStays(c: Resources, c': Resources)
    requires Done(SETUP, StartedService("girder", GIRDER_ARGS), c) && ConfigsMade(c, c', "girder", GIRDER_GROUPS)
    ensures Key(Deployment, "girder") in c'
  {
    DeploymentManifests("girder");
    ConfigKeysAreConfigs("girder", GIRDER_GROUPS);
    hide MANIFESTS, FromGroup, ParseGroups;
  }

  /** The run up to and including the misreading step, from a world where all steps are finished. */
  lemma GirderRun(base: Resources, w: World, cont: bool)
    requires GoodPlan(SETUP, base, GUARDED_STEPS) && Inv(SETUP, base, GUARDED_STEPS, w) && w.failing == BLIND
    requires cont && !w.halted && |GUARDED_STEPS| == 13
    requires forall i :: 0 <= i < |GUARDED_STEPS| ==> Done(SETUP, GUARDED_STEPS[i], w.cluster)
    ensures var w' := RunSteps(SETUP, w, cont, GUARDED_STEPS, 0);
            && (w'.cluster == w.cluster <==> w.left != 1 && w.left != 2)
            && (Configured(w'.cluster, "girder", GIRDER_GROUPS) <==> w.left != 1 && w.left != 2)
            && Key(Deployment, "girder") in w'.cluster
  {
    hide *;
    var step := StartedService("girder", GIRDER_ARGS);
    RealGuardedSteps(0);
    assert GUARDED_STEPS[9] == step;
    forall j | 0 <= j < 9 ensures Free(SETUP, w, cont, GUARDED_STEPS[j]) {
      RealGuardedSteps(j);
      MakeFree(w, cont, GUARDED_STEPS[j]);
    }
    FreeSteps(SETUP, base, GUARDED_STEPS, w, cont, 9);
    Unfolded(SETUP, w, cont, GUARDED_STEPS, 9);
    GirderMisread(w, cont);
    CanRunStep(SETUP, base, GUARDED_STEPS, w, 9);
    var u, mid := Universe(SETUP, base, GUARDED_STEPS), RunStep(SETUP, w, cont, step);
    MisreadLeaves(SETUP, u, w, cont, step);
    HaltedStays(SETUP, mid, cont, GUARDED_STEPS, 10);
    GirderStays(w.cluster, mid.cluster);
  }

  /**
    With lines 97 and 98 guarded, girder can be harmed: in a run on a finished deployment in which the
    query for girder's deployment fails. It loses its labelled, current configmap if and only if that run
    is cut after four or five commands: behind the deletion, or behind the creation. Otherwise nothing
    has changed.
   */
  lemma RealHarm(w0: World, w: World, cut: nat)
    requires FreshStart(w0) && Inv(SETUP, w0.cluster, GUARDED_STEPS, w)
    requires forall i :: 0 <= i < |GUARDED_STEPS| ==> Done(SETUP, GUARDED_STEPS[i], w.cluster)
    ensures var c := Invoke(SETUP, w, GUARDED_STEPS, Deploy(true, cut, BLIND)).cluster;
            && Key(Deployment, "girder") in c
            && (Configured(c, "girder", GIRDER_GROUPS) <==> cut != 4 && cut != 5)
            && (c == w.cluster <==> cut != 4 && cut != 5)
  {
    hide *;
    var base, w1 := w0.cluster, Prologue(Fresh(w, cut, BLIND));
    RealGuardedSteps(0);
    FreshIsGood(w0);
    PrologueKeepsInv(SETUP, base, GUARDED_STEPS, w, cut, BLIND);
    InvokeIs(SETUP, w, GUARDED_STEPS, cut, BLIND);
    EpilogueKeepsCluster(RunSteps(SETUP, w1, true, GUARDED_STEPS, 0));
    if cut < 3 {
      HaltedStays(SETUP, w1, true, GUARDED_STEPS, 0);
      GirderComplete(base, w);
    } else {
      GirderRun(base, w1, true);
    }
  }

  lemma FreshIsGood(w0: World)
    requires FreshStart(w0)
    ensures GoodPlan(SETUP, w0.cluster, GUARDED_STEPS) && Starts(SETUP, w0, GUARDED_STEPS)
  {
    hide NoClash, GoodPlan, GUARDED_STEPS;
    GuardedPlanIsGood(w0.cluster);
  }

  lemma InvokeIs(s: Setup, w: World, steps: seq<Step>, cut: nat, failing: set<Query>)
    ensures var w1 := Prologue(Fresh(w, cut, failing));
            && Invoke(s, w, steps, Deploy(true, cut, failing)) == Epilogue(RunSteps(s, w1, true, steps, 0))
            && w1.cluster == w.cluster && w1.failing == failing
            && (w1.halted <==> cut < 3) && (cut >= 3 ==> w1.left == cut - 3)
  {
    hide Epilogue, RunSteps;
  }

  lemma GirderComplete(base: Resources, w: World)
    requires Inv(SETUP, base, GUARDED_STEPS, w) && |GUARDED_STEPS| == 13
    requires GUARDED_STEPS[9] == StartedService("girder", GIRDER_ARGS)
    requires Done(SETUP, GUARDED_STEPS[9], w.cluster)
    ensures Key(Deployment, "girder") in w.cluster && Configured(w.cluster, "girder", GIRDER_GROUPS)
  {
    ArgsParse();
    DeploymentManifests("girder");
    assert Sound(SETUP, GUARDED_STEPS[9], w.cluster);
    assert FileKey(SETUP, "deployment-" + "girder", "") in Owned(SETUP, GUARDED_STEPS[9]);
    hide MANIFESTS, ParseGroups, GUARDED_STEPS, Inv, FromGroup, Configured;
  }

  /** And it is: after one uncut run. What is left then is harmed for good, but for clean.sh. */
  lemma RealHarmOccurs(w0: World, cut: nat, more: seq<Event>)
    requires FreshStart(w0) && (cut == 4 || cut == 5) && AllSee(more)
    ensures var w := Invoke(SETUP, Ideal(SETUP, w0, GUARDED_STEPS), GUARDED_STEPS, Deploy(true, cut, BLIND));
            var c := Replay(SETUP, w, GUARDED_STEPS, more).cluster;
            Key(Deployment, "girder") in c && !Configured(c, "girder", GIRDER_GROUPS)
  {
    hide *;
    var base, w, e := w0.cluster, Ideal(SETUP, w0, GUARDED_STEPS), Deploy(true, cut, BLIND);
    FreshIsGood(w0);
    IdealIsComplete(SETUP, w0, GUARDED_STEPS);
    RealHarm(w0, w, cut);
    NoClean(base, e);
    var w' := Invoke(SETUP, w, GUARDED_STEPS, e);
    var j := InvokeExactly(SETUP, base, GUARDED_STEPS, w, e);
    RealGuardedSteps(0);
    GirderUnsound(w'.cluster);
    NotSound(SETUP, base, GUARDED_STEPS, w', 9);
    HarmedIsOne(SETUP, base, GUARDED_STEPS, w', j, 9);
    HarmLasts(SETUP, base, GUARDED_STEPS, w', more, 9);
    GirderHarmed(base, Replay(SETUP, w', GUARDED_STEPS, more));
  }

  lemma NoClean(base: Resources, e: Event)
    requires e.Deploy?
    ensures MayClean(base, [e])
  {
  }

  lemma GirderUnsound(c: Resources)
    requires Key(Deployment, "girder") in c && !Configured(c, "girder", GIRDER_GROUPS)
    ensures !Sound(SETUP, StartedService("girder", GIRDER_ARGS), c)
  {
    ArgsParse();
    DeploymentManifests("girder");
    hide MANIFESTS, ParseGroups, FromGroup, Configured;
  }

  lemma HarmedIsOne(s: Setup, base: Resources, steps: seq<Step>, w: World, j: nat, i: nat)
    requires j < |steps| && Harmed(s, base, steps, w, j) && i < |steps| && !Sound(s, steps[i], w.cluster)
    ensures i == j
  {
    hide HarmedStep, Sound;
  }

  lemma GirderHarmed(base: Resources, w: World)
    requires |GUARDED_STEPS| == 13 && GUARDED_STEPS[9] == StartedService("girder", GIRDER_ARGS)
    requires Harmed(SETUP, base, GUARDED_STEPS, w, 9)
    ensures Key(Deployment, "girder") in w.cluster && !Configured(w.cluster, "girder", GIRDER_GROUPS)
  {
    ArgsParse();
    DeploymentManifests("girder");
    hide MANIFESTS, ParseGroups, Configured, Sound, InvBut, GUARDED_STEPS;
  }
}
