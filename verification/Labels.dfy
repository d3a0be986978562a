/**
  Which created resources lack `app=WholeTale`, after any history of runs of both scripts, and what
  clean.sh leaves behind therefore.
 */
module Labels {
  import opened ArgGroups
  import opened Cluster
  import opened Steps
  import opened Queries
  import opened Reconciler
  import opened Convergence

  // ----- TLS secrets -----

  ghost predicate Lacks(c: Resources, k: Key) {
    k in c && !c[k].labelled
  }

  /** Created by the last command before the cut; labelled if one more is left. */
  lemma TLSCreated(s: Setup, u: set<Key>, w: World, cont: bool, step: Step)
    requires step.TLSSecret? && CanRun(s, u, w, step) && Key(Secret, step.name) !in w.cluster
    ensures var k, w' := Key(Secret, step.name), RunStep(s, w, cont, step);
            && (k in w'.cluster <==> !w.halted && w.left >= 1)
            && (Lacks(w'.cluster, k) <==> !w.halted && w.left == 1)
            && (w'.halted <==> w.halted || w.left <= 1)
  {
    SeesIff(u, w, Secret, step.name, Key(Secret, step.name));
    hide Sees, Identifies;
  }

  /** The world in which step number `i` begins, or in which the run has stopped before it. */
  function Reach(s: Setup, w: World, cont: bool, steps: seq<Step>, i: nat): World
    requires i <= |steps|
  {
    if i == 0 then w else RunStep(s, Reach(s, w, cont, steps, i - 1), cont, steps[i - 1])
  }

  lemma {:induction false} ReachesOn(s: Setup, w: World, cont: bool, steps: seq<Step>, i: nat)
    requires i <= |steps|
    ensures RunSteps(s, Reach(s, w, cont, steps, i), cont, steps, i) == RunSteps(s, w, cont, steps, 0)
  {
    hide RunStep;
    if i > 0 {
      ReachesOn(s, w, cont, steps, i - 1);
    }
  }

  lemma {:induction false} ReachKeeps(
    s: Setup, base: Resources, steps: seq<Step>, w: World, cont: bool, j: nat, i: nat)
    requires GoodPlan(s, base, steps) && Inv(s, base, steps, w) && j <= i < |steps| && Harmless(s, w, cont, steps, 0)
    ensures Harmless(s, Reach(s, w, cont, steps, j), cont, steps, j)
    ensures Inv(s, base, steps, Reach(s, w, cont, steps, j))
    ensures Done(s, steps[i], Reach(s, w, cont, steps, j).cluster) <==> Done(s, steps[i], w.cluster)
  {
    hide GoodPlan, Inv, RunStep, Done, Harms, StepResult, Ordered, AllLabelled, Kept, Universe;
    if j > 0 {
      ReachKeeps(s, base, steps, w, cont, j - 1, i);
      StepKeeps(s, base, steps, Reach(s, w, cont, steps, j - 1), cont, j - 1);
    }
  }

  /** A run that finds the secret absent leaves it without its label exactly if it is cut behind the creation. */
  lemma RunLacks(s: Setup, base: Resources, steps: seq<Step>, w: World, cont: bool, i: nat)
    requires GoodPlan(s, base, steps) && Inv(s, base, steps, w) && i < |steps| && steps[i].TLSSecret?
    requires Key(Secret, steps[i].name) !in w.cluster && Harmless(s, w, cont, steps, 0)
    ensures var m := Reach(s, w, cont, steps, i);
            Lacks(RunSteps(s, w, cont, steps, 0).cluster, Key(Secret, steps[i].name)) <==> !m.halted && m.left == 1
  {
    var k, m := Key(Secret, steps[i].name), Reach(s, w, cont, steps, i);
    assert Owned(s, steps[i]) == {k};
    ReachKeeps(s, base, steps, w, cont, i, i);
    ReachesOn(s, w, cont, steps, i);
    CanRunStep(s, base, steps, m, i);
    TLSCreated(s, Universe(s, base, steps), m, cont, steps[i]);
    var mid := RunStep(s, m, cont, steps[i]);
    StepKeeps(s, base, steps, m, cont, i);
    hide GoodPlan, Inv, RunStep, Universe, CanRun, StepResult, Reach;
    if mid.halted {
      HaltedStays(s, mid, cont, steps, i + 1);
    } else {
      StepsFate(s, base, steps, mid, cont, i + 1, i);
    }
  }

  /**
    The run `e` on the world `w` finds TLS secret number `i` absent, and gets to its step with exactly
    one command left.
   */
  ghost predicate CutsSecret(s: Setup, steps: seq<Step>, w: World, e: Event, i: nat)
    requires i < |steps| && steps[i].TLSSecret?
  {
    && e.Deploy? && Key(Secret, steps[i].name) !in w.cluster
    && var m := Reach(s, Prologue(Fresh(w, e.cut, e.failing)), e.cont, steps, i);
    !m.halted && m.left == 1
  }

  lemma DeployLacks(s: Setup, base: Resources, steps: seq<Step>, w: World, e: Event, i: nat)
    requires GoodPlan(s, base, steps) && Inv(s, base, steps, w) && i < |steps| && steps[i].TLSSecret?
    requires e.Deploy? && !Harmful(s, steps, w, e)
    ensures var k := Key(Secret, steps[i].name);
            Lacks(Invoke(s, w, steps, e).cluster, k) <==> Lacks(w.cluster, k) || CutsSecret(s, steps, w, e, i)
  {
    var k, w0 := Key(Secret, steps[i].name), Fresh(w, e.cut, e.failing);
    var w1 := Prologue(w0);
    EpilogueKeepsCluster(w0);
    EpilogueKeepsCluster(RunSteps(s, w1, e.cont, steps, 0));
    PrologueKeepsInv(s, base, steps, w, e.cut, e.failing);
    hide GoodPlan, Inv, Reach, RunSteps, Prologue, Epilogue, RunStep;
    if k in w.cluster {
      StepsFate(s, base, steps, w1, e.cont, 0, i);
      assert Owned(s, steps[i]) == {k};
    } else {
      RunLacks(s, base, steps, w1, e.cont, i);
    }
  }

  lemma EventLacks(s: Setup, base: Resources, steps: seq<Step>, w: World, e: Event, i: nat)
    requires GoodPlan(s, base, steps) && Inv(s, base, steps, w) && i < |steps| && steps[i].TLSSecret?
    requires !Harmful(s, steps, w, e)
    ensures var k := Key(Secret, steps[i].name);
            Lacks(Invoke(s, w, steps, e).cluster, k) <==> Lacks(w.cluster, k) || CutsSecret(s, steps, w, e, i)
  {
    match e
    case Clean(cut) =>
      hide CleanScript;
      var kinds := CleanEffect(Fresh(w, cut));
    case Deploy(_, _, _) =>
      hide *;
      DeployLacks(s, base, steps, w, e, i);
  }

  /** Some run of the history was cut between creating TLS secret number `i` and labelling it. */
  ghost predicate WasCut(s: Setup, w0: World, steps: seq<Step>, history: seq<Event>, i: nat)
    requires i < |steps| && steps[i].TLSSecret?
  {
    exists j :: 0 <= j < |history| && CutsSecret(s, steps, Replay(s, w0, steps, history[..j]), history[j], i)
  }

  lemma WasCutExtends(s: Setup, w0: World, steps: seq<Step>, front: seq<Event>, e: Event, i: nat)
    requires i < |steps| && steps[i].TLSSecret?
    ensures WasCut(s, w0, steps, front + [e], i)
       <==> WasCut(s, w0, steps, front, i) || CutsSecret(s, steps, Replay(s, w0, steps, front), e, i)
  {
    hide CutsSecret, Replay;
    var history := front + [e];
    assert history[..|front|] == front && history[|front|] == e;
    assert forall j :: 0 <= j < |front| ==> history[..j] == front[..j] && history[j] == front[j];
  }

  /**
    After every history of runs of both scripts, a TLS secret lacks its label if and only if some run
    was cut between creating it and labelling it.
   */
  lemma {:induction false} SecretsLackLabels(s: Setup, w0: World, steps: seq<Step>, history: seq<Event>, i: nat)
    requires Starts(s, w0, steps) && Allowed(s, w0, steps, history) && i < |steps| && steps[i].TLSSecret?
    ensures Lacks(Replay(s, w0, steps, history).cluster, Key(Secret, steps[i].name))
       <==> WasCut(s, w0, steps, history, i)
    decreases |history|
  {
    hide *;
    if history == [] {
      NoneLacks(s, w0, steps, i);
    } else {
      var front, e := history[..|history| - 1], history[|history| - 1];
      assert history == front + [e];
      AllowedFront(s, w0, steps, front, e);
      StartsGood(s, w0, steps);
      ReplayOn(s, w0, steps, front, e);
      SecretsLackLabels(s, w0, steps, front, i);
      ReplayKeeps(s, w0, steps, front);
      EventLacks(s, w0.cluster, steps, Replay(s, w0, steps, front), e, i);
      WasCutExtends(s, w0, steps, front, e, i);
    }
  }

  lemma NoneLacks(s: Setup, w0: World, steps: seq<Step>, i: nat)
    requires Starts(s, w0, steps) && i < |steps| && steps[i].TLSSecret?
    ensures !Lacks(Replay(s, w0, steps, []).cluster, Key(Secret, steps[i].name)) && !WasCut(s, w0, steps, [], i)
  {
    StartInv(s, w0, steps);
    assert Key(Secret, steps[i].name) in Owned(s, steps[i]);
  }

  // ----- all resources -----

  ghost predicate IsCutSecret(s: Setup, w0: World, steps: seq<Step>, history: seq<Event>, k: Key) {
    exists i :: 0 <= i < |steps| && steps[i].TLSSecret? && k == Key(Secret, steps[i].name)
                && WasCut(s, w0, steps, history, i)
  }

  /** A secret or configmap of a step whose deployment does not exist yet. */
  ghost predicate PendingIn(s: Setup, step: Step, c: Resources, k: Key) {
    && step.StartedService?
    && k in ConfigKeys(step.name, ParseGroups(step.args).groups)
    && FileKey(s, "deployment-" + step.name, "") !in c
  }

  ghost predicate Pending(s: Setup, steps: seq<Step>, c: Resources, k: Key) {
    exists i :: 0 <= i < |steps| && PendingIn(s, steps[i], c, k)
  }

  lemma UnlabelledIn(s: Setup, step: Step, c: Resources, k: Key)
    requires Sound(s, step, c) && k in Owned(s, step) && k in c && !c[k].labelled
    ensures (step.TLSSecret? && k == Key(Secret, step.name)) || PendingIn(s, step, c, k)
  {
    if step.StartedService? {
      var groups := ParseGroups(step.args).groups;
      assert k in ConfigKeys(step.name, groups);
      var g :| g in groups && ConfigKey(step.name, g.flag) == k;
      assert !Configured(c, step.name, groups);
    }
  }

  /**
    After every history, each created resource is labelled, or is a TLS secret that was cut between
    creation and label, or is a secret or configmap whose deployment does not exist. For the TLS
    secrets it is the cut that decides.
   */
  lemma LabelInvariant(s: Setup, w0: World, steps: seq<Step>, history: seq<Event>, k: Key)
    requires Starts(s, w0, steps) && Allowed(s, w0, steps, history)
    ensures var c := Replay(s, w0, steps, history).cluster;
            && (Lacks(c, k) && k !in w0.cluster ==> IsCutSecret(s, w0, steps, history, k) || Pending(s, steps, c, k))
            && (IsTLS(steps, k) ==> (Lacks(c, k) <==> IsCutSecret(s, w0, steps, history, k)))
  {
    ReplayKeeps(s, w0, steps, history);
    var c := Replay(s, w0, steps, history).cluster;
    forall i | 0 <= i < |steps| && steps[i].TLSSecret? && k == Key(Secret, steps[i].name)
      ensures Lacks(c, k) <==> WasCut(s, w0, steps, history, i)
    {
      SecretsLackLabels(s, w0, steps, history, i);
    }
    if Lacks(c, k) && k !in w0.cluster {
      var i :| 0 <= i < |steps| && k in Owned(s, steps[i]);
      UnlabelledIn(s, steps[i], c, k);
    }
  }

  lemma CleanKeepsUnlabelled(s: Setup, w0: World, steps: seq<Step>, history: seq<Event>, cut: nat, k: Key)
    requires Starts(s, w0, steps) && Allowed(s, w0, steps, history)
    requires NothingLabelled(w0.cluster) && cut >= |CLEAN_COMMANDS|
    ensures var c := Replay(s, w0, steps, history).cluster;
            var c' := Invoke(s, Replay(s, w0, steps, history), steps, Clean(cut)).cluster;
            && Preserves(w0.cluster, c') && (k in c' <==> k in w0.cluster || Lacks(c, k))
            && (k in c' ==> k in c && c'[k] == c[k])
  {
    var w := Replay(s, w0, steps, history);
    ReplayKeeps(s, w0, steps, history);
    InvPreserves(s, w0.cluster, steps, w);
    StartsGood(s, w0, steps);
    hide *;
    CleanFilters(s, w0.cluster, steps, w, cut);
    UnlabelledMeans(w.cluster, w0.cluster, k);
  }

  lemma InvPreserves(s: Setup, base: Resources, steps: seq<Step>, w: World)
    requires Inv(s, base, steps, w)
    ensures Preserves(base, w.cluster)
  {
  }

  lemma UnlabelledMeans(c: Resources, base: Resources, k: Key)
    requires Preserves(base, c)
    ensures var c' := Unlabelled(c, base);
            && Preserves(base, c') && (k in c' <==> k in base || Lacks(c, k)) && (k in c' ==> k in c && c'[k] == c[k])
  {
  }

  /**
    An uncut clean.sh leaves the initial resources and the created ones that lack the label: of the TLS
    secrets exactly those cut between creation and label, of the others only what is pending.
   */
  lemma CleanLeaves(s: Setup, w0: World, steps: seq<Step>, history: seq<Event>, cut: nat, k: Key)
    requires Starts(s, w0, steps) && Allowed(s, w0, steps, history)
    requires NothingLabelled(w0.cluster) && cut >= |CLEAN_COMMANDS|
    ensures var c := Replay(s, w0, steps, history).cluster;
            var c' := Invoke(s, Replay(s, w0, steps, history), steps, Clean(cut)).cluster;
            && Preserves(w0.cluster, c')
            && (k in c' <==> k in w0.cluster || Lacks(c, k))
            && (k in c' ==> k in c && c'[k] == c[k])
            && (k in c' && k !in w0.cluster ==> IsCutSecret(s, w0, steps, history, k) || Pending(s, steps, c, k))
            && (IsTLS(steps, k) ==> (k in c' <==> IsCutSecret(s, w0, steps, history, k)))
  {
    hide *;
    CleanKeepsUnlabelled(s, w0, steps, history, cut, k);
    LabelInvariant(s, w0, steps, history, k);
    if IsTLS(steps, k) {
      TLSIsNew(s, w0, steps, k);
    }
  }

  lemma TLSIsNew(s: Setup, w0: World, steps: seq<Step>, k: Key)
    requires Starts(s, w0, steps) && IsTLS(steps, k)
    ensures k !in w0.cluster
  {
    var i :| 0 <= i < |steps| && steps[i].TLSSecret? && k == Key(Secret, steps[i].name);
    assert k in Owned(s, steps[i]);
  }
}
