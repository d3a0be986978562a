/**
  What failing queries do. A guard that fails to see what is there leads to a creation that fails, and
  so ends the script with the cluster as it was. The one exception is the query for a deployment that
  is there: its secrets and configmaps are then deleted and made again before the script ends, and a
  run cut in between leaves the deployment without them.
 */
module Queries {
  import opened ArgGroups
  import opened Cluster
  import opened Steps

  // ----- making the secrets and configmaps again -----

  /** The number of groups in front of the first whose own query fails. */
  function Seen(failing: set<Query>, name: string, groups: seq<Group>): (n: nat)
    ensures n <= |groups|
  {
    if groups == [] then 0
    else
      var key := ConfigKey(name, groups[0].flag);
      if Query(key.kind, key.name) in failing then 0 else 1 + Seen(failing, name, groups[1..])
  }

  lemma {:induction false} SeenAt(failing: set<Query>, name: string, groups: seq<Group>, i: nat)
    requires i < |groups| && i <= Seen(failing, name, groups)
    ensures var key := ConfigKey(name, groups[i].flag);
            Query(key.kind, key.name) in failing <==> i == Seen(failing, name, groups)
  {
    if i > 0 {
      SeenAt(failing, name, groups[1..], i - 1);
    }
  }

  /** With every group of `front` made again. */
  function Overlaid(c: Resources, name: string, front: seq<Group>): Resources {
    if front == [] then c
    else
      var g := front[|front| - 1];
      Overlaid(c, name, front[..|front| - 1])[ConfigKey(name, g.flag) := Res(true, g.files)]
  }

  lemma {:induction false} OverlaidIs(c: Resources, name: string, front: seq<Group>)
    ensures var o := Overlaid(c, name, front);
            && o.Keys == c.Keys + ConfigKeys(name, front)
            && SameOutside(c, o, ConfigKeys(name, front))
            && Configured(o, name, front)
  {
    if front != [] {
      var most, g := front[..|front| - 1], front[|front| - 1];
      assert front == most + [g];
      OverlaidIs(c, name, most);
      ConfigKeysSplit(name, most, g);
      ConfiguredExtend(Overlaid(c, name, most), name, most, g);
    }
  }

  /** All secrets and configmaps are there. */
  ghost predicate AllThere(c: Resources, name: string, groups: seq<Group>) {
    ConfigKeys(name, groups) <= c.Keys
  }

  /** The first `n` groups take exactly three commands each. */
  lemma {:induction false} PassWhole(u: set<Key>, w: World, name: string, groups: seq<Group>, n: nat)
    requires GoodConfigs(u, name, groups) && w.cluster.Keys <= u && AllThere(w.cluster, name, groups)
    requires !w.halted && n <= Seen(w.failing, name, groups) && 3 * n <= w.left
    ensures ConfigureAll(w, name, groups[..n])
            == w.(cluster := Overlaid(w.cluster, name, groups[..n]), left := w.left - 3 * n)
  {
    if n > 0 {
      var most, g := groups[..n - 1], groups[n - 1];
      assert groups[..n] == most + [g] && groups[..n][..n - 1] == most;
      PassWhole(u, w, name, groups, n - 1);
      var m := ConfigureAll(w, name, most);
      OverlaidIs(w.cluster, name, most);
      assert g in groups && ConfigKeys(name, most) <= ConfigKeys(name, groups);
      SeenAt(w.failing, name, groups, n - 1);
      SeesIff(u, m, ConfigKey(name, g.flag).kind, ConfigKey(name, g.flag).name, ConfigKey(name, g.flag));
      GroupWhole(m, name, g);
    } else {
      assert groups[..0] == [];
    }
  }

  lemma GroupWhole(m: World, name: string, g: Group)
    requires var key := ConfigKey(name, g.flag); key in m.cluster && Sees(m, key.kind, key.name)
    requires !m.halted && m.left >= 3
    ensures ConfigureGroup(m, name, g)
            == m.(cluster := m.cluster[ConfigKey(name, g.flag) := Res(true, g.files)], left := m.left - 3)
  {
    hide Sees;
    var key := ConfigKey(name, g.flag);
    assert (m.cluster - {key})[key := Res(true, g.files)] == m.cluster[key := Res(true, g.files)];
  }

  /** Where a group is not completed: nothing, the deletion, or the deletion and the creation. */
  function Broken(c: Resources, key: Key, files: seq<string>, left: nat): Resources {
    if left == 0 then c else if left == 1 then c - {key} else c[key := Res(false, files)]
  }

  lemma GroupBroken(m: World, name: string, g: Group)
    requires var key := ConfigKey(name, g.flag); key in m.cluster && Sees(m, key.kind, key.name)
    requires !m.halted && m.left < 3
    ensures var m' := ConfigureGroup(m, name, g);
            m'.halted && m'.cluster == Broken(m.cluster, ConfigKey(name, g.flag), g.files, m.left)
  {
    hide Sees;
    var key := ConfigKey(name, g.flag);
    assert (m.cluster - {key})[key := Res(false, g.files)] == m.cluster[key := Res(false, g.files)];
  }

  lemma GroupUnseen(m: World, name: string, g: Group)
    requires var key := ConfigKey(name, g.flag); key in m.cluster && !Sees(m, key.kind, key.name)
    ensures ConfigureGroup(m, name, g).halted && ConfigureGroup(m, name, g).cluster == m.cluster
  {
    hide Sees;
  }

  function Whole(left: nat, seen: nat): nat {
    if left / 3 < seen then left / 3 else seen
  }

  /** What is left of the cluster if the script has `left` commands and sees the first `seen` groups. */
  function Remains(c: Resources, name: string, groups: seq<Group>, left: nat, seen: nat): Resources
    requires seen <= |groups|
  {
    var n := Whole(left, seen);
    var o := Overlaid(c, name, groups[..n]);
    if n == seen then o else Broken(o, ConfigKey(name, groups[n].flag), groups[n].files, left % 3)
  }

  /** The argument loop on a service that has all its secrets and configmaps, exactly. */
  lemma PassLeaves(u: set<Key>, w: World, name: string, groups: seq<Group>)
    requires GoodConfigs(u, name, groups) && w.cluster.Keys <= u && AllThere(w.cluster, name, groups) && !w.halted
    ensures var seen := Seen(w.failing, name, groups);
            var w' := ConfigureAll(w, name, groups);
            && w'.cluster == Remains(w.cluster, name, groups, w.left, seen)
            && (Whole(w.left, seen) < |groups| ==> w'.halted)
  {
    var seen := Seen(w.failing, name, groups);
    var n := Whole(w.left, seen);
    PassWhole(u, w, name, groups, n);
    if n == |groups| {
      assert groups[..n] == groups;
    } else {
      var m, g := ConfigureAll(w, name, groups[..n]), groups[n];
      OverlaidIs(w.cluster, name, groups[..n]);
      assert g in groups && ConfigKey(name, g.flag) in ConfigKeys(name, groups);
      assert ConfigKeys(name, groups[..n]) <= ConfigKeys(name, groups);
      SeenAt(w.failing, name, groups, n);
      SeesIff(u, m, ConfigKey(name, g.flag).kind, ConfigKey(name, g.flag).name, ConfigKey(name, g.flag));
      if n == seen {
        GroupUnseen(m, name, g);
      } else {
        GroupBroken(m, name, g);
      }
      StopsAt(w, name, groups, n);
    }
  }

  lemma StopsAt(w: World, name: string, groups: seq<Group>, n: nat)
    requires n < |groups| && ConfigureGroup(ConfigureAll(w, name, groups[..n]), name, groups[n]).halted
    ensures ConfigureAll(w, name, groups)
            == ConfigureGroup(ConfigureAll(w, name, groups[..n]), name, groups[n])
  {
    hide ConfigureGroup;
    var m, rest := ConfigureAll(w, name, groups[..n]), groups[n + 1..];
    assert groups == (groups[..n] + [groups[n]]) + rest;
    ConfigureAllAppend(w, name, groups[..n] + [groups[n]], rest);
    ConfigureAllAppend(w, name, groups[..n], [groups[n]]);
    assert [groups[n]][..0] == [];
    assert ConfigureAll(m, name, [groups[n]]) == ConfigureGroup(ConfigureAll(m, name, []), name, groups[n]);
    HaltedConfigureAll(ConfigureGroup(m, name, groups[n]), name, rest);
  }

  // ----- when that does harm -----

  /** The last group of each type among the first `n` is the last of its type altogether, or has its files. */
  ghost predicate Current(groups: seq<Group>, n: nat)
    requires n <= |groups|
  {
    forall g :: g in groups[..n] ==> LastFiles(groups[..n], g.flag) == LastFiles(groups, g.flag)
  }

  /** The script ends between two groups, and what it has made again is what was there. */
  ghost predicate Unharmed(groups: seq<Group>, left: nat, seen: nat)
    requires seen <= |groups|
  {
    (seen <= left / 3 || left % 3 == 0) && Current(groups, Whole(left, seen))
  }

  /** With one group of each type, where the script ends is all that counts. */
  lemma DistinctIsCurrent(groups: seq<Group>, n: nat)
    requires n <= |groups| && forall i, j :: 0 <= i < j < |groups| ==> groups[i].flag != groups[j].flag
    ensures Current(groups, n)
  {
    forall g | g in groups[..n] ensures LastFiles(groups[..n], g.flag) == LastFiles(groups, g.flag) {
      var i :| 0 <= i < n && groups[i] == g;
      OnlyOne(groups[..n], i);
      OnlyOne(groups, i);
    }
  }

  lemma {:induction false} OnlyOne(groups: seq<Group>, i: nat)
    requires i < |groups| && forall i, j :: 0 <= i < j < |groups| ==> groups[i].flag != groups[j].flag
    ensures groups[i] in groups && LastFiles(groups, groups[i].flag) == groups[i].files
  {
    assert groups[i] in groups;
    if i < |groups| - 1 {
      OnlyOne(groups[..|groups| - 1], i);
    }
  }

  lemma RemainsConfigured(c: Resources, name: string, groups: seq<Group>, left: nat, seen: nat)
    requires Configured(c, name, groups) && seen <= |groups|
    ensures Configured(Remains(c, name, groups, left, seen), name, groups) <==> Unharmed(groups, left, seen)
    ensures Unharmed(groups, left, seen) ==> Remains(c, name, groups, left, seen) == c
  {
    var n := Whole(left, seen);
    var o := Overlaid(c, name, groups[..n]);
    OverlaidIs(c, name, groups[..n]);
    OverlaidConfigured(c, name, groups, n);
    if n < seen && left % 3 != 0 {
      assert groups[n] in groups;
    }
  }

  lemma OverlaidConfigured(c: Resources, name: string, groups: seq<Group>, n: nat)
    requires Configured(c, name, groups) && n <= |groups|
    ensures var o := Overlaid(c, name, groups[..n]);
            && (Configured(o, name, groups) <==> Current(groups, n))
            && (Current(groups, n) ==> o == c)
  {
    var front := groups[..n];
    var o := Overlaid(c, name, front);
    OverlaidIs(c, name, front);
    hide Overlaid, LastFiles;
    assert forall g :: g in front ==> g in groups;
    if Configured(o, name, groups) {
      forall g | g in front ensures LastFiles(front, g.flag) == LastFiles(groups, g.flag) {
        assert o[ConfigKey(name, g.flag)] == Res(true, LastFiles(front, g.flag));
      }
    }
    if Current(groups, n) {
      forall k | k in o ensures k in c && o[k] == c[k] {
        if k in ConfigKeys(name, front) {
          var g :| g in front && k == ConfigKey(name, g.flag);
          assert o[k] == Res(true, LastFiles(front, g.flag));
        }
      }
      assert o.Keys == c.Keys;
    }
  }

  /** The step misreads, and is cut inside a group or behind an outdated one. */
  ghost predicate Harms(s: Setup, w: World, step: Step) {
    && Misread(s, w, step)
    && var groups := ParseGroups(step.args).groups;
       !Unharmed(groups, w.left, Seen(w.failing, step.name, groups))
  }

  lemma MisreadRuns(s: Setup, u: set<Key>, w: World, cont: bool, step: Step)
    requires CanRun(s, u, w, step) && Misread(s, w, step)
    ensures RunStep(s, w, cont, step) == StartDeployment(s, w, step.name, step.args)
    ensures Done(s, step, w.cluster) && Configured(w.cluster, step.name, ParseGroups(step.args).groups)
    ensures AllThere(w.cluster, step.name, ParseGroups(step.args).groups)
  {
    SeesIff(u, w, Service, step.name, FileKey(s, "service-" + step.name, ""));
    SeesIff(u, w, Deployment, step.name, FileKey(s, "deployment-" + step.name, ""));
    hide Sees, StartDeployment, ParseGroups;
  }

  /**
    A step that misreads, exactly: the script ends, what becomes of the secrets and configmaps depends
    on the commands left and the queries seen, and nothing else changes. They are labelled and current
    afterwards if and only if they are as they were, if and only if the step does no harm.
   */
  lemma MisreadLeaves(s: Setup, u: set<Key>, w: World, cont: bool, step: Step)
    requires CanRun(s, u, w, step) && Misread(s, w, step)
    ensures var groups, w' := ParseGroups(step.args).groups, RunStep(s, w, cont, step);
            && w'.halted && TmpGrows(w, w')
            && w'.cluster == Remains(w.cluster, step.name, groups, w.left, Seen(w.failing, step.name, groups))
            && ConfigsMade(w.cluster, w'.cluster, step.name, groups)
            && (Configured(w'.cluster, step.name, groups) <==> !Harms(s, w, step))
            && (w'.cluster == w.cluster <==> !Harms(s, w, step))
  {
    assert step.StartedService?;
    hide *;
    var name, groups := step.name, ParseGroups(step.args).groups;
    MisreadRuns(s, u, w, cont, step);
    MisreadConfigs(s, u, w, step);
    PassLeaves(u, w, name, groups);
    RemainsConfigured(w.cluster, name, groups, w.left, Seen(w.failing, name, groups));
    ConfigureEffect(u, w, name, groups);
    DeploymentFails(s, u, w, ConfigureAll(w, name, groups), step);
    HarmsIs(s, w, step);
  }

  lemma MisreadConfigs(s: Setup, u: set<Key>, w: World, step: Step)
    requires CanRun(s, u, w, step) && Misread(s, w, step)
    ensures !w.halted && w.cluster.Keys <= u
    ensures var groups := ParseGroups(step.args).groups;
            GoodConfigs(u, step.name, groups) && ConfigKeys(step.name, groups) <= u
  {
    hide ParseGroups, ConfigKeys, GoodConfigs, Identifies, Sound;
  }

  lemma HarmsIs(s: Setup, w: World, step: Step)
    requires Misread(s, w, step)
    ensures var groups := ParseGroups(step.args).groups;
            Harms(s, w, step) <==> !Unharmed(groups, w.left, Seen(w.failing, step.name, groups))
  {
  }

  lemma DeploymentFails(s: Setup, u: set<Key>, w: World, mid: World, step: Step)
    requires CanRun(s, u, w, step) && Misread(s, w, step)
    requires mid == ConfigureAll(w, step.name, ParseGroups(step.args).groups)
    requires ConfigsMade(w.cluster, mid.cluster, step.name, ParseGroups(step.args).groups)
    requires mid.tmpDir == w.tmpDir && mid.tmp == w.tmp && mid.failing == w.failing
    ensures var w' := StartDeployment(s, w, step.name, step.args);
            w'.halted && w'.cluster == mid.cluster && TmpGrows(w, w')
  {
    assert step.StartedService?;
    hide *;
    var src := "deployment-" + step.name;
    DeploymentKept(s, u, w, mid, step);
    TmpOfYaml(s, mid, src);
    DeploymentLast(s, w, step.name, step.args);
    TmpGrowsOn(w, mid, CreateFromYaml(s, mid, src, "." + src, ""));
  }

  lemma DeploymentLast(s: Setup, w: World, name: string, args: seq<string>)
    requires ParseGroups(args).ok
    ensures var src := "deployment-" + name;
            StartDeployment(s, w, name, args)
            == CreateFromYaml(s, ConfigureAll(w, name, ParseGroups(args).groups), src, "." + src, "")
  {
    hide ParseGroups, ConfigureAll, CreateFromYaml;
    var src, dest := "deployment-" + name, ".deployment-" + name;
    assert dest == "." + src;
  }

  lemma TmpGrowsOn(w: World, mid: World, w': World)
    requires mid.tmpDir == w.tmpDir && mid.tmp == w.tmp && mid.failing == w.failing && TmpGrows(mid, w')
    ensures TmpGrows(w, w')
  {
  }

  lemma DeploymentKept(s: Setup, u: set<Key>, w: World, mid: World, step: Step)
    requires CanRun(s, u, w, step) && Misread(s, w, step)
    requires ConfigsMade(w.cluster, mid.cluster, step.name, ParseGroups(step.args).groups)
    ensures ParseGroups(step.args).ok && "deployment-" + step.name in s.manifests
    ensures FileKey(s, "deployment-" + step.name, "") in mid.cluster
  {
    ConfigKeysAreConfigs(step.name, ParseGroups(step.args).groups);
    ServiceKinds(s, u, step);
    hide ParseGroups, GoodConfigs, Identifies, Sound, FromGroup;
  }

  lemma TmpOfYaml(s: Setup, mid: World, src: string)
    requires src in s.manifests && FileKey(s, src, "") in mid.cluster
    ensures var w' := CreateFromYaml(s, mid, src, "." + src, "");
            w'.halted && w'.cluster == mid.cluster && TmpGrows(mid, w')
  {
    DotYaml(src);
    YamlEffect(s, mid, src, "." + src, "");
  }

  /** The queries a finished step asks. */
  function Asked(step: Step): set<Query> {
    match step
    case TLSSecret(name, _, _) => {Query(Secret, name)}
    case GuardedYaml(kind, pattern, _) => {Query(kind, pattern)}
    case Unguarded(_) => {}
    case Volume(name) =>
      {Query(PersistentVolume, VolumeNameOf(name)), Query(PersistentVolumeClaim, ClaimNameOf(name))}
    case StartedService(name, _) => {Query(Service, name), Query(Deployment, name)}
  }

  /**
    A finished step ends the script if and only if one of its queries fails. If none does it takes no
    command, and only harm changes the cluster.
   */
  lemma FailedQueryStops(s: Setup, u: set<Key>, w: World, cont: bool, step: Step)
    requires CanRun(s, u, w, step) && Done(s, step, w.cluster) && !w.halted && !Repeats(cont, step)
    ensures var w' := RunStep(s, w, cont, step);
            && (w'.halted <==> exists q :: q in Asked(step) && q in w.failing)
            && (!w'.halted ==> w' == w)
            && (w'.cluster == w.cluster <==> !Harms(s, w, step))
  {
    if Misread(s, w, step) {
      MisreadLeaves(s, u, w, cont, step);
      assert Query(Deployment, step.name) in Asked(step);
    } else {
      FinishedStep(s, u, w, cont, step);
      StepEffect(s, u, w, cont, step);
    }
    hide RunStep, CanRun, Done;
  }

  lemma FinishedYaml(s: Setup, w: World, src: string, dest: string, vol: string)
    requires FileKey(s, src, vol) in w.cluster || src !in s.manifests
    ensures CreateFromYaml(s, w, src, dest, vol).halted
  {
  }

  lemma HaltedYaml(s: Setup, w: World, src: string, dest: string, vol: string)
    requires w.halted
    ensures CreateFromYaml(s, w, src, dest, vol) == w
  {
  }

  lemma FinishedVolume(s: Setup, u: set<Key>, w: World, step: Step)
    requires step.Volume? && CanRun(s, u, w, step) && Done(s, step, w.cluster) && !w.halted
    ensures var w' := CreateVolume(s, w, step.name);
            && (w'.halted <==> exists q :: q in Asked(step) && q in w.failing)
            && (!w'.halted ==> w' == w)
  {
    var name := step.name;
    var pv, pvc := FileKey(s, VolumeFile(s, name), name), FileKey(s, "volume-claim", name);
    assert pv in Owned(s, step) && pvc in Owned(s, step);
    SeesIff(u, w, PersistentVolume, VolumeNameOf(name), pv);
    SeesIff(u, w, PersistentVolumeClaim, ClaimNameOf(name), pvc);
    var prepared := if "volume-" + name !in s.manifests && s.autoVolume == "local" then Run(w, External) else w;
    FinishedYaml(s, prepared, VolumeFile(s, name), ".volume-" + name, name);
    FinishedYaml(s, w, "volume-claim", ".volume-claim-" + name, name);
    if VolumeStep1(s, w, name).halted {
      HaltedYaml(s, VolumeStep1(s, w, name), "volume-claim", ".volume-claim-" + name, name);
    }
    assert Query(PersistentVolume, VolumeNameOf(name)) in Asked(step);
    assert Query(PersistentVolumeClaim, ClaimNameOf(name)) in Asked(step);
    hide CanRun, Sees, CreateFromYaml, FileKey, VolumeFile, Owned, VolumeNameOf, ClaimNameOf;
  }

  lemma FinishedService(s: Setup, u: set<Key>, w: World, step: Step)
    requires step.StartedService? && CanRun(s, u, w, step) && Done(s, step, w.cluster) && !w.halted
    requires !Misread(s, w, step)
    ensures var w' := StartService(s, w, step.name, step.args);
            && (w'.halted <==> exists q :: q in Asked(step) && q in w.failing)
            && (!w'.halted ==> w' == w)
  {
    var name := step.name;
    var svc, dep := FileKey(s, "service-" + name, ""), FileKey(s, "deployment-" + name, "");
    assert svc in Owned(s, step) && dep in Owned(s, step);
    SeesIff(u, w, Service, name, svc);
    SeesIff(u, w, Deployment, name, dep);
    FinishedYaml(s, w, "service-" + name, ".service-" + name, "");
    assert Query(Service, name) in Asked(step) && Query(Deployment, name) in Asked(step);
    hide CanRun, Sees, CreateFromYaml, FileKey, Owned, StartDeployment;
  }

  lemma FinishedStep(s: Setup, u: set<Key>, w: World, cont: bool, step: Step)
    requires CanRun(s, u, w, step) && Done(s, step, w.cluster) && !w.halted && !Repeats(cont, step)
    requires !Misread(s, w, step)
    ensures var w' := RunStep(s, w, cont, step);
            && (w'.halted <==> exists q :: q in Asked(step) && q in w.failing)
            && (!w'.halted ==> w' == w)
  {
    match step
    case TLSSecret(name, key, crt) =>
      SeesIff(u, w, Secret, name, Key(Secret, name));
      assert Key(Secret, name) in Owned(s, step) && Query(Secret, name) in Asked(step);
      hide Sees, Identifies;
    case GuardedYaml(kind, pattern, file) =>
      SeesIff(u, w, kind, pattern, FileKey(s, file, ""));
      assert FileKey(s, file, "") in Owned(s, step) && Query(kind, pattern) in Asked(step);
      FinishedYaml(s, w, file, "." + file, "");
      hide Sees, Identifies, CreateFromYaml;
    case Volume(name) => FinishedVolume(s, u, w, step);
    case StartedService(_, _) => FinishedService(s, u, w, step);
    case Unguarded(_) =>
  }

  /** So a step does what is expected of it, whatever queries fail, if and only if it does no harm. */
  lemma AnyStep(s: Setup, u: set<Key>, w: World, cont: bool, step: Step)
    requires CanRun(s, u, w, step)
    ensures !Harms(s, w, step) <==> StepResult(s, u, w, RunStep(s, w, cont, step), cont, step)
    ensures !Harms(s, w, step) <==> Sound(s, step, RunStep(s, w, cont, step).cluster)
  {
    hide *;
    if Misread(s, w, step) {
      assert step.StartedService? by {
        IsService(s, w, step);
      }
      MisreadLeaves(s, u, w, cont, step);
      MisreadRuns(s, u, w, cont, step);
      MisreadResult(s, u, w, RunStep(s, w, cont, step), cont, step);
    } else {
      StepEffect(s, u, w, cont, step);
      ResultIsSound(s, u, w, RunStep(s, w, cont, step), cont, step);
      OnlyMisreadHarms(s, w, step);
    }
  }

  lemma IsService(s: Setup, w: World, step: Step)
    requires Misread(s, w, step)
    ensures step.StartedService? && FileKey(s, "deployment-" + step.name, "") in w.cluster
  {
  }

  lemma OnlyMisreadHarms(s: Setup, w: World, step: Step)
    requires !Misread(s, w, step)
    ensures !Harms(s, w, step)
  {
  }

  lemma ResultIsSound(s: Setup, u: set<Key>, w: World, w': World, cont: bool, step: Step)
    requires StepResult(s, u, w, w', cont, step)
    ensures Sound(s, step, w'.cluster)
  {
    hide Sound;
  }

  /** The cluster is as it was, or the deployment has lost something. */
  lemma MisreadResult(s: Setup, u: set<Key>, w: World, w': World, cont: bool, step: Step)
    requires CanRun(s, u, w, step) && Misread(s, w, step) && w'.halted && TmpGrows(w, w')
    requires Done(s, step, w.cluster)
    requires ConfigsMade(w.cluster, w'.cluster, step.name, ParseGroups(step.args).groups)
    requires Configured(w'.cluster, step.name, ParseGroups(step.args).groups) <==> !Harms(s, w, step)
    requires w'.cluster == w.cluster <==> !Harms(s, w, step)
    ensures !Harms(s, w, step) <==> StepResult(s, u, w, w', cont, step)
    ensures !Harms(s, w, step) <==> Sound(s, step, w'.cluster)
  {
    hide Harms, GoodStep, ParseGroups, FromGroup, Seen;
    ConfigKeysAreConfigs(step.name, ParseGroups(step.args).groups);
    if Harms(s, w, step) {
      DeploymentKept(s, u, w, w', step);
    } else {
      NothingTouched(w.cluster, Owned(s, step));
    }
  }

  lemma NothingTouched(c: Resources, keys: set<Key>)
    ensures SameOutside(c, c, keys)
  {
  }
}
