/** What one step of deploy.sh keeps and achieves, wherever it is cut. */
module Steps {
  import opened Text
  import opened ArgGroups
  import opened Cluster

  /** Among the keys `u`, `grep pattern` over the names of `kind` finds `key` and nothing else. */
  ghost predicate Identifies(u: set<Key>, kind: Kind, pattern: string, key: Key) {
    && key.kind == kind && Contains(key.name, pattern)
    && forall k :: k in u && k.kind == kind && Contains(k.name, pattern) ==> k == key
  }

  /** The guard of a step is then a test for its own resource. */
  lemma ExistsIff(u: set<Key>, c: Resources, kind: Kind, pattern: string, key: Key)
    requires Identifies(u, kind, pattern, key) && c.Keys <= u
    ensures Exists(c, kind, pattern) <==> key in c
  {
  }

  ghost predicate HasManifest(s: Setup, file: string, kind: Kind) {
    file in s.manifests && s.manifests[file].kind == kind && s.manifests[file].labelled
  }

  lemma SeesIff(u: set<Key>, w: World, kind: Kind, pattern: string, key: Key)
    requires Identifies(u, kind, pattern, key) && w.cluster.Keys <= u
    ensures Sees(w, kind, pattern) <==> key in w.cluster && Query(kind, pattern) !in w.failing
  {
    ExistsIff(u, w.cluster, kind, pattern, key);
  }

  /** The resource a manifest file names; a missing file names none that is ever created. */
  function FileKey(s: Setup, file: string, vol: string): Key {
    if file in s.manifests then ManifestKey(s.manifests[file], vol) else Key(OtherKind, file)
  }

  function ConfigKeys(name: string, groups: seq<Group>): set<Key> {
    set g | g in groups :: ConfigKey(name, g.flag)
  }

  /** The files and names a step needs: its manifests exist and its guards find what it creates. */
  ghost predicate GoodStep(s: Setup, u: set<Key>, step: Step) {
    match step
    case TLSSecret(name, _, _) => Identifies(u, Secret, name, Key(Secret, name))
    case GuardedYaml(kind, pattern, file) =>
      kind != OtherKind && HasManifest(s, file, kind) && Identifies(u, kind, pattern, FileKey(s, file, ""))
    case Unguarded(file) => file in s.manifests && s.manifests[file].labelled && s.manifests[file].kind != OtherKind
    case Volume(name) =>
      && HasManifest(s, VolumeFile(s, name), PersistentVolume)
      && HasManifest(s, "volume-claim", PersistentVolumeClaim)
      && Identifies(u, PersistentVolume, VolumeNameOf(name), FileKey(s, VolumeFile(s, name), name))
      && Identifies(u, PersistentVolumeClaim, ClaimNameOf(name), FileKey(s, "volume-claim", name))
    case StartedService(name, args) =>
      && ParseGroups(args).ok
      && HasManifest(s, "service-" + name, Service) && HasManifest(s, "deployment-" + name, Deployment)
      && Identifies(u, Service, name, FileKey(s, "service-" + name, ""))
      && Identifies(u, Deployment, name, FileKey(s, "deployment-" + name, ""))
      && GoodConfigs(u, name, ParseGroups(args).groups)
  }

  ghost predicate GoodConfigs(u: set<Key>, name: string, groups: seq<Group>) {
    forall g :: g in groups ==>
      Identifies(u, ConfigKey(name, g.flag).kind, ConfigKey(name, g.flag).name, ConfigKey(name, g.flag))
  }

  /** Every resource the step can create. */
  function Owned(s: Setup, step: Step): set<Key> {
    match step
    case TLSSecret(name, _, _) => {Key(Secret, name)}
    case GuardedYaml(_, _, file) => {FileKey(s, file, "")}
    case Unguarded(file) => {FileKey(s, file, "")}
    case Volume(name) => {FileKey(s, VolumeFile(s, name), name), FileKey(s, "volume-claim", name)}
    case StartedService(name, args) =>
      {FileKey(s, "service-" + name, ""), FileKey(s, "deployment-" + name, "")}
      + ConfigKeys(name, ParseGroups(args).groups)
  }

  /** If present, made from exactly this manifest and labelled. */
  ghost predicate Intact(c: Resources, key: Key, file: string) {
    key in c ==> c[key] == Res(true, [file])
  }

  ghost predicate Configured(c: Resources, name: string, groups: seq<Group>) {
    forall g :: g in groups ==>
      ConfigKey(name, g.flag) in c && c[ConfigKey(name, g.flag)] == Res(true, LastFiles(groups, g.flag))
  }

  /** The resource holds the files of one of the groups of its type. */
  ghost predicate FromGroup(res: Res, name: string, groups: seq<Group>, key: Key) {
    exists g :: g in groups && ConfigKey(name, g.flag) == key && res.files == g.files
  }

  /**
    What every cut of every run leaves of a step: contents are right, and a deployment never exists
    without its service and all its secrets and configmaps, labelled and up to date.
   */
  ghost predicate Sound(s: Setup, step: Step, c: Resources) {
    match step
    case TLSSecret(name, key, crt) => Key(Secret, name) in c ==> c[Key(Secret, name)].files == [key, crt]
    case GuardedYaml(_, _, file) => Intact(c, FileKey(s, file, ""), file)
    case Unguarded(file) => Intact(c, FileKey(s, file, ""), file)
    case Volume(name) =>
      && Intact(c, FileKey(s, VolumeFile(s, name), name), VolumeFile(s, name))
      && Intact(c, FileKey(s, "volume-claim", name), "volume-claim")
    case StartedService(name, args) =>
      var groups := ParseGroups(args).groups;
      && Intact(c, FileKey(s, "service-" + name, ""), "service-" + name)
      && Intact(c, FileKey(s, "deployment-" + name, ""), "deployment-" + name)
      && (forall k :: k in ConfigKeys(name, groups) && k in c ==> FromGroup(c[k], name, groups, k))
      && (FileKey(s, "deployment-" + name, "") in c ==>
            FileKey(s, "service-" + name, "") in c && Configured(c, name, groups))
  }

  /** The order in which a step makes its resources. */
  ghost predicate Ordered(s: Setup, step: Step, c: Resources) {
    match step
    case Volume(name) =>
      FileKey(s, "volume-claim", name) in c ==> FileKey(s, VolumeFile(s, name), name) in c
    case StartedService(name, args) =>
      forall k :: k in Owned(s, step) && k in c ==> FileKey(s, "service-" + name, "") in c
    case _ => true
  }

  ghost predicate Done(s: Setup, step: Step, c: Resources) {
    Owned(s, step) <= c.Keys
  }

  ghost predicate SameOutside(c: Resources, c': Resources, keys: set<Key>) {
    forall k :: k !in keys ==> (k in c <==> k in c') && (k in c && k in c' ==> c[k] == c'[k])
  }

  /**
    The one query whose failure does more than end the script: the one for a deployment that is there.
    Its secrets and configmaps are then made again.
   */
  ghost predicate Misread(s: Setup, w: World, step: Step) {
    && !w.halted && step.StartedService?
    && FileKey(s, "deployment-" + step.name, "") in w.cluster
    && Query(Deployment, step.name) in w.failing && Query(Service, step.name) !in w.failing
  }

  /** The steps that -c (CONTINUE=0) makes unconditional, and the two that never had a guard. */
  predicate Repeats(cont: bool, step: Step) {
    step.Unguarded? || (!cont && (step.TLSSecret? || step.GuardedYaml?))
  }

  function Cost(step: Step): nat {
    match step
    case Volume(_) => 5
    case StartedService(_, args) => 4 + 3 * |ParseGroups(args).groups|
    case _ => 2
  }

  // ----- createFromYaml -----

  lemma YamlEffect(s: Setup, w: World, src: string, dest: string, vol: string)
    requires src in s.manifests
    ensures var w', key, m := CreateFromYaml(s, w, src, dest, vol), FileKey(s, src, vol), s.manifests[src];
            && w'.tmpDir == w.tmpDir && w.tmp <= w'.tmp <= w.tmp + {dest + ".yaml"} && w'.failing == w.failing
            && (w'.halted ==> w'.cluster == w.cluster)
            && (!w'.halted ==> !w.halted && key !in w.cluster
                               && w'.cluster == w.cluster[key := Res(m.labelled, [src])])
            && (!w'.halted <==> !w.halted && w.left >= 2 && w.tmpDir && key !in w.cluster)
            && (!w'.halted ==> w'.left == w.left - 2 && w'.tmp == w.tmp + {dest + ".yaml"})
  {
  }

  // ----- the configmaps and secrets of a service -----

  ghost predicate ConfigsMade(c: Resources, c': Resources, name: string, groups: seq<Group>) {
    && SameOutside(c, c', ConfigKeys(name, groups))
    && forall k :: k in ConfigKeys(name, groups) && k in c' ==>
         (k in c && c'[k] == c[k]) || FromGroup(c'[k], name, groups, k)
  }

  ghost predicate Remade(w: World, w': World, key: Key, files: seq<string>) {
    && w'.tmpDir == w.tmpDir && w'.tmp == w.tmp && w'.failing == w.failing
    && SameOutside(w.cluster, w'.cluster, {key})
    && (w'.halted && key in w'.cluster ==> (key in w.cluster && w'.cluster[key] == w.cluster[key])
                                           || w'.cluster[key] == Res(false, files))
    && (w.halted ==> w' == w)
    && (!w'.halted ==> !w.halted && w'.cluster == w.cluster[key := Res(true, files)])
    && (!w.halted && w.left >= 3 && w.failing == {} ==> !w'.halted && w'.left >= w.left - 3)
  }

  /** Cut in between, the resource is as it was, gone, or new and without its label. */
  lemma RemakeEffect(w: World, key: Key, files: seq<string>, found: bool)
    requires found ==> key in w.cluster
    requires w.failing == {} ==> found == (key in w.cluster)
    ensures Remade(w, Remake(w, key, files, found), key, files)
  {
  }

  lemma GroupEffect(u: set<Key>, w: World, name: string, g: Group)
    requires GoodConfigs(u, name, [g]) && w.cluster.Keys <= u
    ensures Remade(w, ConfigureGroup(w, name, g), ConfigKey(name, g.flag), g.files)
  {
    var key := ConfigKey(name, g.flag);
    assert g in [g];
    SeesIff(u, w, key.kind, key.name, key);
    RemakeEffect(w, key, g.files, Sees(w, key.kind, key.name));
  }

  lemma ConfigKeysSplit(name: string, front: seq<Group>, g: Group)
    ensures ConfigKeys(name, front + [g]) == ConfigKeys(name, front) + {ConfigKey(name, g.flag)}
  {
  }

  /** Configuring group by group touches only the service's own resources, and completes if not cut. */
  lemma {:induction false} ConfigureEffect(u: set<Key>, w: World, name: string, groups: seq<Group>)
    requires GoodConfigs(u, name, groups) && w.cluster.Keys <= u && ConfigKeys(name, groups) <= u
    ensures var w' := ConfigureAll(w, name, groups);
            && w'.tmpDir == w.tmpDir && w'.tmp == w.tmp && w'.failing == w.failing && w'.cluster.Keys <= u
            && ConfigsMade(w.cluster, w'.cluster, name, groups)
            && (w.halted ==> w' == w)
            && (!w'.halted ==> !w.halted && Configured(w'.cluster, name, groups))
            && (!w.halted && w.left >= 3 * |groups| && w.failing == {} ==>
                  !w'.halted && w'.left >= w.left - 3 * |groups|)
  {
    if groups != [] {
      var front, g := groups[..|groups| - 1], groups[|groups| - 1];
      assert groups == front + [g];
      ConfigKeysSplit(name, front, g);
      ConfigureEffect(u, w, name, front);
      var mid := ConfigureAll(w, name, front);
      var w' := ConfigureGroup(mid, name, g);
      GroupEffect(u, mid, name, g);
      assert w'.cluster.Keys <= mid.cluster.Keys + {ConfigKey(name, g.flag)};
      MadeExtend(w.cluster, mid.cluster, w'.cluster, name, front, g);
      if !w'.halted {
        ConfiguredExtend(mid.cluster, name, front, g);
      }
    }
  }

  lemma {:induction false} HaltedConfigureAll(w: World, name: string, groups: seq<Group>)
    requires w.halted
    ensures ConfigureAll(w, name, groups) == w
  {
    if groups != [] {
      HaltedConfigureAll(w, name, groups[..|groups| - 1]);
    }
  }

  lemma {:induction false} ConfigureAllAppend(w: World, name: string, front: seq<Group>, rest: seq<Group>)
    ensures ConfigureAll(w, name, front + rest) == ConfigureAll(ConfigureAll(w, name, front), name, rest)
  {
    hide ConfigureGroup;
    if rest == [] {
      assert front + rest == front;
    } else {
      var all := front + rest;
      assert all[..|all| - 1] == front + rest[..|rest| - 1];
      ConfigureAllAppend(w, name, front, rest[..|rest| - 1]);
    }
  }

  lemma MadeExtend(c: Resources, m: Resources, c': Resources, name: string, front: seq<Group>, g: Group)
    requires ConfigsMade(c, m, name, front)
    requires var key := ConfigKey(name, g.flag);
             && SameOutside(m, c', {key})
             && (key in c' ==> (key in m && c'[key] == m[key]) || c'[key].files == g.files)
    ensures ConfigsMade(c, c', name, front + [g])
  {
    var key, groups := ConfigKey(name, g.flag), front + [g];
    ConfigKeysSplit(name, front, g);
    forall k | k in ConfigKeys(name, groups) && k in c'
      ensures (k in c && c'[k] == c[k]) || FromGroup(c'[k], name, groups, k)
    {
      if k == key && !(k in m && c'[k] == m[k]) {
        assert g in groups;
      } else if k in ConfigKeys(name, front) && !(k in c && m[k] == c[k]) {
        var h :| h in front && ConfigKey(name, h.flag) == k && m[k].files == h.files;
        assert h in groups;
      }
    }
  }

  lemma ConfiguredExtend(c: Resources, name: string, front: seq<Group>, g: Group)
    requires Configured(c, name, front)
    ensures Configured(c[ConfigKey(name, g.flag) := Res(true, g.files)], name, front + [g])
  {
    var groups := front + [g];
    var c' := c[ConfigKey(name, g.flag) := Res(true, g.files)];
    assert groups[..|groups| - 1] == front;
    forall h | h in groups
      ensures ConfigKey(name, h.flag) in c' && c'[ConfigKey(name, h.flag)] == Res(true, LastFiles(groups, h.flag))
    {
      if h.flag != g.flag {
        assert h in front;
      }
    }
  }

  // ----- whole steps -----

  ghost predicate AllLabelled(s: Setup, step: Step, c: Resources) {
    forall k :: k in Owned(s, step) ==> k in c && c[k].labelled
  }

  /** The step is stopped by its own earlier success. */
  ghost predicate Blocked(s: Setup, c: Resources, cont: bool, step: Step) {
    Repeats(cont, step) && Done(s, step, c)
  }

  /**
    `w'` is what a step may make of `w`: only its own resources change, soundness and order are
    kept; a finished step is not touched again; the step finishes unless it is cut or blocked or a query
    fails, and whatever it finishes it leaves labelled.
   */
  ghost predicate StepResult(s: Setup, u: set<Key>, w: World, w': World, cont: bool, step: Step) {
    && TmpGrows(w, w') && w'.cluster.Keys <= u && SameOutside(w.cluster, w'.cluster, Owned(s, step))
    && Sound(s, step, w'.cluster)
    && (Ordered(s, step, w.cluster) ==> Ordered(s, step, w'.cluster))
    && (Done(s, step, w.cluster) ==> w'.cluster == w.cluster)
    && (!w'.halted ==> !w.halted && Done(s, step, w'.cluster))
    && (!w'.halted && !Done(s, step, w.cluster) ==> AllLabelled(s, step, w'.cluster))
    && (Blocked(s, w.cluster, cont, step) ==> w'.halted)
    && (!w.halted && w.tmpDir && w.left >= Cost(step) && !Blocked(s, w.cluster, cont, step) && w.failing == {} ==>
          !w'.halted && w'.left >= w.left - Cost(step))
  }

  ghost predicate CanRun(s: Setup, u: set<Key>, w: World, step: Step) {
    GoodStep(s, u, step) && w.cluster.Keys <= u && Owned(s, step) <= u && Sound(s, step, w.cluster)
  }

  /** Only files of the pattern `.*.yaml` are added to tmp, and the same queries fail. */
  ghost predicate TmpGrows(w: World, w': World) {
    && w'.tmpDir == w.tmpDir && w'.failing == w.failing
    && w.tmp <= w'.tmp && forall f :: f in w'.tmp ==> f in w.tmp || IsDotYaml(f)
  }

  /** What a secret or configmap of a service is called, by the flag typed. */
  lemma ConfigNames(name: string)
    ensures FlagOf("-s").Some? && ConfigKey(name, FlagOf("-s").value) == Key(Secret, name + "-secret")
    ensures FlagOf("-c").Some? && ConfigKey(name, FlagOf("-c").value) == Key(ConfigMap, name + "-configmap")
  {
  }

  /** A volume has its own manifest, or that of the automatic type. */
  lemma VolumeFiles(s: Setup, name: string)
    ensures "volume-" + name in s.manifests ==> VolumeFile(s, name) == "volume-" + name
    ensures "volume-" + name !in s.manifests ==> VolumeFile(s, name) == "volume-auto-" + s.autoVolume
  {
  }

  /** The pattern of the temporary files. */
  lemma DotYamlIs(file: string)
    ensures IsDotYaml(file) <==> exists name :: file == "." + name + ".yaml"
  {
    if IsDotYaml(file) {
      assert file == "." + file[1..|file| - 5] + ".yaml";
    }
    forall name | file == "." + name + ".yaml" ensures IsDotYaml(file) {
      DotYaml(name);
    }
  }

  lemma DotYaml(name: string)
    ensures IsDotYaml("." + name + ".yaml")
  {
    var f := "." + name + ".yaml";
    assert f[|f| - 5..] == ".yaml";
  }

  /** Create and label: all, only the creation, or nothing. */
  lemma TLSMade(w: World, key: Key, res: Res)
    requires !w.halted && !res.labelled
    ensures var w' := Run(Run(w, Create(key, res)), Label(key));
            && w'.tmpDir == w.tmpDir && w'.tmp == w.tmp && w'.failing == w.failing
            && (key in w.cluster || w.left == 0 ==> w'.halted && w'.cluster == w.cluster)
            && (key !in w.cluster && w.left == 1 ==> w'.halted && w'.cluster == w.cluster[key := res])
            && (key !in w.cluster && w.left >= 2 ==>
                  !w'.halted && w'.left == w.left - 2 && w'.cluster == w.cluster[key := res.(labelled := true)])
  {
  }

  lemma TLSSecretEffect(s: Setup, u: set<Key>, w: World, cont: bool, step: Step)
    requires step.TLSSecret? && CanRun(s, u, w, step)
    ensures StepResult(s, u, w, RunStep(s, w, cont, step), cont, step)
  {
    SeesIff(u, w, Secret, step.name, Key(Secret, step.name));
    hide Identifies, Sees, IsDotYaml, HasManifest;
    if !w.halted && (!Sees(w, Secret, step.name) || !cont) {
      TLSMade(w, Key(Secret, step.name), Res(false, [step.key, step.crt]));
      hide Run;
    }
  }

  lemma YamlStepEffect(s: Setup, u: set<Key>, w: World, cont: bool, step: Step)
    requires (step.GuardedYaml? || step.Unguarded?) && CanRun(s, u, w, step)
    ensures StepResult(s, u, w, RunStep(s, w, cont, step), cont, step)
  {
    DotYaml(step.file);
    YamlEffect(s, w, step.file, "." + step.file, "");
    if step.GuardedYaml? {
      SeesIff(u, w, step.kind, step.pattern, FileKey(s, step.file, ""));
    }
  }

  // A guarded createFromYaml: nothing if the resource is there, otherwise one new resource.

  ghost predicate Stage(w: World, w': World, key: Key, res: Res, cost: nat) {
    && TmpGrows(w, w')
    && (key in w.cluster ==> w'.cluster == w.cluster && (w'.halted || w' == w) && (w.failing == {} ==> w' == w))
    && (key !in w.cluster ==>
          && (w'.halted ==> w'.cluster == w.cluster)
          && (!w'.halted ==> !w.halted && w'.cluster == w.cluster[key := res])
          && (!w.halted && w.tmpDir && w.left >= cost ==> !w'.halted && w'.left >= w.left - cost))
  }

  lemma YamlStage(s: Setup, w: World, src: string, vol: string, dest: string)
    requires src in s.manifests && s.manifests[src].labelled
    requires FileKey(s, src, vol) !in w.cluster || w.failing != {}
    ensures Stage(w, CreateFromYaml(s, w, src, "." + dest, vol), FileKey(s, src, vol), Res(true, [src]), 2)
  {
    YamlEffect(s, w, src, "." + dest, vol);
    DotYaml(dest);
  }

  function VolumeStep1(s: Setup, w: World, name: string): World {
    if !Sees(w, PersistentVolume, VolumeNameOf(name)) then MakeVolume(s, w, name) else w
  }

  lemma VolumeStage(s: Setup, u: set<Key>, w: World, name: string)
    requires GoodStep(s, u, Volume(name)) && w.cluster.Keys <= u
    ensures Stage(w, VolumeStep1(s, w, name), FileKey(s, VolumeFile(s, name), name),
                  Res(true, [VolumeFile(s, name)]), 3)
  {
    var vol := FileKey(s, VolumeFile(s, name), name);
    SeesIff(u, w, PersistentVolume, VolumeNameOf(name), vol);
    if !Sees(w, PersistentVolume, VolumeNameOf(name)) {
      var prepared :=
        if "volume-" + name !in s.manifests && s.autoVolume == "local" then Run(w, External) else w;
      YamlStage(s, prepared, VolumeFile(s, name), name, "volume-" + name);
      assert ".volume-" + name == "." + ("volume-" + name);
    }
  }

  lemma ClaimStage(s: Setup, u: set<Key>, w: World, w1: World, name: string)
    requires GoodStep(s, u, Volume(name)) && w1.cluster.Keys <= u && w1 == VolumeStep1(s, w, name)
    ensures Stage(w1, CreateVolume(s, w, name), FileKey(s, "volume-claim", name), Res(true, ["volume-claim"]), 2)
  {
    var claim := FileKey(s, "volume-claim", name);
    SeesIff(u, w1, PersistentVolumeClaim, ClaimNameOf(name), claim);
    if !Sees(w1, PersistentVolumeClaim, ClaimNameOf(name)) {
      YamlStage(s, w1, "volume-claim", name, "volume-claim-" + name);
      assert ".volume-claim-" + name == "." + ("volume-claim-" + name);
    }
    hide Sees, Identifies, CreateFromYaml, VolumeStep1, ClaimNameOf, IsDotYaml;
  }

  lemma VolumeResult(s: Setup, u: set<Key>, w: World, w1: World, w2: World, cont: bool, step: Step)
    requires step.Volume? && CanRun(s, u, w, step)
    requires Stage(w, w1, FileKey(s, VolumeFile(s, step.name), step.name), Res(true, [VolumeFile(s, step.name)]), 3)
    requires Stage(w1, w2, FileKey(s, "volume-claim", step.name), Res(true, ["volume-claim"]), 2)
    requires w1.halted ==> w2.cluster == w1.cluster && w2.halted
    requires w.halted ==> w1.halted
    ensures w.halted ==> w2.halted && w2.cluster == w.cluster
    ensures !w.halted ==> StepResult(s, u, w, w2, cont, step)
  {
    hide IsDotYaml, VolumeFile, Identifies, VolumeNameOf, ClaimNameOf;
  }

  lemma VolumeEffect(s: Setup, u: set<Key>, w: World, cont: bool, step: Step)
    requires step.Volume? && CanRun(s, u, w, step)
    ensures StepResult(s, u, w, RunStep(s, w, cont, step), cont, step)
  {
    if !w.halted {
      var w1 := VolumeStep1(s, w, step.name);
      VolumeStage(s, u, w, step.name);
      ClaimStage(s, u, w, w1, step.name);
      VolumeResult(s, u, w, w1, CreateVolume(s, w, step.name), cont, step);
    }
  }

  function ServiceStep1(s: Setup, w: World, name: string): World {
    if !Sees(w, Service, name) then CreateFromYaml(s, w, "service-" + name, ".service-" + name, "") else w
  }

  lemma ServiceStage(s: Setup, u: set<Key>, w: World, step: Step)
    requires step.StartedService? && CanRun(s, u, w, step)
    ensures Stage(w, ServiceStep1(s, w, step.name), FileKey(s, "service-" + step.name, ""),
                  Res(true, ["service-" + step.name]), 2)
  {
    var svc := FileKey(s, "service-" + step.name, "");
    SeesIff(u, w, Service, step.name, svc);
    if !Sees(w, Service, step.name) {
      YamlStage(s, w, "service-" + step.name, "", "service-" + step.name);
      assert ".service-" + step.name == "." + ("service-" + step.name);
    }
  }

  lemma DeploymentStage(s: Setup, mid: World, name: string)
    requires HasManifest(s, "deployment-" + name, Deployment)
    requires FileKey(s, "deployment-" + name, "") !in mid.cluster
    ensures Stage(mid, CreateFromYaml(s, mid, "deployment-" + name, ".deployment-" + name, ""),
                  FileKey(s, "deployment-" + name, ""), Res(true, ["deployment-" + name]), 2)
  {
    YamlStage(s, mid, "deployment-" + name, "", "deployment-" + name);
    assert ".deployment-" + name == "." + ("deployment-" + name);
  }

  /** The service is there, the deployment is not: groups, then deployment. */
  ghost predicate Configuring(s: Setup, u: set<Key>, w: World, mid: World, w': World, step: Step)
    requires step.StartedService?
  {
    var name, groups := step.name, ParseGroups(step.args).groups;
    var dep := FileKey(s, "deployment-" + name, "");
    && mid.tmpDir == w.tmpDir && mid.tmp == w.tmp && mid.failing == w.failing && mid.cluster.Keys <= u
    && ConfigsMade(w.cluster, mid.cluster, name, groups)
    && (!mid.halted ==> !w.halted && Configured(mid.cluster, name, groups))
    && (!w.halted && w.left >= 3 * |groups| && w.failing == {} ==>
          !mid.halted && mid.left >= w.left - 3 * |groups|)
    && dep !in mid.cluster
    && Stage(mid, w', dep, Res(true, ["deployment-" + name]), 2)
  }

  lemma ServiceKinds(s: Setup, u: set<Key>, step: Step)
    requires step.StartedService? && GoodStep(s, u, step)
    ensures FileKey(s, "service-" + step.name, "").kind == Service
    ensures FileKey(s, "deployment-" + step.name, "").kind == Deployment
  {
  }

  lemma ConfigKeysAreConfigs(name: string, groups: seq<Group>)
    ensures forall k :: k in ConfigKeys(name, groups) ==> k.kind == Secret || k.kind == ConfigMap
  {
  }

  lemma ConfiguringFrame(s: Setup, u: set<Key>, w: World, mid: World, w': World, step: Step)
    requires step.StartedService? && CanRun(s, u, w, step) && Configuring(s, u, w, mid, w', step)
    requires FileKey(s, "service-" + step.name, "") in w.cluster
    ensures TmpGrows(w, w') && w'.cluster.Keys <= u && SameOutside(w.cluster, w'.cluster, Owned(s, step))
    ensures var svc := FileKey(s, "service-" + step.name, "");
            svc in w'.cluster && w'.cluster[svc] == w.cluster[svc]
    ensures !w.halted && w.tmpDir && w.left >= Cost(step) - 2 && w.failing == {} ==>
              !w'.halted && w'.left >= w.left - Cost(step) + 2
  {
    ConfigKeysAreConfigs(step.name, ParseGroups(step.args).groups);
    assert FileKey(s, "service-" + step.name, "").kind == Service;
    assert FileKey(s, "deployment-" + step.name, "").kind == Deployment;
  }

  lemma ConfiguringSound(s: Setup, u: set<Key>, w: World, mid: World, w': World, step: Step)
    requires step.StartedService? && CanRun(s, u, w, step) && Configuring(s, u, w, mid, w', step)
    ensures var name, groups := step.name, ParseGroups(step.args).groups;
            var dep := FileKey(s, "deployment-" + name, "");
            && Intact(w'.cluster, dep, "deployment-" + name)
            && (forall k :: k in ConfigKeys(name, groups) && k in w'.cluster ==>
                  FromGroup(w'.cluster[k], name, groups, k))
            && (dep in w'.cluster ==> Configured(w'.cluster, name, groups))
            && (!w'.halted ==> !w.halted && dep in w'.cluster)
  {
    var name, groups := step.name, ParseGroups(step.args).groups;
    ConfigKeysAreConfigs(name, groups);
    assert FileKey(s, "deployment-" + name, "").kind == Deployment;
    forall k | k in ConfigKeys(name, groups) && k in w'.cluster
      ensures FromGroup(w'.cluster[k], name, groups, k)
    {
      assert k in mid.cluster && w'.cluster[k] == mid.cluster[k];
    }
  }

  lemma ServiceFinished(s: Setup, c: Resources, step: Step)
    requires step.StartedService? && FileKey(s, "service-" + step.name, "") in c
    requires FileKey(s, "deployment-" + step.name, "") in c
    requires Configured(c, step.name, ParseGroups(step.args).groups)
    ensures Done(s, step, c)
  {
  }

  lemma ConfiguringResult(s: Setup, u: set<Key>, w: World, mid: World, w': World, step: Step)
    requires step.StartedService? && CanRun(s, u, w, step) && Configuring(s, u, w, mid, w', step)
    requires FileKey(s, "service-" + step.name, "") in w.cluster
    ensures FileKey(s, "service-" + step.name, "") in w'.cluster && Sound(s, step, w'.cluster)
    ensures !w'.halted ==> !w.halted && Done(s, step, w'.cluster)
  {
    ConfiguringFrame(s, u, w, mid, w', step);
    ConfiguringSound(s, u, w, mid, w', step);
    if !w'.halted {
      ServiceFinished(s, w'.cluster, step);
    }
  }

  lemma DeploymentEffect(s: Setup, u: set<Key>, w: World, step: Step)
    requires step.StartedService? && CanRun(s, u, w, step) && FileKey(s, "deployment-" + step.name, "") !in w.cluster
    ensures var groups := ParseGroups(step.args).groups;
            Configuring(s, u, w, ConfigureAll(w, step.name, groups), StartDeployment(s, w, step.name, step.args), step)
  {
    var groups := ParseGroups(step.args).groups;
    ConfigKeysAreConfigs(step.name, groups);
    ConfigureEffect(u, w, step.name, groups);
    DeploymentStage(s, ConfigureAll(w, step.name, groups), step.name);
  }

  /** Cut in the first half, or the deployment is there already. */
  lemma ServiceSkipped(s: Setup, u: set<Key>, w: World, w1: World, cont: bool, step: Step)
    requires step.StartedService? && CanRun(s, u, w, step) && !w.halted
    requires Stage(w, w1, FileKey(s, "service-" + step.name, ""), Res(true, ["service-" + step.name]), 2)
    requires w1.halted || FileKey(s, "deployment-" + step.name, "") in w1.cluster
    ensures StepResult(s, u, w, w1, cont, step)
  {
    var name, groups := step.name, ParseGroups(step.args).groups;
    var svc, dep := FileKey(s, "service-" + name, ""), FileKey(s, "deployment-" + name, "");
    ServiceKinds(s, u, step);
    ConfigKeysAreConfigs(name, groups);
    hide GoodStep, ParseGroups, FromGroup, IsDotYaml;
    if dep in w1.cluster {
      assert Configured(w1.cluster, name, groups);
    }
  }

  /** The second half, from a world where the service is there and the deployment is not. */
  lemma ServiceConfigured(s: Setup, u: set<Key>, w: World, w1: World, w2: World, cont: bool, step: Step)
    requires step.StartedService? && CanRun(s, u, w, step) && !w.halted && !w1.halted
    requires Stage(w, w1, FileKey(s, "service-" + step.name, ""), Res(true, ["service-" + step.name]), 2)
    requires FileKey(s, "deployment-" + step.name, "") !in w1.cluster
    requires TmpGrows(w1, w2) && w2.cluster.Keys <= u && SameOutside(w1.cluster, w2.cluster, Owned(s, step))
    requires FileKey(s, "service-" + step.name, "") in w2.cluster && Sound(s, step, w2.cluster)
    requires !w2.halted ==> Done(s, step, w2.cluster)
    requires w1.tmpDir && w1.left >= Cost(step) - 2 && w.failing == {} ==>
               !w2.halted && w2.left >= w1.left - Cost(step) + 2
    ensures StepResult(s, u, w, w2, cont, step)
  {
    var name, groups := step.name, ParseGroups(step.args).groups;
    var svc, dep := FileKey(s, "service-" + name, ""), FileKey(s, "deployment-" + name, "");
    hide GoodStep, ParseGroups, FromGroup, IsDotYaml;
    assert SameOutside(w.cluster, w2.cluster, Owned(s, step));
    if !w2.halted {
      assert Configured(w2.cluster, name, groups);
      assert AllLabelled(s, step, w2.cluster);
    }
  }

  lemma ServiceEffect(s: Setup, u: set<Key>, w: World, cont: bool, step: Step)
    requires step.StartedService? && CanRun(s, u, w, step) && !Misread(s, w, step)
    ensures StepResult(s, u, w, RunStep(s, w, cont, step), cont, step)
  {
    hide *;
    if w.halted {
      HaltedResult(s, u, w, cont, step);
    } else {
      var groups := ParseGroups(step.args).groups;
      var w1, w2 := ServiceStep1(s, w, step.name), RunStep(s, w, cont, step);
      ServiceStage(s, u, w, step);
      ServiceStageSound(s, u, w, w1, step);
      ServiceRuns(s, u, w, cont, step);
      if w1.halted || FileKey(s, "deployment-" + step.name, "") in w1.cluster {
        ServiceSkipped(s, u, w, w1, cont, step);
      } else {
        var mid := ConfigureAll(w1, step.name, groups);
        DeploymentEffect(s, u, w1, step);
        ConfiguringFrame(s, u, w1, mid, w2, step);
        ConfiguringResult(s, u, w1, mid, w2, step);
        ServiceConfigured(s, u, w, w1, w2, cont, step);
      }
    }
  }

  lemma HaltedResult(s: Setup, u: set<Key>, w: World, cont: bool, step: Step)
    requires CanRun(s, u, w, step) && w.halted
    ensures StepResult(s, u, w, RunStep(s, w, cont, step), cont, step)
  {
    hide Sound, Owned, GoodStep, Ordered, Done, AllLabelled;
  }

  /** Which way startService goes. */
  lemma ServiceRuns(s: Setup, u: set<Key>, w: World, cont: bool, step: Step)
    requires step.StartedService? && CanRun(s, u, w, step) && !Misread(s, w, step) && !w.halted
    requires Stage(w, ServiceStep1(s, w, step.name), FileKey(s, "service-" + step.name, ""),
                   Res(true, ["service-" + step.name]), 2)
    ensures var w1 := ServiceStep1(s, w, step.name);
            && w1.failing == w.failing
            && RunStep(s, w, cont, step)
               == if w1.halted || FileKey(s, "deployment-" + step.name, "") in w1.cluster then w1
                  else StartDeployment(s, w1, step.name, step.args)
  {
    var w1 := ServiceStep1(s, w, step.name);
    var svc, dep := FileKey(s, "service-" + step.name, ""), FileKey(s, "deployment-" + step.name, "");
    ServiceStageSound(s, u, w, w1, step);
    ServiceKinds(s, u, step);
    SeesIff(u, w, Service, step.name, svc);
    SeesIff(u, w1, Deployment, step.name, dep);
    hide Sees, Identifies, StartDeployment, Sound, Owned, GoodConfigs, ParseGroups, CreateFromYaml, FileKey, IsDotYaml;
  }

  lemma ServiceStageSound(s: Setup, u: set<Key>, w: World, w1: World, step: Step)
    requires step.StartedService? && CanRun(s, u, w, step) && !w.halted
    requires Stage(w, w1, FileKey(s, "service-" + step.name, ""), Res(true, ["service-" + step.name]), 2)
    ensures CanRun(s, u, w1, step)
    ensures !w1.halted ==> FileKey(s, "service-" + step.name, "") in w1.cluster
  {
    ConfigKeysAreConfigs(step.name, ParseGroups(step.args).groups);
    assert FileKey(s, "service-" + step.name, "").kind == Service;
    assert FileKey(s, "deployment-" + step.name, "").kind == Deployment;
  }

  lemma StepEffect(s: Setup, u: set<Key>, w: World, cont: bool, step: Step)
    requires CanRun(s, u, w, step) && !Misread(s, w, step)
    ensures StepResult(s, u, w, RunStep(s, w, cont, step), cont, step)
  {
    match step
    case TLSSecret(_, _, _) => TLSSecretEffect(s, u, w, cont, step);
    case GuardedYaml(_, _, _) => YamlStepEffect(s, u, w, cont, step);
    case Unguarded(_) => YamlStepEffect(s, u, w, cont, step);
    case Volume(_) => VolumeEffect(s, u, w, cont, step);
    case StartedService(_, _) => ServiceEffect(s, u, w, cont, step);
  }
}
