/**
  The functions of `dev-kube/lib` and the two scripts, statement by statement, each proved to do to
  the world what its specification in `Cluster` says. `halted` stands for `exit 1`: nothing is
  executed behind it.
 */
module Shell {
  import opened Options
  import opened ArgGroups
  import opened Cluster
  import opened Steps
  import opened WholeTale

  /** `ARGS`: a `--from-file` in front of each file. */
  function FromFile(files: seq<string>): seq<string> {
    if files == [] then [] else ["--from-file", files[0]] + FromFile(files[1..])
  }

  /** What kubectl reads back from it. */
  function FilesOf(args: seq<string>): seq<string>
    decreases |args|
  {
    if |args| < 2 then [] else [args[1]] + FilesOf(args[2..])
  }

  lemma {:induction false} FilesOfFromFile(files: seq<string>)
    ensures FilesOf(FromFile(files)) == files
  {
    if files != [] {
      FilesOfFromFile(files[1..]);
      assert FromFile(files)[2..] == FromFile(files[1..]);
    }
  }

  lemma {:induction false} FromFileAppend(files: seq<string>, f: string)
    ensures FromFile(files + [f]) == FromFile(files) + ["--from-file", f]
  {
    if files == [] {
      assert FromFile([f]) == ["--from-file", f] + FromFile([f][1..]);
    } else {
      assert (files + [f])[1..] == files[1..] + [f];
      FromFileAppend(files[1..], f);
    }
  }

  lemma {:induction false} LeadingFilesIs(args: seq<string>, n: nat)
    requires n <= |args| && (forall i :: 0 <= i < n ==> IsFile(args[i]))
    requires n < |args| ==> !IsFile(args[n])
    ensures LeadingFiles(args) == n
  {
    if n > 0 {
      LeadingFilesIs(args[1..], n - 1);
    }
  }

  // ----- the argument loop -----

  /** The argument loop has dealt with `front`; what remains is `args`. */
  ghost predicate LoopAt(name: string, w: World, args0: seq<string>, front: seq<Group>, args: seq<string>, now: World) {
    && ParseGroups(args0) == Parse(front + ParseGroups(args).groups, ParseGroups(args).ok)
    && now == ConfigureAll(w, name, front)
  }

  lemma LoopStarts(name: string, w: World, args0: seq<string>)
    ensures LoopAt(name, w, args0, [], args0, w)
  {
    assert [] + ParseGroups(args0).groups == ParseGroups(args0).groups;
  }

  lemma LoopAdvance(
    name: string, w: World, args0: seq<string>, front: seq<Group>, args: seq<string>, now: World,
    rest: seq<string>, g: Group)
    requires LoopAt(name, w, args0, front, args, now)
    requires ParseGroups(args) == Cons(g, ParseGroups(rest))
    ensures LoopAt(name, w, args0, front + [g], rest, ConfigureGroup(now, name, g))
  {
    hide ParseGroups, ConfigureGroup;
    ConfigureAllAppend(w, name, front, [g]);
    assert [g][..0] == [];
    assert ConfigureAll(now, name, [g]) == ConfigureGroup(ConfigureAll(now, name, []), name, g);
    assert front + ([g] + ParseGroups(rest).groups) == front + [g] + ParseGroups(rest).groups;
  }

  /** Stopped inside the loop: the rest of startService would change nothing. */
  lemma LoopStopped(
    s: Setup, name: string, w: World, args0: seq<string>, front: seq<Group>, args: seq<string>, now: World)
    requires LoopAt(name, w, args0, front, args, now) && now.halted
    ensures StartDeployment(s, w, name, args0) == now
  {
    var rest := ParseGroups(args).groups;
    ConfigureAllAppend(w, name, front, rest);
    HaltedConfigureAll(now, name, rest);
  }

  /** An argument error: the groups in front of it have been configured, then the script ends. */
  lemma LoopFails(
    s: Setup, name: string, w: World, args0: seq<string>, front: seq<Group>, args: seq<string>, now: World)
    requires LoopAt(name, w, args0, front, args, now)
    requires args != [] && args[0] != "" && (MissingArguments(args) || FlagOf(args[0]).None?)
    ensures StartDeployment(s, w, name, args0) == Halt(now)
  {
    assert front + [] == front;
  }

  lemma LoopEnds(
    s: Setup, name: string, w: World, args0: seq<string>, front: seq<Group>, args: seq<string>, now: World)
    requires LoopAt(name, w, args0, front, args, now) && (args == [] || args[0] == "")
    ensures StartDeployment(s, w, name, args0) ==
              CreateFromYaml(s, now, "deployment-" + name, ".deployment-" + name, "")
  {
    assert front + [] == front;
  }

  lemma ParseGroupsStep(args: seq<string>, flag: Flag, n: nat)
    requires args != [] && args[0] != "" && !MissingArguments(args) && FlagOf(args[0]) == Some(flag)
    requires n == LeadingFiles(args[1..])
    ensures n + 1 <= |args|
    ensures ParseGroups(args) == Cons(Group(flag, args[1..n + 1]), ParseGroups(args[n + 1..]))
  {
    assert args[1..][..n] == args[1..n + 1] && args[1..][n..] == args[n + 1..];
  }

  /** A halted script does nothing, whichever function it calls. */
  lemma HaltedBody(s: Setup, w: World, cont: bool, step: Step)
    ensures w.halted ==> StepBody(s, w, cont, step) == w
  {
  }

  lemma CleanEnd(w: World)
    ensures RunAll(w, CLEAN_COMMANDS[15..]) == w && CLEAN_COMMANDS[0..] == CLEAN_COMMANDS
  {
  }

  /** The steps from `i` on, with step `i` behind us. */
  ghost function Follow(w: World, cont: bool, i: nat, w': World): (r: World)
    requires i < |STEPS| && w' == StepBody(SETUP, w, cont, STEPS[i])
    ensures r == w'
    ensures RunSteps(SETUP, w, cont, STEPS, i) == RunSteps(SETUP, w', cont, STEPS, i + 1)
  {
    HaltedBody(SETUP, w, cont, STEPS[i]);
    w'
  }

  ghost function FollowClean(w: World, i: nat, w': World): (r: World)
    requires i < |CLEAN_COMMANDS| && w' == Run(w, CLEAN_COMMANDS[i])
    ensures r == w'
    ensures RunAll(w, CLEAN_COMMANDS[i..]) == RunAll(w', CLEAN_COMMANDS[i + 1..])
  {
    assert CLEAN_COMMANDS[i..][1..] == CLEAN_COMMANDS[i + 1..];
    w'
  }

  class Script {
    const setup: Setup
    var cluster: Resources
    var tmpDir: bool
    var tmp: set<string>
    var left: nat
    var halted: bool
    const failing: set<Query>  // the queries that fail in this run

    // The globals of getArgs.
    var args: seq<string>
    var nargs: nat

    constructor (setup: Setup, w: World)
      ensures this.setup == setup && State() == w
    {
      this.setup := setup;
      cluster, tmpDir, tmp, left, halted := w.cluster, w.tmpDir, w.tmp, w.left, w.halted;
      failing := w.failing;
      args, nargs := [], 1;
    }

    function State(): World
      reads this
    {
      World(cluster, tmpDir, tmp, left, halted, failing)
    }

    /** `run NAME COMMAND...` */
    method Perform(cmd: Command)
      modifies this
      ensures State() == Run(old(State()), cmd)
      ensures args == old(args) && nargs == old(nargs)
    {
      if halted || left == 0 {
        halted := true;
        return;
      }
      match cmd {
        case Create(key, res) =>
          if key in cluster {
            halted := true;
            return;
          }
          cluster := cluster[key := res];
        case Delete(key) =>
          if key !in cluster {
            halted := true;
            return;
          }
          cluster := cluster - {key};
        case Label(key) =>
          if key !in cluster {
            halted := true;
            return;
          }
          cluster := cluster[key := cluster[key].(labelled := true)];
        case DeleteLabelled(kind) =>
          cluster := WithoutLabelled(cluster, {kind});
        case MakeTmpDir =>
          tmpDir := true;
        case WriteTmp(file) =>
          if !tmpDir {
            halted := true;
            return;
          }
          tmp := tmp + {file};
        case RemoveTmps =>
          tmp := set f | f in tmp && !IsDotYaml(f);
        case RemoveTmpDir =>
          if !tmpDir || tmp != {} {
            halted := true;
            return;
          }
          tmpDir := false;
        case External =>
      }
      left := left - 1;
    }

    /** `fail MESSAGE` */
    method Fail()
      modifies this`halted
      ensures State() == Halt(old(State()))
    {
      halted := true;
    }

    /**
      `getArgs "$@"`: a file list into ARGS and the number of arguments used into NARGS, at least
      one and at most all of them, so that `shift $NARGS` always makes progress.
     */
    method GetArgs(params: seq<string>)
      requires params != []
      modifies this`args, this`nargs, this`halted
      ensures State() == (if MissingArguments(params) then Halt(old(State())) else old(State()))
      ensures !MissingArguments(params) ==>
                && 1 <= nargs <= |params|
                && nargs == 1 + LeadingFiles(params[1..])
                && args == FromFile(params[1..nargs])
    {
      args, nargs := [], 1;
      var rest := params[1..];
      while rest != [] && rest[0] != ""
        invariant 1 <= nargs <= |params| && rest == params[nargs..]
        invariant args == FromFile(params[1..nargs])
        invariant forall i :: 0 <= i < nargs - 1 ==> IsFile(params[1..][i])
        invariant State() == old(State())
        invariant nargs > 1 ==> !MissingArguments(params)
        decreases |rest|
      {
        if IsDash(rest[0]) {
          if nargs == 1 {
            Fail();
            return;
          }
          LeadingFilesIs(params[1..], nargs - 1);
          return;
        }
        assert params[1..nargs + 1] == params[1..nargs] + [rest[0]];
        FromFileAppend(params[1..nargs], rest[0]);
        args := args + ["--from-file", rest[0]];
        rest := rest[1..];
        nargs := nargs + 1;
      }
      LeadingFilesIs(params[1..], nargs - 1);
    }

    /** `prepyaml` with an explicit destination, then `kubectl create -f`. */
    method CreateYaml(src: string, dest0: string, vol: string)
      modifies this
      ensures State() == CreateFromYaml(setup, old(State()), src, if dest0 == "" then "." + src else dest0, vol)
    {
      var dest := if dest0 == "" then "." + src else dest0;
      if src !in setup.manifests {
        Fail();
        return;
      }
      Perform(WriteTmp(dest + ".yaml"));
      var m := setup.manifests[src];
      Perform(Create(ManifestKey(m, vol), Res(m.labelled, [src])));
    }

    method TLS(cont: bool, name: string, key: string, crt: string)
      modifies this
      ensures State() == CreateTLSSecret(old(State()), cont, name, key, crt)
    {
      if !Sees(State(), Secret, name) || !cont {
        Perform(Create(Key(Secret, name), Res(false, [key, crt])));
        Perform(Label(Key(Secret, name)));
      }
    }

    method Guarded(cont: bool, kind: Kind, pattern: string, file: string)
      modifies this
      ensures State() == CreateGuarded(setup, old(State()), cont, kind, pattern, file)
    {
      if !Sees(State(), kind, pattern) || !cont {
        CreateYaml(file, "", "");
      }
    }

    method MakeVolumeAndClaim(name: string)
      modifies this
      ensures State() == CreateVolume(setup, old(State()), name)
    {
      if !Sees(State(), PersistentVolume, name + "-volume") {
        if "volume-" + name in setup.manifests {
          CreateYaml("volume-" + name, "", name);
          assert "." + ("volume-" + name) == ".volume-" + name;
        } else {
          if setup.autoVolume == "local" {
            Perform(External);  // mkdir -p volume-dirs/NAME
          }
          CreateYaml("volume-auto-" + setup.autoVolume, ".volume-" + name, name);
        }
      }
      if !Sees(State(), PersistentVolumeClaim, name + "-volume-claim") {
        CreateYaml("volume-claim", ".volume-claim-" + name, name);
      }
    }

    /** The body of the `while` loop of startService behind `shift $NARGS`. */
    method Configure(name: string, flag: Flag)
      modifies this
      ensures State() == ConfigureGroup(old(State()), name, Group(flag, FilesOf(old(args))))
    {
      var key := ConfigKey(name, flag);
      var files := FilesOf(args);
      if Sees(State(), key.kind, key.name) {
        Perform(Delete(key));
      }
      Perform(Create(key, Res(false, files)));
      Perform(Label(key));
    }

    method ConfigureAndDeploy(name: string, params: seq<string>)
      requires !halted
      modifies this
      ensures State() == StartDeployment(setup, old(State()), name, params)
    {
      hide LoopAt, ParseGroups, ConfigureGroup, StartDeployment, FilesOf, LeadingFiles;
      ghost var w := State();
      ghost var front: seq<Group> := [];
      var rest := params;
      LoopStarts(name, w, params);
      while rest != [] && rest[0] != ""
        invariant !halted && LoopAt(name, w, params, front, rest, State())
        decreases |rest|
      {
        ghost var now := State();
        GetArgs(rest);
        if halted {
          LoopFails(setup, name, w, params, front, rest, now);
          return;
        }
        var flag := FlagOf(rest[0]);
        if flag.None? {
          LoopFails(setup, name, w, params, front, rest, State());
          Fail();
          return;
        }
        ghost var g := Group(flag.value, rest[1..nargs]);
        ParseGroupsStep(rest, flag.value, nargs - 1);
        LoopAdvance(name, w, params, front, rest, State(), rest[nargs..], g);
        FilesOfFromFile(rest[1..nargs]);
        rest := rest[nargs..];
        front := front + [g];
        Configure(name, flag.value);
        if halted {
          LoopStopped(setup, name, w, params, front, rest, State());
          return;
        }
      }
      LoopEnds(setup, name, w, params, front, rest, State());
      CreateYaml("deployment-" + name, "", "");
      assert "." + ("deployment-" + name) == ".deployment-" + name;
    }

    method Start(name: string, params: seq<string>)
      modifies this
      ensures State() == StartService(setup, old(State()), name, params)
    {
      assert "." + ("service-" + name) == ".service-" + name;
      if !Sees(State(), Service, name) {
        CreateYaml("service-" + name, "", "");
      }
      if halted {
        return;
      }
      if !Sees(State(), Deployment, name) {
        ConfigureAndDeploy(name, params);
      }
    }

    /** deploy.sh:85-98 */
    method CreateStorage(cont: bool)
      requires setup == SETUP
      modifies this
      ensures RunSteps(SETUP, old(State()), cont, STEPS, 0) == RunSteps(SETUP, State(), cont, STEPS, 8)
    {
      hide CreateVolume, CreateGuarded, CreateTLSSecret, CreateFromYaml, StartService, MANIFESTS, IsDotYaml;
      ghost var w := State();
      TLS(cont, "dev-cert-secret", "./certs/dev.key", "./certs/dev.crt");
      w := Follow(w, cont, 0, State());
      TLS(cont, "site-cert-secret", "./certs/ssl.key", "./certs/ssl.crt");
      w := Follow(w, cont, 1, State());
      Guarded(cont, Secret, "registry-secret", "secret-registry");
      w := Follow(w, cont, 2, State());
      MakeVolumeAndClaim("mongo");
      w := Follow(w, cont, 3, State());
      MakeVolumeAndClaim("registry-storage");
      w := Follow(w, cont, 4, State());
      MakeVolumeAndClaim("girder-ps");
      w := Follow(w, cont, 5, State());
      CreateYaml("volume-claim-gwvolman-dev", "", "");
      w := Follow(w, cont, 6, State());
      CreateYaml("volume-gwvolman-dev", "", "");
      w := Follow(w, cont, 7, State());
    }

    /** deploy.sh:99-109 */
    method StartServices(cont: bool)
      requires setup == SETUP
      modifies this
      ensures State() == RunSteps(SETUP, old(State()), cont, STEPS, 8)
    {
      hide StartService, CreateGuarded, MANIFESTS;
      ghost var w := State();
      Start("mongo", []);
      w := Follow(w, cont, 8, State());
      Start("redis", []);
      w := Follow(w, cont, 9, State());
      Start("registry", []);
      w := Follow(w, cont, 10, State());
      Start("girder", GIRDER_ARGS);
      w := Follow(w, cont, 11, State());
      Start("dashboard", []);
      w := Follow(w, cont, 12, State());
      Start("worker", WORKER_ARGS);
      w := Follow(w, cont, 13, State());
      Guarded(cont, Ingress, "ingress", "ingress");
      w := Follow(w, cont, 14, State());
    }

    /** deploy.sh:37-122 without cluster creation. */
    method Deploy(cont: bool)
      requires setup == SETUP
      modifies this
      ensures State() == DeployScript(SETUP, old(State()), cont, STEPS)
    {
      hide Run, RunSteps, MANIFESTS;
      Perform(MakeTmpDir);
      Perform(External);  // mustBeSet
      Perform(External);  // check_certs.sh
      CreateStorage(cont);
      StartServices(cont);
      Perform(External);  // setup_girder.py
      Perform(RemoveTmps);
      Perform(RemoveTmpDir);
    }

    /** clean.sh:23-34 */
    method Clean()
      modifies this
      ensures State() == CleanScript(old(State()))
    {
      hide Run, RunAll, WithoutLabelled;
      ghost var w := State();
      CleanEnd(w);
      Perform(External);  // mustBeSet
      w := FollowClean(w, 0, State());
      Perform(External);  // rm -f ./.deploy*.yaml
      w := FollowClean(w, 1, State());
      Perform(DeleteLabelled(Deployment));
      w := FollowClean(w, 2, State());
      Perform(DeleteLabelled(Service));
      w := FollowClean(w, 3, State());
      Perform(DeleteLabelled(Ingress));
      w := FollowClean(w, 4, State());
      Perform(DeleteLabelled(PersistentVolume));
      w := FollowClean(w, 5, State());
      Perform(DeleteLabelled(PersistentVolumeClaim));
      w := FollowClean(w, 6, State());
      Perform(DeleteLabelled(Secret));
      w := FollowClean(w, 7, State());
      Perform(DeleteLabelled(ConfigMap));
      w := FollowClean(w, 8, State());
      Perform(DeleteLabelled(ServiceAccount));
      w := FollowClean(w, 9, State());
      Perform(DeleteLabelled(ClusterRole));
      w := FollowClean(w, 10, State());
      Perform(DeleteLabelled(ClusterRoleBinding));
      w := FollowClean(w, 11, State());
      Perform(DeleteLabelled(Role));
      w := FollowClean(w, 12, State());
      Perform(DeleteLabelled(RoleBinding));
      w := FollowClean(w, 13, State());
      Perform(External);  // rm -rf volume-dirs
      w := FollowClean(w, 14, State());
      CleanEnd(w);
    }
  }
}
