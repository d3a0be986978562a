/** The two handlers of the node server and CreateConfigFile, as they are written. */
module NodeHandlers {
  import opened Options
  import opened NodeServer
  import opened Serial

  /** Mount table, directories and temporary files of the machine the server runs on. */
  class Machine {
    var mounts: map<Path, seq<Entry>>
    var dirs: set<Path>
    var temps: map<File, Content>
    ghost var leaked: set<File>
    ghost var stuck: set<File>
    ghost var halfMade: nat
    ghost var unwritten: nat

    constructor ()
      ensures State() == Node(map[], {}, map[], map[], {}, {}, 0, 0)
    {
      mounts, dirs, temps := map[], {}, map[];
      leaked, stuck, halfMade, unwritten := {}, {}, 0, 0;
    }

    ghost function State(): Node
      reads this
    {
      Node(mounts, dirs, temps, map[], leaked, stuck, halfMade, unwritten)
    }

    /** The machine is in state `g`, apart from the call. */
    ghost predicate In(g: Node)
      reads this
    {
      State() == g.(calls := map[])
    }

    /** The call has come from `start` to `g`, and the machine with it. */
    ghost predicate Reached(start: Node, g: Node, answers: Answers)
      reads this
    {
      && In(g) && start.calls.Keys == {0} && g.calls.Keys == {0} && Fits(start.calls[0]) && Fits(g.calls[0])
      && Drive(start, 0, answers) == Drive(g, 0, answers)
    }

    /** IsLikelyNotMountPoint: whether nothing is mounted; the first result tells of a missing path. */
    method IsLikelyNotMountPoint(p: Path, answer: Outcome) returns (missing: bool, failed: bool, notMounted: bool)
      ensures failed <==> answer.Failure?
      ensures missing <==> !failed && p !in dirs
      ensures !failed && !missing ==> (notMounted <==> Depth(State(), p) == 0)
    {
      failed := answer.Failure?;
      missing := !failed && p !in dirs;
      notMounted := !(p in mounts) || mounts[p] == [];
    }

    method TempFile(answer: Outcome) returns (file: Option<File>)
      modifies this`temps
      ensures file == (if answer.Named? && answer.file !in old(temps) then Some(answer.file) else None)
      ensures temps == match file { case Some(f) => old(temps)[f := Empty] case None => old(temps) }
    {
      if answer.Named? && answer.file !in temps {
        temps := temps[answer.file := Empty];
        return Some(answer.file);
      }
      return None;
    }

    /** Two temporary files and a line in the first; on failure those already made stay. */
    method CreateConfigFile(answers: Answers, ghost start: Node, ghost g: Node)
      returns (files: Option<(File, File)>, ghost g': Node)
      requires Reached(start, g, answers) && g.calls[0].req.Publish? && g.calls[0].stage == FirstTemp
      modifies this
      ensures Reached(start, g', answers) && g'.calls[0].req == g.calls[0].req
      ensures g'.calls[0].stage
           == match files { case Some((conf, cred)) => Mounting(conf, cred) case None => Replied(Internal) }
    {
      hide Drive, CheckStep, MkdirStep, MountStep, RemoveTemp, UnCheckStep, StatStep, ProbeStep, UnmountStep,
        ProbeAgainStep, RemoveDirStep, Depth, Stack, ReplyFor;
      g' := g;
      var f := TempFile(answers(FirstTemp));
      DriveStep(g', 0, answers);
      g' := Step(g', 0, answers(FirstTemp));
      if f == None {
        return None, g';
      }
      files, g' := CreateSecond(f.value, answers, start, g');
    }

    /** The rest of CreateConfigFile once the first file is there. */
    method CreateSecond(conf: File, answers: Answers, ghost start: Node, ghost g: Node)
      returns (files: Option<(File, File)>, ghost g': Node)
      requires Reached(start, g, answers) && g.calls[0].req.Publish? && g.calls[0].stage == SecondTemp(conf)
      modifies this
      ensures Reached(start, g', answers) && g'.calls[0].req == g.calls[0].req
      ensures g'.calls[0].stage
           == match files { case Some((f, c)) => Mounting(f, c) case None => Replied(Internal) }
    {
      hide Drive, CheckStep, MkdirStep, MountStep, RemoveTemp, UnCheckStep, StatStep, ProbeStep, UnmountStep,
        ProbeAgainStep, RemoveDirStep, Depth, Stack, ReplyFor;
      g' := g;
      var c := TempFile(answers(SecondTemp(conf)));
      DriveStep(g', 0, answers);
      g' := Step(g', 0, answers(SecondTemp(conf)));
      if c == None {
        leaked, halfMade := leaked + {conf}, halfMade + 1;
        return None, g';
      }
      var written;
      written, g' := WriteSecrets(conf, c.value, answers, start, g');
      return if written then Some((conf, c.value)) else None, g';
    }

    /** The line that names the secrets file; on failure both files stay. */
    method WriteSecrets(conf: File, cred: File, answers: Answers, ghost start: Node, ghost g: Node)
      returns (written: bool, ghost g': Node)
      requires Reached(start, g, answers) && g.calls[0].req.Publish? && g.calls[0].stage == Write(conf, cred)
      modifies this
      ensures Reached(start, g', answers) && g'.calls[0].req == g.calls[0].req
      ensures g'.calls[0].stage == if written then Mounting(conf, cred) else Replied(Internal)
    {
      hide Drive, CheckStep, MkdirStep, MountStep, RemoveTemp, UnCheckStep, StatStep, ProbeStep, UnmountStep,
        ProbeAgainStep, RemoveDirStep, Depth, Stack, ReplyFor;
      var answer := answers(Write(conf, cred));
      DriveStep(g, 0, answers);
      g' := Step(g, 0, answer);
      if answer.Failure? {
        leaked, unwritten := leaked + {conf, cred}, unwritten + 1;
        return false, g';
      }
      temps := temps[conf := Config(conf)];
      return true, g';
    }

    method Remove(f: File, answer: Outcome)
      modifies this`temps, this`stuck
      ensures temps == if answer.Failure? then old(temps) else old(temps) - {f}
      ensures stuck == if answer.Failure? then old(stuck) + {f} else old(stuck)
    {
      if answer.Failure? {
        stuck := stuck + {f};
      } else {
        temps := temps - {f};
      }
    }

    /** Mount with file system davfs; the mount point has to be there. */
    method Mount(p: Path, entry: Entry, answer: Outcome) returns (error: Option<OsError>)
      modifies this`mounts
      ensures error == (if answer.Failure? then Some(answer.error) else if p in dirs then None else Some(OtherError))
      ensures mounts == if error == None then old(mounts)[p := old(Stack(State(), p)) + [entry]] else old(mounts)
    {
      if answer.Failure? {
        return Some(answer.error);
      }
      if p !in dirs {
        return Some(OtherError);
      }
      mounts := mounts[p := (if p in mounts then mounts[p] else []) + [entry]];
      return None;
    }

    /** The mount itself, after which the two files are removed whatever came of it. */
    method MountAndRemove(
      targetPath: Path, url: string, mountFlags: seq<string>, readonly: bool, conf: File, cred: File, answers: Answers,
      ghost start: Node, ghost g: Node)
      returns (reply: Reply, ghost g': Node)
      requires Reached(start, g, answers) && g.calls[0].req == Publish(targetPath, url, mountFlags, readonly)
      requires g.calls[0].stage == Mounting(conf, cred)
      modifies this
      ensures Reached(start, g', answers) && g'.calls[0].stage == Replied(reply)
    {
      hide Drive, MountOptions, FirstTempStep, SecondTempStep, WriteStep, UnCheckStep, StatStep, ProbeStep, UnmountStep,
        ProbeAgainStep, RemoveDirStep, CheckStep, MkdirStep, ReplyFor;
      var entry := Entry(url, MountOptions(mountFlags, readonly, conf));
      DriveStep(g, 0, answers);
      g' := Step(g, 0, answers(Mounting(conf, cred)));
      var error := Mount(targetPath, entry, answers(Mounting(conf, cred)));
      RemoveBoth(conf, cred, error, answers, start, g');
      g' := Drive(g', 0, answers);
      return ReplyFor(error), g';
    }

    method RemoveBoth(
      conf: File, cred: File, error: Option<OsError>, answers: Answers, ghost start: Node, ghost g: Node)
      requires Reached(start, g, answers) && g.calls[0].req.Publish?
      requires g.calls[0].stage == RemoveConf(conf, cred, error)
      modifies this
      ensures Reached(start, Drive(g, 0, answers), answers)
      ensures Drive(g, 0, answers).calls[0].stage == Replied(ReplyFor(error))
    {
      hide Drive, Step, ReplyFor, Depth, Stack;
      MountTail(g, conf, cred, error, answers);
      Remove(conf, answers(RemoveConf(conf, cred, error)));
      Remove(cred, answers(RemoveCred(cred, error)));
    }

    /** The check of the mount point, and the directory if it is missing; `reply` if that is already the end. */
    method Prepare(targetPath: Path, answers: Answers, ghost start: Node, ghost g: Node)
      returns (reply: Option<Reply>, ghost g': Node)
      requires Reached(start, g, answers) && g.calls[0].req.Publish? && g.calls[0].req.target == targetPath
      requires g.calls[0].stage == Check
      modifies this
      ensures Reached(start, g', answers) && g'.calls[0].req == g.calls[0].req
      ensures g'.calls[0].stage == match reply { case Some(r) => Replied(r) case None => FirstTemp }
    {
      hide Drive, MountOptions, FirstTempStep, SecondTempStep, WriteStep, MountStep, RemoveTemp, UnCheckStep, StatStep,
        ProbeStep, UnmountStep, ProbeAgainStep, RemoveDirStep, ReplyFor;
      g' := g;
      var missing, failed, notMounted := IsLikelyNotMountPoint(targetPath, answers(Check));
      DriveStep(g', 0, answers);
      g' := Step(g', 0, answers(Check));
      if failed {
        return Some(Internal), g';
      }
      if missing {
        DriveStep(g', 0, answers);
        g' := Step(g', 0, answers(Mkdir));
        if answers(Mkdir).Failure? {
          return Some(Internal), g';
        }
        dirs := dirs + {targetPath};
        notMounted := true;
      }
      if !notMounted {
        return Some(OK), g';
      }
      return None, g';
    }

    /** The handler does to the machine, and answers, what the call alone does in the transition system. */
    method NodePublishVolume(
      targetPath: Path, url: string, mountFlags: seq<string>, readonly: bool, answers: Answers)
      returns (reply: Reply)
      modifies this
      ensures (State(), reply) == Serve(old(State()), Publish(targetPath, url, mountFlags, readonly), answers)
    {
      hide Drive, Step;
      ghost var start := With(State(), Call(Publish(targetPath, url, mountFlags, readonly), Check, false));
      var end, g := Prepare(targetPath, answers, start, start);
      if end != None {
        return end.value;
      }
      var files;
      files, g := CreateConfigFile(answers, start, g);
      if files == None {
        return Internal;
      }
      var (conf, cred) := files.value;
      reply, g := MountAndRemove(targetPath, url, mountFlags, readonly, conf, cred, answers, start, g);
    }

    /** UnmountPath: whether it returns an error. */
    method UnmountPath(p: Path, answers: Answers, ghost start: Node, ghost g: Node)
      returns (failed: bool, ghost g': Node)
      requires Reached(start, g, answers) && g.calls[0].req == Unpublish(p) && g.calls[0].stage == Stat
      modifies this
      ensures Reached(start, g', answers) && g'.calls[0].stage == Replied(if failed then Internal else OK)
    {
      hide Drive;
      g' := g;
      var stat := answers(Stat);
      DriveStep(g', 0, answers);
      g' := Step(g', 0, stat);
      if stat.Failure? && stat.error != Corrupted {
        return false, g';
      }
      if stat.Failure? {
        failed, g' := DoUnmountPath(p, answers, start, g');
        return;
      }
      if p !in dirs {
        return false, g';
      }
      var missing, probed, notMounted := IsLikelyNotMountPoint(p, answers(Probe));
      DriveStep(g', 0, answers);
      g' := Step(g', 0, answers(Probe));
      if probed || missing {
        return true, g';
      }
      if notMounted {
        failed, g' := RemoveDirectory(p, answers, start, g');
        return;
      }
      failed, g' := DoUnmountPath(p, answers, start, g');
    }

    /** Unmount, look again, and remove the directory if nothing is mounted there any more. */
    method DoUnmountPath(p: Path, answers: Answers, ghost start: Node, ghost g: Node)
      returns (failed: bool, ghost g': Node)
      requires Reached(start, g, answers) && g.calls[0].req == Unpublish(p) && g.calls[0].stage == Unmounting
      modifies this
      ensures Reached(start, g', answers) && g'.calls[0].stage == Replied(if failed then Internal else OK)
    {
      hide Drive;
      g' := g;
      DriveStep(g', 0, answers);
      g' := Step(g', 0, answers(Unmounting));
      if answers(Unmounting).Failure? || p !in mounts || mounts[p] == [] {
        return true, g';
      }
      mounts := mounts[p := mounts[p][..|mounts[p]| - 1]];
      var missing, probed, notMounted := IsLikelyNotMountPoint(p, answers(ProbeAgain));
      DriveStep(g', 0, answers);
      g' := Step(g', 0, answers(ProbeAgain));
      if probed || missing || !notMounted {
        return true, g';
      }
      failed, g' := RemoveDirectory(p, answers, start, g');
    }

    method RemoveDirectory(p: Path, answers: Answers, ghost start: Node, ghost g: Node)
      returns (failed: bool, ghost g': Node)
      requires Reached(start, g, answers) && g.calls[0].req == Unpublish(p) && g.calls[0].stage == RemoveDir
      modifies this
      ensures Reached(start, g', answers) && g'.calls[0].stage == Replied(if failed then Internal else OK)
    {
      hide Drive;
      g' := g;
      DriveStep(g', 0, answers);
      g' := Step(g', 0, answers(RemoveDir));
      if answers(RemoveDir).Failure? || p !in dirs || (p in mounts && mounts[p] != []) {
        return true, g';
      }
      dirs := dirs - {p};
      return false, g';
    }

    method NodeUnpublishVolume(targetPath: Path, answers: Answers) returns (reply: Reply)
      modifies this
      ensures (State(), reply) == Serve(old(State()), Unpublish(targetPath), answers)
    {
      hide Drive;
      ghost var start := With(State(), Call(Unpublish(targetPath), UnCheck, false));
      ghost var g := start;
      var missing, failed, notMounted := IsLikelyNotMountPoint(targetPath, answers(UnCheck));
      DriveStep(g, 0, answers);
      g := Step(g, 0, answers(UnCheck));
      if failed {
        return Internal;
      }
      if missing || notMounted {
        return NotFound;
      }
      failed, g := UnmountPath(targetPath, answers, start, g);
      return if failed then Internal else OK;
    }
  }
}
