/** Calls made one at a time: what one publish or unpublish does from beginning to reply. */
module Serial {
  import opened Options
  import opened NodeServer

  /** How the operating system will answer each step of one call; no stage comes twice in a call. */
  type Answers = Stage -> Outcome

  /** An upper bound on the steps left before the reply. */
  function StepsLeft(stage: Stage): nat {
    match stage
    case Replied(_) => 0
    case RemoveCred(_, _) => 1
    case RemoveConf(_, _, _) => 2
    case Mounting(_, _) => 3
    case Write(_, _) => 4
    case SecondTemp(_) => 5
    case FirstTemp => 6
    case Mkdir => 7
    case Check => 8
    case RemoveDir => 1
    case ProbeAgain => 2
    case Unmounting => 3
    case Probe => 4
    case Stat => 5
    case UnCheck => 6
  }

  ghost predicate Progresses(n: Node, n': Node, id: CallId) {
    && id in n.calls && id in n'.calls && Fits(n'.calls[id]) && n'.calls[id].req == n.calls[id].req
    && StepsLeft(n'.calls[id].stage) < StepsLeft(n.calls[id].stage)
  }

  // A step of each stage, by the function that performs it.

  lemma FirstProgress(n: Node, id: CallId, o: Outcome)
    requires id in n.calls && n.calls[id].req.Publish?
    ensures n.calls[id].stage == Check ==> Progresses(n, CheckStep(n, id, n.calls[id].req.target, o), id)
    ensures n.calls[id].stage == Mkdir ==> Progresses(n, MkdirStep(n, id, n.calls[id].req.target, o), id)
    ensures n.calls[id].stage == FirstTemp ==> Progresses(n, FirstTempStep(n, id, o), id)
  {
    hide Depth;
  }

  lemma FilesProgress(n: Node, id: CallId, o: Outcome)
    requires id in n.calls && n.calls[id].req.Publish?
    ensures match n.calls[id].stage
            case SecondTemp(conf) => Progresses(n, SecondTempStep(n, id, conf, o), id)
            case Write(conf, cred) => Progresses(n, WriteStep(n, id, conf, cred, o), id)
            case _ => true
  {
  }

  lemma MountProgress(n: Node, id: CallId, o: Outcome)
    requires id in n.calls && n.calls[id].req.Publish?
    ensures match n.calls[id].stage
            case Mounting(conf, cred) => Progresses(n, MountStep(n, id, n.calls[id].req, conf, cred, o), id)
            case RemoveConf(conf, cred, error) =>
              Progresses(n, At(RemoveTemp(n, conf, o), id, RemoveCred(cred, error)), id)
            case RemoveCred(cred, error) =>
              Progresses(n, At(RemoveTemp(n, cred, o), id, Replied(ReplyFor(error))), id)
            case _ => true
  {
    hide MountOptions, Stack, ReplyFor;
  }

  lemma PublishProgresses(n: Node, id: CallId, o: Outcome)
    requires id in n.calls && Fits(n.calls[id]) && n.calls[id].req.Publish? && !n.calls[id].stage.Replied?
    ensures Progresses(n, Step(n, id, o), id)
  {
    FirstProgress(n, id, o);
    FilesProgress(n, id, o);
    MountProgress(n, id, o);
    hide Progresses, CheckStep, MkdirStep, FirstTempStep, SecondTempStep, WriteStep, MountStep, RemoveTemp, ReplyFor;
  }

  lemma QuestionProgress(n: Node, id: CallId, o: Outcome)
    requires id in n.calls && n.calls[id].req.Unpublish?
    ensures n.calls[id].stage == UnCheck ==> Progresses(n, UnCheckStep(n, id, n.calls[id].req.target, o), id)
    ensures n.calls[id].stage == Stat ==> Progresses(n, StatStep(n, id, n.calls[id].req.target, o), id)
    ensures n.calls[id].stage == Probe ==> Progresses(n, ProbeStep(n, id, n.calls[id].req.target, o), id)
  {
    hide Depth;
  }

  lemma RemovalProgress(n: Node, id: CallId, o: Outcome)
    requires id in n.calls && n.calls[id].req.Unpublish?
    ensures n.calls[id].stage == Unmounting ==> Progresses(n, UnmountStep(n, id, n.calls[id].req.target, o), id)
    ensures n.calls[id].stage == ProbeAgain ==> Progresses(n, ProbeAgainStep(n, id, n.calls[id].req.target, o), id)
    ensures n.calls[id].stage == RemoveDir ==> Progresses(n, RemoveDirStep(n, id, n.calls[id].req.target, o), id)
  {
    hide Stack;
  }

  lemma UnpublishProgresses(n: Node, id: CallId, o: Outcome)
    requires id in n.calls && Fits(n.calls[id]) && n.calls[id].req.Unpublish? && !n.calls[id].stage.Replied?
    ensures Progresses(n, Step(n, id, o), id)
  {
    QuestionProgress(n, id, o);
    RemovalProgress(n, id, o);
    hide Progresses, UnCheckStep, StatStep, ProbeStep, UnmountStep, ProbeAgainStep, RemoveDirStep;
  }

  lemma StepProgresses(n: Node, id: CallId, o: Outcome)
    requires id in n.calls && Fits(n.calls[id]) && !n.calls[id].stage.Replied?
    ensures Progresses(n, Step(n, id, o), id)
  {
    hide Step, Progresses;
    if n.calls[id].req.Publish? {
      PublishProgresses(n, id, o);
    } else {
      UnpublishProgresses(n, id, o);
    }
  }

  /** Call `id` runs alone until it replies. */
  function Drive(n: Node, id: CallId, answers: Answers): (n': Node)
    requires id in n.calls && Fits(n.calls[id])
    ensures id in n'.calls && n'.calls[id].stage.Replied? && n'.calls[id].req == n.calls[id].req
    ensures n.calls[id].stage.Replied? ==> n' == n
    decreases StepsLeft(n.calls[id].stage)
  {
    if n.calls[id].stage.Replied? then n
    else
      StepProgresses(n, id, answers(n.calls[id].stage));
      Drive(Step(n, id, answers(n.calls[id].stage)), id, answers)
  }

  /** A whole call, on a node where nothing else is in flight. */
  function Serve(n: Node, req: Request, answers: Answers): (Node, Reply)
    requires n.calls == map[]
  {
    var n' := Drive(n.(calls := map[0 := Call(req, FirstStage(req), false)]), 0, answers);
    (n'.(calls := map[]), n'.calls[0].stage.reply)
  }

  /** UnmountPath gives up with no error: stat fails on the mounted path, and not as a corrupted mount. */
  predicate Skips(answers: Answers) {
    answers(Stat).Failure? && answers(Stat).error != Corrupted
  }

  /** One step at a time. */
  lemma DriveStep(n: Node, id: CallId, answers: Answers)
    requires id in n.calls && Fits(n.calls[id]) && !n.calls[id].stage.Replied?
    ensures var n' := Step(n, id, answers(n.calls[id].stage));
            id in n'.calls && Fits(n'.calls[id]) && Drive(n, id, answers) == Drive(n', id, answers)
  {
    StepProgresses(n, id, answers(n.calls[id].stage));
    hide Step;
  }

  /** The node with only the call `call` in flight. */
  function With(n: Node, call: Call): Node {
    n.(calls := map[0 := call])
  }

  // ----- publish -----

  /** The temporary files a publish makes, by how far it gets. */
  datatype Made = Neither | Half(conf: File) | Unwritten(conf: File, cred: File) | Both(conf: File, cred: File)

  function Makes(temps: map<File, Content>, answers: Answers): Made {
    var f := answers(FirstTemp);
    if !f.Named? || f.file in temps then Neither
    else
      var c := answers(SecondTemp(f.file));
      if !c.Named? || c.file in temps || c.file == f.file then Half(f.file)
      else if answers(Write(f.file, c.file)).Failure? then Unwritten(f.file, c.file)
      else Both(f.file, c.file)
  }

  function ErrorOf(o: Outcome): Option<OsError> {
    if o.Failure? then Some(o.error) else None
  }

  /** There is a directory to mount on, if need be a new one. */
  predicate Ready(dirs: set<Path>, p: Path, answers: Answers) {
    !answers(Check).Failure? && (p in dirs || !answers(Mkdir).Failure?)
  }

  /** The error the mount ends with, if it is reached. */
  function MountResult(made: Made, answers: Answers): Option<OsError>
    requires made.Both?
  {
    ErrorOf(answers(Mounting(made.conf, made.cred)))
  }

  /** The reply once the directory is there. */
  function MountReply(made: Made, answers: Answers): Reply {
    if made.Both? then ReplyFor(MountResult(made, answers)) else Internal
  }

  /** The reply of a publish on an unmounted path. */
  function PublishReply(n: Node, p: Path, answers: Answers): Reply {
    if Ready(n.dirs, p, answers) then MountReply(Makes(n.temps, answers), answers) else Internal
  }

  /** What the two removals leave. */
  function Cleared(
    temps: map<File, Content>, conf: File, cred: File, error: Option<OsError>, answers: Answers): map<File, Content>
  {
    temps - (if answers(RemoveConf(conf, cred, error)).Failure? then {} else {conf})
          - (if answers(RemoveCred(cred, error)).Failure? then {} else {cred})
  }

  /** The temporary files afterwards. */
  function TempsAfter(temps: map<File, Content>, answers: Answers): map<File, Content> {
    match Makes(temps, answers)
    case Neither => temps
    case Half(conf) => temps[conf := Empty]
    case Unwritten(conf, cred) => temps[conf := Empty][cred := Empty]
    case Both(conf, cred) =>
      Cleared(temps[conf := Config(conf)][cred := Empty], conf, cred,
              MountResult(Both(conf, cred), answers), answers)
  }

  /** The mounts afterwards: the one asked for is on top, or nothing has changed. */
  function MountsAfter(n: Node, req: Request, r: Reply, conf: File): map<Path, seq<Entry>>
    requires req.Publish?
  {
    if r == OK then
      n.mounts[req.target := Stack(n, req.target) + [Entry(req.url, MountOptions(req.flags, req.readonly, conf))]]
    else n.mounts
  }

  /** What a publish from the first temporary file on does to node `n`, ending in `n'` with reply `r`. */
  ghost predicate Mounted(n: Node, req: Request, answers: Answers, n': Node, r: Reply)
    requires req.Publish?
  {
    var made := Makes(n.temps, answers);
    && r == MountReply(made, answers) && n'.dirs == n.dirs && n'.temps == TempsAfter(n.temps, answers)
    && n'.mounts == MountsAfter(n, req, r, if made.Both? then made.conf else 0)
  }

  /** What a publish does to node `n`, on a path that is not mounted. */
  ghost predicate Published(n: Node, req: Request, answers: Answers, n': Node, r: Reply)
    requires req.Publish?
  {
    var p := req.target;
    && n'.dirs == (if Ready(n.dirs, p, answers) then n.dirs + {p} else n.dirs)
    && (Ready(n.dirs, p, answers) ==> Mounted(n.(dirs := n'.dirs), req, answers, n', r))
    && (!Ready(n.dirs, p, answers) ==> r == Internal && n'.mounts == n.mounts && n'.temps == n.temps)
  }

  ghost predicate RemovesWork(answers: Answers) {
    && (forall conf, cred, error :: !answers(RemoveConf(conf, cred, error)).Failure?)
    && (forall cred, error :: !answers(RemoveCred(cred, error)).Failure?)
  }

  lemma RemoveFirst(n: Node, conf: File, cred: File, error: Option<OsError>, answers: Answers)
    requires n.calls.Keys == {0} && n.calls[0].req.Publish? && n.calls[0].stage == RemoveConf(conf, cred, error)
    ensures var n1 := At(RemoveTemp(n, conf, answers(RemoveConf(conf, cred, error))), 0, RemoveCred(cred, error));
            Drive(n, 0, answers) == Drive(n1, 0, answers)
  {
    DriveStep(n, 0, answers);
    hide Drive;
  }

  /** The two removals, whatever came of the mount. */
  lemma MountTail(n: Node, conf: File, cred: File, error: Option<OsError>, answers: Answers)
    requires n.calls.Keys == {0} && n.calls[0].req.Publish? && n.calls[0].stage == RemoveConf(conf, cred, error)
    ensures var n' := Drive(n, 0, answers);
            var n1 := RemoveTemp(n, conf, answers(RemoveConf(conf, cred, error)));
            var n2 := RemoveTemp(n1, cred, answers(RemoveCred(cred, error)));
            n' == At(n2, 0, Replied(ReplyFor(error)))
  {
    hide ReplyFor, Drive;
    hide CheckStep, MkdirStep, FirstTempStep, SecondTempStep, WriteStep, MountStep, UnCheckStep, StatStep, ProbeStep,
      UnmountStep, ProbeAgainStep, RemoveDirStep;
    RemoveFirst(n, conf, cred, error, answers);
    var n1 := At(RemoveTemp(n, conf, answers(RemoveConf(conf, cred, error))), 0, RemoveCred(cred, error));
    DriveStep(n1, 0, answers);
    var done := n.calls[0].(stage := Replied(ReplyFor(error)));
    assert n1.calls[0 := done] == n.calls[0 := done];
  }

  /** Where a step leads, for each stage of a publish that is alone. */
  ghost predicate LeadsTo(n: Node, n1: Node, req: Request, stage: Stage) {
    n1.calls == map[0 := Call(req, stage, false)] && n1.dirs == n.dirs
  }

  lemma StepMount(n: Node, req: Request, conf: File, cred: File, o: Outcome)
    requires req.Publish? && n.calls == map[0 := Call(req, Mounting(conf, cred), false)] && req.target in n.dirs
    ensures var n1 := Step(n, 0, o);
            && LeadsTo(n, n1, req, RemoveConf(conf, cred, ErrorOf(o))) && n1.temps == n.temps
            && n1.mounts == MountsAfter(n, req, ReplyFor(ErrorOf(o)), conf)
  {
    hide MountOptions;
  }

  lemma FromMount(n: Node, req: Request, conf: File, cred: File, answers: Answers)
    requires req.Publish? && n.calls == map[0 := Call(req, Mounting(conf, cred), false)] && req.target in n.dirs
    ensures var n', error := Drive(n, 0, answers), ErrorOf(answers(Mounting(conf, cred)));
            && n'.calls[0].stage == Replied(ReplyFor(error)) && n'.dirs == n.dirs
            && n'.temps == Cleared(n.temps, conf, cred, error, answers)
            && n'.mounts == MountsAfter(n, req, ReplyFor(error), conf)
  {
    var error := ErrorOf(answers(Mounting(conf, cred)));
    DriveStep(n, 0, answers);
    StepMount(n, req, conf, cred, answers(Mounting(conf, cred)));
    hide Drive, Step, MountsAfter, ReplyFor, ErrorOf;
    MountTail(Step(n, 0, answers(Mounting(conf, cred))), conf, cred, error, answers);
  }

  /** If the directory has gone before the mount, the reply is Internal and nothing is mounted. */
  lemma DirectoryGone(n: Node, req: Request, conf: File, cred: File, answers: Answers)
    requires req.Publish? && n.calls == map[0 := Call(req, Mounting(conf, cred), false)] && req.target !in n.dirs
    requires !answers(Mounting(conf, cred)).Failure?
    ensures var n' := Drive(n, 0, answers);
            n'.calls[0].stage == Replied(Internal) && n'.mounts == n.mounts && n'.dirs == n.dirs
  {
    DriveStep(n, 0, answers);
    hide Drive, MountOptions;
    MountTail(Step(n, 0, answers(Mounting(conf, cred))), conf, cred, Some(OtherError), answers);
  }

  lemma StepWrite(n: Node, req: Request, conf: File, cred: File, o: Outcome)
    requires req.Publish? && n.calls == map[0 := Call(req, Write(conf, cred), false)]
    ensures var n1 := Step(n, 0, o);
            && n1.mounts == n.mounts
            && LeadsTo(n, n1, req, if o.Failure? then Replied(Internal) else Mounting(conf, cred))
            && n1.temps == if o.Failure? then n.temps else n.temps[conf := Config(conf)]
  {
  }

  lemma StepFirstTemp(n: Node, req: Request, o: Outcome)
    requires req.Publish? && n.calls == map[0 := Call(req, FirstTemp, false)]
    ensures var n1 := Step(n, 0, o);
            n1.mounts == n.mounts
            && if o.Named? && o.file !in n.temps
               then LeadsTo(n, n1, req, SecondTemp(o.file)) && n1.temps == n.temps[o.file := Empty]
               else LeadsTo(n, n1, req, Replied(Internal)) && n1.temps == n.temps
  {
  }

  lemma StepSecondTemp(n: Node, req: Request, conf: File, o: Outcome)
    requires req.Publish? && n.calls == map[0 := Call(req, SecondTemp(conf), false)]
    ensures var n1 := Step(n, 0, o);
            n1.mounts == n.mounts
            && if o.Named? && o.file !in n.temps
               then LeadsTo(n, n1, req, Write(conf, o.file)) && n1.temps == n.temps[o.file := Empty]
               else LeadsTo(n, n1, req, Replied(Internal)) && n1.temps == n.temps
  {
  }

  /** From the second file on, for the node `n` without the first. */
  lemma FromSecondTemp(n: Node, n1: Node, req: Request, answers: Answers)
    requires req.Publish? && req.target in n.dirs && answers(FirstTemp).Named?
    requires var conf := answers(FirstTemp).file;
             && conf !in n.temps && n1.temps == n.temps[conf := Empty] && n1.mounts == n.mounts
             && LeadsTo(n, n1, req, SecondTemp(conf))
    ensures var n' := Drive(n1, 0, answers);
            Mounted(n, req, answers, n', n'.calls[0].stage.reply)
  {
    var conf := answers(FirstTemp).file;
    var o := answers(SecondTemp(conf));
    DriveStep(n1, 0, answers);
    StepSecondTemp(n1, req, conf, o);
    hide Drive, Step, Cleared, MountOptions, ReplyFor, ErrorOf;
    var n2 := Step(n1, 0, o);
    if n2.calls[0].stage.Write? {
      FromWrite(n2, req, conf, o.file, answers);
      hide Mounted;
      BothMade(n, req, conf, o.file, answers, Drive(n1, 0, answers), Drive(n1, 0, answers).calls[0].stage.reply);
    }
  }

  lemma BothMade(n: Node, req: Request, conf: File, cred: File, answers: Answers, n': Node, r: Reply)
    requires req.Publish? && answers(FirstTemp) == Named(conf) && answers(SecondTemp(conf)) == Named(cred)
    requires conf !in n.temps && cred !in n.temps && cred != conf && n'.dirs == n.dirs
    requires var error, temps := ErrorOf(answers(Mounting(conf, cred))), n.temps[conf := Empty][cred := Empty];
             if answers(Write(conf, cred)).Failure? then r == Internal && n'.temps == temps && n'.mounts == n.mounts
             else && r == ReplyFor(error) && n'.mounts == MountsAfter(n, req, r, conf)
                  && n'.temps == Cleared(temps[conf := Config(conf)], conf, cred, error, answers)
    ensures Mounted(n, req, answers, n', r)
  {
    assert n.temps[conf := Empty][cred := Empty][conf := Config(conf)] == n.temps[conf := Config(conf)][cred := Empty];
    hide Cleared, MountOptions, ReplyFor, ErrorOf;
  }

  lemma FromWrite(n: Node, req: Request, conf: File, cred: File, answers: Answers)
    requires req.Publish? && n.calls == map[0 := Call(req, Write(conf, cred), false)] && req.target in n.dirs
    ensures var n', error := Drive(n, 0, answers), ErrorOf(answers(Mounting(conf, cred)));
            n'.calls[0].stage.Replied? && n'.dirs == n.dirs
            && var r := n'.calls[0].stage.reply;
               if answers(Write(conf, cred)).Failure?
               then r == Internal && n'.temps == n.temps && n'.mounts == n.mounts
               else && r == ReplyFor(error) && n'.mounts == MountsAfter(n, req, r, conf)
                    && n'.temps == Cleared(n.temps[conf := Config(conf)], conf, cred, error, answers)
  {
    DriveStep(n, 0, answers);
    var o := answers(Write(conf, cred));
    StepWrite(n, req, conf, cred, o);
    hide Drive, Step, Cleared, MountOptions, ReplyFor, ErrorOf;
    if !o.Failure? {
      FromMount(Step(n, 0, o), req, conf, cred, answers);
    }
  }

  lemma FromFirstTemp(n: Node, req: Request, answers: Answers)
    requires req.Publish? && n.calls == map[0 := Call(req, FirstTemp, false)] && req.target in n.dirs
    ensures var n' := Drive(n, 0, answers);
            Mounted(n, req, answers, n', n'.calls[0].stage.reply)
  {
    DriveStep(n, 0, answers);
    var o := answers(FirstTemp);
    StepFirstTemp(n, req, o);
    hide Drive, Step, Cleared, MountOptions, ReplyFor, ErrorOf;
    if o.Named? && o.file !in n.temps {
      hide Mounted;
      FromSecondTemp(n, Step(n, 0, o), req, answers);
    }
  }

  lemma StepMkdir(n: Node, req: Request, o: Outcome)
    requires req.Publish? && n.calls == map[0 := Call(req, Mkdir, false)]
    ensures var n1 := Step(n, 0, o);
            if o.Failure? then n1 == n.(calls := map[0 := Call(req, Replied(Internal), false)])
            else n1 == n.(calls := map[0 := Call(req, FirstTemp, false)], dirs := n.dirs + {req.target})
  {
  }

  lemma FromMkdir(n: Node, req: Request, answers: Answers)
    requires req.Publish? && n.calls == map[0 := Call(req, Mkdir, false)]
    ensures var n', o := Drive(n, 0, answers), answers(Mkdir);
            if o.Failure? then n' == n.(calls := map[0 := Call(req, Replied(Internal), false)])
            else && n'.dirs == n.dirs + {req.target}
                 && Mounted(n.(dirs := n'.dirs), req, answers, n', n'.calls[0].stage.reply)
  {
    DriveStep(n, 0, answers);
    StepMkdir(n, req, answers(Mkdir));
    hide Drive, Step;
    if !answers(Mkdir).Failure? {
      FromFirstTemp(Step(n, 0, answers(Mkdir)), req, answers);
    }
    hide Makes, TempsAfter, MountReply, MountOptions;
  }

  lemma StepCheck(n: Node, req: Request, o: Outcome)
    requires req.Publish? && n.calls == map[0 := Call(req, Check, false)] && Depth(n, req.target) == 0
    ensures var stage := if o.Failure? then Replied(Internal) else if req.target in n.dirs then FirstTemp else Mkdir;
            Step(n, 0, o) == n.(calls := map[0 := Call(req, stage, false)])
  {
  }

  /** The exact outcome of a publish on a path that is not mounted, for all answers. */
  lemma PublishMounts(n: Node, req: Request, answers: Answers)
    requires n.calls == map[] && req.Publish? && Depth(n, req.target) == 0
    ensures var (n', r) := Serve(n, req, answers);
            && r == PublishReply(n, req.target, answers)
            && Published(n, req, answers, n', r)
  {
    var start := With(n, Call(req, Check, false));
    DriveStep(start, 0, answers);
    StepCheck(start, req, answers(Check));
    hide Drive, Step, Makes, TempsAfter, MountReply, MountOptions;
    var n1 := Step(start, 0, answers(Check));
    if n1.calls[0].stage == Mkdir {
      FromMkdir(n1, req, answers);
    } else if n1.calls[0].stage == FirstTemp {
      FromFirstTemp(n1, req, answers);
    }
    assert req.target in n.dirs ==> n.dirs + {req.target} == n.dirs;
  }

  /**
    What follows from it: OK means mounted exactly once, with the URL and options asked for; any other
    reply means no mount has changed; and no temporary file is left unless os.Remove or CreateConfigFile
    has failed.
   */
  lemma PublishMeans(n: Node, req: Request, answers: Answers)
    requires n.calls == map[] && req.Publish? && Depth(n, req.target) == 0
    ensures var (n', r) := Serve(n, req, answers);
            var made := Makes(n.temps, answers);
            && (r == OK ==>
                  && made.Both? && n'.dirs == n.dirs + {req.target}
                  && exists entry :: n'.mounts == n.mounts[req.target := [entry]] && AskedFor(entry, req, made.conf))
            && (r != OK ==> n'.mounts == n.mounts)
            && (RemovesWork(answers) && !made.Half? && !made.Unwritten? ==> n'.temps == n.temps)
  {
    PublishMounts(n, req, answers);
    var made := Makes(n.temps, answers);
    if made.Both? {
      OptionsAsked(req, made.conf);
    }
    assert Stack(n, req.target) == [];
    assert forall entry: Entry :: [] + [entry] == [entry];
    if made.Both? {
      OnlyNoneIsOK(MountResult(made, answers));
      if RemovesWork(answers) {
        ClearedAll(n.temps, made.conf, made.cred, MountResult(made, answers), answers);
      }
    }
    hide Serve, MountOptions, Cleared, RemovesWork, ReplyFor, MountResult;
  }

  /** The entry has the URL asked for, the flags in order, "ro" exactly if asked for, and the configuration file. */
  predicate AskedFor(entry: Entry, req: Request, conf: File)
    requires req.Publish?
  {
    var k := |req.flags|;
    && entry.url == req.url
    && |entry.options| == k + (if req.readonly then 2 else 1)
    && (forall i :: 0 <= i < k ==> entry.options[i] == Flag(req.flags[i]))
    && (req.readonly ==> entry.options[k] == Flag("ro"))
    && entry.options[|entry.options| - 1] == Conf(conf)
  }

  lemma OptionsAsked(req: Request, conf: File)
    requires req.Publish?
    ensures AskedFor(Entry(req.url, MountOptions(req.flags, req.readonly, conf)), req, conf)
  {
    FlagsAsked(req.flags);
    hide FlagOptions;
  }

  lemma {:induction false} FlagsAsked(flags: seq<string>)
    ensures |FlagOptions(flags)| == |flags| && forall i :: 0 <= i < |flags| ==> FlagOptions(flags)[i] == Flag(flags[i])
  {
    if flags != [] {
      FlagsAsked(flags[1..]);
    }
  }

  /** Which failures give which reply, to a publish on an unmounted path. */
  lemma PublishReplies(n: Node, req: Request, answers: Answers)
    requires n.calls == map[] && req.Publish? && Depth(n, req.target) == 0
    ensures var r := Serve(n, req, answers).1;
            var p, first := req.target, answers(FirstTemp);
            var ready := !answers(Check).Failure? && (p in n.dirs || !answers(Mkdir).Failure?);
            var second := if first.Named? then answers(SecondTemp(first.file)) else first;
            var made := && first.Named? && first.file !in n.temps
                        && second.Named? && second.file !in n.temps && second.file != first.file
                        && !answers(Write(first.file, second.file)).Failure?;
            if !ready || !made then r == Internal
            else match answers(Mounting(first.file, second.file))
                 case Failure(Permission) => r == PermissionDenied
                 case Failure(Invalid) => r == InvalidArgument
                 case Failure(_) => r == Internal
                 case _ => r == OK
  {
    PublishMounts(n, req, answers);
    hide Serve, Published, Depth;
  }

  lemma OnlyNoneIsOK(error: Option<OsError>)
    ensures ReplyFor(error) == OK <==> error == None
  {
  }

  lemma ClearedAll(
    temps: map<File, Content>, conf: File, cred: File, error: Option<OsError>, answers: Answers)
    requires RemovesWork(answers) && conf !in temps && cred !in temps
    ensures Cleared(temps[conf := Config(conf)][cred := Empty], conf, cred, error, answers) == temps
  {
  }

  // ----- unpublish -----

  /** The questions before the unmount are answered, and the unmount succeeds. */
  predicate Detaches(answers: Answers) {
    && !answers(UnCheck).Failure? && !answers(Unmounting).Failure?
    && (answers(Stat) == Failure(Corrupted) || (!answers(Stat).Failure? && !answers(Probe).Failure?))
  }

  /** The reply of an unpublish on an existing directory with `depth` mounts. */
  function UnpublishReply(depth: nat, answers: Answers): Reply {
    if answers(UnCheck).Failure? then Internal
    else if depth == 0 then NotFound
    else if Skips(answers) then OK
    else if depth == 1 && Detaches(answers) && !answers(ProbeAgain).Failure? && !answers(RemoveDir).Failure? then OK
    else Internal
  }

  /** What an unpublish does to node `n`, ending in `n'` with reply `r`. */
  ghost predicate Unpublished(n: Node, p: Path, answers: Answers, n': Node, r: Reply) {
    && r == UnpublishReply(Depth(n, p), answers)
    && n'.mounts == (if Depth(n, p) > 0 && Detaches(answers) then n.mounts[p := Stack(n, p)[..Depth(n, p) - 1]]
                     else n.mounts)
    && n'.dirs == (if r == OK && !Skips(answers) then n.dirs - {p} else n.dirs)
    && n' == n.(mounts := n'.mounts, dirs := n'.dirs)
  }

  /** From the second question about the mount point on. */
  lemma FromProbeAgain(n: Node, p: Path, answers: Answers)
    requires n.calls == map[0 := Call(Unpublish(p), ProbeAgain, false)] && p in n.dirs
    ensures var n' := Drive(n, 0, answers);
            if answers(ProbeAgain).Failure? || Depth(n, p) > 0 || answers(RemoveDir).Failure?
            then n' == n.(calls := map[0 := Call(Unpublish(p), Replied(Internal), false)])
            else n' == n.(calls := map[0 := Call(Unpublish(p), Replied(OK), false)], dirs := n.dirs - {p})
  {
    DriveStep(n, 0, answers);
    var n1 := Step(n, 0, answers(ProbeAgain));
    if n1.calls[0].stage == RemoveDir {
      DriveStep(n1, 0, answers);
    }
    hide Stack;
  }

  lemma StepUnmount(n: Node, p: Path, o: Outcome)
    requires n.calls == map[0 := Call(Unpublish(p), Unmounting, false)] && Depth(n, p) > 0
    ensures var n1 := Step(n, 0, o);
            if o.Failure? then n1 == n.(calls := map[0 := Call(Unpublish(p), Replied(Internal), false)])
            else && n1 == n.(calls := map[0 := Call(Unpublish(p), ProbeAgain, false)],
                             mounts := n.mounts[p := Stack(n, p)[..Depth(n, p) - 1]])
                 && Depth(n1, p) == Depth(n, p) - 1
  {
  }

  lemma FromUnmounting(n: Node, p: Path, answers: Answers)
    requires n.calls == map[0 := Call(Unpublish(p), Unmounting, false)] && Depth(n, p) > 0 && p in n.dirs
    requires !answers(UnCheck).Failure?
    requires answers(Stat) == Failure(Corrupted) || (!answers(Stat).Failure? && !answers(Probe).Failure?)
    ensures var n' := Drive(n, 0, answers);
            Unpublished(n.(calls := map[]), p, answers, n'.(calls := map[]), n'.calls[0].stage.reply)
  {
    DriveStep(n, 0, answers);
    StepUnmount(n, p, answers(Unmounting));
    SameStack(n, p);
    hide *;
    var n1 := Step(n, 0, answers(Unmounting));
    if answers(Unmounting).Failure? {
      DriveEnds(n1, answers);
      Unmounted(n.(calls := map[]), p, answers, n.(calls := map[]), Internal);
    } else {
      FromProbeAgain(n1, p, answers);
      var n' := Drive(n, 0, answers);
      Unmounted(n.(calls := map[]), p, answers, n'.(calls := map[]), n'.calls[0].stage.reply);
    }
  }

  lemma DriveEnds(n: Node, answers: Answers)
    requires 0 in n.calls && n.calls[0].stage.Replied?
    ensures Drive(n, 0, answers) == n
  {
  }

  /** The unmount fails, or it succeeds and the rest follows. */
  lemma Unmounted(n: Node, p: Path, answers: Answers, n': Node, r: Reply)
    requires Depth(n, p) > 0 && !answers(UnCheck).Failure?
    requires answers(Stat) == Failure(Corrupted) || (!answers(Stat).Failure? && !answers(Probe).Failure?)
    requires if answers(Unmounting).Failure? then r == Internal && n' == n
             else var mounts := n.mounts[p := Stack(n, p)[..Depth(n, p) - 1]];
                  if answers(ProbeAgain).Failure? || Depth(n, p) > 1 || answers(RemoveDir).Failure?
                  then r == Internal && n' == n.(mounts := mounts)
                  else r == OK && n' == n.(mounts := mounts, dirs := n.dirs - {p})
    ensures Unpublished(n, p, answers, n', r)
  {
    hide Stack;
  }

  lemma SameStack(n: Node, p: Path)
    ensures Stack(n.(calls := map[]), p) == Stack(n, p) && Depth(n.(calls := map[]), p) == Depth(n, p)
  {
  }

  lemma FromProbe(n: Node, p: Path, answers: Answers)
    requires n.calls == map[0 := Call(Unpublish(p), Probe, false)] && Depth(n, p) > 0 && p in n.dirs
    requires !answers(UnCheck).Failure? && !answers(Stat).Failure?
    ensures var n' := Drive(n, 0, answers);
            Unpublished(n.(calls := map[]), p, answers, n'.(calls := map[]), n'.calls[0].stage.reply)
  {
    DriveStep(n, 0, answers);
    var n1 := Step(n, 0, answers(Probe));
    hide Drive, Stack, Unpublished;
    SameStack(n, p);
    if n1.calls[0].stage == Unmounting {
      FromUnmounting(n1, p, answers);
    }
  }

  lemma FromStat(n: Node, p: Path, answers: Answers)
    requires n.calls == map[0 := Call(Unpublish(p), Stat, false)] && Depth(n, p) > 0 && p in n.dirs
    requires !answers(UnCheck).Failure?
    ensures var n' := Drive(n, 0, answers);
            Unpublished(n.(calls := map[]), p, answers, n'.(calls := map[]), n'.calls[0].stage.reply)
  {
    DriveStep(n, 0, answers);
    var n1 := Step(n, 0, answers(Stat));
    if n1.calls[0].stage == Unmounting {
      FromUnmounting(n1, p, answers);
    } else if n1.calls[0].stage == Probe {
      FromProbe(n1, p, answers);
    }
  }

  /**
    The exact outcome of an unpublish, for all answers. OK is answered for the only mount, undone and its
    directory removed, and for UnmountPath giving up, with nothing done; NotFound for nothing mounted. A
    path mounted twice loses a layer and the answer is Internal.
   */
  lemma UnpublishUnmounts(n: Node, p: Path, answers: Answers)
    requires n.calls == map[] && (Depth(n, p) > 0 ==> p in n.dirs)
    ensures var (n', r) := Serve(n, Unpublish(p), answers);
            Unpublished(n, p, answers, n', r)
  {
    var start := With(n, Call(Unpublish(p), UnCheck, false));
    DriveStep(start, 0, answers);
    var n1 := Step(start, 0, answers(UnCheck));
    if n1.calls[0].stage == Stat {
      FromStat(n1, p, answers);
    }
  }

  /** If stat fails on the mounted path, not as a corrupted mount, the answer is OK and it stays mounted. */
  lemma SkippedIsOK(n: Node, p: Path, answers: Answers)
    requires n.calls == map[] && Depth(n, p) > 0 && p in n.dirs && !answers(UnCheck).Failure? && Skips(answers)
    ensures Serve(n, Unpublish(p), answers) == (n, OK)
  {
    UnpublishUnmounts(n, p, answers);
    hide Serve;
  }

  /** On a path mounted twice, with nothing failing, one layer goes and the answer is Internal. */
  lemma TwiceMounted(n: Node, p: Path, answers: Answers)
    requires n.calls == map[] && Depth(n, p) == 2 && p in n.dirs && forall s :: !answers(s).Failure?
    ensures var (n', r) := Serve(n, Unpublish(p), answers);
            r == Internal && Depth(n', p) == 1 && n'.dirs == n.dirs
  {
    UnpublishUnmounts(n, p, answers);
    hide Serve;
  }

  // ----- one after the other -----

  /**
    A publish answered OK and then an unpublish answered OK leave the path unmounted and its directory
    gone, unless UnmountPath gave up; every other path is as before. From then on an unpublish answers
    NotFound, or Internal if its check fails, and changes nothing.
   */
  lemma PublishThenUnpublish(n: Node, req: Request, first: Answers, second: Answers, third: Answers)
    requires n.calls == map[] && req.Publish? && Depth(n, req.target) == 0
    requires Serve(n, req, first).1 == OK && !Skips(second)
    requires Serve(Serve(n, req, first).0, Unpublish(req.target), second).1 == OK
    ensures var n1 := Serve(n, req, first).0;
            var n2 := Serve(n1, Unpublish(req.target), second).0;
            && Depth(n1, req.target) == 1
            && Depth(n2, req.target) == 0 && n2.dirs == n.dirs - {req.target}
            && (forall q :: q != req.target ==> Stack(n2, q) == Stack(n, q))
            && (RemovesWork(first) ==> n2.temps == n.temps)
            && Serve(n2, Unpublish(req.target), third)
               == (n2, if third(UnCheck).Failure? then Internal else NotFound)
  {
    var p := req.target;
    PublishMeans(n, req, first);
    var (n1, r1) := Serve(n, req, first);
    UnpublishUnmounts(n1, p, second);
    var (n2, r2) := Serve(n1, Unpublish(p), second);
    assert (n.dirs + {p}) - {p} == n.dirs - {p};
    assert Depth(n2, p) == 0;
    assert Serve(n2, Unpublish(p), third) == (n2, if third(UnCheck).Failure? then Internal else NotFound) by {
      DriveStep(With(n2, Call(Unpublish(p), UnCheck, false)), 0, third);
    }
    hide Serve, RemovesWork, MountOptions, Skips;
  }

  // ----- calls made alone are runs of the system -----

  function DriveEvents(n: Node, id: CallId, answers: Answers): seq<Event>
    requires id in n.calls && Fits(n.calls[id])
    decreases StepsLeft(n.calls[id].stage)
  {
    if n.calls[id].stage.Replied? then []
    else
      StepProgresses(n, id, answers(n.calls[id].stage));
      [Do(id, answers(n.calls[id].stage))] + DriveEvents(Step(n, id, answers(n.calls[id].stage)), id, answers)
  }

  /** A call driven to its reply is a run of at most eight steps, whatever else is in flight. */
  lemma {:induction false} DriveIsRun(n: Node, id: CallId, answers: Answers)
    requires id in n.calls && Fits(n.calls[id])
    ensures ValidRun(n, DriveEvents(n, id, answers))
    ensures RunOf(n, DriveEvents(n, id, answers)) == Drive(n, id, answers)
    ensures |DriveEvents(n, id, answers)| <= StepsLeft(n.calls[id].stage) <= 8
    decreases StepsLeft(n.calls[id].stage)
  {
    if !n.calls[id].stage.Replied? {
      var o := answers(n.calls[id].stage);
      StepProgresses(n, id, o);
      DriveIsRun(Step(n, id, o), id, answers);
      hide Step;
      assert DriveEvents(n, id, answers)[1..] == DriveEvents(Step(n, id, o), id, answers);
      assert Enabled(n, Do(id, o)) && Apply(n, Do(id, o)) == Step(n, id, o);
    }
  }
}
