/** The argument groups of `startService`: `-s FILE... -c FILE...`, as `getArgs` cuts them up. */
module ArgGroups {
  import opened Options

  datatype Flag = SecretFlag | ConfigFlag

  datatype Group = Group(flag: Flag, files: seq<string>)

  /** What the argument loop sees: the groups in front of an error, and whether there was one. */
  datatype Parse = Parse(groups: seq<Group>, ok: bool)

  predicate IsDash(arg: string) {
    |arg| > 0 && arg[0] == '-'
  }

  predicate IsFile(arg: string) {
    arg != "" && !IsDash(arg)
  }

  function FlagOf(arg: string): Option<Flag> {
    if arg == "-s" then Some(SecretFlag)
    else if arg == "-c" then Some(ConfigFlag)
    else None
  }

  function FlagText(flag: Flag): string {
    match flag
    case SecretFlag => "-s"
    case ConfigFlag => "-c"
  }

  lemma FlagOfText(flag: Flag)
    ensures FlagOf(FlagText(flag)) == Some(flag) && IsDash(FlagText(flag)) && FlagText(flag) != ""
  {
    assert FlagText(flag)[1] == if flag == SecretFlag then 's' else 'c';
  }

  /** There are just these two flags; a file name is a word that does not begin with a dash. */
  lemma FlagsAre(arg: string)
    ensures FlagOf(arg) == Some(SecretFlag) <==> arg == "-s"
    ensures FlagOf(arg) == Some(ConfigFlag) <==> arg == "-c"
    ensures IsFile(arg) <==> arg != "" && !("-" <= arg)
  {
  }

  /** The number of leading arguments that are file names. */
  function LeadingFiles(args: seq<string>): (n: nat)
    ensures n <= |args|
    ensures forall i :: 0 <= i < n ==> IsFile(args[i])
    ensures n < |args| ==> !IsFile(args[n])
  {
    if args == [] || !IsFile(args[0]) then 0 else 1 + LeadingFiles(args[1..])
  }

  /** The branch that calls `fail`: the flag is followed at once by another flag. */
  predicate MissingArguments(args: seq<string>) {
    |args| > 1 && IsDash(args[1])
  }

  function Cons(g: Group, p: Parse): Parse {
    Parse([g] + p.groups, p.ok)
  }

  function ParseGroups(args: seq<string>): Parse
    decreases |args|
  {
    if args == [] || args[0] == "" then
      Parse([], true)
    else if MissingArguments(args) || FlagOf(args[0]).None? then
      Parse([], false)
    else
      var tail := args[1..];
      var n := LeadingFiles(tail);
      Cons(Group(FlagOf(args[0]).value, tail[..n]), ParseGroups(tail[n..]))
  }

  /** The command line that spells the groups. */
  function Flatten(groups: seq<Group>): seq<string> {
    if groups == [] then []
    else [FlagText(groups[0].flag)] + groups[0].files + Flatten(groups[1..])
  }

  lemma {:induction false} LeadingFilesStop(files: seq<string>, rest: seq<string>)
    requires forall f :: f in files ==> IsFile(f)
    requires rest == [] || !IsFile(rest[0])
    ensures LeadingFiles(files + rest) == |files|
  {
    if files == [] {
      assert files + rest == rest;
    } else {
      assert (files + rest)[1..] == files[1..] + rest;
      LeadingFilesStop(files[1..], rest);
    }
  }

  /** One group in front of a rest that does not start with a file name. */
  lemma ParseOne(g: Group, rest: seq<string>)
    requires forall f :: f in g.files ==> IsFile(f)
    requires rest == [] || !IsFile(rest[0])
    requires g.files == [] ==> rest == [] || rest[0] == ""
    ensures ParseGroups([FlagText(g.flag)] + (g.files + rest)) == Cons(g, ParseGroups(rest))
  {
    var tail := g.files + rest;
    var args := [FlagText(g.flag)] + tail;
    FlagOfText(g.flag);
    assert args[1..] == tail;
    assert g.files != [] ==> args[1] == tail[0] == g.files[0] && g.files[0] in g.files;
    LeadingFilesStop(g.files, rest);
    assert tail[..|g.files|] == g.files && tail[|g.files|..] == rest;
  }

  predicate OnlyFiles(groups: seq<Group>) {
    forall g :: g in groups ==> forall f :: f in g.files ==> IsFile(f)
  }

  predicate OnlyLastBare(groups: seq<Group>) {
    forall i :: 0 <= i < |groups| - 1 ==> groups[i].files != []
  }

  /**
    Parsing what was flattened gives the groups back, with no error, for groups of file names where
    only the last may be bare; an empty argument and everything behind it is ignored.
   */
  lemma {:induction false} ParseFlatten(groups: seq<Group>, rest: seq<string>)
    requires OnlyFiles(groups) && OnlyLastBare(groups)
    requires rest == [] || rest[0] == ""
    ensures ParseGroups(Flatten(groups) + rest) == Parse(groups, true)
  {
    hide *;
    if groups == [] {
      FlattenNothing(rest);
      ParseNothing(rest);
    } else {
      var g, tail := groups[0], Flatten(groups[1..]) + rest;
      FlattenFirst(groups, rest);
      ParseOne(g, tail);
      ParseFlatten(groups[1..], rest);
      assert groups == [g] + groups[1..];
      ConsIs(g, groups[1..]);
    }
  }

  lemma FlattenNothing(rest: seq<string>)
    ensures Flatten([]) + rest == rest
  {
  }

  lemma ConsIs(g: Group, groups: seq<Group>)
    ensures Cons(g, Parse(groups, true)) == Parse([g] + groups, true)
  {
  }

  lemma FlattenFirst(groups: seq<Group>, rest: seq<string>)
    requires OnlyFiles(groups) && OnlyLastBare(groups) && groups != []
    requires rest == [] || rest[0] == ""
    ensures var g, tail := groups[0], Flatten(groups[1..]) + rest;
            && Flatten(groups) + rest == [FlagText(g.flag)] + (g.files + tail)
            && (forall f :: f in g.files ==> IsFile(f))
            && (tail == [] || !IsFile(tail[0])) && (g.files == [] ==> tail == [] || tail[0] == "")
    ensures OnlyFiles(groups[1..]) && OnlyLastBare(groups[1..])
  {
    hide *;
    FlattenOne(groups);
    var g, more := groups[0], Flatten(groups[1..]);
    Regroup(FlagText(g.flag), g.files, more, rest);
    if |groups| > 1 {
      FlattenOne(groups[1..]);
      FlagOfText(groups[1].flag);
      DashIsNoFile(more[0]);
      assert (more + rest)[0] == more[0];
    } else {
      FlattenNothing(rest);
      assert groups[1..] == [];
      if rest != [] {
        DashIsNoFile(rest[0]);
      }
    }
    OnlyFirst(groups);
  }

  lemma Regroup(flag: string, files: seq<string>, more: seq<string>, rest: seq<string>)
    ensures [flag] + files + more + rest == [flag] + (files + (more + rest))
  {
  }

  lemma FlattenOne(groups: seq<Group>)
    requires groups != []
    ensures Flatten(groups) == [FlagText(groups[0].flag)] + groups[0].files + Flatten(groups[1..])
  {
  }

  lemma DashIsNoFile(arg: string)
    ensures IsFile(arg) <==> arg != "" && !IsDash(arg)
  {
  }

  lemma OnlyFirst(groups: seq<Group>)
    requires OnlyFiles(groups) && OnlyLastBare(groups) && groups != []
    ensures forall f :: f in groups[0].files ==> IsFile(f)
    ensures OnlyFiles(groups[1..]) && OnlyLastBare(groups[1..])
    ensures groups[0].files == [] ==> |groups| == 1
  {
    hide IsFile;
    assert groups[0] in groups;
    assert forall i :: 0 <= i < |groups[1..]| - 1 ==> groups[1..][i] == groups[i + 1];
  }

  lemma ParseNothing(rest: seq<string>)
    requires rest == [] || rest[0] == ""
    ensures ParseGroups(rest) == Parse([], true)
  {
  }

  /** Secrets first and configmaps then, as it is typed. */
  lemma ParseTyped(secrets: seq<string>, configs: seq<string>)
    requires secrets != [] && configs != []
    requires forall f :: f in secrets + configs ==> IsFile(f)
    ensures ParseGroups(["-s"] + secrets + ["-c"] + configs)
         == Parse([Group(SecretFlag, secrets), Group(ConfigFlag, configs)], true)
  {
    var groups := [Group(SecretFlag, secrets), Group(ConfigFlag, configs)];
    assert forall g :: g in groups ==> g.files == secrets || g.files == configs;
    assert groups[1..] == [Group(ConfigFlag, configs)] && groups[1..][1..] == [];
    assert Flatten(groups[1..]) == ["-c"] + configs + [];
    assert Flatten(groups) + [] == ["-s"] + secrets + (["-c"] + configs);
    assert ["-s"] + secrets + (["-c"] + configs) == ["-s"] + secrets + ["-c"] + configs;
    ParseFlatten(groups, []);
  }

  /**
    The groups are a flattened prefix of the list and hold only file names; if accepted, the prefix
    reaches the end of the list or an empty argument, and no group but the last is without files. If not,
    what comes next is no flag, or a flag with another word that begins with a dash behind it.
   */
  ghost predicate ReadFrom(p: Parse, args: seq<string>) {
    && Flatten(p.groups) <= args && OnlyFiles(p.groups)
    && (p.ok ==> OnlyLastBare(p.groups)
                 && (|Flatten(p.groups)| == |args| || args[|Flatten(p.groups)|] == ""))
    && (!p.ok ==> var n := |Flatten(p.groups)|;
                  && n < |args| && args[n] != ""
                  && ((args[n] != "-s" && args[n] != "-c") || (n + 1 < |args| && "-" <= args[n + 1])))
  }

  /** The converse of ParseFlatten, for every argument list. */
  lemma {:induction false} ParseSound(args: seq<string>)
    ensures ReadFrom(ParseGroups(args), args)
    decreases |args|
  {
    hide ReadFrom, LeadingFiles, IsFile;
    if args == [] || args[0] == "" || MissingArguments(args) || FlagOf(args[0]).None? {
      NothingRead(args, args == [] || args[0] == "");
    } else {
      var tail := args[1..];
      var n := LeadingFiles(tail);
      var rest := tail[n..];
      ParseSound(rest);
      var g := Group(FlagOf(args[0]).value, tail[..n]);
      SoundCons(args, g, rest, ParseGroups(rest));
    }
  }

  lemma NothingRead(args: seq<string>, ok: bool)
    requires ok ==> args == [] || args[0] == ""
    requires !ok ==> args != [] && args[0] != "" && (MissingArguments(args) || FlagOf(args[0]).None?)
    ensures ReadFrom(Parse([], ok), args)
  {
  }

  lemma SoundCons(args: seq<string>, g: Group, rest: seq<string>, q: Parse)
    requires args == [FlagText(g.flag)] + (g.files + rest) && !MissingArguments(args)
    requires forall f :: f in g.files ==> IsFile(f)
    requires ReadFrom(q, rest)
    ensures ReadFrom(Cons(g, q), args)
  {
    var p := Cons(g, q);
    assert p.groups[1..] == q.groups;
    var front := [FlagText(g.flag)] + g.files;
    assert args == front + rest;
    assert Flatten(p.groups) == front + Flatten(q.groups);
    if p.ok {
      // A bare flag with a group behind it is the missing-argument error.
      assert q.groups != [] ==> Flatten(q.groups)[0] == rest[0] && IsDash(rest[0]);
      forall i | 0 <= i < |p.groups| - 1 ensures p.groups[i].files != [] {
        if i > 0 {
          assert p.groups[i] == q.groups[i - 1];
        }
      }
    }
  }

  /** The files of the last group with this flag: what the resource ends up holding. */
  function LastFiles(groups: seq<Group>, flag: Flag): seq<string>
    requires exists g :: g in groups && g.flag == flag
  {
    var last := groups[|groups| - 1];
    if last.flag == flag then last.files
    else
      assert forall g :: g in groups && g.flag == flag ==> g in groups[..|groups| - 1];
      LastFiles(groups[..|groups| - 1], flag)
  }
}
