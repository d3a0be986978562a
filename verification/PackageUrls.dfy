/** Package URLs: the printer get_dataone_package_url and the parser find_initial_pid. */
module PackageUrls {
  import opened Options
  import opened Text

  /** IndexError: `path.split("resolve/", 1)[1]` where there is nothing to split. */
  datatype Result = Pid(pid: string) | IndexError

  /** https://cn.dataone.org/cn/v2 and the like. */
  function CoordinatingNode(middle: string): string {
    "https://" + (("cn" + middle + ".dataone.org") + "/cn/v2")
  }

  const PROD_CN := CoordinatingNode("")
  const DEV_CN := CoordinatingNode("-stage-2.test")
  const DEV_MN := "https://dev.nceas.ucsb.edu/knb/d1/mn/v2"

  const SEARCH_HOST := "search.dataone.org"
  const DEV_HOST := "dev.nceas.ucsb.edu"

  // ----- the printer -----

  /** `in` is a substring test: any part of a node's address selects it. */
  function PackageUrl(repository: string, pid: string): Option<string> {
    if Contains(PROD_CN, repository) then Some("https://" + (SEARCH_HOST + "/#view/" + pid))
    else if Contains(DEV_MN, repository) then Some("https://" + (DEV_HOST + "/#view/" + pid))
    else None
  }

  // ----- the parser's patterns -----

  predicate Letter(c: char) { 'a' <= c <= 'z' || 'A' <= c <= 'Z' }
  predicate HostChar(c: char) { 'a' <= c <= 'z' || c == '-' || Digit(c) || c == '.' }
  predicate DoiChar(c: char) { Letter(c) || Digit(c) || c in "-._;()/:" }

  lemma LowerCase(c: char)
    ensures 'a' <= c <= 'z' <==> c in "abcdefghijklmnopqrstuvwxyz"
  {
    var s := "abcdefghijklmnopqrstuvwxyz";
    if 'a' <= c <= 'z' {
      assert s[c as int - 'a' as int] == c;
    }
  }

  lemma UpperCase(c: char)
    ensures 'A' <= c <= 'Z' <==> c in "ABCDEFGHIJKLMNOPQRSTUVWXYZ"
  {
    var s := "ABCDEFGHIJKLMNOPQRSTUVWXYZ";
    if 'A' <= c <= 'Z' {
      assert s[c as int - 'A' as int] == c;
    }
  }

  const LETTERS := "ABCDEFGHIJKLMNOPQRSTUVWXYZ" + "abcdefghijklmnopqrstuvwxyz"
  const HOST_CHARACTERS := "abcdefghijklmnopqrstuvwxyz" + "0123456789" + "-."
  const DOI_CHARACTERS := LETTERS + "0123456789" + "-._;()/:"

  /** The character classes of the patterns, written out. */
  lemma ClassesAre(c: char)
    ensures Letter(c) <==> c in LETTERS
    ensures HostChar(c) <==> c in HOST_CHARACTERS
    ensures DoiChar(c) <==> c in DOI_CHARACTERS
  {
    LowerCase(c);
    UpperCase(c);
    DigitsAre(c);
  }

  predicate All(p: char -> bool, s: string) {
    forall i :: 0 <= i < |s| ==> p(s[i])
  }

  /** A pattern in which a dot stands for any character but a newline. */
  predicate Matches(s: string, pattern: string) {
    |s| == |pattern|
    && forall i :: 0 <= i < |s| ==> if pattern[i] == '.' then s[i] != '\n' else s[i] == pattern[i]
  }

  /** What follows http:// or https:// */
  function AfterScheme(path: string): Option<string> {
    if "https://" <= path then Some(path[8..]) else if "http://" <= path then Some(path[7..]) else None
  }

  /** `^http[s]?:\/\/HOST\/#view\/`: what follows it. */
  function ViewPid(path: string, host: string): Option<string> {
    var rest := AfterScheme(path);
    var pattern := host + "/#view/";
    if rest.Some? && |pattern| <= |rest.value| && Matches(rest.value[..|pattern|], pattern)
    then Some(rest.value[|pattern|..])
    else None
  }

  /** What comes before and after the first '/'. */
  function CutSlash(s: string): Option<(string, string)> {
    if s == "" then None
    else if s[0] == '/' then Some(("", s[1..]))
    else
      match CutSlash(s[1..])
      case None => None
      case Some((before, after)) => Some(([s[0]] + before, after))
  }

  predicate CnHost(host: string) {
    && |host| >= |"cn"| + |".dataone.org"| && host[..2] == "cn" && host[|host| - 12..] == ".dataone.org"
    && All(HostChar, host[2..|host| - 12])
  }

  /** `cn/vD/VERB/PID`, with a PID of one line at least one character long. */
  function ObjectPath(s: string): Option<string> {
    if |s| >= 6 && s[..4] == "cn/v" && Digit(s[4]) && s[5] == '/' then
      match CutSlash(s[6..])
      case None => None
      case Some((verb, pid)) =>
        if verb != "" && All(Letter, verb) && OneLine(pid) then Some(pid) else None
    else None
  }

  /** The coordinating node's object address. */
  function CnPid(path: string): Option<string> {
    match AfterScheme(path)
    case None => None
    case Some(rest) =>
      match CutSlash(rest)
      case None => None
      case Some((host, objectPath)) => if CnHost(host) then ObjectPath(objectPath) else None
  }

  /** The length of the run of characters of a kind at the start of `s`. */
  function RunLength(p: char -> bool, s: string): (n: nat)
    ensures n <= |s| && All(p, s[..n]) && (n < |s| ==> !p(s[n]))
  {
    if s == "" || !p(s[0]) then 0
    else
      var n := RunLength(p, s[1..]);
      assert s[..n + 1] == [s[0]] + s[1..][..n];
      n + 1
  }

  /** `10.\d{4,9}/[-._;()/:A-Z0-9]+`, in any case, at the start of `s`: the length of the match. */
  function DoiLength(s: string): (r: Option<nat>)
    ensures r.Some? ==> r.value <= |s|
  {
    if |s| >= 3 && s[..2] == "10" && s[2] != '\n' then
      var digits := RunLength(Digit, s[3..]);
      if 4 <= digits <= 9 && 3 + digits < |s| && s[3 + digits] == '/' then
        var n := RunLength(DoiChar, s[4 + digits..]);
        if n > 0 then Some(4 + digits + n) else None
      else None
    else None
  }

  /** The leftmost match. */
  function Doi(s: string): Option<string> {
    if DoiLength(s).Some? then Some(s[..DoiLength(s).value])
    else if s == "" then None
    else Doi(s[1..])
  }

  /** What follows the first occurrence of `mark`. */
  function AfterFirst(s: string, mark: string): Option<string> {
    if mark <= s then Some(s[|mark|..]) else if s == "" then None else AfterFirst(s[1..], mark)
  }

  function FindInitialPid(path: string): Result {
    match ViewPid(path, SEARCH_HOST)
    case Some(pid) => Pid(pid)
    case None =>
      match CnPid(path)
      case Some(pid) => Pid(pid)
      case None =>
        match ViewPid(path, DEV_HOST)
        case Some(pid) => Pid(pid)
        case None =>
          if Contains(path, "resolve") then
            match AfterFirst(path, "resolve/")
            case Some(pid) => Pid(pid)
            case None => IndexError
          else
            match Doi(path)
            case Some(doi) => Pid("doi:" + doi)
            case None => Pid(path)
  }

  // ----- the coordinating node's addresses -----

  datatype ObjectAddress = ObjectAddress(secure: bool, middle: string, version: char, verb: string, pid: string)

  function Print(a: ObjectAddress): string {
    (if a.secure then "https://" else "http://")
    + (("cn" + a.middle + ".dataone.org") + "/" + (("cn/v" + [a.version] + "/") + (a.verb + "/" + a.pid)))
  }

  predicate WellFormed(a: ObjectAddress) {
    All(HostChar, a.middle) && Digit(a.version) && a.verb != "" && All(Letter, a.verb)
  }

  /** The pattern asks for a pid of one line, at least one character long. */
  predicate OneLine(pid: string) {
    pid != "" && '\n' !in pid
  }

  lemma {:induction false} CutSlashPrints(before: string, after: string)
    requires '/' !in before
    ensures CutSlash(before + "/" + after) == Some((before, after))
  {
    var s := before + "/" + after;
    if before == "" {
      assert s[1..] == after;
    } else {
      CutSlashPrints(before[1..], after);
      assert s[1..] == before[1..] + "/" + after;
      assert [before[0]] + before[1..] == before;
    }
  }

  lemma {:induction false} CutSlashParses(s: string)
    requires CutSlash(s).Some?
    ensures s == CutSlash(s).value.0 + "/" + CutSlash(s).value.1 && '/' !in CutSlash(s).value.0
  {
    if s[0] == '/' {
      assert s == "" + "/" + s[1..];
    } else {
      CutSlashParses(s[1..]);
      var (before, after) := CutSlash(s[1..]).value;
      assert s == [s[0]] + s[1..];
      assert [s[0]] + (before + "/" + after) == ([s[0]] + before) + "/" + after;
    }
  }

  lemma ObjectPathPrints(version: char, verb: string, pid: string)
    requires Digit(version) && verb != "" && All(Letter, verb)
    ensures ObjectPath(("cn/v" + [version] + "/") + (verb + "/" + pid)) == if OneLine(pid) then Some(pid) else None
  {
    CutSlashPrints(verb, pid);
    assert (("cn/v" + [version] + "/") + (verb + "/" + pid))[6..] == verb + "/" + pid;
  }

  lemma CnHostPrints(middle: string)
    requires All(HostChar, middle)
    ensures CnHost("cn" + middle + ".dataone.org") && '/' !in "cn" + middle + ".dataone.org"
  {
    var host := "cn" + middle + ".dataone.org";
    assert host[2..|host| - 12] == middle;
    assert host[|host| - 12..] == ".dataone.org";
  }

  lemma AfterSchemePrints(secure: bool, rest: string)
    ensures AfterScheme((if secure then "https://" else "http://") + rest) == Some(rest)
  {
    var path := (if secure then "https://" else "http://") + rest;
    if !secure {
      assert path[4] == ':';
      assert path[7..] == rest;
    } else {
      assert path[8..] == rest;
    }
  }

  /** The parser recognises exactly the printed object addresses, and returns their pid. */
  lemma CnPidPrints(a: ObjectAddress)
    requires WellFormed(a)
    ensures CnPid(Print(a)) == if OneLine(a.pid) then Some(a.pid) else None
  {
    var host := "cn" + a.middle + ".dataone.org";
    var objectPath := ("cn/v" + [a.version] + "/") + (a.verb + "/" + a.pid);
    AfterSchemePrints(a.secure, host + "/" + objectPath);
    CnHostPrints(a.middle);
    CutSlashPrints(host, objectPath);
    ObjectPathPrints(a.version, a.verb, a.pid);
  }

  lemma CnHostParses(host: string) returns (middle: string)
    requires CnHost(host)
    ensures All(HostChar, middle) && host == "cn" + middle + ".dataone.org"
  {
    middle := host[2..|host| - 12];
  }

  lemma ObjectPathParses(s: string) returns (version: char, verb: string, pid: string)
    requires ObjectPath(s).Some?
    ensures ObjectPath(s) == Some(pid) && s == ("cn/v" + [version] + "/") + (verb + "/" + pid)
    ensures Digit(version) && verb != "" && All(Letter, verb) && OneLine(pid)
  {
    version, verb, pid := s[4], CutSlash(s[6..]).value.0, CutSlash(s[6..]).value.1;
    CutSlashParses(s[6..]);
    assert s[..6] == "cn/v" + [version] + "/";
    assert s == s[..6] + s[6..];
  }

  /** Nothing else is recognised as an object address of a coordinating node. */
  lemma CnPidParses(path: string) returns (a: ObjectAddress)
    requires CnPid(path).Some?
    ensures WellFormed(a) && OneLine(a.pid) && Print(a) == path && CnPid(path) == Some(a.pid)
  {
    var rest := AfterScheme(path).value;
    var secure := "https://" <= path;
    assert path == (if secure then "https://" else "http://") + rest;
    CutSlashParses(rest);
    var (host, objectPath) := CutSlash(rest).value;
    var middle := CnHostParses(host);
    var version, verb, pid := ObjectPathParses(objectPath);
    a := ObjectAddress(secure, middle, version, verb, pid);
  }

  lemma ViewPrints(secure: bool, host: string, pid: string)
    requires '\n' !in host
    ensures ViewPid((if secure then "https://" else "http://") + (host + "/#view/" + pid), host) == Some(pid)
  {
    var rest := host + "/#view/" + pid;
    AfterSchemePrints(secure, rest);
    var pattern := host + "/#view/";
    assert rest[..|pattern|] == pattern && rest[|pattern|..] == pid;
    assert forall i :: 0 <= i < |pattern| ==> pattern[i] == '.' ==> pattern[i] != '\n';
  }

  /** Addresses of hosts that differ in a letter are told apart. */
  lemma HostDiffers(secure: bool, rest: string, host: string, k: nat)
    requires k < |host| && host[k] != '.' && k < |rest| && rest[k] != host[k]
    ensures ViewPid((if secure then "https://" else "http://") + rest, host) == None
  {
    AfterSchemePrints(secure, rest);
    var pattern := host + "/#view/";
    if |pattern| <= |rest| {
      assert rest[..|pattern|][k] == rest[k] && pattern[k] == host[k];
    }
  }

  lemma OtherHost(secure: bool, rest: string, host: string)
    requires host != "" && host[0] != '.' && rest != "" && rest[0] != host[0]
    ensures ViewPid((if secure then "https://" else "http://") + rest, host) == None
  {
    HostDiffers(secure, rest, host, 0);
  }

  lemma NotCn(secure: bool, rest: string)
    requires rest != "" && rest[0] != 'c' && rest[0] != '/'
    ensures CnPid((if secure then "https://" else "http://") + rest) == None
  {
    AfterSchemePrints(secure, rest);
    if CutSlash(rest).Some? {
      CutSlashParses(rest);
      var host := CutSlash(rest).value.0;
      assert host == "" || host[0] == rest[0];
      assert |host| >= 2 ==> host[..2][0] == rest[0];
    }
  }

  // ----- round trips -----

  /**
    Whatever package URL is printed, the parser finds its pid again: for every repository that selects
    one, and every pid, even empty or with newlines in it. The URL is one of the production search
    exactly when the repository is part of the production node's address, and otherwise one of the
    development node; no URL is printed exactly when it is part of neither address.
   */
  lemma PackageUrlRoundTrip(repository: string, pid: string)
    ensures match PackageUrl(repository, pid)
            case Some(url) =>
              && FindInitialPid(url) == Pid(pid)
              && (ViewPid(url, SEARCH_HOST).Some? <==> Contains(PROD_CN, repository))
              && (ViewPid(url, DEV_HOST).Some? <==> !Contains(PROD_CN, repository))
            case None => !Contains(PROD_CN, repository) && !Contains(DEV_MN, repository)
  {
    if Contains(PROD_CN, repository) {
      ViewPrints(true, SEARCH_HOST, pid);
      OtherHost(true, SEARCH_HOST + "/#view/" + pid, DEV_HOST);
    } else if Contains(DEV_MN, repository) {
      var rest := DEV_HOST + "/#view/" + pid;
      ViewPrints(true, DEV_HOST, pid);
      OtherHost(true, rest, SEARCH_HOST);
      NotCn(true, rest);
    }
  }

  lemma CnIsNoView(a: ObjectAddress, host: string)
    requires host != "" && host[0] != '.' && host[0] != 'c'
    ensures ViewPid(Print(a), host) == None
  {
    var rest := ("cn" + a.middle + ".dataone.org") + "/" + (("cn/v" + [a.version] + "/") + (a.verb + "/" + a.pid));
    assert rest[0] == 'c';
    OtherHost(a.secure, rest, host);
  }

  /** Every object address of a coordinating node gives its pid, whatever the verb and version. */
  lemma ObjectAddressRoundTrip(a: ObjectAddress)
    requires WellFormed(a) && OneLine(a.pid)
    ensures FindInitialPid(Print(a)) == Pid(a.pid)
  {
    CnIsNoView(a, SEARCH_HOST);
    CnPidPrints(a);
  }

  // ----- the part after "resolve/" -----

  /** `base` ends before the first occurrence of `mark` in `base + mark`. */
  predicate Before(base: string, mark: string) {
    forall i :: 0 <= i < |base| ==> !(mark <= (base + mark)[i..])
  }

  lemma {:induction false} AfterFirstFinds(base: string, mark: string, rest: string)
    requires mark != "" && Before(base, mark)
    ensures AfterFirst(base + mark + rest, mark) == Some(rest)
    decreases |base|
  {
    var s := base + mark + rest;
    if base == "" {
      assert s == mark + rest && s[|mark|..] == rest;
    } else {
      assert (base + mark)[0..] == base + mark && s[..|mark|] == (base + mark)[..|mark|];
      assert !(mark <= s);
      forall i | 0 <= i < |base[1..]| ensures !(mark <= (base[1..] + mark)[i..]) {
        assert (base[1..] + mark)[i..] == (base + mark)[i + 1..];
      }
      AfterFirstFinds(base[1..], mark, rest);
      assert s[1..] == base[1..] + mark + rest;
    }
  }

  lemma {:induction false} AfterFirstMisses(s: string, mark: string)
    ensures AfterFirst(s, mark) == None <==> !Contains(s, mark)
  {
    if mark <= s {
      assert OccursAt(s, mark, 0);
    } else if s != "" {
      AfterFirstMisses(s[1..], mark);
      if Contains(s[1..], mark) {
        var i :| 0 <= i <= |s[1..]| - |mark| && OccursAt(s[1..], mark, i);
        OccursLater(s, mark, i + 1);
      }
      if Contains(s, mark) {
        var i :| 0 <= i <= |s| - |mark| && OccursAt(s, mark, i);
        assert i > 0;
        OccursLater(s, mark, i);
      }
    }
  }

  /** None of the three address forms: the path goes to the generic branches. */
  predicate Unrecognised(path: string) {
    ViewPid(path, SEARCH_HOST) == None && CnPid(path) == None && ViewPid(path, DEV_HOST) == None
  }

  lemma GenericResolve(base: string, pid: string)
    requires Unrecognised(base + "resolve/" + pid) && Before(base, "resolve/")
    ensures FindInitialPid(base + "resolve/" + pid) == Pid(pid)
  {
    AfterFirstFinds(base, "resolve/", pid);
    assert OccursAt(base + "resolve/" + pid, "resolve", |base|);
  }

  lemma OneR(x: string, y: string)
    requires 'r' !in x && 'r' !in y && y != "" && y[0] != 'e'
    ensures Before(x + "r" + y, "resolve/")
  {
    var base := x + "r" + y;
    forall i | 0 <= i < |base| ensures !("resolve/" <= (base + "resolve/")[i..]) {
      var w := (base + "resolve/")[i..];
      assert w[0] == base[i];
      assert i < |x| ==> base[i] == x[i];
      assert i > |x| ==> base[i] == y[i - |x| - 1];
      assert i == |x| ==> w[1] == y[0];
    }
  }

  lemma Ends(v: string, x: string, y: string, pid: string)
    requires v == x + y
    ensures v + "/resolve/" + pid == (x + (y + "/")) + ("resolve" + "/" + pid)
  {
    assert "/resolve/" == "/" + "resolve" + "/";
  }

  lemma ResolveAddress(middle: string, pid: string)
    ensures CoordinatingNode(middle) + "/resolve/" + pid == Print(ObjectAddress(true, middle, '2', "resolve", pid))
  {
    var host := "cn" + middle + ".dataone.org";
    Ends(CoordinatingNode(middle), "https://" + host, "/cn/v2", pid);
    assert "/cn/v2" + "/" == "/" + ("cn/v" + ['2'] + "/");
  }

  lemma ResolveBase(middle: string, pid: string)
    requires 'r' !in middle
    ensures var base := CoordinatingNode(middle) + "/";
            && Before(base, "resolve/")
            && CoordinatingNode(middle) + "/resolve/" + pid == base + "resolve/" + pid
  {
    OneR("https://cn" + middle + ".dataone.o", "g/cn/v2/");
    assert CoordinatingNode(middle) + "/" == ("https://cn" + middle + ".dataone.o") + "r" + "g/cn/v2/";
    assert "/resolve/" == "/" + "resolve/";
  }

  /** The resolve address of a coordinating node gives its pid: for every pid, even empty or with newlines. */
  lemma ResolveRoundTrip(middle: string, pid: string)
    requires All(HostChar, middle) && 'r' !in middle
    ensures FindInitialPid(CoordinatingNode(middle) + "/resolve/" + pid) == Pid(pid)
  {
    var a := ObjectAddress(true, middle, '2', "resolve", pid);
    hide CoordinatingNode, Print, FindInitialPid, Before, CnPid, ViewPid;
    ResolveAddress(middle, pid);
    if OneLine(pid) {
      ObjectAddressRoundTrip(a);
    } else {
      CnPidPrints(a);
      CnIsNoView(a, SEARCH_HOST);
      CnIsNoView(a, DEV_HOST);
      ResolveBase(middle, pid);
      GenericResolve(CoordinatingNode(middle) + "/", pid);
    }
  }

  lemma BothNodesResolve(pid: string)
    ensures FindInitialPid(PROD_CN + "/resolve/" + pid) == Pid(pid)
    ensures FindInitialPid(DEV_CN + "/resolve/" + pid) == Pid(pid)
  {
    ResolveRoundTrip("", pid);
    ResolveRoundTrip("-stage-2.test", pid);
  }

  /** The parser fails exactly on unrecognised paths that have "resolve" in them but not "resolve/". */
  lemma WhenIndexError(path: string)
    ensures FindInitialPid(path) == IndexError
       <==> Unrecognised(path) && Contains(path, "resolve") && !Contains(path, "resolve/")
  {
    AfterFirstMisses(path, "resolve/");
  }

  /** Such paths: what comes behind "resolve" may be anything without a slash, and so may what comes before. */
  lemma IndexErrorOccurs(before: string, after: string)
    requires '/' !in before && '/' !in after
    ensures FindInitialPid(before + "resolve" + after) == IndexError
  {
    var path := before + "resolve" + after;
    assert '/' !in path;
    assert OccursAt(path, "resolve", |before|);
    forall i | 0 <= i <= |path| - |"resolve/"| ensures !OccursAt(path, "resolve/", i) {
      assert path[i..i + 8][7] == path[i + 7];
    }
    NoSchemeNoPid(path);
    WhenIndexError(path);
  }

  lemma NoSchemeNoPid(path: string)
    requires '/' !in path
    ensures Unrecognised(path)
  {
    assert forall i :: 0 <= i < |path| ==> path[i] != '/';
    assert "https://"[6] == '/' && "http://"[5] == '/';
  }

  // ----- identifiers in other paths -----

  /** `d` matches the whole identifier pattern, with `k` digits. */
  predicate HasDoiShape(d: string, k: nat) {
    && 4 <= k <= 9 && |d| >= k + 5 && d[..2] == "10" && d[2] != '\n'
    && All(Digit, d[3..3 + k]) && d[3 + k] == '/' && All(DoiChar, d[4 + k..])
  }

  ghost predicate IsDoi(d: string) {
    exists k :: HasDoiShape(d, k)
  }

  /** At the start of `s` the longest identifier there is found, and one if there is any. */
  lemma DoiAtStart(s: string)
    requires DoiLength(s).Some?
    ensures IsDoi(s[..DoiLength(s).value])
    ensures forall n :: 0 <= n <= |s| && IsDoi(s[..n]) ==> n <= DoiLength(s).value
  {
    var digits := RunLength(Digit, s[3..]);
    var n := DoiLength(s).value;
    assert HasDoiShape(s[..n], digits) by {
      DoiHasShape(s);
    }
    forall m: nat | m <= |s| && IsDoi(s[..m]) ensures m <= n {
      var k: nat :| HasDoiShape(s[..m], k);
      DoiDigits(s, k, m);
      assert n < |s| ==> s[4 + k..][n - 4 - k] == s[n];
    }
  }

  lemma DoiHasShape(s: string)
    requires DoiLength(s).Some?
    ensures HasDoiShape(s[..DoiLength(s).value], RunLength(Digit, s[3..]))
  {
    var digits := RunLength(Digit, s[3..]);
    var n := DoiLength(s).value;
    var d := s[..n];
    assert d[3..3 + digits] == s[3..][..digits] && d[4 + digits..] == s[4 + digits..][..n - 4 - digits];
    assert d[..2] == s[..2];
  }

  /** The number of digits is determined. */
  lemma DoiDigits(s: string, k: nat, n: nat)
    requires n <= |s| && HasDoiShape(s[..n], k)
    ensures |s| >= 4 + k && s[..2] == "10" && RunLength(Digit, s[3..]) == k && s[3 + k] == '/'
    ensures s[2] != '\n' && |s| > 4 + k && DoiChar(s[4 + k])
  {
    var d := s[..n];
    assert d[..2] == s[..2];
    forall i | 0 <= i < k ensures Digit(s[3..][i]) {
      assert d[3..3 + k][i] == s[3..][i];
    }
    assert s[3..][k] == '/' == d[3 + k];
    assert s[4 + k] == d[4 + k..][0];
  }

  lemma DoiAtStartFound(s: string, k: nat, n: nat)
    requires n <= |s| && HasDoiShape(s[..n], k)
    ensures DoiLength(s).Some?
  {
    DoiDigits(s, k, n);
    assert s[4 + k..][0] == s[4 + k];
  }

  /** `d` is the leftmost identifier in `s`, and at its place the longest. */
  ghost predicate Leftmost(s: string, d: string, i: nat) {
    && i + |d| <= |s| && OccursAt(s, d, i) && IsDoi(d)
    && (forall e, j :: IsDoi(e) && 0 <= j < i && j + |e| <= |s| ==> !OccursAt(s, e, j))
    && (forall e :: IsDoi(e) && i + |e| <= |s| && OccursAt(s, e, i) ==> |e| <= |d|)
  }

  lemma NoneAtStart(s: string, e: string)
    requires DoiLength(s) == None && IsDoi(e) && |e| <= |s|
    ensures !OccursAt(s, e, 0)
  {
    if s[..|e|] == e {
      var k :| HasDoiShape(e, k);
      DoiAtStartFound(s, k, |e|);
    }
  }

  ghost predicate Found(s: string, d: string) {
    exists i: nat :: Leftmost(s, d, i)
  }

  lemma FoundAt(s: string, d: string, i: nat)
    requires Leftmost(s, d, i)
    ensures Found(s, d)
  {
    hide Leftmost;
  }

  /** An identifier is found exactly when there is one anywhere; it is the leftmost and, there, the longest. */
  lemma {:induction false} DoiFinds(s: string)
    ensures match Doi(s)
            case Some(d) => Found(s, d)
            case None => forall d :: IsDoi(d) ==> !Contains(s, d)
  {
    hide DoiLength, IsDoi, Leftmost, Contains, Found;
    if DoiLength(s).Some? {
      FirstIsLeftmost(s);
      FoundAt(s, s[..DoiLength(s).value], 0);
    } else if s == "" {
      NoneInNothing();
    } else {
      DoiFinds(s[1..]);
      match Doi(s[1..])
      case Some(d) => FoundLater(s, d);
      case None => NoneAnywhere(s);
    }
  }

  lemma NoneInNothing()
    ensures forall d :: IsDoi(d) ==> !Contains("", d)
  {
    forall d | IsDoi(d) ensures !Contains("", d) {
      DoiIsLong(d);
    }
  }

  lemma FoundLater(s: string, d: string)
    requires s != "" && DoiLength(s) == None && Found(s[1..], d)
    ensures Found(s, d)
  {
    hide DoiLength, Leftmost;
    var i: nat :| Leftmost(s[1..], d, i);
    LeftmostShifts(s, d, i);
  }

  lemma NoneAnywhere(s: string)
    requires s != "" && DoiLength(s) == None && forall d :: IsDoi(d) ==> !Contains(s[1..], d)
    ensures forall d :: IsDoi(d) ==> !Contains(s, d)
  {
    hide DoiLength, IsDoi, OccursAt;
    forall d | IsDoi(d) ensures !Contains(s, d) {
      forall i | 0 <= i <= |s| - |d| ensures !OccursAt(s, d, i) {
        if i == 0 {
          NoneAtStart(s, d);
        } else {
          OccursLater(s, d, i);
        }
      }
    }
  }

  lemma DoiIsLong(d: string)
    requires IsDoi(d)
    ensures |d| > 0
  {
  }

  lemma FirstIsLeftmost(s: string)
    requires DoiLength(s).Some?
    ensures Leftmost(s, s[..DoiLength(s).value], 0)
  {
    DoiAtStart(s);
    hide DoiLength, IsDoi;
    forall e | IsDoi(e) && |e| <= |s| && OccursAt(s, e, 0) ensures |e| <= DoiLength(s).value {
      assert s[..|e|] == e;
    }
  }

  lemma OccursLater(s: string, e: string, j: nat)
    requires 0 < j && j + |e| <= |s|
    ensures OccursAt(s, e, j) == OccursAt(s[1..], e, j - 1)
  {
    var a, b := s[j..j + |e|], s[1..][j - 1..j - 1 + |e|];
    assert forall i :: 0 <= i < |e| ==> a[i] == s[j + i] == s[1..][j - 1 + i] == b[i];
    assert a == b;
  }

  lemma LeftmostShifts(s: string, d: string, i: nat)
    requires s != "" && DoiLength(s) == None && Leftmost(s[1..], d, i)
    ensures Leftmost(s, d, i + 1)
  {
    hide DoiLength, IsDoi, OccursAt;
    OccursLater(s, d, i + 1);
    forall e, j | IsDoi(e) && 0 <= j < i + 1 && j + |e| <= |s| ensures !OccursAt(s, e, j) {
      if j == 0 {
        NoneAtStart(s, e);
      } else {
        OccursLater(s, e, j);
      }
    }
    forall e | IsDoi(e) && i + 1 + |e| <= |s| && OccursAt(s, e, i + 1) ensures |e| <= |d| {
      OccursLater(s, e, i + 1);
    }
  }

  /**
    Any other path gives the leftmost identifier in it, as long as it goes, marked as such; it comes back
    as it is if it has none.
   */
  lemma OtherPaths(path: string)
    requires Unrecognised(path) && !Contains(path, "resolve")
    ensures (exists d :: Found(path, d) && FindInitialPid(path) == Pid("doi:" + d))
         || (FindInitialPid(path) == Pid(path) && forall d :: IsDoi(d) ==> !Contains(path, d))
  {
    DoiFinds(path);
    hide Found, IsDoi;
  }

  // ----- in literals -----

  /** All characters of `s` are among `those`. */
  predicate Only(s: string, those: string) {
    forall c :: c in s ==> c in those
  }

  lemma OnlyAre(s: string)
    ensures All(Digit, s) <==> Only(s, "0123456789")
    ensures All(DoiChar, s) <==> Only(s, DOI_CHARACTERS)
  {
    forall c: char ensures (Digit(c) <==> c in "0123456789") && (DoiChar(c) <==> c in DOI_CHARACTERS) {
      DigitsAre(c);
      ClassesAre(c);
    }
    hide DoiChar, Digit, DOI_CHARACTERS;
    AllIs(Digit, s);
    AllIs(DoiChar, s);
  }

  lemma AllIs(p: char -> bool, s: string)
    ensures All(p, s) <==> forall c :: c in s ==> p(c)
  {
    assert forall i :: 0 <= i < |s| ==> s[i] in s;
  }

  /** `d` is 10, any character but a newline, four to nine digits, a slash, and at least one character more. */
  ghost predicate Identifier(d: string, dot: char, digits: string, rest: string) {
    && d == "10" + [dot] + digits + "/" + rest && dot != '\n'
    && 4 <= |digits| <= 9 && Only(digits, "0123456789")
    && rest != "" && Only(rest, DOI_CHARACTERS)
  }

  /** The identifier pattern, written out. */
  lemma IdentifiersAre(d: string)
    ensures IsDoi(d) <==> exists dot, digits, rest :: Identifier(d, dot, digits, rest)
  {
    if IsDoi(d) {
      var k :| HasDoiShape(d, k);
      ShapeIsIdentifier(d, k);
    }
    hide HasDoiShape, Identifier;
    forall dot, digits, rest | Identifier(d, dot, digits, rest) ensures IsDoi(d) {
      IdentifierIsShape(d, dot, digits, rest);
    }
  }

  lemma ShapeIsIdentifier(d: string, k: nat)
    requires HasDoiShape(d, k)
    ensures Identifier(d, d[2], d[3..3 + k], d[4 + k..])
  {
    hide DoiChar, Digit, DOI_CHARACTERS;
    OnlyAre(d[3..3 + k]);
    OnlyAre(d[4 + k..]);
    assert d == d[..2] + [d[2]] + d[3..3 + k] + [d[3 + k]] + d[4 + k..];
  }

  lemma IdentifierIsShape(d: string, dot: char, digits: string, rest: string)
    requires Identifier(d, dot, digits, rest)
    ensures HasDoiShape(d, |digits|)
  {
    hide DoiChar, Digit, DOI_CHARACTERS, Only;
    OnlyAre(digits);
    OnlyAre(rest);
    assert d[..2] == "10" && d[2] == dot && d[3..3 + |digits|] == digits && d[4 + |digits|..] == rest;
  }

  /** An identifier at the end of a path is found whole, if nothing before it could begin one. */
  lemma IdentifierIsMarked(before: string, d: string)
    requires IsDoi(d) && '1' !in before
    requires Unrecognised(before + d) && !Contains(before + d, "resolve")
    ensures FindInitialPid(before + d) == Pid("doi:" + d)
  {
    hide *;
    OtherPaths(before + d);
    AtEnd(before, d);
    var e :| Found(before + d, e) && FindInitialPid(before + d) == Pid("doi:" + e);
    LastIsFound(before, d, e);
  }

  lemma AtEnd(before: string, d: string)
    ensures Contains(before + d, d)
  {
    assert OccursAt(before + d, d, |before|);
  }

  lemma LastIsFound(before: string, d: string, e: string)
    requires IsDoi(d) && '1' !in before && Found(before + d, e)
    ensures e == d
  {
    var path := before + d;
    var i: nat :| Leftmost(path, e, i);
    hide IsDoi;
    StartsWithOne(e);
    assert OccursAt(path, d, |before|);
    assert path[i..i + |e|][0] == path[i];
    assert i >= |before|;
    assert i == |before| && |d| <= |e|;
    assert e == path[i..i + |e|] == d;
  }

  lemma StartsWithOne(d: string)
    requires IsDoi(d)
    ensures d != "" && d[0] == '1'
  {
    var k :| HasDoiShape(d, k);
    assert d[..2][0] == d[0];
  }

  /** The address of an identifier at its registry. */
  lemma RegistryAddress(d: string)
    requires IsDoi(d) && 'v' !in d
    ensures FindInitialPid("https://doi.org/" + d) == Pid("doi:" + d)
  {
    var path, rest := "https://doi.org/" + d, "doi.org/" + d;
    assert path == "https://" + rest;
    assert DEV_HOST[1] == 'e' && SEARCH_HOST[0] == 's';
    hide *;
    HostDiffers(true, rest, DEV_HOST, 1);
    HostDiffers(true, rest, SEARCH_HOST, 0);
    NotCn(true, rest);
    MakeUnrecognised(path);
    NoResolve(path);
    IdentifierIsMarked("https://doi.org/", d);
  }

  lemma NoResolve(path: string)
    requires 'v' !in path
    ensures !Contains(path, "resolve")
  {
    if Contains(path, "resolve") {
      ContainsChars(path, "resolve");
    }
  }

  lemma MakeUnrecognised(path: string)
    requires ViewPid(path, SEARCH_HOST) == None && CnPid(path) == None && ViewPid(path, DEV_HOST) == None
    ensures Unrecognised(path)
  {
  }

  lemma SampleIdentifier()
    ensures FindInitialPid("https://doi.org/10.5063/F1Z899CZ") == Pid("doi:10.5063/F1Z899CZ")
  {
    hide *;
    var d := "10.5063/F1Z899CZ";
    SampleShape();
    IsShaped(d, 4);
    assert 'v' !in d;
    RegistryAddress(d);
    assert "https://doi.org/" + d == "https://doi.org/10.5063/F1Z899CZ";
  }

  lemma SampleShape()
    ensures HasDoiShape("10.5063/F1Z899CZ", 4)
  {
    var d := "10.5063/F1Z899CZ";
    assert d[3..7] == "5063" && d[8..] == "F1Z899CZ" && d[..2] == "10";
    assert All(Digit, "5063") && All(DoiChar, "F1Z899CZ");
    hide All;
  }

  lemma IsShaped(d: string, k: nat)
    requires HasDoiShape(d, k)
    ensures IsDoi(d)
  {
    hide HasDoiShape;
  }

  /** The pages of the two repositories: that of the production node for every part of its address, even none. */
  lemma PagesAre(repository: string, pid: string)
    ensures PackageUrl(repository, pid)
         == if exists a, b :: "https://cn.dataone.org/cn/v2" == a + repository + b
            then Some("https://search.dataone.org/#view/" + pid)
            else if exists a, b :: "https://dev.nceas.ucsb.edu/knb/d1/mn/v2" == a + repository + b
            then Some("https://dev.nceas.ucsb.edu/#view/" + pid)
            else None
  {
    hide PROD_CN, DEV_MN, CoordinatingNode, Contains, SEARCH_HOST, DEV_HOST;
    NodesAre();
    PagesStart(pid);
    ContainsIff(PROD_CN, repository);
    ContainsIff(DEV_MN, repository);
  }

  lemma PagesStart(pid: string)
    ensures "https://" + (SEARCH_HOST + "/#view/" + pid) == "https://search.dataone.org/#view/" + pid
    ensures "https://" + (DEV_HOST + "/#view/" + pid) == "https://dev.nceas.ucsb.edu/#view/" + pid
  {
    hide *;
    SearchHostIs();
    DevHostIs();
    PageStart(SEARCH_HOST, pid);
    PageStart(DEV_HOST, pid);
  }

  lemma SearchHostIs()
    ensures "https://" + SEARCH_HOST + "/#view/" == "https://search.dataone.org/#view/"
  {
  }

  lemma DevHostIs()
    ensures "https://" + DEV_HOST + "/#view/" == "https://dev.nceas.ucsb.edu/#view/"
  {
  }

  lemma PageStart(host: string, pid: string)
    ensures "https://" + (host + "/#view/" + pid) == ("https://" + host + "/#view/") + pid
  {
  }

  lemma NodesAre()
    ensures PROD_CN == "https://cn.dataone.org/cn/v2"
    ensures DEV_CN == "https://cn-stage-2.test.dataone.org/cn/v2"
    ensures DEV_MN == "https://dev.nceas.ucsb.edu/knb/d1/mn/v2"
  {
  }

  /** The addresses the parser knows, with or without encryption. */
  lemma AddressesAre(secure: bool, pid: string)
    ensures var scheme := if secure then "https://" else "http://";
            && FindInitialPid(scheme + ("search.dataone.org/#view/" + pid)) == Pid(pid)
            && FindInitialPid(scheme + ("dev.nceas.ucsb.edu/#view/" + pid)) == Pid(pid)
  {
    hide ViewPid, CnPid;
    ViewPrints(secure, SEARCH_HOST, pid);
    ViewPrints(secure, DEV_HOST, pid);
    assert SEARCH_HOST + "/#view/" + pid == "search.dataone.org/#view/" + pid;
    assert DEV_HOST + "/#view/" + pid == "dev.nceas.ucsb.edu/#view/" + pid;
    OtherHost(secure, DEV_HOST + "/#view/" + pid, SEARCH_HOST);
    NotCn(secure, DEV_HOST + "/#view/" + pid);
  }

  /** The dots of a host stand for any character but a newline. */
  lemma LooseDots(c: char, d: char, pid: string)
    requires c != '\n' && d != '\n'
    ensures FindInitialPid("https://" + ("search" + [c] + "dataone" + [d] + "org/#view/" + pid)) == Pid(pid)
  {
    var rest := "search" + [c] + "dataone" + [d] + "org/#view/" + pid;
    var head := "search" + [c] + "dataone" + [d] + "org/#view/";
    var pattern := SEARCH_HOST + "/#view/";
    AfterSchemePrints(true, rest);
    assert |pattern| == |head| && rest[..|head|] == head && rest[|head|..] == pid;
    assert pattern[..6] == head[..6] && pattern[7..14] == head[7..14] && pattern[15..] == head[15..];
    forall i | 0 <= i < |pattern| ensures if pattern[i] == '.' then head[i] != '\n' else head[i] == pattern[i] {
      assert i < 6 ==> pattern[..6][i] == head[..6][i];
      assert 7 <= i < 14 ==> pattern[7..14][i - 7] == head[7..14][i - 7];
      assert 15 <= i ==> pattern[15..][i - 15] == head[15..][i - 15];
    }
    hide AfterScheme;
  }

  /** An object address with no verb, no pid, or a pid of two lines, is no object address. */
  lemma OddAddresses(pid: string)
    ensures ObjectPath("cn/v2/" + ("/" + pid)) == None
    ensures pid == "" || '\n' in pid ==>
              CnPid("https://" + ("cn.dataone.org" + "/" + ("cn/v2/" + ("object" + "/" + pid)))) == None
  {
    var a := ObjectAddress(true, "", '2', "object", pid);
    assert "cn" + "" + ".dataone.org" == "cn.dataone.org" && "cn/v" + ['2'] + "/" == "cn/v2/";
    CnPidPrints(a);
    CutSlashPrints("", pid);
    assert "" + "/" + pid == "/" + pid && ("cn/v2/" + ("/" + pid))[6..] == "/" + pid;
    hide CnPid;
  }
}
