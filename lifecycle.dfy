/**
 * The lifecycle operations of the Zeppelin master script (install,
 * configure, start, stop, status and their helpers) as the sequence of
 * effects each one asks the platform for. Commands, resources and sleeps
 * are recorded as Actions and never interpreted; the operating system's
 * answers (user and group lookups, glob matches, file existence, file
 * contents) come in as a Host snapshot.
 */
module Lifecycle {
  import opened Wrappers
  import opened Paths
  import opened Interpreter

  /** Octal 0755 and 0444, the modes the script passes to the platform. */
  const Mode755: int := 493
  const Mode444: int := 292

  /** Seconds `start` waits for the daemon before reconciling interpreters. */
  const SettleSeconds: nat := 20

  /** The body of a rendered file: an inline template, or literal text. */
  datatype Content = InlineTemplate(template: string) | Literal(text: string)

  /** One effect requested from the platform. */
  datatype Action =
    | Execute(command: string, user: Option<string>)
    | Directory(paths: seq<string>, owner: string, group: string, cdAccess: string, mode: int)
    | InstallPackages
    | XmlConfig(fileName: string, confDir: string, configurations: map<string, string>,
                owner: string, group: string)
    | File(path: string, content: Content, owner: string, group: string)
      /** HdfsResource of type directory, created on execute, recursive chown and chmod. */
    | HdfsDirectory(path: string, owner: string)
      /** HdfsResource of type file, created on execute, replacing an existing file. */
    | HdfsFile(path: string, source: string, owner: string, group: string, mode: int)
      /** HdfsResource(None, action="execute"): commit the queued HDFS resources. */
    | HdfsExecute
    | Sleep(seconds: nat)
      /** check_process_status on a PID file path. */
    | CheckProcessStatus(pidFile: string)
      /** Load, reconcile and rewrite the interpreter settings file. */
    | RewriteInterpreterSettings(path: string)
  {
    predicate IsHdfs() {
      HdfsDirectory? || HdfsFile? || HdfsExecute?
    }
  }

  /** The resolved service parameters of one invocation (the `params` module). */
  datatype Params = Params(
    servicePackageDir: string,
    zeppelinUser: string,
    zeppelinGroup: string,
    zeppelinDir: string,
    zeppelinPidDir: string,
    zeppelinLogDir: string,
    zeppelinLogFile: string,
    sparkVersion: string,
    sparkHome: string,
    sparkJarDir: string,
    confDir: string,
    zeppelinConfig: map<string, string>,
    zeppelinEnvContent: string,
    shiroIniContent: string,
    log4jPropertiesContent: string,
    hiveMetastoreHost: string,
    hiveMetastorePort: string,
    zeppelinHost: string,
    zeppelinPort: string,
    setupView: string,
    java64Home: string,
    topology: Topology)

  /** The narrower parameters `status` resolves (the `status_params` module). */
  datatype StatusParams = StatusParams(pidDir: string, user: string)

  /**
   * What the host answers when asked: the existing users and groups, the
   * matches of each glob pattern in the order glob returns them (a pattern
   * not listed matches nothing), the paths that exist, and the files that
   * can be read with their text.
   */
  datatype Host = Host(
    users: set<string>,
    groups: set<string>,
    globs: map<string, seq<string>>,
    existing: set<string>,
    files: map<string, string>)
  {
    /** `glob.glob(pattern)`. */
    function Glob(pattern: string): seq<string> {
      if pattern in globs then globs[pattern] else []
    }
  }

  /** The effects an operation requested, and the exception that ended it early, if any. */
  datatype Run = Run(actions: seq<Action>, error: Option<PyError>)

  // ---------------------------------------------------------------- fixed text

  /** The command words and path fragments the script joins with its parameters. */
  const JarGlobTail := "/interpreter/spark/dep/zeppelin-spark-dependencies-*.jar"
  const PidGlobStem := "/zeppelin-"
  const PidGlobTail := "*.pid"
  const InterpreterJsonName := "/interpreter.json"
  const AddUserCommand := "adduser "
  const GroupAddCommand := "groupadd "
  const ChmodTreeCommand := "chmod -R 755 "
  const ChmodExecCommand := "chmod a+x "
  const SetupScriptName := "scripts/setup_snapshot.sh"
  const ChownCommand := "chown -R "
  const DaemonScript := "/bin/zeppelin-daemon.sh"
  const DaemonStartArgs := " start"
  const DaemonStopArgs := " stop"
  const Redirect := " >> "
  const EchoPidFileCommand := "echo pid file is: "
  const EchoPidCommand := "echo pid is "
  const EchoSparkVersionCommand := "echo spark_version:"
  const SparkHomeNote := " detected for spark_home: "
  const SiteXml := "zeppelin-site.xml"
  const EnvScript := "/zeppelin-env.sh"
  const ShiroIni := "/shiro.ini"
  const Log4jProperties := "/log4j.properties"
  const HdfsUserRoot := "/user/"
  const HdfsTestDir := "/test"
  const HdfsAppsDir := "/apps/zeppelin"

  // ---------------------------------------------------------------- patterns

  function JarPattern(p: Params): string {
    p.zeppelinDir + JarGlobTail
  }

  function PidPattern(pidDir: string, user: string): string {
    pidDir + PidGlobStem + user + PidGlobTail
  }

  function InterpreterJson(p: Params): string {
    p.confDir + InterpreterJsonName
  }

  // ---------------------------------------------------------------- actions

  function ChmodPackageDir(p: Params): Action {
    Execute(ChmodTreeCommand + p.servicePackageDir, None)
  }

  function ChmodSetupScript(p: Params): Action {
    Execute(ChmodExecCommand + Join(p.servicePackageDir, SetupScriptName), None)
  }

  function AddUser(user: string): Action {
    Execute(AddUserCommand + user, None)
  }

  function AddGroup(group: string): Action {
    Execute(GroupAddCommand + group, None)
  }

  function LogDir(p: Params): Action {
    Directory([p.zeppelinLogDir], p.zeppelinUser, p.zeppelinGroup, "a", Mode755)
  }

  function ChownServiceDir(p: Params): Action {
    Execute(ChownCommand + p.zeppelinUser + ":" + p.zeppelinGroup + " " + p.zeppelinDir, None)
  }

  function PidAndServiceDirs(p: Params): Action {
    Directory([p.zeppelinPidDir, p.zeppelinDir], p.zeppelinUser, p.zeppelinGroup, "a", Mode755)
  }

  function EchoSparkVersion(p: Params): Action {
    Execute(EchoSparkVersionCommand + p.sparkVersion + SparkHomeNote + p.sparkHome + Redirect + p.zeppelinLogFile,
            Some(p.zeppelinUser))
  }

  /** The setup script as `install` runs it: spelled out after the package directory. */
  function SetupScriptPath(p: Params): string {
    p.servicePackageDir + "/" + SetupScriptName
  }

  /** The arguments and output redirection of the setup run. */
  function SetupArguments(p: Params): string {
    p.zeppelinDir + " "
    + p.hiveMetastoreHost + " " + p.hiveMetastorePort + " " + p.topology.hiveServerPort + " "
    + p.zeppelinHost + " " + p.zeppelinPort + " " + p.setupView + " "
    + p.servicePackageDir + " " + p.java64Home + Redirect + p.zeppelinLogFile
  }

  function SetupSnapshot(p: Params): Action {
    Execute(SetupScriptPath(p) + " " + SetupArguments(p), Some(p.zeppelinUser))
  }

  function SiteConfig(p: Params): Action {
    XmlConfig(SiteXml, p.confDir, p.zeppelinConfig, p.zeppelinUser, p.zeppelinGroup)
  }

  function EnvFile(p: Params): Action {
    File(p.confDir + EnvScript, InlineTemplate(p.zeppelinEnvContent), p.zeppelinUser, p.zeppelinGroup)
  }

  function ShiroFile(p: Params): Action {
    File(p.confDir + ShiroIni, InlineTemplate(p.shiroIniContent), p.zeppelinUser, p.zeppelinGroup)
  }

  function Log4jFile(p: Params): Action {
    File(p.confDir + Log4jProperties, Literal(p.log4jPropertiesContent), p.zeppelinUser, p.zeppelinGroup)
  }

  function UserDir(p: Params): Action {
    HdfsDirectory(HdfsUserRoot + p.zeppelinUser, p.zeppelinUser)
  }

  function UserTestDir(p: Params): Action {
    HdfsDirectory(HdfsUserRoot + p.zeppelinUser + HdfsTestDir, p.zeppelinUser)
  }

  function AppsDir(p: Params): Action {
    HdfsDirectory(HdfsAppsDir, p.zeppelinUser)
  }

  function DaemonStart(p: Params): Action {
    Execute(p.zeppelinDir + DaemonScript + DaemonStartArgs + Redirect + p.zeppelinLogFile, Some(p.zeppelinUser))
  }

  function DaemonStop(p: Params): Action {
    Execute(p.zeppelinDir + DaemonScript + DaemonStopArgs + Redirect + p.zeppelinLogFile, Some(p.zeppelinUser))
  }

  function EchoPidFile(p: Params, pidFile: string): Action {
    Execute(EchoPidFileCommand + pidFile, Some(p.zeppelinUser))
  }

  function EchoPid(p: Params, contents: string): Action {
    Execute(EchoPidCommand + contents, Some(p.zeppelinUser))
  }

  // ---------------------------------------------------------------- operations

  /** `create_linux_user`: add the user, then the group, each only when its lookup fails. */
  function CreateLinuxUserTrace(user: string, group: string, host: Host): seq<Action> {
    (if user in host.users then [] else [AddUser(user)])
    + (if group in host.groups then [] else [AddGroup(group)])
  }

  /** `create_zeppelin_log_dir`. */
  function CreateLogDirTrace(p: Params): seq<Action> {
    [LogDir(p)]
  }

  /** `configure`: the log directory, then zeppelin-site.xml and three rendered files. */
  function ConfigureTrace(p: Params): seq<Action> {
    CreateLogDirTrace(p) + [SiteConfig(p), EnvFile(p), ShiroFile(p), Log4jFile(p)]
  }

  /** `install`. */
  function InstallTrace(p: Params, host: Host): seq<Action> {
    [ChmodPackageDir(p), ChmodSetupScript(p)]
    + CreateLinuxUserTrace(p.zeppelinUser, p.zeppelinGroup, host)
    + [InstallPackages, ChownServiceDir(p), PidAndServiceDirs(p), EchoSparkVersion(p)]
    + ConfigureTrace(p)
    + [SetupSnapshot(p)]
  }

  /** The HDFS file the dependency jar is uploaded to. */
  function JarTarget(p: Params, jar: string): string {
    p.sparkJarDir + "/" + Basename(jar)
  }

  /**
   * `create_zeppelin_dir`: queue three HDFS directories, look up the
   * dependency jar (IndexError when none matches), queue its upload and
   * commit.
   */
  function CreateZeppelinDirRun(p: Params, host: Host): Run {
    var dirs := [UserDir(p), UserTestDir(p), AppsDir(p)];
    match FirstMatch(JarPattern(p), host.Glob(JarPattern(p)))
    case Err(e) => Run(dirs, Some(e))
    case Ok(jar) =>
      Run(dirs + [ HdfsFile(JarTarget(p, jar), jar, p.zeppelinUser, p.zeppelinGroup, Mode444),
                   HdfsExecute ], None)
  }

  /** The guard of `start` around `create_zeppelin_dir`: a jar matches and the first match exists. */
  predicate JarPresent(p: Params, host: Host) {
    var jars := host.Glob(JarPattern(p));
    jars != [] && jars[0] in host.existing
  }

  /** The HDFS registration part of `start`'s trace. */
  function Registration(p: Params, host: Host): seq<Action> {
    if JarPresent(p, host) then CreateZeppelinDirRun(p, host).actions else []
  }

  /** `start` up to and including the daemon launch. */
  function Launched(p: Params, host: Host): seq<Action> {
    ConfigureTrace(p) + Registration(p, host) + [DaemonStart(p)]
  }

  /**
   * `start`: configure, register the dependency jar with HDFS when present,
   * launch the daemon, look up its PID file (IndexError when none matches),
   * echo the file's path, read it (IOError when it cannot be opened), echo
   * its contents, settle, and reconcile interpreters.
   */
  function StartRun(p: Params, sp: StatusParams, host: Host): Run {
    var r := AfterLaunch(p, sp, host);
    Run(Launched(p, host) + r.actions, r.error)
  }

  /** The part of `start` after the daemon start: PID file lookup, echoes, settle, reconciliation. */
  function AfterLaunch(p: Params, sp: StatusParams, host: Host): Run {
    var pattern := PidPattern(sp.pidDir, p.zeppelinUser);
    match FirstMatch(pattern, host.Glob(pattern))
    case Err(e) => Run([], Some(e))
    case Ok(pidFile) =>
      match ReadFile(host.files, pidFile)
      case Err(e) => Run([EchoPidFile(p, pidFile)], Some(e))
      case Ok(contents) =>
        Run([ EchoPidFile(p, pidFile),
              EchoPid(p, contents),
              Sleep(SettleSeconds),
              RewriteInterpreterSettings(InterpreterJson(p)) ], None)
  }

  /** `stop`: the log directory, then the daemon's stop script. */
  function StopTrace(p: Params): seq<Action> {
    CreateLogDirTrace(p) + [DaemonStop(p)]
  }

  /** The PID file `status` checks: the first match, or "" when none matches. */
  function StatusPidFile(sp: StatusParams, host: Host): string {
    FirstMatchOrEmpty(host.Glob(PidPattern(sp.pidDir, sp.user)))
  }

  /** `status`. */
  function StatusTrace(sp: StatusParams, host: Host): seq<Action> {
    [CheckProcessStatus(StatusPidFile(sp, host))]
  }

  // ---------------------------------------------------------------- properties

  /** How often `a` occurs in `t`. */
  function Count(t: seq<Action>, a: Action): nat {
    if t == [] then 0 else (if t[0] == a then 1 else 0) + Count(t[1..], a)
  }

  lemma {:induction false} CountConcat(s: seq<Action>, t: seq<Action>, a: Action)
    ensures Count(s + t, a) == Count(s, a) + Count(t, a)
    decreases |s|
  {
    if s == [] {
      assert s + t == t;
    } else {
      assert (s + t)[1..] == s[1..] + t;
      CountConcat(s[1..], t, a);
    }
  }

  /**
   * `create_linux_user` adds the user exactly when the user lookup fails and
   * the group exactly when the group lookup fails, each at most once, the
   * user first, and does nothing else.
   */
  lemma CreateLinuxUserConditional(user: string, group: string, host: Host)
    ensures var t := CreateLinuxUserTrace(user, group, host);
      && Count(t, AddUser(user)) == (if user in host.users then 0 else 1)
      && Count(t, AddGroup(group)) == (if group in host.groups then 0 else 1)
      && |t| == Count(t, AddUser(user)) + Count(t, AddGroup(group))
      && (user !in host.users && group !in host.groups ==> t[0] == AddUser(user) && t[1] == AddGroup(group))
  {
    assert AddUser(user) != AddGroup(group) by {
      assert (AddUserCommand + user)[0] == 'a';
      assert (GroupAddCommand + group)[0] == 'g';
    }
    var u := if user in host.users then [] else [AddUser(user)];
    var g := if group in host.groups then [] else [AddGroup(group)];
    CountConcat(u, g, AddUser(user));
    CountConcat(u, g, AddGroup(group));
  }

  /** Both `configure` and `stop` ensure the log directory before anything else. */
  lemma LogDirComesFirst(p: Params)
    ensures |ConfigureTrace(p)| == 5 && ConfigureTrace(p)[0] == LogDir(p)
    ensures |StopTrace(p)| == 2 && StopTrace(p)[0] == LogDir(p) && StopTrace(p)[1] == DaemonStop(p)
    ensures LogDir(p).paths == [p.zeppelinLogDir] && LogDir(p).mode == Mode755
  {
  }

  /**
   * In `install`, configure's actions form one block that comes after the
   * chown and the PID and service directories, and right before the setup
   * script, which is the last action.
   */
  lemma InstallOrder(p: Params, host: Host)
    ensures var t := InstallTrace(p, host);
      var c := |ConfigureTrace(p)|;
      && |t| > c + 1
      && t[|t| - 1] == SetupSnapshot(p)
      && t[|t| - 1 - c..|t| - 1] == ConfigureTrace(p)
      && ChownServiceDir(p) in t[..|t| - 1 - c]
      && PidAndServiceDirs(p) in t[..|t| - 1 - c]
  {
    var t := InstallTrace(p, host);
    var c := |ConfigureTrace(p)|;
    var pre := t[..|t| - 1 - c];
    var u := CreateLinuxUserTrace(p.zeppelinUser, p.zeppelinGroup, host);
    assert pre[2 + |u| + 1] == ChownServiceDir(p);
    assert pre[2 + |u| + 2] == PidAndServiceDirs(p);
  }

  /** `create_zeppelin_dir` fails with IndexError exactly when the jar glob matches nothing. */
  lemma CreateZeppelinDirFailsIffNoJar(p: Params, host: Host)
    ensures var r := CreateZeppelinDirRun(p, host);
      && (r.error.Some? <==> host.Glob(JarPattern(p)) == [])
      && |r.actions| >= 3
      && (forall k :: 0 <= k < 3 ==> r.actions[k].HdfsDirectory?)
      && (r.error.Some? ==> r.error.value == IndexError(JarPattern(p)) && |r.actions| == 3)
      && (r.error.None? ==> |r.actions| == 5 && r.actions[3].HdfsFile? && r.actions[4] == HdfsExecute)
      && (forall k :: 0 <= k < |r.actions| ==> r.actions[k].IsHdfs())
  {
  }

  /** The jar uploaded by `create_zeppelin_dir` keeps its file name under the Spark jar directory. */
  lemma UploadedJarKeepsName(p: Params, host: Host)
    requires host.Glob(JarPattern(p)) != []
    ensures var jar := host.Glob(JarPattern(p))[0];
      var r := CreateZeppelinDirRun(p, host);
      && r.error.None?
      && r.actions[3] == HdfsFile(JarTarget(p, jar), jar, p.zeppelinUser, p.zeppelinGroup, Mode444)
      && Basename(JarTarget(p, jar)) == Basename(jar)
  {
    var jar := host.Glob(JarPattern(p))[0];
    BasenameIsLastComponent(jar);
    BasenameAfterSeparator(p.sparkJarDir + "/", Basename(jar));
    assert JarTarget(p, jar) == (p.sparkJarDir + "/") + Basename(jar);
  }

  lemma RegistrationShape(p: Params, host: Host)
    ensures JarPresent(p, host) ==> CreateZeppelinDirRun(p, host).error.None?
    ensures |Registration(p, host)| == if JarPresent(p, host) then 5 else 0
    ensures forall k :: 0 <= k < |Registration(p, host)| ==> Registration(p, host)[k].IsHdfs()
  {
    CreateZeppelinDirFailsIffNoJar(p, host);
  }

  /** `configure` requests a directory, a site configuration and three files, in that order. */
  lemma ConfigureKinds(p: Params)
    ensures |ConfigureTrace(p)| == 5
    ensures ConfigureTrace(p)[0].Directory? && ConfigureTrace(p)[1].XmlConfig?
    ensures forall k :: 2 <= k < 5 ==> ConfigureTrace(p)[k].File?
    ensures forall k :: 0 <= k < 5 ==>
      var a := ConfigureTrace(p)[k];
      a.Directory? || a.XmlConfig? || a.File?
  {
  }

  /**
   * The script `install` makes executable is the one it runs last: for a
   * package directory that is non-empty and has no trailing '/', the path
   * given to `chmod a+x` is the command word of the setup run.
   */
  lemma SetupScriptMadeExecutable(p: Params)
    requires p.servicePackageDir != "" && p.servicePackageDir[|p.servicePackageDir| - 1] != '/'
    ensures var script := Join(p.servicePackageDir, SetupScriptName);
      && ChmodSetupScript(p).command == ChmodExecCommand + script
      && |script| < |SetupSnapshot(p).command|
      && SetupSnapshot(p).command[..|script| + 1] == script + " "
  {
    assert !IsAbsolute(SetupScriptName) by { assert SetupScriptName[0] == 's'; }
    var script := Join(p.servicePackageDir, SetupScriptName);
    assert script == SetupScriptPath(p);
    assert SetupSnapshot(p).command == (script + " ") + SetupArguments(p);
  }

  /** The three ways `start` can end, once the jar registration (which cannot fail) is done. */
  lemma StartShape(p: Params, sp: StatusParams, host: Host)
    ensures var pattern := PidPattern(sp.pidDir, p.zeppelinUser);
      var pids := host.Glob(pattern);
      var r := StartRun(p, sp, host);
      && (pids == [] ==> r == Run(Launched(p, host), Some(IndexError(pattern))))
      && (pids != [] && pids[0] !in host.files ==>
            r == Run(Launched(p, host) + [EchoPidFile(p, pids[0])], Some(IOError(pids[0]))))
      && (pids != [] && pids[0] in host.files ==>
            r == Run(Launched(p, host) + [ EchoPidFile(p, pids[0]),
                                           EchoPid(p, host.files[pids[0]]),
                                           Sleep(SettleSeconds),
                                           RewriteInterpreterSettings(InterpreterJson(p)) ], None))
  {
    RegistrationShape(p, host);
  }

  /** Up to the launch, `start` configures, registers the jar with HDFS when present, and launches the daemon. */
  lemma LaunchedShape(p: Params, host: Host)
    ensures var l := Launched(p, host);
      var c := |ConfigureTrace(p)|;
      var h := |Registration(p, host)|;
      && |l| == c + h + 1
      && l[..c] == ConfigureTrace(p)
      && (h > 0 <==> JarPresent(p, host))
      && l[c + h] == DaemonStart(p)
      && (forall k :: c <= k < c + h ==> l[k].IsHdfs())
      && (forall k :: 0 <= k < |l| && l[k].IsHdfs() ==> c <= k < c + h)
      && (forall k :: 0 <= k < |l| ==> !l[k].RewriteInterpreterSettings? && !l[k].Sleep?)
  {
    RegistrationShape(p, host);
    ConfigureKinds(p);
    LaunchedAt(ConfigureTrace(p), Registration(p, host), DaemonStart(p));
  }

  /** Where each kind of action sits in configure's actions, then HDFS actions, then a command. */
  lemma LaunchedAt(conf: seq<Action>, reg: seq<Action>, launch: Action)
    requires forall k :: 0 <= k < |conf| ==> conf[k].Directory? || conf[k].XmlConfig? || conf[k].File?
    requires forall k :: 0 <= k < |reg| ==> reg[k].IsHdfs()
    requires launch.Execute?
    ensures var l := conf + reg + [launch];
      && |l| == |conf| + |reg| + 1
      && l[..|conf|] == conf
      && l[|conf| + |reg|] == launch
      && (forall k :: |conf| <= k < |conf| + |reg| ==> l[k].IsHdfs())
      && (forall k :: 0 <= k < |l| && l[k].IsHdfs() ==> |conf| <= k < |conf| + |reg|)
      && (forall k :: 0 <= k < |l| ==> !l[k].RewriteInterpreterSettings? && !l[k].Sleep?)
  {
    var l := conf + reg + [launch];
    forall k | 0 <= k < |l|
      ensures l[k] == if k < |conf| then conf[k] else if k < |conf| + |reg| then reg[k - |conf|] else launch
    {
    }
  }

  /**
   * `start` never fails on the jar lookup (it is guarded). It fails with
   * IndexError exactly when the PID-file glob matches nothing, and with
   * IOError exactly when the first match cannot be opened. Its trace always
   * begins with configure's actions, followed by the HDFS registration,
   * which is present exactly when the jar is, and then the daemon start.
   */
  lemma StartConfiguresThenLaunches(p: Params, sp: StatusParams, host: Host)
    ensures var r := StartRun(p, sp, host);
      var pattern := PidPattern(sp.pidDir, p.zeppelinUser);
      var pids := host.Glob(pattern);
      var c := |ConfigureTrace(p)|;
      var h := |Registration(p, host)|;
      && (r.error.Some? <==> pids == [] || pids[0] !in host.files)
      && (pids == [] ==> r.error == Some(IndexError(pattern)))
      && (pids != [] && pids[0] !in host.files ==> r.error == Some(IOError(pids[0])))
      && |r.actions| > c + h
      && r.actions[..c] == ConfigureTrace(p)
      && (forall k :: c <= k < c + h ==> r.actions[k].IsHdfs())
      && (h > 0 <==> JarPresent(p, host))
      && r.actions[c + h] == DaemonStart(p)
      && (forall k :: 0 <= k < |r.actions| && r.actions[k].IsHdfs() ==> c <= k < c + h)
  {
    StartShape(p, sp, host);
    LaunchedShape(p, host);
    var l := Launched(p, host);
    var t := StartRun(p, sp, host).actions;
    assert t[..|l|] == l;
    assert forall k :: 0 <= k < |l| ==> t[k] == l[k];
  }

  /**
   * When `start` succeeds, it ends by echoing the first PID file and its
   * contents, waiting the settle interval, and reconciling the interpreter
   * settings, which happens once and last. When it fails, it stops right
   * after the daemon start (no PID file) or right after echoing the PID
   * file's path (unreadable), and never sleeps or reconciles.
   */
  lemma StartReconcilesLast(p: Params, sp: StatusParams, host: Host)
    ensures var r := StartRun(p, sp, host);
      var t := r.actions;
      var pids := host.Glob(PidPattern(sp.pidDir, p.zeppelinUser));
      && (r.error.None? ==>
            && |t| >= 5
            && t[|t| - 5] == DaemonStart(p)
            && t[|t| - 4] == EchoPidFile(p, pids[0])
            && t[|t| - 3] == EchoPid(p, host.files[pids[0]])
            && t[|t| - 2] == Sleep(SettleSeconds)
            && t[|t| - 1] == RewriteInterpreterSettings(InterpreterJson(p))
            && (forall k :: 0 <= k < |t| - 1 ==> !t[k].RewriteInterpreterSettings?))
      && (r.error.Some? && r.error.value.IndexError? ==> t[|t| - 1] == DaemonStart(p))
      && (r.error.Some? && r.error.value.IOError? ==>
            t[|t| - 2] == DaemonStart(p) && t[|t| - 1] == EchoPidFile(p, pids[0]))
      && (r.error.Some? ==> forall k :: 0 <= k < |t| ==> !t[k].RewriteInterpreterSettings? && !t[k].Sleep?)
  {
    StartShape(p, sp, host);
    LaunchedShape(p, host);
    var l := Launched(p, host);
    var t := StartRun(p, sp, host).actions;
    assert forall k :: 0 <= k < |l| ==> t[k] == l[k];
  }

  /** `status` checks the first PID-file match, or "" when there is none, and never fails for lack of a match. */
  lemma StatusChecksFirstPidFile(sp: StatusParams, host: Host)
    ensures var pids := host.Glob(PidPattern(sp.pidDir, sp.user));
      && StatusTrace(sp, host) == [CheckProcessStatus(if pids == [] then "" else pids[0])]
      && (pids != [] ==> StatusPidFile(sp, host) in pids)
  {
  }
}
