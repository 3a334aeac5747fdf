/**
 * The `Master` script object. Its methods run the lifecycle steps one by
 * one, appending each requested effect to `log`, and `start` finishes by
 * rewriting the parsed interpreter settings held in `interpreterSettings`
 * (the content of `interpreter.json` in the conf directory).
 */
module ZeppelinMaster {
  import opened Wrappers
  import opened Paths
  import opened Interpreter
  import opened Lifecycle

  class Master {
    /** Every effect requested so far, oldest first. */
    var log: seq<Action>
    /** The `interpreterSettings` object of `interpreter.json`, as last written. */
    var interpreterSettings: Settings

    constructor (settings: Settings)
      ensures log == [] && interpreterSettings == settings
    {
      log := [];
      interpreterSettings := settings;
    }

    method Install(p: Params, host: Host)
      modifies this`log
      ensures log == old(log) + InstallTrace(p, host)
    {
      log := log + [ChmodPackageDir(p), ChmodSetupScript(p)];
      CreateLinuxUser(p.zeppelinUser, p.zeppelinGroup, host);
      log := log + [InstallPackages, ChownServiceDir(p), PidAndServiceDirs(p), EchoSparkVersion(p)];
      Configure(p);
      log := log + [SetupSnapshot(p)];
      AppendedInOrder(old(log), [ChmodPackageDir(p), ChmodSetupScript(p)],
                      CreateLinuxUserTrace(p.zeppelinUser, p.zeppelinGroup, host),
                      [InstallPackages, ChownServiceDir(p), PidAndServiceDirs(p), EchoSparkVersion(p)],
                      ConfigureTrace(p), [SetupSnapshot(p)]);
    }

    method CreateLinuxUser(user: string, group: string, host: Host)
      modifies this`log
      ensures log == old(log) + CreateLinuxUserTrace(user, group, host)
    {
      if user !in host.users {
        log := log + [AddUser(user)];
      }
      if group !in host.groups {
        log := log + [AddGroup(group)];
      }
    }

    method CreateZeppelinDir(p: Params, host: Host) returns (error: Option<PyError>)
      modifies this`log
      ensures log == old(log) + CreateZeppelinDirRun(p, host).actions
      ensures error == CreateZeppelinDirRun(p, host).error
    {
      log := log + [UserDir(p)];
      log := log + [UserTestDir(p)];
      log := log + [AppsDir(p)];
      var lookup := FirstMatch(JarPattern(p), host.Glob(JarPattern(p)));
      if lookup.Err? {
        return Some(lookup.error);
      }
      var jar := lookup.value;
      log := log + [HdfsFile(JarTarget(p, jar), jar, p.zeppelinUser, p.zeppelinGroup, Mode444)];
      log := log + [HdfsExecute];
      error := None;
    }

    method CreateZeppelinLogDir(p: Params)
      modifies this`log
      ensures log == old(log) + CreateLogDirTrace(p)
    {
      log := log + [LogDir(p)];
    }

    method Configure(p: Params)
      modifies this`log
      ensures log == old(log) + ConfigureTrace(p)
    {
      CreateZeppelinLogDir(p);
      log := log + [SiteConfig(p)];
      log := log + [EnvFile(p)];
      log := log + [ShiroFile(p)];
      log := log + [Log4jFile(p)];
    }

    method Stop(p: Params)
      modifies this`log
      ensures log == old(log) + StopTrace(p)
    {
      CreateZeppelinLogDir(p);
      log := log + [DaemonStop(p)];
    }

    /**
     * Only a successful start reconciles the interpreter settings; a failed
     * one leaves them as they were.
     */
    method Start(p: Params, sp: StatusParams, host: Host) returns (error: Option<PyError>)
      modifies this
      ensures log == old(log) + StartRun(p, sp, host).actions
      ensures error == StartRun(p, sp, host).error
      ensures interpreterSettings
                == if error.None? then Reconciled(old(interpreterSettings), p.topology)
                   else old(interpreterSettings)
    {
      Configure(p);
      RegisterJar(p, host);
      log := log + [DaemonStart(p)];
      error := AwaitAndReconcile(p, sp, host);
    }

    /**
     * The guarded `create_zeppelin_dir` call of `start`. The guard ensures a
     * jar matches, so the call cannot raise.
     */
    method RegisterJar(p: Params, host: Host)
      modifies this`log
      ensures log == old(log) + Registration(p, host)
    {
      var jars := host.Glob(JarPattern(p));
      if jars != [] && jars[0] in host.existing {
        var error := CreateZeppelinDir(p, host);
        RegistrationShape(p, host);
        assert error.None?;
      }
    }

    /**
     * The part of `start` after the daemon launch: the PID file lookup, the
     * echoes, the settle interval and the reconciliation.
     */
    method AwaitAndReconcile(p: Params, sp: StatusParams, host: Host) returns (error: Option<PyError>)
      modifies this
      ensures log == old(log) + AfterLaunch(p, sp, host).actions
      ensures error == AfterLaunch(p, sp, host).error
      ensures interpreterSettings
                == if error.None? then Reconciled(old(interpreterSettings), p.topology)
                   else old(interpreterSettings)
    {
      var pattern := PidPattern(sp.pidDir, p.zeppelinUser);
      var lookup := FirstMatch(pattern, host.Glob(pattern));
      if lookup.Err? {
        return Some(lookup.error);
      }
      var pidFile := lookup.value;
      log := log + [EchoPidFile(p, pidFile)];
      var read := ReadFile(host.files, pidFile);
      if read.Err? {
        return Some(read.error);
      }
      var contents := read.value;
      log := log + [EchoPid(p, contents)];
      log := log + [Sleep(SettleSeconds)];
      UpdateZeppelinInterpreter(p);
      error := None;
    }

    method Status(sp: StatusParams, host: Host) returns (pidFile: string)
      modifies this`log
      ensures pidFile == StatusPidFile(sp, host)
      ensures log == old(log) + StatusTrace(sp, host)
    {
      var pattern := PidPattern(sp.pidDir, sp.user);
      var lookup := FirstMatch(pattern, host.Glob(pattern));
      if lookup.Err? {
        pidFile := "";
      } else {
        pidFile := lookup.value;
      }
      log := log + [CheckProcessStatus(pidFile)];
    }

    method UpdateZeppelinInterpreter(p: Params)
      modifies this
      ensures interpreterSettings == Reconciled(old(interpreterSettings), p.topology)
      ensures log == old(log) + [RewriteInterpreterSettings(InterpreterJson(p))]
    {
      var updated := ReconcileSettings(interpreterSettings, p.topology);
      interpreterSettings := updated;
      log := log + [RewriteInterpreterSettings(InterpreterJson(p))];
    }
  }

  /** Appending five segments one after another appends their concatenation. */
  lemma AppendedInOrder(log: seq<Action>, a: seq<Action>, b: seq<Action>, c: seq<Action>,
                        d: seq<Action>, e: seq<Action>)
    ensures log + a + b + c + d + e == log + (a + b + c + d + e)
  {
  }
}
