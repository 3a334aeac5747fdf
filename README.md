# Zeppelin master lifecycle and interpreter reconciliation

This project models the Ambari service script that manages a Zeppelin
server on one host (`master.py`, class `Master`). It covers two parts:

- **Lifecycle operations.** These are `install`, `create_linux_user`,
  `create_zeppelin_dir`, `create_zeppelin_log_dir`, `configure`, `stop`,
  `start` and `status`. Each is a fixed sequence of requests to the Ambari
  platform: shell commands, directories, rendered files, HDFS resources and
  a sleep. Some steps depend on answers from the operating system. In
  `lifecycle.dfy` each operation is a function that returns its trace of
  Actions. A `Run` also carries the exception that can end an operation early:
  IndexError from an empty glob in `start` or `create_zeppelin_dir`, or
  IOError from reading a missing PID file in `start`. The OS answers come in as a `Host` value:
  the existing users and groups, glob matches in glob's order, path
  existence, and file text. Lemmas prove the ordering promises. In
  `master.dfy`, class `Master` runs the same steps one by one and appends
  each to its `log`. Each method's postcondition ties the new log to the
  trace function.
- **Interpreter-settings reconciliation.** This is
  `update_zeppelin_interpreter`. The parsed `interpreterSettings` object
  is a map from setting id to a `Setting` (a group and a string property
  map). A `hive` entry gets `hive.hiveserver2.url` set to
  `jdbc:hive2://<host>:<port>` when the HiveServer2 host is known. A
  `phoenix` entry gets `phoenix.jdbc.url` set to
  `jdbc:phoenix:<quorum>:<znode parent>` when both values are known.
  Nothing else changes. `ReconcileSettings` is the loop and is proved
  equal to the specification `Reconciled`. The lemmas state the frame
  properties and idempotence. `Master.Start` applies the reconciliation to
  the settings the object holds, and only when the start succeeds.

`paths.dfy` models the Python library calls the script relies on:
`os.path.join`, `os.path.basename`, `glob.glob(p)[0]` (IndexError when
nothing matches), and the IndexError-caught lookup used by `status`.

In a few places the script behaves in ways that are easy to misread:

- `status` does not report "not running" by itself. It passes the first
  PID-file match, or the empty string, to `check_process_status`.
- `start` registers the jar with HDFS only when the glob matches and the
  first match also exists on disk.
- Both glob lookups take the first match, even when there are several.
- The jar lookup inside `create_zeppelin_dir` cannot raise when `start`
  calls it, because the guard has already seen a match. So `StartRun` has
  no error branch for the registration; `RegistrationShape` proves that
  branch unreachable.

## Model

| member | source | states |
|---|---|---|
| Paths.JoinAppends | ambari-server/src/main/resources/common-services/ZEPPELIN/0.6.0.2.5/package/scripts/master.py:40 | `os.path.join`: an absolute second part replaces the first. Otherwise the result ends with the second part, preceded by the first part, with a '/' inserted exactly when the first part is non-empty and does not already end in '/'. |
| Paths.BasenameIsLastComponent | ambari-server/src/main/resources/common-services/ZEPPELIN/0.6.0.2.5/package/scripts/master.py:103 | `os.path.basename`: the result has no '/', is a suffix of the path, and is preceded by a '/' unless it is the whole path. |
| Paths.BasenameAfterSeparator | ambari-server/src/main/resources/common-services/ZEPPELIN/0.6.0.2.5/package/scripts/master.py:103-105 | A name without '/' that follows an empty prefix or one ending in '/' is its own basename. |
| Paths.CaughtLookupIsFirstOrEmpty | ambari-server/src/main/resources/common-services/ZEPPELIN/0.6.0.2.5/package/scripts/master.py:188-192 | Catching FirstMatch's IndexError and using "" gives exactly FirstMatchOrEmpty, which is a match or "" with no match. |
| Interpreter.OwedTargets | ambari-server/src/main/resources/common-services/ZEPPELIN/0.6.0.2.5/package/scripts/master.py:207-215 | An entry is owed the hive URL key exactly when its group is hive and the host is known. It is owed the phoenix URL key exactly when its group is phoenix and both quorum and znode are known. No other key is owed, and never both. |
| Interpreter.Reconciled | ambari-server/src/main/resources/common-services/ZEPPELIN/0.6.0.2.5/package/scripts/master.py:205-215 | Reconciliation keeps the set of setting ids and every entry's group. |
| Interpreter.ReconcileSettings | ambari-server/src/main/resources/common-services/ZEPPELIN/0.6.0.2.5/package/scripts/master.py:205-215 | The loop over the setting ids, patching each entry in place, produces exactly `Reconciled`. |
| Interpreter.ReconcileSetsHiveUrl | ambari-server/src/main/resources/common-services/ZEPPELIN/0.6.0.2.5/package/scripts/master.py:207-210 | A hive entry, with the host known, gets `hive.hiveserver2.url = "jdbc:hive2://" + host + ":" + port`. The key is added if absent and the other properties stay the same. |
| Interpreter.ReconcileSetsPhoenixUrl | ambari-server/src/main/resources/common-services/ZEPPELIN/0.6.0.2.5/package/scripts/master.py:211-215 | A phoenix entry, with quorum and znode known, gets `phoenix.jdbc.url = "jdbc:phoenix:" + quorum + ":" + znode`. The other properties stay the same. |
| Interpreter.ReconcileKeepsOtherProperties | ambari-server/src/main/resources/common-services/ZEPPELIN/0.6.0.2.5/package/scripts/master.py:205-215 | Every property that is not the entry's targeted key keeps its value. |
| Interpreter.ReconcileAddsAtMostTheTarget | ambari-server/src/main/resources/common-services/ZEPPELIN/0.6.0.2.5/package/scripts/master.py:205-215 | No property is dropped. At most one key is added, and it is one of the two URL keys. |
| Interpreter.ReconcileLeavesUntargetedEntries | ambari-server/src/main/resources/common-services/ZEPPELIN/0.6.0.2.5/package/scripts/master.py:205-215 | An entry of another group is unchanged. So is a hive or phoenix entry whose topology values are missing. |
| Interpreter.ReconcileIdempotent | ambari-server/src/main/resources/common-services/ZEPPELIN/0.6.0.2.5/package/scripts/master.py:207-215 | Reconciling twice with the same topology gives the same document as reconciling once. |
| Interpreter.ReconcileHiveExample | ambari-server/src/main/resources/common-services/ZEPPELIN/0.6.0.2.5/package/scripts/master.py:207-210 | A two-entry example: with HiveServer2 at h1:10000, hive entry "1" gets `jdbc:hive2://h1:10000` and entry "2" of another group is unchanged. |
| Interpreter.HiveUrlDeterminesEndpoint | ambari-server/src/main/resources/common-services/ZEPPELIN/0.6.0.2.5/package/scripts/master.py:208-210 | The HiveServer2 URL determines host and port uniquely when hosts contain no ':'. |
| Interpreter.PhoenixUrlDeterminesEndpoint | ambari-server/src/main/resources/common-services/ZEPPELIN/0.6.0.2.5/package/scripts/master.py:213-215 | The Phoenix URL determines quorum and znode parent uniquely when quorums contain no ':'. |
| Lifecycle.CreateLinuxUserConditional | ambari-server/src/main/resources/common-services/ZEPPELIN/0.6.0.2.5/package/scripts/master.py:69-77 | `adduser` is emitted exactly when the user lookup fails, and `groupadd` exactly when the group lookup fails. Each is emitted at most once, the user first, and nothing else is emitted. |
| Lifecycle.LogDirComesFirst | ambari-server/src/main/resources/common-services/ZEPPELIN/0.6.0.2.5/package/scripts/master.py:117-159 | `configure` and `stop` both start by ensuring the log directory (mode 0755). `stop` then runs the daemon's stop script and nothing else. |
| Lifecycle.InstallOrder | ambari-server/src/main/resources/common-services/ZEPPELIN/0.6.0.2.5/package/scripts/master.py:35-67 | In `install`, configure's actions form one block right before the final `setup_snapshot.sh` run. The chown and the PID and service directories come before that block. |
| Lifecycle.SetupScriptMadeExecutable | ambari-server/src/main/resources/common-services/ZEPPELIN/0.6.0.2.5/package/scripts/master.py:40-66 | For a non-empty package directory without a trailing '/', the path `install` gives to `chmod a+x` (built with `os.path.join`) is exactly the script its last command runs (built with `format`). |
| Lifecycle.CreateZeppelinDirFailsIffNoJar | ambari-server/src/main/resources/common-services/ZEPPELIN/0.6.0.2.5/package/scripts/master.py:79-115 | `create_zeppelin_dir` always begins with three HDFS directories. It raises IndexError exactly when the jar glob has no match, right after them. Otherwise it adds the jar upload and ends with the HDFS commit. It requests only HDFS resources. |
| Lifecycle.UploadedJarKeepsName | ambari-server/src/main/resources/common-services/ZEPPELIN/0.6.0.2.5/package/scripts/master.py:102-113 | With a jar match, the jar is uploaded from the first match to the Spark jar directory, mode 0444, under its own file name. |
| Lifecycle.RegistrationShape | ambari-server/src/main/resources/common-services/ZEPPELIN/0.6.0.2.5/package/scripts/master.py:166-169 | The guarded `create_zeppelin_dir` call of `start` cannot raise. It adds its five HDFS actions exactly when a jar matches and the first match exists, and nothing otherwise. |
| Lifecycle.ConfigureKinds | ambari-server/src/main/resources/common-services/ZEPPELIN/0.6.0.2.5/package/scripts/master.py:127-153 | `configure` requests five things in this order: the log directory, the site configuration, then three files. Nothing of HDFS. |
| Lifecycle.StartShape | ambari-server/src/main/resources/common-services/ZEPPELIN/0.6.0.2.5/package/scripts/master.py:161-182 | The three ways `start` ends: IndexError right after the daemon launch when no PID file matches, IOError right after echoing the first match when it cannot be read, or success with the echoes, the sleep and the reconciliation. |
| Lifecycle.LaunchedShape | ambari-server/src/main/resources/common-services/ZEPPELIN/0.6.0.2.5/package/scripts/master.py:164-172 | Up to the launch, `start` runs configure's actions, then the HDFS registration (present exactly when the jar is, and the only HDFS actions), then the daemon start. Nothing before the launch sleeps or reconciles. |
| Lifecycle.StartConfiguresThenLaunches | ambari-server/src/main/resources/common-services/ZEPPELIN/0.6.0.2.5/package/scripts/master.py:164-176 | `start` fails with IndexError exactly when no PID file matches, and with IOError exactly when the first match cannot be read. Its trace starts with configure's actions, then the HDFS registration, then the daemon start. |
| Lifecycle.StartReconcilesLast | ambari-server/src/main/resources/common-services/ZEPPELIN/0.6.0.2.5/package/scripts/master.py:171-182 | A successful `start` ends with the daemon start, the echo of the first PID file and of its contents, the 20-second sleep, and the interpreter reconciliation. The reconciliation happens once and last. A failed `start` ends at the daemon start (no PID file) or at the echo of the PID file path (unreadable), and never sleeps or reconciles. |
| Lifecycle.StatusChecksFirstPidFile | ambari-server/src/main/resources/common-services/ZEPPELIN/0.6.0.2.5/package/scripts/master.py:184-193 | `status` checks the first PID-file match, or "" when there is none. It never fails for lack of a match. |
| ZeppelinMaster.Master.Install | ambari-server/src/main/resources/common-services/ZEPPELIN/0.6.0.2.5/package/scripts/master.py:35-67 | The log grows by exactly `install`'s trace. |
| ZeppelinMaster.Master.CreateLinuxUser | ambari-server/src/main/resources/common-services/ZEPPELIN/0.6.0.2.5/package/scripts/master.py:69-77 | The log grows by exactly `create_linux_user`'s trace. |
| ZeppelinMaster.Master.CreateZeppelinDir | ambari-server/src/main/resources/common-services/ZEPPELIN/0.6.0.2.5/package/scripts/master.py:79-115 | The log grows by `create_zeppelin_dir`'s actions, and the method returns its IndexError, if any. |
| ZeppelinMaster.Master.CreateZeppelinLogDir | ambari-server/src/main/resources/common-services/ZEPPELIN/0.6.0.2.5/package/scripts/master.py:117-125 | The log grows by the log-directory request. |
| ZeppelinMaster.Master.Configure | ambari-server/src/main/resources/common-services/ZEPPELIN/0.6.0.2.5/package/scripts/master.py:127-153 | The log grows by exactly `configure`'s trace. |
| ZeppelinMaster.Master.Stop | ambari-server/src/main/resources/common-services/ZEPPELIN/0.6.0.2.5/package/scripts/master.py:155-159 | The log grows by exactly `stop`'s trace. |
| ZeppelinMaster.Master.Start | ambari-server/src/main/resources/common-services/ZEPPELIN/0.6.0.2.5/package/scripts/master.py:161-182 | The log grows by `start`'s trace and the method returns its error. The interpreter settings are reconciled when the start succeeds and left alone when it fails. |
| ZeppelinMaster.Master.RegisterJar | ambari-server/src/main/resources/common-services/ZEPPELIN/0.6.0.2.5/package/scripts/master.py:166-169 | The log grows by the HDFS registration, which happens exactly when the jar is present. |
| ZeppelinMaster.Master.AwaitAndReconcile | ambari-server/src/main/resources/common-services/ZEPPELIN/0.6.0.2.5/package/scripts/master.py:173-182 | The log grows by the part of `start` after the launch, the error of the PID-file lookup or read is returned, and the settings are reconciled only on success. |
| ZeppelinMaster.Master.Status | ambari-server/src/main/resources/common-services/ZEPPELIN/0.6.0.2.5/package/scripts/master.py:184-193 | Returns the PID file that `status` checks and logs that check. |
| ZeppelinMaster.Master.UpdateZeppelinInterpreter | ambari-server/src/main/resources/common-services/ZEPPELIN/0.6.0.2.5/package/scripts/master.py:195-219 | The held settings become `Reconciled` of the old settings under the topology, and the rewrite of `interpreter.json` is logged. |

## Left out

- Effects of the actions are not modelled. Shell commands (`chmod`, `chown`, `adduser`, `groupadd`, the daemon and setup scripts) and the Ambari resources (`Directory`, `File`, `XmlConfig`, `InlineTemplate`, `HdfsResource`, `install_packages`) are recorded as opaque Actions. Their failures, such as a non-zero exit or a permission error, are outside the model. Only the IndexError raised by indexing an empty glob result and the IOError of reading a missing PID file are modelled.
- The `Host` answers are one fixed snapshot. For example, the model does not capture that `adduser` makes a later user lookup succeed. The PID-file glob is read as it stands after the launch.
- JSON parsing and `json.dumps(indent=2)` output, and opening, reading and writing `interpreter.json`, are not modelled. So are a missing or malformed file, missing `interpreterSettings`, `group` or `properties` keys (KeyError), the entries' other JSON fields, and key order. The model works on the parsed map.
- Interpreter.ReconcileSettings writes each patched entry back into the map, while Python mutates each entry's `properties` dict in place. Nothing else refers to those dicts, so the resulting document is the same.
- Interpreter.ReconcileSettings visits the setting ids in an arbitrary order, while Python follows dictionary order. Each entry is patched independently, so the result is the same.
- Reading the PID file (`open(pidfile).read()`) looks the path up in `Host.files`. Only a missing file raises IOError; permission errors and partial reads are not distinguished.
- `time.sleep(20)` is only a `Sleep(20)` action in the trace.
- What `check_process_status` decides, and the exception it raises for a stopped daemon, are not modelled. They belong to the platform.
- `import params` / `status_params` and `env.set_params` are replaced by immutable `Params` and `StatusParams` values. A parameter Python treats as false (None or "") is the empty string.
- Template rendering is not modelled: the content of the site configuration, `zeppelin-env.sh`, `shiro.ini` and `log4j.properties`. Calling `configure` twice requests the same renders, and each render is a full overwrite on the platform's side.
- The `format` calls are expanded by hand into string concatenations of the same parameters.
