/** The configuration records of internal/config/config.go that the process layer consults. */
module Configs {
  import opened Basics

  /** One stream's logging settings. */
  datatype StreamLog = StreamLog(
    logfile: string, maxbytes: string, backups: int, captureMaxbytes: string, syslog: bool)

  /** The settings that decide how a child is spawned, apart from its name and number of copies. */
  datatype SpawnSettings = SpawnSettings(
    command: string, user: string, directory: string, umask: string,
    environment: Option<map<string, string>>, cleanEnvironment: bool, inheritEnvironment: bool,
    stdout: StreamLog, stderr: StreamLog, redirectStderr: bool, stripAnsi: bool)

  /** The autorestart policy: "true", "false" or "unexpected". */
  datatype Autorestart = Always | Never | Unexpected

  /** The settings the supervisor only consults while managing a process (spawnSettings clears them). */
  datatype Supervision = Supervision(
    priority: int, autostart: Option<bool>, autorestart: Autorestart,
    startsecs: nat, startretries: nat, exitcodes: seq<int>,
    stopsignal: string, stopwaitsecs: int, stopasgroup: bool, killasgroup: bool,
    description: string)

  datatype ProgramConfig = ProgramConfig(
    processName: string, numprocs: int, numprocsStart: int,
    spawn: SpawnSettings, sup: Supervision)

  datatype GroupConfig = GroupConfig(programs: seq<string>, priority: int)
}
