/** The workload status of the unit and the log line written with it
    (`zk_status_and_log`). */
module ZkStatus {
  import opened Wrappers

  datatype Level = Active | Blocked | Waiting | Maintenance

  /** A status the unit reports to its operator, with its message. */
  datatype Status = Status(level: Level, msg: string)

  /** One call's observable effect: the status it sets and the line it logs. */
  datatype Effect = Effect(status: Status, logLine: string)

  /** The level string that names `l` in the charm's calls; `"maint"` is the
      spelling the charm itself uses for Maintenance. */
  function LevelName(l: Level): string {
    match l
    case Active => "active"
    case Blocked => "blocked"
    case Waiting => "waiting"
    case Maintenance => "maint"
  }

  /** Every level string the function acts on. */
  const RecognisedLevels: set<string> := {"active", "blocked", "waiting", "maint", "maintenance"}

  /** Sets the unit's status at the named level and logs the same message; an
      unrecognised level does nothing at all. */
  function ZkStatusAndLog(level: string, msg: string): (r: Option<Effect>)
    ensures r.Some? <==> level in RecognisedLevels
    ensures r.Some? ==> r.value.status.msg == msg && r.value.logLine == msg
    ensures r.Some? ==> LevelName(r.value.status.level) == level || level == "maintenance"
    ensures level == "maint" || level == "maintenance" ==> r == Some(Effect(Status(Maintenance, msg), msg))
  {
    var l :=
      if level == "active" then Some(Active)
      else if level == "blocked" then Some(Blocked)
      else if level == "waiting" then Some(Waiting)
      else if level == "maint" || level == "maintenance" then Some(Maintenance)
      else None;
    match l
    case None => None
    case Some(lv) => Some(Effect(Status(lv, msg), msg))
  }

  /** Naming a level and reading the name back gives that level. */
  lemma LevelNameRoundTrip(l: Level, msg: string)
    ensures ZkStatusAndLog(LevelName(l), msg) == Some(Effect(Status(l, msg), msg))
  {
  }
}
