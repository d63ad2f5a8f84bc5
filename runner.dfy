/**
 * Runners: the live state of a show. The defaults start a ten-minute
 * countdown at "now" (the parameter `now`, in milliseconds); the converters
 * touch only the top-level system dates, so the ISO date strings nested in
 * `originalCues` and `elapsedCues` stay strings.
 */
module Runner {
  import opened Values
  import UseDefaults
  import Converters

  // RunnerState
  const PRESHOW: string := "PRESHOW"
  const ONAIR: string := "ONAIR"
  const ENDED: string := "ENDED"

  /** Ten minutes in milliseconds. */
  const TEN_MINUTES_MS: int := 10 * 60000

  /** getRunnerDefaults, with `Date.now()` read once as `now`. */
  function RunnerDefaults(now: int): (d: Record)
    ensures d.Keys == {"rundownId", "timesnap", "nextCueId", "originalCues", "elapsedCues", "log"}
    ensures forall k :: k in d ==> !UseDefaults.IsRequired(d[k])
    ensures d["rundownId"] == Str("") && d["nextCueId"] == Null
    ensures d["originalCues"] == Obj(map[]) && d["elapsedCues"] == Obj(map[]) && d["log"] == Arr([])
    ensures d["timesnap"].Obj?
    ensures var t := d["timesnap"].fields;
      && t.Keys == {"cueId", "running", "kickoff", "lastStop", "deadline"}
      && t["cueId"] == Null && t["running"] == Bool(false)
      && t["kickoff"] == Num(now) && t["lastStop"] == Num(now)
      && t["deadline"] == Num(now + 600000)
  {
    map[
      "rundownId" := Str(""),
      "timesnap" := Obj(map[
        "cueId" := Null,
        "running" := Bool(false),
        "kickoff" := Num(now),
        "lastStop" := Num(now),
        "deadline" := Num(now + TEN_MINUTES_MS)
      ]),
      "nextCueId" := Null,
      "originalCues" := Obj(map[]),
      "elapsedCues" := Obj(map[]),
      "log" := Arr([])
    ]
  }

  const RUNNER_SNAPSHOT_DATE_FIELDS: seq<string> := []
  const RUNNER_SERIALIZED_DATE_FIELDS: seq<string> := ["createdAt", "updatedAt"]

  /**
   * runnerFromSnapshot: no data field is rewritten, so everything nested
   * (the ISO start times of the cue records among them) is kept as stored.
   */
  function RunnerFromSnapshot(snap: Converters.Snapshot, now: int): (r: Result<Record>)
    ensures r.Err? <==> snap.data.None?
    ensures r.Err? ==> r == Err(SnapshotDataUndefined)
    ensures r.Ok? ==> Converters.SnapshotConverts(snap, RUNNER_SNAPSHOT_DATE_FIELDS, now, r.value)
    ensures r.Ok? ==> forall k :: k in snap.data.value && k !in SystemFields ==> r.value[k] == snap.data.value[k]
  {
    Converters.SnapshotWithoutDefaultsThrows(snap, RUNNER_SNAPSHOT_DATE_FIELDS, now);
    Converters.SnapshotWithoutDefaultsConverts(snap, RUNNER_SNAPSHOT_DATE_FIELDS, now);
    Converters.SnapshotEntity(snap, Converters.SnapshotConfig(RUNNER_SNAPSHOT_DATE_FIELDS, map[]), now)
  }

  /**
   * runnerFromSerialized: only the top-level system dates are parsed; every
   * other key, the nested cue records with their ISO strings among them, is
   * copied.
   */
  function RunnerFromSerialized(serialized: Record, parse: string -> Option<int>): (r: Record)
    ensures Converters.SerializedConverts(serialized, RUNNER_SERIALIZED_DATE_FIELDS, parse, r)
    ensures forall k :: k in serialized && k != "createdAt" && k != "updatedAt" ==> r[k] == serialized[k]
  {
    Converters.SerializedShape(serialized, RUNNER_SERIALIZED_DATE_FIELDS, parse);
    Converters.SerializedEntity(serialized, RUNNER_SERIALIZED_DATE_FIELDS, parse)
  }
}
