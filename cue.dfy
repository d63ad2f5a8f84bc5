/**
 * Cues: one item of a rundown. The defaults describe an empty flexible cue;
 * the converters rewrite the start time and the deletion date.
 */
module Cue {
  import opened Values
  import UseDefaults
  import Converters

  // CueType
  const CUE: string := "cue"
  const HEADING: string := "heading"
  const GROUP: string := "group"

  // CueStartMode
  const FLEXIBLE: string := "flexible"
  const FIXED: string := "fixed"

  /** The keys of the cue defaults, in the order a for...in loop visits them. */
  const CUE_DEFAULTS_ORDER: seq<string> :=
    ["type", "title", "subtitle", "startTime", "startMode", "startDatePlus", "duration",
     "backgroundColor", "locked", "scheduled", "deletedAt", "settings"]

  /** getCueDefaults */
  function CueDefaults(): (r: Record) {
    map[
      "type" := Str(CUE),
      "title" := Str(""),
      "subtitle" := Str(""),
      "startTime" := Null,
      "startMode" := Str(FLEXIBLE),
      "startDatePlus" := Num(0),
      "duration" := Num(0),
      "backgroundColor" := Str(""),
      "locked" := Bool(false),
      "scheduled" := Bool(false),
      "deletedAt" := Null,
      "settings" := Obj(map["hideOnPdf" := Bool(false), "hideOnCsv" := Bool(false), "preventEdits" := Bool(false)])
    ]
  }

  /** A new cue is a flexible cue with no start time, no deletion date, no duration and no day offset. */
  lemma CueDefaultTiming()
    ensures var d := CueDefaults();
      && d["type"] == Str(CUE) && d["startMode"] == Str(FLEXIBLE)
      && d["startTime"] == Null && d["deletedAt"] == Null
      && d["duration"] == Num(0) && d["startDatePlus"] == Num(0)
  {
  }

  /** A new cue has empty texts and every flag and setting off. */
  lemma CueDefaultFlags()
    ensures var d := CueDefaults();
      && d["title"] == Str("") && d["subtitle"] == Str("") && d["backgroundColor"] == Str("")
      && d["locked"] == Bool(false) && d["scheduled"] == Bool(false)
      && d["settings"] == Obj(map["hideOnPdf" := Bool(false), "hideOnCsv" := Bool(false), "preventEdits" := Bool(false)])
  {
  }

  /** The defaults list their keys in for...in order and mark none of them required. */
  lemma CueDefaultKeys()
    ensures UseDefaults.Enumerates(CUE_DEFAULTS_ORDER, CueDefaults())
    ensures forall k :: k in CueDefaults() ==> !UseDefaults.IsRequired(CueDefaults()[k])
  {
  }

  /** The cue defaults hold no required key, so merging an empty bag with them gives them back. */
  lemma CueDefaultsFromEmpty()
    ensures UseDefaults.Defaulted(map[], CueDefaults(), CUE_DEFAULTS_ORDER) == Ok(CueDefaults())
  {
    CueDefaultKeys();
    UseDefaults.EmptyGetsDefaults(CueDefaults(), CUE_DEFAULTS_ORDER);
  }

  const CUE_SNAPSHOT_DATE_FIELDS: seq<string> := ["startTime", "deletedAt"]
  const CUE_SERIALIZED_DATE_FIELDS: seq<string> := ["startTime", "deletedAt", "createdAt", "updatedAt"]

  /** cueFromSnapshot: fromSnapshot over the start time and the deletion date, with no defaults. */
  function CueFromSnapshot(snap: Converters.Snapshot, now: int): (r: Result<Record>)
    ensures r.Err? <==> Converters.SnapshotThrows(snap, CUE_SNAPSHOT_DATE_FIELDS)
    ensures r.Ok? ==> Converters.SnapshotConverts(snap, CUE_SNAPSHOT_DATE_FIELDS, now, r.value)
  {
    Converters.SnapshotWithoutDefaultsThrows(snap, CUE_SNAPSHOT_DATE_FIELDS, now);
    Converters.SnapshotWithoutDefaultsConverts(snap, CUE_SNAPSHOT_DATE_FIELDS, now);
    Converters.SnapshotEntity(snap, Converters.SnapshotConfig(CUE_SNAPSHOT_DATE_FIELDS, map[]), now)
  }

  /**
   * No defaults are merged in: a stored null start time stays null, an
   * absent one becomes null, and any other field the stored document lacks
   * stays absent.
   */
  lemma CueSnapshotStoredFields(snap: Converters.Snapshot, now: int)
    requires CueFromSnapshot(snap, now).Ok?
    ensures var cue := CueFromSnapshot(snap, now).value;
      var data := snap.data.value;
      && ("startTime" !in data || data["startTime"] == Null ==> "startTime" in cue && cue["startTime"] == Null)
      && (forall k :: k !in data && k !in SystemFields && k !in CUE_SNAPSHOT_DATE_FIELDS ==> k !in cue)
  {
    assert "startTime" in CUE_SNAPSHOT_DATE_FIELDS && "startTime" !in SystemFields;
  }

  /** cueFromSerialized: the start time, the deletion date and the two system dates are parsed. */
  function CueFromSerialized(serialized: Record, parse: string -> Option<int>): (r: Record)
    ensures Converters.SerializedConverts(serialized, CUE_SERIALIZED_DATE_FIELDS, parse, r)
  {
    Converters.SerializedShape(serialized, CUE_SERIALIZED_DATE_FIELDS, parse);
    Converters.SerializedEntity(serialized, CUE_SERIALIZED_DATE_FIELDS, parse)
  }
}
