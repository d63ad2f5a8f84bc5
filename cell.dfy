/**
 * Cells: the content of one cue in one column. A new cell must name its cue
 * and its column; the converters touch only the system dates.
 */
module Cell {
  import opened Values
  import UseDefaults
  import Converters

  /** The keys of the cell defaults, in the order a for...in loop visits them. */
  const CELL_DEFAULTS_ORDER: seq<string> := ["cueId", "columnId", "content"]

  /** getCellDefaults: both ids are required, the content is an empty object. */
  function CellDefaults(): (d: Record)
    ensures UseDefaults.Enumerates(CELL_DEFAULTS_ORDER, d)
    ensures UseDefaults.IsRequired(d["cueId"]) && UseDefaults.IsRequired(d["columnId"])
    ensures d["content"] == Obj(map[])
  {
    map["cueId" := Str(UseDefaults.REQUIRED), "columnId" := Str(UseDefaults.REQUIRED), "content" := Obj(map[])]
  }

  /**
   * Merging a bag with the cell defaults succeeds exactly when both ids are
   * truthy; a missing cue id is reported before a missing column id; on
   * success the ids are copied and a falsy content becomes `{}`.
   */
  lemma CellDefaultsRequireIds(values: Record)
    ensures var r := UseDefaults.Defaulted(values, CellDefaults(), CELL_DEFAULTS_ORDER);
      && (r.Ok? <==> Truthy(Get(values, "cueId")) && Truthy(Get(values, "columnId")))
      && (!Truthy(Get(values, "cueId")) ==> r == Err(RequiredMissing("cueId")))
      && (Truthy(Get(values, "cueId")) && !Truthy(Get(values, "columnId")) ==> r == Err(RequiredMissing("columnId")))
      && (r.Ok? ==> r.value["cueId"] == values["cueId"] && r.value["columnId"] == values["columnId"]
                    && r.value["content"] == (if Truthy(Get(values, "content")) then values["content"] else Obj(map[])))
  {
    var d := CellDefaults();
    if Truthy(Get(values, "cueId")) && Truthy(Get(values, "columnId")) {
      UseDefaults.FailsIffRequiredUnmet(values, d, CELL_DEFAULTS_ORDER);
      UseDefaults.DefaultedValues(values, d, CELL_DEFAULTS_ORDER);
    } else if Truthy(Get(values, "cueId")) {
      UseDefaults.FirstUnmetAt(values, d, CELL_DEFAULTS_ORDER, 1);
    } else {
      UseDefaults.FirstUnmetAt(values, d, CELL_DEFAULTS_ORDER, 0);
    }
  }

  const CELL_SNAPSHOT_DATE_FIELDS: seq<string> := []
  const CELL_SERIALIZED_DATE_FIELDS: seq<string> := ["createdAt", "updatedAt"]

  /**
   * cellFromSnapshot: no data field is rewritten; the ids and the content
   * are copied as stored and only the system fields come from the metadata.
   */
  function CellFromSnapshot(snap: Converters.Snapshot, now: int): (r: Result<Record>)
    ensures r.Err? <==> snap.data.None?
    ensures r.Err? ==> r == Err(SnapshotDataUndefined)
    ensures r.Ok? ==> Converters.SnapshotConverts(snap, CELL_SNAPSHOT_DATE_FIELDS, now, r.value)
    ensures r.Ok? ==> forall k :: k in snap.data.value && k !in SystemFields ==> r.value[k] == snap.data.value[k]
  {
    Converters.SnapshotWithoutDefaultsThrows(snap, CELL_SNAPSHOT_DATE_FIELDS, now);
    Converters.SnapshotWithoutDefaultsConverts(snap, CELL_SNAPSHOT_DATE_FIELDS, now);
    Converters.SnapshotEntity(snap, Converters.SnapshotConfig(CELL_SNAPSHOT_DATE_FIELDS, map[]), now)
  }

  /** cellFromSerialized: only the two system dates are parsed. */
  function CellFromSerialized(serialized: Record, parse: string -> Option<int>): (r: Record)
    ensures Converters.SerializedConverts(serialized, CELL_SERIALIZED_DATE_FIELDS, parse, r)
  {
    Converters.SerializedShape(serialized, CELL_SERIALIZED_DATE_FIELDS, parse);
    Converters.SerializedEntity(serialized, CELL_SERIALIZED_DATE_FIELDS, parse)
  }
}
