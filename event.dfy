/**
 * Events: a group of rundowns. A new event gets a fresh 16-character salt;
 * the converters rewrite the deletion and archive dates.
 */
module Event {
  import opened Values
  import UseDefaults
  import Converters
  import Salt

  /** getEventDefaults; `random` is the source of the salt. */
  method EventDefaults(random: nat -> real) returns (d: Record)
    requires Salt.ValidDraws(random)
    ensures d.Keys == {"name", "teamId", "deletedAt", "archivedAt", "logo", "salt"}
    ensures forall k :: k in d ==> !UseDefaults.IsRequired(d[k])
    ensures d["name"] == Str("") && d["logo"] == Str("")
    ensures d["teamId"] == Null && d["deletedAt"] == Null && d["archivedAt"] == Null
    ensures d["salt"].Str? && |d["salt"].s| == 16
    ensures forall i :: 0 <= i < |d["salt"].s| ==> Salt.IsAlphanumeric(d["salt"].s[i])
    ensures forall i :: 0 <= i < |d["salt"].s| ==> d["salt"].s[i] == Salt.ALPHANUMERIC_CHARS[Salt.DrawIndex(random(i))]
  {
    var salt := Salt.GenerateSalt(random, 16);
    d := map[
      "name" := Str(""),
      "teamId" := Null,
      "deletedAt" := Null,
      "archivedAt" := Null,
      "logo" := Str(""),
      "salt" := Str(salt)
    ];
  }

  const EVENT_SNAPSHOT_DATE_FIELDS: seq<string> := ["deletedAt", "archivedAt"]
  const EVENT_SERIALIZED_DATE_FIELDS: seq<string> := ["deletedAt", "archivedAt", "createdAt", "updatedAt"]

  /** eventFromSnapshot: fromSnapshot over the deletion and archive dates only, with no defaults. */
  function EventFromSnapshot(snap: Converters.Snapshot, now: int): (r: Result<Record>)
    ensures r.Err? <==> Converters.SnapshotThrows(snap, EVENT_SNAPSHOT_DATE_FIELDS)
    ensures r.Ok? ==> Converters.SnapshotConverts(snap, EVENT_SNAPSHOT_DATE_FIELDS, now, r.value)
  {
    Converters.SnapshotWithoutDefaultsThrows(snap, EVENT_SNAPSHOT_DATE_FIELDS, now);
    Converters.SnapshotWithoutDefaultsConverts(snap, EVENT_SNAPSHOT_DATE_FIELDS, now);
    Converters.SnapshotEntity(snap, Converters.SnapshotConfig(EVENT_SNAPSHOT_DATE_FIELDS, map[]), now)
  }

  /** eventFromSerialized: the deletion, archive and two system dates are parsed. */
  function EventFromSerialized(serialized: Record, parse: string -> Option<int>): (r: Record)
    ensures Converters.SerializedConverts(serialized, EVENT_SERIALIZED_DATE_FIELDS, parse, r)
  {
    Converters.SerializedShape(serialized, EVENT_SERIALIZED_DATE_FIELDS, parse);
    Converters.SerializedEntity(serialized, EVENT_SERIALIZED_DATE_FIELDS, parse)
  }
}
