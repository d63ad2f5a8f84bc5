/**
 * Mentions: named, coloured highlights. The converters touch only the
 * system dates.
 */
module Mention {
  import opened Values
  import UseDefaults
  import Converters

  predicate IsHexDigit(c: char) {
    '0' <= c <= '9' || 'a' <= c <= 'f' || 'A' <= c <= 'F'
  }

  /** The `#RRGGBB` colour shape: a '#' and six hex digits. */
  predicate IsHexColor(s: string) {
    |s| == 7 && s[0] == '#' && forall i :: 1 <= i < 7 ==> IsHexDigit(s[i])
  }

  const DEFAULT_COLOR: string := "#6b6bff"

  /** getMentionDefaults: the first key, a placeholder name, the default blue and no description. */
  function MentionDefaults(): (d: Record)
    ensures d.Keys == {"key", "name", "color", "description"}
    ensures forall k :: k in d ==> !UseDefaults.IsRequired(d[k])
    ensures d["key"] == Str("1") && d["name"] == Str("New Item") && d["description"] == Str("")
    ensures d["color"] == Str(DEFAULT_COLOR) && IsHexColor(d["color"].s)
  {
    map["key" := Str("1"), "name" := Str("New Item"), "color" := Str(DEFAULT_COLOR), "description" := Str("")]
  }

  const MENTION_SNAPSHOT_DATE_FIELDS: seq<string> := []
  const MENTION_SERIALIZED_DATE_FIELDS: seq<string> := ["createdAt", "updatedAt"]

  /** mentionFromSnapshot: no data field is rewritten; only the system fields come from the metadata. */
  function MentionFromSnapshot(snap: Converters.Snapshot, now: int): (r: Result<Record>)
    ensures r.Err? <==> snap.data.None?
    ensures r.Err? ==> r == Err(SnapshotDataUndefined)
    ensures r.Ok? ==> Converters.SnapshotConverts(snap, MENTION_SNAPSHOT_DATE_FIELDS, now, r.value)
    ensures r.Ok? ==> forall k :: k in snap.data.value && k !in SystemFields ==> r.value[k] == snap.data.value[k]
  {
    Converters.SnapshotWithoutDefaultsThrows(snap, MENTION_SNAPSHOT_DATE_FIELDS, now);
    Converters.SnapshotWithoutDefaultsConverts(snap, MENTION_SNAPSHOT_DATE_FIELDS, now);
    Converters.SnapshotEntity(snap, Converters.SnapshotConfig(MENTION_SNAPSHOT_DATE_FIELDS, map[]), now)
  }

  /** mentionFromSerialized: only the two system dates are parsed. */
  function MentionFromSerialized(serialized: Record, parse: string -> Option<int>): (r: Record)
    ensures Converters.SerializedConverts(serialized, MENTION_SERIALIZED_DATE_FIELDS, parse, r)
  {
    Converters.SerializedShape(serialized, MENTION_SERIALIZED_DATE_FIELDS, parse);
    Converters.SerializedEntity(serialized, MENTION_SERIALIZED_DATE_FIELDS, parse)
  }
}
