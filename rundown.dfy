/**
 * Rundowns: the bit-flag permission words carried by rundown access tokens,
 * the defaults of a new rundown, and the two converters with their date
 * fields.
 */
module Rundown {
  import opened Values
  import Converters
  import Salt

  /** A permission word; JS bitwise operators work on 32-bit integers. */
  type Permissions = bv32

  // RundownPermission: the primitive flags, one bit each.
  const VIEW: Permissions := 1
  const EDIT: Permissions := 2
  const SHOWCALL: Permissions := 4
  const MANAGE: Permissions := 8
  /** The bit kept free for a future common permission. */
  const RESERVED: Permissions := 16
  const EDIT_PARTIAL: Permissions := 32

  // RundownPermissionSet: the precomposed role sets.
  const VIEWER: Permissions := 1
  const EDITOR: Permissions := 1 | 2
  const SHOW_CALLER: Permissions := 1 | 2 | 4
  const ADMIN: Permissions := 1 | 2 | 4 | 8
  const PARTIAL_EDITOR: Permissions := 1 | 32

  const PRIMITIVES: seq<Permissions> := [VIEW, EDIT, SHOWCALL, MANAGE, EDIT_PARTIAL]
  const ROLE_SETS: seq<Permissions> := [VIEWER, EDITOR, SHOW_CALLER, ADMIN, PARTIAL_EDITOR]

  /** The access check `(permissions & flag) !== 0`. */
  predicate Grants(permissions: Permissions, flag: Permissions) {
    permissions & flag != 0
  }

  /** Every bit of `b` is set in `a`. */
  predicate Includes(a: Permissions, b: Permissions) {
    a & b == b
  }

  /** `p` has exactly one bit set. */
  predicate SingleBit(p: Permissions) {
    p != 0 && p & (p - 1) == 0
  }

  /** The primitives are distinct powers of two, and none of them uses the reserved bit. */
  lemma PrimitivesAreSingleBits()
    ensures forall i :: 0 <= i < |PRIMITIVES| ==> SingleBit(PRIMITIVES[i]) && !Grants(PRIMITIVES[i], RESERVED)
    ensures forall i, j :: 0 <= i < j < |PRIMITIVES| ==> PRIMITIVES[i] & PRIMITIVES[j] == 0
  {
  }

  /** Each role set is the union of its primitives. */
  lemma RoleSetsAreUnions()
    ensures VIEWER == VIEW
    ensures EDITOR == VIEW | EDIT
    ensures SHOW_CALLER == VIEW | EDIT | SHOWCALL
    ensures ADMIN == VIEW | EDIT | SHOWCALL | MANAGE
    ensures PARTIAL_EDITOR == VIEW | EDIT_PARTIAL
  {
  }

  /**
   * The roles nest, VIEWER within EDITOR within SHOW_CALLER within ADMIN;
   * every role views; no role uses the reserved bit; the partial editor
   * fails the EDIT check and passes the EDIT_PARTIAL one, while no other
   * role holds EDIT_PARTIAL.
   */
  lemma RoleSetsNest()
    ensures Includes(EDITOR, VIEWER) && Includes(SHOW_CALLER, EDITOR) && Includes(ADMIN, SHOW_CALLER)
    ensures forall i :: 0 <= i < |ROLE_SETS| ==> Grants(ROLE_SETS[i], VIEW) && !Grants(ROLE_SETS[i], RESERVED)
    ensures !Grants(PARTIAL_EDITOR, EDIT) && Grants(PARTIAL_EDITOR, EDIT_PARTIAL)
    ensures forall i :: 0 <= i < 4 ==> !Grants(ROLE_SETS[i], EDIT_PARTIAL)
  {
  }

  /** A word that includes another passes every check the other passes. */
  lemma GrantsMonotone(a: Permissions, b: Permissions, flag: Permissions)
    requires Includes(a, b) && Grants(b, flag)
    ensures Grants(a, flag)
  {
  }

  // RundownStatus
  const IMPORTED: string := "imported"
  const DRAFT: string := "draft"
  const AWAITING_DATA: string := "awaiting-data"
  const APPROVED: string := "approved"
  const FINALIZED: string := "finalized"
  const REJECTED: string := "rejected"

  /**
   * The object getRundownDefaults returns, given its salt. `startTime` is
   * the instant that parsing "09:00:00" against today gives;
   * `cueBackgroundColors` is the palette constant of the shared constants
   * package.
   */
  function RundownDefaultsWith(salt: string, startTime: int, cueBackgroundColors: Value): (r: Record) {
    map[
      "name" := Str(""),
      "teamId" := Null,
      "eventId" := Null,
      "runnerId" := Null,
      "prompterId" := Null,
      "columns" := Arr([]),
      "cues" := Arr([]),
      "startTime" := Date(startTime),
      "endTime" := Null,
      "startCueId" := Null,
      "salt" := Str(salt),
      "status" := Str(DRAFT),
      "timezone" := Null,
      "logo" := Str(""),
      "settings" := Obj(map["outputConfig" := Str(""), "cueBackgroundColours" := cueBackgroundColors,
                            "currentCueHighlightColor" := Str(""), "todDisplayFormat" := Null]),
      "textVariables" := Obj(map[]),
      "deletedAt" := Null,
      "archivedAt" := Null
    ]
  }

  /**
   * getRundownDefaults: the defaults object around a fresh salt of 16
   * alphanumeric characters drawn from `random`.
   */
  method RundownDefaults(random: nat -> real, startTime: int, cueBackgroundColors: Value) returns (d: Record)
    requires Salt.ValidDraws(random)
    ensures "salt" in d && d["salt"].Str? && |d["salt"].s| == 16
    ensures forall i :: 0 <= i < |d["salt"].s| ==> Salt.IsAlphanumeric(d["salt"].s[i])
    ensures forall i :: 0 <= i < |d["salt"].s| ==> d["salt"].s[i] == Salt.ALPHANUMERIC_CHARS[Salt.DrawIndex(random(i))]
    ensures d == RundownDefaultsWith(d["salt"].s, startTime, cueBackgroundColors)
  {
    var salt := Salt.GenerateSalt(random, 16);
    d := RundownDefaultsWith(salt, startTime, cueBackgroundColors);
  }

  /** A new rundown is a draft with the given salt and start time, and an empty name and logo. */
  lemma RundownDefaultValues(salt: string, startTime: int, cueBackgroundColors: Value)
    ensures var d := RundownDefaultsWith(salt, startTime, cueBackgroundColors);
      && d["status"] == Str(DRAFT)
      && d["salt"] == Str(salt)
      && d["startTime"] == Date(startTime)
      && d["name"] == Str("") && d["logo"] == Str("")
  {
  }

  /** A new rundown has no columns, cues or text variables, and the default settings. */
  lemma RundownDefaultCollections(salt: string, startTime: int, cueBackgroundColors: Value)
    ensures var d := RundownDefaultsWith(salt, startTime, cueBackgroundColors);
      && d["columns"] == Arr([]) && d["cues"] == Arr([]) && d["textVariables"] == Obj(map[])
      && d["settings"] == Obj(map["outputConfig" := Str(""), "cueBackgroundColours" := cueBackgroundColors,
                                  "currentCueHighlightColor" := Str(""), "todDisplayFormat" := Null])
  {
  }

  /** A new rundown belongs to no team, event, runner or prompter, and has no start cue. */
  lemma RundownNullIds(salt: string, startTime: int, cueBackgroundColors: Value)
    ensures var d := RundownDefaultsWith(salt, startTime, cueBackgroundColors);
      && d["teamId"] == Null && d["eventId"] == Null && d["runnerId"] == Null
      && d["prompterId"] == Null && d["startCueId"] == Null
  {
  }

  /** A new rundown has no end time, timezone, deletion or archive date. */
  lemma RundownNullDates(salt: string, startTime: int, cueBackgroundColors: Value)
    ensures var d := RundownDefaultsWith(salt, startTime, cueBackgroundColors);
      && d["endTime"] == Null && d["timezone"] == Null && d["deletedAt"] == Null && d["archivedAt"] == Null
  {
  }

  /** The defaults hold exactly the rundown's non-system keys. */
  lemma RundownDefaultKeys(salt: string, startTime: int, cueBackgroundColors: Value)
    ensures RundownDefaultsWith(salt, startTime, cueBackgroundColors).Keys ==
      {"name", "teamId", "eventId", "runnerId", "prompterId", "columns", "cues", "startTime", "endTime",
       "startCueId", "salt", "status", "timezone", "logo", "settings", "textVariables", "deletedAt", "archivedAt"}
  {
  }

  const RUNDOWN_SNAPSHOT_DATE_FIELDS: seq<string> := ["startTime", "endTime", "deletedAt", "archivedAt"]
  const RUNDOWN_SERIALIZED_DATE_FIELDS: seq<string> :=
    ["startTime", "endTime", "deletedAt", "archivedAt", "createdAt", "updatedAt"]

  /**
   * rundownFromSnapshot: fromSnapshot over the four rundown dates, with no
   * defaults.
   */
  function RundownFromSnapshot(snap: Converters.Snapshot, now: int): (r: Result<Record>)
    ensures r.Err? <==> Converters.SnapshotThrows(snap, RUNDOWN_SNAPSHOT_DATE_FIELDS)
    ensures r.Ok? ==> Converters.SnapshotConverts(snap, RUNDOWN_SNAPSHOT_DATE_FIELDS, now, r.value)
  {
    Converters.SnapshotWithoutDefaultsThrows(snap, RUNDOWN_SNAPSHOT_DATE_FIELDS, now);
    Converters.SnapshotWithoutDefaultsConverts(snap, RUNDOWN_SNAPSHOT_DATE_FIELDS, now);
    Converters.SnapshotEntity(snap, Converters.SnapshotConfig(RUNDOWN_SNAPSHOT_DATE_FIELDS, map[]), now)
  }

  /**
   * rundownFromSerialized: fromSerialized over the four rundown dates and
   * the two system dates.
   */
  function RundownFromSerialized(serialized: Record, parse: string -> Option<int>): (r: Record)
    ensures Converters.SerializedConverts(serialized, RUNDOWN_SERIALIZED_DATE_FIELDS, parse, r)
  {
    Converters.SerializedShape(serialized, RUNDOWN_SERIALIZED_DATE_FIELDS, parse);
    Converters.SerializedEntity(serialized, RUNDOWN_SERIALIZED_DATE_FIELDS, parse)
  }

  /**
   * A rundown whose six dates are each a date or null (startTime a date)
   * and that holds no other date survives serialisation to ISO strings and
   * rundownFromSerialized, when the parser reads back what the formatter
   * writes.
   */
  lemma RundownWireRoundTrip(rundown: Record, parse: string -> Option<int>, format: int -> string)
    requires forall ms :: parse(format(ms)) == Some(ms)
    requires forall f :: f in RUNDOWN_SERIALIZED_DATE_FIELDS ==> f in rundown && (rundown[f].Date? || rundown[f].Null?)
    requires forall k :: k in rundown && rundown[k].Date? ==> k in RUNDOWN_SERIALIZED_DATE_FIELDS
    ensures RundownFromSerialized(Converters.ToWire(rundown, format), parse) == rundown
  {
    Converters.WireRoundTrip(rundown, RUNDOWN_SERIALIZED_DATE_FIELDS, parse, format);
  }
}
