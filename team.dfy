/**
 * Team: defaults, and the two converters that, after the generic
 * conversion, walk the `members` and `pending` maps and rewrite each
 * member's `createdAt` (a timestamp from the store, an ISO string from the
 * wire) into a date.
 */
module Team {
  import opened Values
  import UseDefaults
  import Converters

  /** UserRole */
  const TEAM_ADMIN: string := "team_admin"
  const TEAM_BILLING: string := "team_billing"
  const TEAM_MEMBER: string := "team_member"

  /** The maps of members the converters walk. */
  const MEMBERS: string := "members"
  const PENDING: string := "pending"

  /** teamFromSnapshot converts no top-level date field. */
  const TEAM_SNAPSHOT_DATE_FIELDS: seq<string> := []
  const TEAM_SERIALIZED_DATE_FIELDS: seq<string> := ["createdAt", "updatedAt"]

  /** getTeamDefaults: an unnamed team without members, invitations or API token. */
  function TeamDefaults(): (d: Record)
    ensures forall k :: k in d ==> !UseDefaults.IsRequired(d[k])
    ensures d.Keys == {"name", MEMBERS, PENDING, "apiToken"}
    ensures d["name"] == Str("") && d["apiToken"] == Null
    ensures d[MEMBERS] == Obj(map[]) && d[PENDING] == Obj(map[])
  {
    map["name" := Str(""), MEMBERS := Obj(map[]), PENDING := Obj(map[]), "apiToken" := Null]
  }

  /** getMemberDefaults: a plain team member created "now". */
  function MemberDefaults(now: int): (d: Record)
    ensures d.Keys == {"role", "createdAt"}
    ensures d["role"] == Str(TEAM_MEMBER) && d["createdAt"] == Date(now)
  {
    map["role" := Str(TEAM_MEMBER), "createdAt" := Date(now)]
  }

  /**
   * One entry of `members`/`pending` in teamFromSnapshot. Reading
   * `member.createdAt` throws on a null or undefined member; a value other
   * than a map has no `createdAt`.
   */
  function MemberFromSnapshot(member: Value): (r: Result<Value>) {
    if Nullish(member) then Err(TypeError)
    else if !member.Obj? then Ok(member)
    else
      var c := Get(member.fields, "createdAt");
      if !Converters.HasToDate(c) then Ok(member)
      else if c.Timestamp? then Ok(Obj(member.fields["createdAt" := Date(c.ms)]))
      else Err(TypeError)
  }

  /**
   * One entry of `members`/`pending` in teamFromSerialized: a string
   * `createdAt` becomes `new Date(s)`, with no check for an invalid date.
   */
  function MemberFromSerialized(parse: string -> Option<int>, member: Value): (r: Result<Value>) {
    if Nullish(member) then Err(TypeError)
    else if member.Obj? && Get(member.fields, "createdAt").Str? then
      var s := member.fields["createdAt"].s;
      Ok(Obj(member.fields["createdAt" := match parse(s) case Some(ms) => Date(ms) case None => InvalidDate]))
    else Ok(member)
  }

  /** The rewrite teamFromSerialized gives each entry, as a function value. */
  function SerializedMemberRule(parse: string -> Option<int>): (r: Value -> Result<Value>) {
    m => MemberFromSerialized(parse, m)
  }

  /** The map `m` after the loop rewrote every entry with `convert`, or the error the loop threw. */
  function MembersConverted(m: map<string, Value>, convert: Value -> Result<Value>): (r: Result<map<string, Value>>) {
    if exists uid :: uid in m && convert(m[uid]).Err? then Err(TypeError)
    else Ok(map uid | uid in m :: convert(m[uid]).value)
  }

  /**
   * `for (const uid in map) { ... map[uid] = converted }`: visits every key
   * once, in an order this model leaves open, reassigning entries in place.
   */
  method ConvertMembers(m: map<string, Value>, convert: Value -> Result<Value>) returns (r: Result<map<string, Value>>)
    ensures r == MembersConverted(m, convert)
  {
    var entries := m;
    var unvisited := m.Keys;
    while unvisited != {}
      invariant unvisited <= m.Keys
      invariant entries.Keys == m.Keys
      invariant forall uid :: uid in m && uid !in unvisited ==> convert(m[uid]).Ok? && entries[uid] == convert(m[uid]).value
      invariant forall uid :: uid in unvisited ==> entries[uid] == m[uid]
      decreases unvisited
    {
      var uid :| uid in unvisited;
      var converted := convert(entries[uid]);
      if converted.Err? {
        return Err(TypeError);
      }
      entries := entries[uid := converted.value];
      unvisited := unvisited - {uid};
    }
    assert !exists uid :: uid in m && convert(m[uid]).Err?;
    assert entries == map uid | uid in m :: convert(m[uid]).value;
    return Ok(entries);
  }

  /** The team with the map under `key` converted; a field that is not a map is not walked. */
  function WithMembers(team: Record, key: string, convert: Value -> Result<Value>): (r: Result<Record>) {
    match Get(team, key)
    case Obj(m) =>
      (match MembersConverted(m, convert)
       case Err(e) => Err(e)
       case Ok(converted) => Ok(team[key := Obj(converted)]))
    case _ => Ok(team)
  }

  /** What teamFromSnapshot returns or throws. */
  function TeamSnapshotEntity(snap: Converters.Snapshot, now: int): (r: Result<Record>) {
    match Converters.SnapshotEntity(snap, Converters.SnapshotConfig(TEAM_SNAPSHOT_DATE_FIELDS, map[]), now)
    case Err(e) => Err(e)
    case Ok(team) =>
      (match WithMembers(team, MEMBERS, MemberFromSnapshot)
       case Err(e) => Err(e)
       case Ok(team') => WithMembers(team', PENDING, MemberFromSnapshot))
  }

  /** What teamFromSerialized returns or throws. */
  function TeamSerializedEntity(serialized: Record, parse: string -> Option<int>): (r: Result<Record>) {
    var team := Converters.SerializedEntity(serialized, TEAM_SERIALIZED_DATE_FIELDS, parse);
    match WithMembers(team, MEMBERS, SerializedMemberRule(parse))
    case Err(e) => Err(e)
    case Ok(team') => WithMembers(team', PENDING, SerializedMemberRule(parse))
  }

  /** Runs the member loop over the map under `key`, when there is one. */
  method ConvertMembersOf(team: Record, key: string, convert: Value -> Result<Value>) returns (r: Result<Record>)
    ensures r == WithMembers(team, key, convert)
  {
    var field := Get(team, key);
    if field.Obj? {
      var converted := ConvertMembers(field.fields, convert);
      if converted.Err? {
        return Err(converted.error);
      }
      return Ok(team[key := Obj(converted.value)]);
    }
    return Ok(team);
  }

  /** teamFromSnapshot */
  method TeamFromSnapshot(snap: Converters.Snapshot, now: int) returns (r: Result<Record>)
    ensures r == TeamSnapshotEntity(snap, now)
  {
    var team := Converters.FromSnapshot(snap, Converters.SnapshotConfig(TEAM_SNAPSHOT_DATE_FIELDS, map[]), now);
    if team.Err? {
      return team;
    }
    r := ConvertMembersOf(team.value, MEMBERS, MemberFromSnapshot);
    if r.Ok? {
      r := ConvertMembersOf(r.value, PENDING, MemberFromSnapshot);
    }
  }

  /** teamFromSerialized */
  method TeamFromSerialized(serialized: Record, parse: string -> Option<int>) returns (r: Result<Record>)
    ensures r == TeamSerializedEntity(serialized, parse)
  {
    var team := Converters.FromSerialized(serialized, TEAM_SERIALIZED_DATE_FIELDS, parse);
    r := ConvertMembersOf(team, MEMBERS, SerializedMemberRule(parse));
    if r.Ok? {
      r := ConvertMembersOf(r.value, PENDING, SerializedMemberRule(parse));
    }
  }

  // ---------------------------------------------------------------------
  // Properties
  // ---------------------------------------------------------------------

  /** The member loops fail exactly when some entry throws, and otherwise keep the key set. */
  lemma MembersConvertedKeys(m: map<string, Value>, convert: Value -> Result<Value>)
    ensures MembersConverted(m, convert).Err? <==> exists uid :: uid in m && convert(m[uid]).Err?
    ensures MembersConverted(m, convert).Ok? ==> MembersConverted(m, convert).value.Keys == m.Keys
  {
  }

  /**
   * In teamFromSnapshot a member whose `createdAt` is a timestamp gets the
   * date of the same instant and keeps every other field (its role); a member
   * whose `createdAt` is not a timestamp or map is kept as it is; a null
   * member throws.
   */
  lemma SnapshotMember(member: Value)
    ensures Nullish(member) ==> MemberFromSnapshot(member) == Err(TypeError)
    ensures member.Obj? && Get(member.fields, "createdAt").Timestamp? ==>
      var r := MemberFromSnapshot(member);
      && r.Ok? && r.value.Obj?
      && r.value.fields.Keys == member.fields.Keys
      && r.value.fields["createdAt"] == Date(member.fields["createdAt"].ms)
      && forall k :: k in member.fields && k != "createdAt" ==> r.value.fields[k] == member.fields[k]
    ensures member.Obj? && !Converters.HasToDate(Get(member.fields, "createdAt")) ==>
      MemberFromSnapshot(member) == Ok(member)
  {
  }

  /**
   * In teamFromSerialized a member whose `createdAt` is a string gets
   * `new Date(s)`: an unparseable string yields an invalid date, never null.
   */
  lemma SerializedMember(parse: string -> Option<int>, member: Value)
    ensures Nullish(member) ==> MemberFromSerialized(parse, member) == Err(TypeError)
    ensures member.Obj? && Get(member.fields, "createdAt").Str? ==>
      var s := member.fields["createdAt"].s;
      var r := MemberFromSerialized(parse, member);
      && r.Ok? && r.value.Obj?
      && r.value.fields.Keys == member.fields.Keys
      && r.value.fields["createdAt"] != Null
      && (parse(s).None? ==> r.value.fields["createdAt"] == InvalidDate)
      && (parse(s).Some? ==> r.value.fields["createdAt"] == Date(parse(s).value))
      && forall k :: k in member.fields && k != "createdAt" ==> r.value.fields[k] == member.fields[k]
    ensures member.Obj? && !Get(member.fields, "createdAt").Str? ==>
      MemberFromSerialized(parse, member) == Ok(member)
  {
  }

  /**
   * Walking the map under `key` touches nothing else: every other key keeps
   * its value, and the walked map keeps its keys with every entry converted.
   */
  lemma WithMembersEffect(team: Record, key: string, convert: Value -> Result<Value>)
    requires WithMembers(team, key, convert).Ok?
    ensures var r := WithMembers(team, key, convert).value;
      && r.Keys == team.Keys
      && (forall k :: k != key ==> Get(r, k) == Get(team, k))
      && (Get(team, key).Obj? ==>
            Get(r, key).Obj?
            && Get(r, key).fields.Keys == Get(team, key).fields.Keys
            && forall uid :: uid in Get(team, key).fields ==>
                 convert(Get(team, key).fields[uid]) == Ok(Get(r, key).fields[uid]))
      && (!Get(team, key).Obj? ==> r == team)
  {
  }

  /**
   * teamFromSnapshot: the top level is exactly fromSnapshot's with no date
   * field (only `id`, `createdAt`, `updatedAt` come from the metadata); the
   * `members` and `pending` maps keep their keys and have every entry
   * converted.
   */
  lemma TeamSnapshotShape(snap: Converters.Snapshot, now: int)
    requires TeamSnapshotEntity(snap, now).Ok?
    ensures snap.data.Some?
    ensures var team := TeamSnapshotEntity(snap, now).value;
      var data := snap.data.value;
      && "id" in team && team["id"] == Str(snap.id)
      && "createdAt" in team && team["createdAt"] == Converters.MetadataDate(snap.createTime, now)
      && "updatedAt" in team && team["updatedAt"] == Converters.MetadataDate(snap.updateTime, now)
      && (forall k :: k !in SystemFields && k != MEMBERS && k != PENDING ==>
            (k in team <==> k in data) && Get(team, k) == Get(data, k))
      && (forall key :: key in {MEMBERS, PENDING} && Get(data, key).Obj? ==>
            Get(team, key).Obj?
            && Get(team, key).fields.Keys == Get(data, key).fields.Keys
            && forall uid :: uid in Get(data, key).fields ==>
                 MemberFromSnapshot(Get(data, key).fields[uid]) == Ok(Get(team, key).fields[uid]))
  {
    TeamSnapshotSystem(snap, now);
    TeamSnapshotData(snap, now);
    TeamSnapshotMaps(snap, now);
  }

  /** teamFromSnapshot takes `id`, `createdAt` and `updatedAt` from the metadata. */
  lemma TeamSnapshotSystem(snap: Converters.Snapshot, now: int)
    requires TeamSnapshotEntity(snap, now).Ok?
    ensures var team := TeamSnapshotEntity(snap, now).value;
      && "id" in team && team["id"] == Str(snap.id)
      && "createdAt" in team && team["createdAt"] == Converters.MetadataDate(snap.createTime, now)
      && "updatedAt" in team && team["updatedAt"] == Converters.MetadataDate(snap.updateTime, now)
  {
    var config := Converters.SnapshotConfig(TEAM_SNAPSHOT_DATE_FIELDS, map[]);
    var base := Converters.SnapshotEntity(snap, config, now).value;
    var team := TeamSnapshotEntity(snap, now).value;
    Converters.SnapshotSystemFields(snap, config, now);
    TeamSnapshotOutside(snap, now);
    assert Get(team, "id") == Get(base, "id");
    assert Get(team, "createdAt") == Get(base, "createdAt");
    assert Get(team, "updatedAt") == Get(base, "updatedAt");
  }

  /** teamFromSnapshot copies every stored top-level field other than the system fields and member maps. */
  lemma TeamSnapshotData(snap: Converters.Snapshot, now: int)
    requires TeamSnapshotEntity(snap, now).Ok?
    ensures snap.data.Some?
    ensures var team := TeamSnapshotEntity(snap, now).value;
      var data := snap.data.value;
      forall k :: k !in SystemFields && k != MEMBERS && k != PENDING ==>
        (k in team <==> k in data) && Get(team, k) == Get(data, k)
  {
    var config := Converters.SnapshotConfig(TEAM_SNAPSHOT_DATE_FIELDS, map[]);
    var base := Converters.SnapshotEntity(snap, config, now).value;
    var data := snap.data.value;
    TeamSnapshotOutside(snap, now);
    forall k | k !in SystemFields
      ensures (k in base <==> k in data) && Get(base, k) == Get(data, k)
    {
      Converters.SnapshotPrecedence(snap, config, now, k);
    }
  }

  /** teamFromSnapshot converts both member maps entry by entry and keeps their keys. */
  lemma TeamSnapshotMaps(snap: Converters.Snapshot, now: int)
    requires TeamSnapshotEntity(snap, now).Ok?
    ensures snap.data.Some?
    ensures var team := TeamSnapshotEntity(snap, now).value;
      var data := snap.data.value;
      forall key :: key in {MEMBERS, PENDING} && Get(data, key).Obj? ==>
        Get(team, key).Obj?
        && Get(team, key).fields.Keys == Get(data, key).fields.Keys
        && forall uid :: uid in Get(data, key).fields ==>
             MemberFromSnapshot(Get(data, key).fields[uid]) == Ok(Get(team, key).fields[uid])
  {
    var config := Converters.SnapshotConfig(TEAM_SNAPSHOT_DATE_FIELDS, map[]);
    var base := Converters.SnapshotEntity(snap, config, now).value;
    var data := snap.data.value;
    forall k | k !in SystemFields
      ensures Get(base, k) == Get(data, k)
    {
      Converters.SnapshotPrecedence(snap, config, now, k);
    }
    WithMembersEffect(base, MEMBERS, MemberFromSnapshot);
    var team' := WithMembers(base, MEMBERS, MemberFromSnapshot).value;
    WithMembersEffect(team', PENDING, MemberFromSnapshot);
  }

  /** The member walks leave every key other than the two member maps as fromSnapshot set it. */
  lemma TeamSnapshotOutside(snap: Converters.Snapshot, now: int)
    requires TeamSnapshotEntity(snap, now).Ok?
    ensures var config := Converters.SnapshotConfig(TEAM_SNAPSHOT_DATE_FIELDS, map[]);
      var base := Converters.SnapshotEntity(snap, config, now).value;
      var team := TeamSnapshotEntity(snap, now).value;
      && team.Keys == base.Keys
      && forall k :: k != MEMBERS && k != PENDING ==> Get(team, k) == Get(base, k)
  {
    var config := Converters.SnapshotConfig(TEAM_SNAPSHOT_DATE_FIELDS, map[]);
    var base := Converters.SnapshotEntity(snap, config, now).value;
    WithMembersEffect(base, MEMBERS, MemberFromSnapshot);
    var team' := WithMembers(base, MEMBERS, MemberFromSnapshot).value;
    WithMembersEffect(team', PENDING, MemberFromSnapshot);
  }

  /**
   * teamFromSerialized at the top level: `createdAt`/`updatedAt` are parsed
   * with null for an invalid date.
   */
  lemma TeamSerializedDates(serialized: Record, parse: string -> Option<int>)
    requires TeamSerializedEntity(serialized, parse).Ok?
    ensures var team := TeamSerializedEntity(serialized, parse).value;
      && "createdAt" in team && team["createdAt"] == Converters.SerializedDate(parse, Get(serialized, "createdAt"))
      && "updatedAt" in team && team["updatedAt"] == Converters.SerializedDate(parse, Get(serialized, "updatedAt"))
  {
    var base := Converters.SerializedEntity(serialized, TEAM_SERIALIZED_DATE_FIELDS, parse);
    Converters.SerializedShape(serialized, TEAM_SERIALIZED_DATE_FIELDS, parse);
    TeamSerializedOutside(serialized, parse);
    assert "createdAt" in TEAM_SERIALIZED_DATE_FIELDS && "updatedAt" in TEAM_SERIALIZED_DATE_FIELDS;
    assert "createdAt" in base && "updatedAt" in base;
  }

  /**
   * teamFromSerialized at the top level: every field except the two dates
   * and the two member maps, `id` included, is kept.
   */
  lemma TeamSerializedOtherFields(serialized: Record, parse: string -> Option<int>)
    requires TeamSerializedEntity(serialized, parse).Ok?
    ensures var team := TeamSerializedEntity(serialized, parse).value;
      forall k :: k in serialized && k != "createdAt" && k != "updatedAt" && k != MEMBERS && k != PENDING ==>
        k in team && team[k] == serialized[k]
  {
    Converters.SerializedShape(serialized, TEAM_SERIALIZED_DATE_FIELDS, parse);
    TeamSerializedOutside(serialized, parse);
  }

  /** The member walks leave every key other than the two member maps as fromSerialized set it. */
  lemma TeamSerializedOutside(serialized: Record, parse: string -> Option<int>)
    requires TeamSerializedEntity(serialized, parse).Ok?
    ensures var base := Converters.SerializedEntity(serialized, TEAM_SERIALIZED_DATE_FIELDS, parse);
      var team := TeamSerializedEntity(serialized, parse).value;
      && team.Keys == base.Keys
      && forall k :: k != MEMBERS && k != PENDING ==> Get(team, k) == Get(base, k)
  {
    var base := Converters.SerializedEntity(serialized, TEAM_SERIALIZED_DATE_FIELDS, parse);
    WithMembersEffect(base, MEMBERS, SerializedMemberRule(parse));
    var team' := WithMembers(base, MEMBERS, SerializedMemberRule(parse)).value;
    WithMembersEffect(team', PENDING, SerializedMemberRule(parse));
  }

  /**
   * teamFromSerialized on the member maps: each keeps its keys and has every
   * entry rewritten by the member rule.
   */
  lemma TeamSerializedMembers(serialized: Record, parse: string -> Option<int>, key: string)
    requires TeamSerializedEntity(serialized, parse).Ok?
    requires key == MEMBERS || key == PENDING
    requires Get(serialized, key).Obj?
    ensures var team := TeamSerializedEntity(serialized, parse).value;
      && Get(team, key).Obj?
      && Get(team, key).fields.Keys == Get(serialized, key).fields.Keys
      && forall uid :: uid in Get(serialized, key).fields ==>
           MemberFromSerialized(parse, Get(serialized, key).fields[uid]) == Ok(Get(team, key).fields[uid])
  {
    var base := Converters.SerializedEntity(serialized, TEAM_SERIALIZED_DATE_FIELDS, parse);
    Converters.SerializedKeys(serialized, TEAM_SERIALIZED_DATE_FIELDS, parse);
    assert Get(base, key) == Get(serialized, key);
    WithMembersEffect(base, MEMBERS, SerializedMemberRule(parse));
    var team' := WithMembers(base, MEMBERS, SerializedMemberRule(parse)).value;
    WithMembersEffect(team', PENDING, SerializedMemberRule(parse));
  }
}
