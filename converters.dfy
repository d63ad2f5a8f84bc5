/**
 * The two generic converters every entity uses:
 *  - fromSnapshot: a stored document (id, data payload, create/update
 *    metadata) becomes an entity: defaults, then the data, then the system
 *    fields from the metadata; then each declared date field holding a
 *    Firestore timestamp becomes a date, and an absent or null one null;
 *  - fromSerialized: a wire object is shallow-copied and each declared date
 *    field holding a string is parsed into a date (null when the parse fails),
 *    an absent or null one becoming null.
 *
 * The JS date-string parser inside `new Date(s)` is the parameter `parse`
 * (None stands for a NaN time value); "now" is the parameter `now`.
 */
module Converters {
  import opened Values

  /** A Firestore document snapshot: `data()` yields the payload or undefined. */
  datatype Snapshot = Snapshot(id: string, data: Option<Record>, createTime: Option<int>, updateTime: Option<int>)

  /** FromSnapshotConfig; an absent `dateFields` or `defaults` is the empty one. */
  datatype SnapshotConfig = SnapshotConfig(dateFields: seq<string>, defaults: Record)

  /** `value && typeof value === 'object' && 'toDate' in value` */
  predicate HasToDate(v: Value) {
    v.Timestamp? || (v.Obj? && "toDate" in v.fields)
  }

  /**
   * A value with a `toDate` property that is not a function (a stored map
   * with a `toDate` key: stored data holds no functions), so that
   * `value.toDate()` throws a TypeError.
   */
  predicate ToDateUncallable(v: Value) {
    HasToDate(v) && !v.Timestamp?
  }

  /** The rewrite fromSnapshot gives one date field that does not throw. */
  function SnapshotDate(v: Value): (r: Value) {
    if v.Timestamp? then Date(v.ms) else if Nullish(v) then Null else v
  }

  /** The rewrite fromSerialized gives one date field. */
  function SerializedDate(parse: string -> Option<int>, v: Value): (r: Value) {
    match v
    case Str(s) => (match parse(s) case Some(ms) => Date(ms) case None => Null)
    case Undefined => Null
    case Null => Null
    case _ => v
  }

  /** The rewrite fromSerialized gives each date field, as a function value. */
  function SerializedRule(parse: string -> Option<int>): (r: Value -> Value) {
    v => SerializedDate(parse, v)
  }

  /** A rewrite that changes nothing the second time. */
  ghost predicate Idempotent(rule: Value -> Value) {
    forall v :: rule(rule(v)) == rule(v)
  }

  /** `base` with every field of `fields` set to `rule` of its value in `base`. */
  function Rewritten(base: Record, fields: seq<string>, rule: Value -> Value): (r: Record) {
    base + map f | f in fields :: rule(Get(base, f))
  }

  /** `time ? time.toDate() : new Date()` */
  function MetadataDate(time: Option<int>, now: int): (r: Value) {
    match time
    case Some(ms) => Date(ms)
    case None => Date(now)
  }

  /** `{ ...defaults, ...data, id, createdAt, updatedAt }` */
  function Stamped(snap: Snapshot, data: Record, defaults: Record, now: int): (r: Record) {
    defaults + data + map["id" := Str(snap.id),
                          "createdAt" := MetadataDate(snap.createTime, now),
                          "updatedAt" := MetadataDate(snap.updateTime, now)]
  }

  /** What fromSnapshot returns or throws. */
  function SnapshotEntity(snap: Snapshot, config: SnapshotConfig, now: int): (r: Result<Record>) {
    match snap.data
    case None => Err(SnapshotDataUndefined)
    case Some(data) =>
      var base := Stamped(snap, data, config.defaults, now);
      if exists f :: f in config.dateFields && ToDateUncallable(Get(base, f)) then Err(TypeError)
      else Ok(Rewritten(base, config.dateFields, SnapshotDate))
  }

  /** What fromSerialized returns. */
  function SerializedEntity(serialized: Record, dateFields: seq<string>, parse: string -> Option<int>): (r: Record) {
    Rewritten(serialized, dateFields, SerializedRule(parse))
  }

  lemma SnapshotDateIdempotent()
    ensures Idempotent(SnapshotDate)
  {
  }

  lemma SerializedDateIdempotent(parse: string -> Option<int>)
    ensures Idempotent(SerializedRule(parse))
  {
  }

  /** One more turn of a date-field loop extends the fields already rewritten by one. */
  lemma RewrittenStep(base: Record, fields: seq<string>, f: string, rule: Value -> Value)
    requires Idempotent(rule)
    ensures var done := Rewritten(base, fields, rule);
      done[f := rule(Get(done, f))] == Rewritten(base, fields + [f], rule)
  {
    var done := Rewritten(base, fields, rule);
    assert rule(Get(done, f)) == rule(Get(base, f)) by {
      if f in fields {
        assert rule(rule(Get(base, f))) == rule(Get(base, f));
      }
    }
  }

  /** Reading a field after the rewrite. */
  lemma RewrittenGet(base: Record, fields: seq<string>, rule: Value -> Value, f: string)
    ensures Get(Rewritten(base, fields, rule), f) == if f in fields then rule(Get(base, f)) else Get(base, f)
  {
  }

  lemma PrefixStep(fields: seq<string>, i: int)
    requires 0 <= i < |fields|
    ensures fields[..i + 1] == fields[..i] + [fields[i]]
  {
  }

  /**
   * fromSnapshot: throws on an undefined payload; builds the stamped result
   * and runs the date-field pass over it.
   */
  method FromSnapshot(snap: Snapshot, config: SnapshotConfig, now: int) returns (r: Result<Record>)
    ensures r == SnapshotEntity(snap, config, now)
  {
    if snap.data.None? {
      return Err(SnapshotDataUndefined);
    }
    var result := Stamped(snap, snap.data.value, config.defaults, now);
    r := SnapshotDatePass(result, config.dateFields);
  }

  /**
   * The date-field loop of fromSnapshot: rewrites each declared date field
   * of `result` in place, in list order, and throws a TypeError at a field
   * whose `toDate` is not callable.
   */
  method SnapshotDatePass(result: Record, fields: seq<string>) returns (r: Result<Record>)
    ensures r == if exists f :: f in fields && ToDateUncallable(Get(result, f)) then Err(TypeError)
                 else Ok(Rewritten(result, fields, SnapshotDate))
  {
    var current := result;
    SnapshotDateIdempotent();
    ghost var visited: seq<string> := [];
    var i := 0;
    while i < |fields|
      invariant 0 <= i <= |fields|
      invariant visited == fields[..i]
      invariant forall f :: f in visited ==> !ToDateUncallable(Get(result, f))
      invariant current == Rewritten(result, visited, SnapshotDate)
    {
      var field := fields[i];
      var value := Get(current, field);
      ghost var done := current;
      RewrittenGet(result, visited, SnapshotDate, field);
      assert ToDateUncallable(value) <==> ToDateUncallable(Get(result, field));
      if HasToDate(value) {
        if !value.Timestamp? {
          return Err(TypeError);
        }
        current := current[field := Date(value.ms)];
      } else if Nullish(value) {
        current := current[field := Null];
      } else {
        assert current == current[field := value];
      }
      assert current == done[field := SnapshotDate(value)];
      RewrittenStep(result, visited, field, SnapshotDate);
      PrefixStep(fields, i);
      visited := visited + [field];
      i := i + 1;
    }
    assert visited == fields;
    return Ok(current);
  }

  /**
   * fromSerialized: a shallow copy of the payload whose declared date fields
   * are rewritten in place, in list order.
   */
  method FromSerialized(serialized: Record, dateFields: seq<string>, parse: string -> Option<int>)
    returns (result: Record)
    ensures result == SerializedEntity(serialized, dateFields, parse)
  {
    result := serialized;
    SerializedDateIdempotent(parse);
    ghost var visited: seq<string> := [];
    var i := 0;
    while i < |dateFields|
      invariant 0 <= i <= |dateFields|
      invariant visited == dateFields[..i]
      invariant result == Rewritten(serialized, visited, SerializedRule(parse))
    {
      var field := dateFields[i];
      var value := Get(result, field);
      ghost var done := result;
      if value.Str? {
        var parsed := parse(value.s);
        result := result[field := if parsed.None? then Null else Date(parsed.value)];
      } else if Nullish(value) {
        result := result[field := Null];
      } else {
        assert result == result[field := value];
      }
      assert result == done[field := SerializedDate(parse, value)];
      RewrittenStep(serialized, visited, field, SerializedRule(parse));
      PrefixStep(dateFields, i);
      visited := visited + [field];
      i := i + 1;
    }
    assert visited == dateFields;
  }

  // ---------------------------------------------------------------------
  // fromSnapshot
  // ---------------------------------------------------------------------

  /**
   * fromSnapshot throws "Snapshot data is undefined" exactly when the payload
   * is absent; with a payload it succeeds unless a declared date field holds
   * a map whose `toDate` is not callable.
   */
  lemma SnapshotOutcome(snap: Snapshot, config: SnapshotConfig, now: int)
    ensures SnapshotEntity(snap, config, now) == Err(SnapshotDataUndefined) <==> snap.data.None?
    ensures snap.data.Some? ==>
      (SnapshotEntity(snap, config, now).Ok? <==>
       forall f :: f in config.dateFields ==>
         !ToDateUncallable(Get(Stamped(snap, snap.data.value, config.defaults, now), f)))
  {
  }

  /**
   * The system fields come from the snapshot: `id` is the snapshot's id,
   * whatever the data or the defaults say, and `createdAt`/`updatedAt` are
   * the metadata times, or "now" when those are absent.
   */
  lemma SnapshotSystemFields(snap: Snapshot, config: SnapshotConfig, now: int)
    requires SnapshotEntity(snap, config, now).Ok?
    ensures var e := SnapshotEntity(snap, config, now).value;
      && e["id"] == Str(snap.id)
      && e["createdAt"] == (if snap.createTime.Some? then Date(snap.createTime.value) else Date(now))
      && e["updatedAt"] == (if snap.updateTime.Some? then Date(snap.updateTime.value) else Date(now))
  {
  }

  /**
   * A key that is neither a system field nor a declared date field is set by
   * precedence: the data's value over the default's; a key in neither stays
   * absent.
   */
  lemma SnapshotPrecedence(snap: Snapshot, config: SnapshotConfig, now: int, k: string)
    requires SnapshotEntity(snap, config, now).Ok?
    requires k !in SystemFields && k !in config.dateFields
    ensures var e := SnapshotEntity(snap, config, now).value;
      var data := snap.data.value;
      && (k in e <==> k in data || k in config.defaults)
      && (k in data ==> e[k] == data[k])
      && (k !in data && k in config.defaults ==> e[k] == config.defaults[k])
  {
  }

  /**
   * A declared date field (other than a system field): a timestamp becomes
   * the date of the same instant, null or absent becomes null, any other
   * value is kept as it is.
   */
  lemma SnapshotDateField(snap: Snapshot, config: SnapshotConfig, now: int, f: string)
    requires SnapshotEntity(snap, config, now).Ok?
    requires f !in SystemFields && f in config.dateFields
    ensures var e := SnapshotEntity(snap, config, now).value;
      var data := snap.data.value;
      var v := if f in data then data[f] else Get(config.defaults, f);
      && f in e
      && (v.Timestamp? ==> e[f] == Date(v.ms))
      && (Nullish(v) ==> e[f] == Null)
      && (!v.Timestamp? && !Nullish(v) ==> e[f] == v)
  {
  }

  /** Running the date-field pass of fromSnapshot again over its result changes nothing. */
  lemma SnapshotDatesIdempotent(snap: Snapshot, config: SnapshotConfig, now: int)
    requires SnapshotEntity(snap, config, now).Ok?
    ensures var e := SnapshotEntity(snap, config, now).value;
      (forall f :: f in config.dateFields ==> !HasToDate(Get(e, f)))
      && Rewritten(e, config.dateFields, SnapshotDate) == e
  {
    SnapshotDateIdempotent();
    var e := SnapshotEntity(snap, config, now).value;
    RewrittenIdempotent(Stamped(snap, snap.data.value, config.defaults, now), config.dateFields, SnapshotDate);
  }

  /** Rewriting the same fields twice with an idempotent rule is rewriting them once. */
  lemma RewrittenIdempotent(base: Record, fields: seq<string>, rule: Value -> Value)
    requires Idempotent(rule)
    ensures Rewritten(Rewritten(base, fields, rule), fields, rule) == Rewritten(base, fields, rule)
  {
    var once := Rewritten(base, fields, rule);
    var twice := Rewritten(once, fields, rule);
    forall f | f in fields ensures twice[f] == once[f] {
      assert rule(rule(Get(base, f))) == rule(Get(base, f));
    }
    assert twice == once;
  }

  // ---------------------------------------------------------------------
  // fromSerialized
  // ---------------------------------------------------------------------

  /**
   * fromSerialized adds exactly the declared date fields to the keys of the
   * payload and keeps every other value.
   */
  lemma SerializedKeys(serialized: Record, dateFields: seq<string>, parse: string -> Option<int>)
    ensures var e := SerializedEntity(serialized, dateFields, parse);
      && e.Keys == serialized.Keys + (set f | f in dateFields)
      && forall k :: k in serialized && k !in dateFields ==> e[k] == serialized[k]
  {
  }

  /**
   * A declared date field: a string becomes the parsed date, or null when
   * the parse gives NaN; null or absent becomes null; any other value (an
   * existing date, say) is kept.
   */
  lemma SerializedDateField(serialized: Record, dateFields: seq<string>, parse: string -> Option<int>, f: string)
    requires f in dateFields
    ensures var e := SerializedEntity(serialized, dateFields, parse);
      var v := Get(serialized, f);
      && (v.Str? && parse(v.s).Some? ==> e[f] == Date(parse(v.s).value))
      && (v.Str? && parse(v.s).None? ==> e[f] == Null)
      && (Nullish(v) ==> e[f] == Null)
      && (!v.Str? && !Nullish(v) ==> e[f] == v)
  {
  }

  /** fromSerialized applied to its own result with the same date fields changes nothing. */
  lemma SerializedIdempotent(serialized: Record, dateFields: seq<string>, parse: string -> Option<int>)
    ensures var once := SerializedEntity(serialized, dateFields, parse);
      SerializedEntity(once, dateFields, parse) == once
  {
    SerializedDateIdempotent(parse);
    RewrittenIdempotent(serialized, dateFields, SerializedRule(parse));
  }

  // ---------------------------------------------------------------------
  // The shape every entity converter without defaults gives
  // ---------------------------------------------------------------------

  /**
   * fromSnapshot, called with the date fields `fields` and no defaults,
   * throws: the payload is absent, or a declared date field of the payload
   * holds a map whose `toDate` is not callable.
   */
  ghost predicate SnapshotThrows(snap: Snapshot, fields: seq<string>) {
    snap.data.None? ||
    exists f :: f in fields && f !in SystemFields && ToDateUncallable(Get(snap.data.value, f))
  }

  /**
   * `e` is what fromSnapshot makes of `snap` with the date fields `fields`
   * and no defaults: the payload's keys plus the system fields and the
   * declared date fields; the system fields from the metadata; each declared
   * date field rewritten; every other key of the payload copied as stored.
   */
  ghost predicate SnapshotConverts(snap: Snapshot, fields: seq<string>, now: int, e: Record) {
    && snap.data.Some?
    && e.Keys == snap.data.value.Keys + SystemFields + (set f | f in fields)
    && e["id"] == Str(snap.id)
    && e["createdAt"] == MetadataDate(snap.createTime, now)
    && e["updatedAt"] == MetadataDate(snap.updateTime, now)
    && (forall f :: f in fields && f !in SystemFields ==> e[f] == SnapshotDate(Get(snap.data.value, f)))
    && (forall k :: k in snap.data.value && k !in SystemFields && k !in fields ==> e[k] == snap.data.value[k])
  }

  /**
   * `e` is what fromSerialized makes of `serialized` with the date fields
   * `fields`: the payload's keys plus the declared date fields; each declared
   * date field rewritten; every other key copied.
   */
  ghost predicate SerializedConverts(serialized: Record, fields: seq<string>, parse: string -> Option<int>, e: Record) {
    && e.Keys == serialized.Keys + (set f | f in fields)
    && (forall f :: f in fields ==> e[f] == SerializedDate(parse, Get(serialized, f)))
    && (forall k :: k in serialized && k !in fields ==> e[k] == serialized[k])
  }

  /** fromSnapshot without defaults throws exactly as `SnapshotThrows` says. */
  lemma SnapshotWithoutDefaultsThrows(snap: Snapshot, fields: seq<string>, now: int)
    ensures var r := SnapshotEntity(snap, SnapshotConfig(fields, map[]), now);
      && (r.Err? <==> SnapshotThrows(snap, fields))
      && (snap.data.None? ==> r == Err(SnapshotDataUndefined))
  {
    if snap.data.Some? {
      var base := Stamped(snap, snap.data.value, map[], now);
      forall f | f in fields
        ensures ToDateUncallable(Get(base, f)) <==> f !in SystemFields && ToDateUncallable(Get(snap.data.value, f))
      {
      }
    }
  }

  /** When fromSnapshot without defaults succeeds, it converts as `SnapshotConverts` says. */
  lemma SnapshotWithoutDefaultsConverts(snap: Snapshot, fields: seq<string>, now: int)
    ensures var r := SnapshotEntity(snap, SnapshotConfig(fields, map[]), now);
      r.Ok? ==> SnapshotConverts(snap, fields, now, r.value)
  {
    if SnapshotEntity(snap, SnapshotConfig(fields, map[]), now).Ok? {
      StampedSystemFields(snap, fields, now);
      StampedDataFields(snap, fields, now);
    }
  }

  lemma StampedSystemFields(snap: Snapshot, fields: seq<string>, now: int)
    requires snap.data.Some?
    ensures var e := Rewritten(Stamped(snap, snap.data.value, map[], now), fields, SnapshotDate);
      && e.Keys == snap.data.value.Keys + SystemFields + (set f | f in fields)
      && e["id"] == Str(snap.id)
      && e["createdAt"] == MetadataDate(snap.createTime, now)
      && e["updatedAt"] == MetadataDate(snap.updateTime, now)
  {
    var base := Stamped(snap, snap.data.value, map[], now);
    assert base.Keys == snap.data.value.Keys + SystemFields;
    RewrittenGet(base, fields, SnapshotDate, "id");
    RewrittenGet(base, fields, SnapshotDate, "createdAt");
    RewrittenGet(base, fields, SnapshotDate, "updatedAt");
  }

  lemma StampedDataFields(snap: Snapshot, fields: seq<string>, now: int)
    requires snap.data.Some?
    ensures var e := Rewritten(Stamped(snap, snap.data.value, map[], now), fields, SnapshotDate);
      var data := snap.data.value;
      && (forall f :: f in fields && f !in SystemFields ==> e[f] == SnapshotDate(Get(data, f)))
      && (forall k :: k in data && k !in SystemFields && k !in fields ==> e[k] == data[k])
  {
    var data := snap.data.value;
    var base := Stamped(snap, data, map[], now);
    assert forall k :: k !in SystemFields ==> Get(base, k) == Get(data, k);
  }

  /** fromSerialized converts as `SerializedConverts` says. */
  lemma SerializedShape(serialized: Record, fields: seq<string>, parse: string -> Option<int>)
    ensures SerializedConverts(serialized, fields, parse, SerializedEntity(serialized, fields, parse))
  {
  }

  /**
   * The wire form of an entity: every top-level valid date becomes its ISO
   * string; nested dates and invalid dates are left as they are.
   */
  function ToWire(entity: Record, format: int -> string): (wire: Record)
    ensures wire.Keys == entity.Keys
  {
    map k | k in entity :: if entity[k].Date? then Str(format(entity[k].ms)) else entity[k]
  }

  /**
   * Round trip: an entity whose date fields are exactly the declared ones,
   * each holding a date or null, survives serialisation to ISO strings and
   * fromSerialized, provided the parser reads back what the formatter writes.
   */
  lemma {:induction false} WireRoundTrip(entity: Record, dateFields: seq<string>, parse: string -> Option<int>, format: int -> string)
    requires forall ms :: parse(format(ms)) == Some(ms)
    requires forall f :: f in dateFields ==> f in entity && (entity[f].Date? || entity[f].Null?)
    requires forall k :: k in entity && entity[k].Date? ==> k in dateFields
    ensures SerializedEntity(ToWire(entity, format), dateFields, parse) == entity
  {
    var wire := ToWire(entity, format);
    var back := SerializedEntity(wire, dateFields, parse);
    forall k | k in entity ensures back[k] == entity[k] {
      if k in dateFields && entity[k].Date? {
        assert parse(format(entity[k].ms)) == Some(entity[k].ms);
      }
    }
    assert back == entity;
  }
}
