/**
 * The defaulting merger `useDefaults(values, defaults)`: copy `values`, then
 * for every key of `defaults` either insist that `values` supplies it (the
 * default is the `REQUIRED` sentinel) or fill it in when `values` leaves it
 * falsy.
 */
module UseDefaults {
  import opened Values

  /** The sentinel a defaults bag uses for "the caller must supply this key". */
  const REQUIRED: string := "REQUIRED"

  predicate IsRequired(d: Value) {
    d == Str(REQUIRED)
  }

  /**
   * `order` lists the keys of `defaults` in the order a for...in loop over
   * `defaults` visits them.
   */
  ghost predicate Enumerates(order: seq<string>, defaults: Record) {
    forall k :: k in order <==> k in defaults
  }

  /** `k` is a required key of `defaults` that `values` leaves falsy. */
  predicate Unmet(values: Record, defaults: Record, k: string) {
    k in defaults && IsRequired(defaults[k]) && !Truthy(Get(values, k))
  }

  /** The first key of `order` whose requirement `values` does not meet. */
  function FirstUnmet(values: Record, defaults: Record, order: seq<string>): (r: Option<string>)
    ensures r.Some? ==> r.value in order && Unmet(values, defaults, r.value)
    ensures r.None? ==> forall k :: k in order ==> !Unmet(values, defaults, k)
  {
    if order == [] then None
    else if Unmet(values, defaults, order[0]) then Some(order[0])
    else FirstUnmet(values, defaults, order[1..])
  }

  /** `values?.[key] || defaults[key]` */
  function Chosen(values: Record, defaults: Record, k: string): (r: Value)
    requires k in defaults
  {
    if Truthy(Get(values, k)) then Get(values, k) else defaults[k]
  }

  /** `values` with the keys of `keys` that `defaults` has filled in. */
  function FilledOn(values: Record, defaults: Record, keys: set<string>): (r: Record) {
    values + map k | k in keys && k in defaults :: Chosen(values, defaults, k)
  }

  /** The merged bag when no requirement is unmet. */
  function Filled(values: Record, defaults: Record): (r: Record) {
    FilledOn(values, defaults, defaults.Keys)
  }

  /** What `useDefaults(values, defaults)` returns or throws. */
  function Defaulted(values: Record, defaults: Record, order: seq<string>): (r: Result<Record>) {
    match FirstUnmet(values, defaults, order)
    case Some(k) => Err(RequiredMissing(k))
    case None => Ok(Filled(values, defaults))
  }

  /**
   * useDefaults: `output` starts as a copy of `values`; the loop visits the
   * keys of `defaults` in for...in order and throws at the first unmet
   * requirement.
   */
  method UseDefaults(values: Record, defaults: Record, order: seq<string>) returns (r: Result<Record>)
    requires Enumerates(order, defaults)
    ensures r == Defaulted(values, defaults, order)
  {
    var output := values;
    ghost var visited: set<string> := {};
    var i := 0;
    while i < |order|
      invariant 0 <= i <= |order|
      invariant forall j :: 0 <= j < i ==> !Unmet(values, defaults, order[j])
      invariant visited == set j | 0 <= j < i :: order[j]
      invariant output == FilledOn(values, defaults, visited)
    {
      var key := order[i];
      if defaults[key] == Str(REQUIRED) {
        if !Truthy(Get(values, key)) {
          FirstUnmetAt(values, defaults, order, i);
          return Err(RequiredMissing(key));
        }
        output := output[key := values[key]];
      } else {
        output := output[key := if Truthy(Get(values, key)) then Get(values, key) else defaults[key]];
      }
      FilledOnStep(values, defaults, visited, key);
      visited := visited + {key};
      i := i + 1;
    }
    assert visited == defaults.Keys by {
      forall k | k in defaults ensures k in visited {
        var j :| 0 <= j < |order| && order[j] == k;
      }
    }
    return Ok(output);
  }

  lemma FilledOnStep(values: Record, defaults: Record, keys: set<string>, key: string)
    requires key in defaults
    ensures FilledOn(values, defaults, keys)[key := Chosen(values, defaults, key)] == FilledOn(values, defaults, keys + {key})
  {
  }

  /** When every key before position `i` is met and `order[i]` is not, the error names `order[i]`. */
  lemma {:induction false} FirstUnmetAt(values: Record, defaults: Record, order: seq<string>, i: nat)
    requires i < |order|
    requires forall j :: 0 <= j < i ==> !Unmet(values, defaults, order[j])
    requires Unmet(values, defaults, order[i])
    ensures FirstUnmet(values, defaults, order) == Some(order[i])
  {
    if i > 0 {
      assert !Unmet(values, defaults, order[0]);
      FirstUnmetAt(values, defaults, order[1..], i - 1);
    }
  }

  /**
   * When several required keys are missing, the error names the first of
   * them in for...in order.
   */
  lemma {:induction false} MissingNamesFirst(values: Record, defaults: Record, order: seq<string>, k: string)
    requires Defaulted(values, defaults, order) == Err(RequiredMissing(k))
    ensures Unmet(values, defaults, k)
    ensures exists i :: 0 <= i < |order| && order[i] == k && forall j :: 0 <= j < i ==> !Unmet(values, defaults, order[j])
  {
    if Unmet(values, defaults, order[0]) {
      assert order[0] == k;
    } else {
      MissingNamesFirst(values, defaults, order[1..], k);
      var i :| 0 <= i < |order[1..]| && order[1..][i] == k && forall j :: 0 <= j < i ==> !Unmet(values, defaults, order[1..][j]);
      assert order[i + 1] == k;
      assert forall j :: 0 <= j < i + 1 ==> !Unmet(values, defaults, order[j]) by {
        forall j | 0 <= j < i + 1 ensures !Unmet(values, defaults, order[j]) {
          if j > 0 { assert order[j] == order[1..][j - 1]; }
        }
      }
    }
  }

  /** The merger fails exactly when some required key is left falsy in `values`. */
  lemma FailsIffRequiredUnmet(values: Record, defaults: Record, order: seq<string>)
    requires Enumerates(order, defaults)
    ensures Defaulted(values, defaults, order).Err? <==> exists k :: Unmet(values, defaults, k)
  {
    if k :| Unmet(values, defaults, k) {
      assert k in order;
    }
  }

  /**
   * On success: a satisfied required key is copied from `values`; any other
   * key of `defaults` takes `values[key]` when truthy and the default
   * otherwise; keys only in `values` pass through; no other key appears.
   */
  lemma DefaultedValues(values: Record, defaults: Record, order: seq<string>)
    requires Enumerates(order, defaults)
    requires Defaulted(values, defaults, order).Ok?
    ensures var out := Defaulted(values, defaults, order).value;
      && out.Keys == values.Keys + defaults.Keys
      && (forall k :: k in defaults && IsRequired(defaults[k]) ==> k in values && out[k] == values[k])
      && (forall k :: k in defaults && !IsRequired(defaults[k]) && Truthy(Get(values, k)) ==> out[k] == values[k])
      && (forall k :: k in defaults && !IsRequired(defaults[k]) && !Truthy(Get(values, k)) ==> out[k] == defaults[k])
      && (forall k :: k in values && k !in defaults ==> out[k] == values[k])
  {
  }

  /** With no `REQUIRED` entry, merging an empty bag gives back the defaults. */
  lemma EmptyGetsDefaults(defaults: Record, order: seq<string>)
    requires forall k :: k in defaults ==> !IsRequired(defaults[k])
    ensures Defaulted(map[], defaults, order) == Ok(defaults)
  {
    assert FirstUnmet(map[], defaults, order) == None;
    var out := Filled(map[], defaults);
    assert out.Keys == defaults.Keys;
    assert forall k :: k in defaults ==> out[k] == defaults[k];
    assert out == defaults;
  }

  /** Merging the output of a successful merge with the same defaults changes nothing. */
  lemma DefaultedIdempotent(values: Record, defaults: Record, order: seq<string>)
    requires Enumerates(order, defaults)
    requires Defaulted(values, defaults, order).Ok?
    ensures var out := Defaulted(values, defaults, order).value;
      Defaulted(out, defaults, order) == Ok(out)
  {
    var out := Defaulted(values, defaults, order).value;
    assert forall k :: k in order ==> !Unmet(out, defaults, k);
    var again := Filled(out, defaults);
    assert again.Keys == out.Keys;
    forall k | k in again ensures again[k] == out[k] {
      if k in defaults {
        assert out[k] == Chosen(values, defaults, k);
      }
    }
    assert again == out;
  }
}
