/** `get_specific_location`: the place names a reverse-geocode answer holds,
    keeping only address components with an allow-listed type. The geocoding
    call itself is an input: `result` is what `gmaps.reverse_geocode` returned. */
module Location {
  import opened Values

  /** `result_types`: the address-component types worth reporting. */
  const ResultTypes: seq<string> := ["colloquial_area", "sublocality", "neighborhood", "premise",
    "subpremise", "natural_feature", "airport", "park", "point_of_interest"]

  /** Some element of a list of types is an allow-listed type string. */
  predicate SomeListedType(ts: seq<Value>) {
    exists i :: 0 <= i < |ts| && ts[i].Str? && ts[i].s in ResultTypes
  }

  /** Some character of a string, as a one-character string, is allow-listed. */
  predicate SomeListedChar(s: string) {
    exists i :: 0 <= i < |s| && [s[i]] in ResultTypes
  }

  /** Some key of a dict is allow-listed. */
  predicate SomeListedKey(m: map<string, Value>) {
    exists k :: k in m && k in ResultTypes
  }

  /** `any([t in result_types for t in types])`. Iterating a string yields its
      one-character strings and iterating a dict its keys; each `in` test is
      an equality test and never raises. */
  function TypesMatch(types: Value): Result<bool> {
    match types
    case Arr(ts) => Ok(SomeListedType(ts))
    case Str(s) => Ok(SomeListedChar(s))
    case Obj(m) => Ok(SomeListedKey(m))
    case _ => Err(TypeError)
  }

  /** The name one address component contributes, if any: its `long_name`
      when one of its `types` is allow-listed. `types` is read for every
      component, `long_name` only for a matching one. */
  function Component(ac: Value): Result<Option<string>> {
    var types :- Get(ac, "types");
    var matches :- TypesMatch(types);
    if !matches then Ok(None)
    else
      var name :- Get(ac, "long_name");
      if name.Str? then Ok(Some(name.s)) else Err(TypeError)
  }

  /** `r['address_components']`, iterated. */
  function Components(r: Value): Result<seq<Value>> {
    var acs :- Get(r, "address_components");
    Iter(acs)
  }

  /** The names the first `n` components of `acs` contribute, in loop order. */
  function ComponentNames(acs: seq<Value>, n: nat): Result<set<string>>
    requires n <= |acs|
  {
    if n == 0 then Ok({})
    else
      var before :- ComponentNames(acs, n - 1);
      var c :- Component(acs[n - 1]);
      Ok(if c.Some? then before + {c.value} else before)
  }

  /** The names the first `n` geocode results of `rs` contribute, in loop order. */
  function NamesOf(rs: seq<Value>, n: nat): Result<set<string>>
    requires n <= |rs|
  {
    if n == 0 then Ok({})
    else
      var before :- NamesOf(rs, n - 1);
      var acs :- Components(rs[n - 1]);
      var more :- ComponentNames(acs, |acs|);
      Ok(before + more)
  }

  /** The set `out` that `get_specific_location` builds from `result`. */
  function LocationNames(result: Value): Result<set<string>> {
    var rs :- Iter(result);
    NamesOf(rs, |rs|)
  }

  /** The inner loop of `get_specific_location` over the components `acs` of
      one result, adding each matching component's name to `out`. */
  method AddComponentNames(acs: seq<Value>, out0: set<string>) returns (r: Result<set<string>>)
    ensures r.Ok? <==> ComponentNames(acs, |acs|).Ok?
    ensures r.Ok? ==> r.value == out0 + ComponentNames(acs, |acs|).value
    ensures r.Err? ==> r.error == ComponentNames(acs, |acs|).error
  {
    var out := out0;
    var j := 0;
    while j < |acs|
      invariant 0 <= j <= |acs|
      invariant ComponentNames(acs, j).Ok?
      invariant out == out0 + ComponentNames(acs, j).value
    {
      var ac := acs[j];
      var types := Get(ac, "types");
      if types.Err? {
        ComponentRaises(acs, j);
        return Err(types.error);
      }
      var matches := TypesMatch(types.value);
      if matches.Err? {
        ComponentRaises(acs, j);
        return Err(matches.error);
      }
      if matches.value {
        var name := Get(ac, "long_name");
        if name.Err? {
          ComponentRaises(acs, j);
          return Err(name.error);
        }
        if !name.value.Str? {
          ComponentRaises(acs, j);
          return Err(TypeError);
        }
        out := out + {name.value.s};
      }
      j := j + 1;
    }
    return Ok(out);
  }

  /** The nested loops of `get_specific_location`, adding each matching
      component's name to the set `out`. The conversion `list(out)` that
      follows yields the same names, each once, in an unspecified order. */
  method GetSpecificLocation(result: Value) returns (r: Result<set<string>>)
    ensures r == LocationNames(result)
  {
    var rs := Iter(result);
    if rs.Err? {
      return Err(rs.error);
    }
    var out: set<string> := {};
    var i := 0;
    while i < |rs.value|
      invariant 0 <= i <= |rs.value|
      invariant NamesOf(rs.value, i) == Ok(out)
    {
      var acs := Components(rs.value[i]);
      if acs.Err? {
        NamesOfFailurePersists(rs.value, i + 1, |rs.value|);
        return Err(acs.error);
      }
      var more := AddComponentNames(acs.value, out);
      if more.Err? {
        ResultStepFails(rs.value, i + 1, acs.value);
        NamesOfFailurePersists(rs.value, i + 1, |rs.value|);
        return Err(more.error);
      }
      out := more.value;
      i := i + 1;
    }
    return Ok(out);
  }

  /** Once the first `k` results raise, so does the whole loop. */
  lemma {:induction false} NamesOfFailurePersists(rs: seq<Value>, k: nat, n: nat)
    requires k <= n <= |rs| && NamesOf(rs, k).Err?
    ensures NamesOf(rs, n) == NamesOf(rs, k)
    decreases n
  {
    if k < n {
      NamesOfFailurePersists(rs, k, n - 1);
    }
  }

  /** Once the first `k` components raise, so does the inner loop. */
  lemma {:induction false} ComponentNamesFailurePersists(acs: seq<Value>, k: nat, n: nat)
    requires k <= n <= |acs| && ComponentNames(acs, k).Err?
    ensures ComponentNames(acs, n) == ComponentNames(acs, k)
    decreases n
  {
    if k < n {
      ComponentNamesFailurePersists(acs, k, n - 1);
    }
  }

  /** Component `n - 1` raises after the first `n - 1` were read. */
  lemma ComponentStepFails(acs: seq<Value>, n: nat)
    requires 0 < n <= |acs| && ComponentNames(acs, n - 1).Ok? && Component(acs[n - 1]).Err?
    ensures ComponentNames(acs, n) == Err(Component(acs[n - 1]).error)
  {
  }

  /** Component `j` raises after the first `j` were read, so the whole inner
      loop raises the same. */
  lemma ComponentRaises(acs: seq<Value>, j: nat)
    requires j < |acs| && ComponentNames(acs, j).Ok? && Component(acs[j]).Err?
    ensures ComponentNames(acs, |acs|) == Err(Component(acs[j]).error)
  {
    ComponentStepFails(acs, j + 1);
    ComponentNamesFailurePersists(acs, j + 1, |acs|);
  }

  /** The inner loop for result `n - 1` raises after the first `n - 1` were read. */
  lemma ResultStepFails(rs: seq<Value>, n: nat, acs: seq<Value>)
    requires 0 < n <= |rs| && NamesOf(rs, n - 1).Ok? && Components(rs[n - 1]) == Ok(acs)
    requires ComponentNames(acs, |acs|).Err?
    ensures NamesOf(rs, n) == Err(ComponentNames(acs, |acs|).error)
  {
  }

  /** An address component with the long name `name` and an allow-listed type. */
  predicate NamesPlace(ac: Value, name: string) {
    && ac.Obj? && "types" in ac.fields && TypesMatch(ac.fields["types"]) == Ok(true)
    && "long_name" in ac.fields && ac.fields["long_name"] == Str(name)
  }

  /** A geocode result one of whose address components names `name`. */
  ghost predicate ResultNames(r: Value, name: string) {
    Components(r).Ok? && exists j :: 0 <= j < |Components(r).value| && NamesPlace(Components(r).value[j], name)
  }

  /** A component the loop body gets through without raising. */
  predicate ComponentReadable(ac: Value) {
    Component(ac).Ok?
  }

  /** A result the loop body gets through without raising. */
  ghost predicate ResultReadable(r: Value) {
    Components(r).Ok? && forall j :: 0 <= j < |Components(r).value| ==> ComponentReadable(Components(r).value[j])
  }

  lemma ComponentSpec(ac: Value, name: string)
    requires Component(ac).Ok?
    ensures Component(ac).value == Some(name) <==> NamesPlace(ac, name)
  {
  }

  /** The first `n` components are read without raising exactly when each of
      them can be, and then a name is collected iff one of them names it. */
  lemma {:induction false} ComponentNamesSpec(acs: seq<Value>, n: nat)
    requires n <= |acs|
    ensures ComponentNames(acs, n).Ok? <==> forall j :: 0 <= j < n ==> ComponentReadable(acs[j])
    ensures ComponentNames(acs, n).Ok? ==>
      forall name :: name in ComponentNames(acs, n).value <==> exists j :: 0 <= j < n && NamesPlace(acs[j], name)
    decreases n
  {
    if n > 0 {
      ComponentNamesSpec(acs, n - 1);
      if ComponentNames(acs, n).Ok? {
        forall name ensures name in ComponentNames(acs, n).value <==> exists j :: 0 <= j < n && NamesPlace(acs[j], name) {
          ComponentSpec(acs[n - 1], name);
        }
      }
    }
  }

  /** The outer loop gets through its first `n` geocode results exactly when
      each of them can be read. */
  lemma {:induction false} NamesOfReadable(rs: seq<Value>, n: nat)
    requires n <= |rs|
    ensures NamesOf(rs, n).Ok? <==> forall i :: 0 <= i < n ==> ResultReadable(rs[i])
    decreases n
  {
    if n > 0 {
      NamesOfReadable(rs, n - 1);
      var acs := Components(rs[n - 1]);
      if acs.Ok? {
        ComponentNamesSpec(acs.value, |acs.value|);
      }
    }
  }

  /** When it gets through them, a name is collected iff one of those results
      names it. */
  lemma {:induction false} NamesOfMembers(rs: seq<Value>, n: nat)
    requires n <= |rs| && NamesOf(rs, n).Ok?
    ensures forall name :: name in NamesOf(rs, n).value <==> exists i :: 0 <= i < n && ResultNames(rs[i], name)
    decreases n
  {
    if n > 0 {
      NamesOfMembers(rs, n - 1);
      var before := NamesOf(rs, n - 1).value;
      var acs := Components(rs[n - 1]).value;
      ComponentNamesSpec(acs, |acs|);
      var more := ComponentNames(acs, |acs|).value;
      assert NamesOf(rs, n).value == before + more;
      forall name ensures name in NamesOf(rs, n).value <==> exists i :: 0 <= i < n && ResultNames(rs[i], name) {
        if name in more {
          assert ResultNames(rs[n - 1], name);
        }
      }
    }
  }

  /** `get_specific_location` succeeds exactly when every result and every
      component can be read, and then a name is in its answer iff some
      component of some result has that long name and an allow-listed type.
      Being a set, the answer holds each name once. */
  lemma LocationNamesSpec(result: Value)
    ensures LocationNames(result).Ok? <==>
      Iter(result).Ok? && forall i :: 0 <= i < |Iter(result).value| ==> ResultReadable(Iter(result).value[i])
    ensures LocationNames(result).Ok? ==>
      forall name :: name in LocationNames(result).value <==>
        exists i :: 0 <= i < |Iter(result).value| && ResultNames(Iter(result).value[i], name)
  {
    if Iter(result).Ok? {
      NamesOfReadable(Iter(result).value, |Iter(result).value|);
      if LocationNames(result).Ok? {
        NamesOfMembers(Iter(result).value, |Iter(result).value|);
      }
    }
  }
}
