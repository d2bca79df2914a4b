/**
 * The converter registry of SmallRyeConfigBuilder: `getPriority`, the static
 * `addConverter` (both overloads) and the registration loop of
 * `withConverters`, as functions over the registry map.
 *
 * The rule of `addConverter(type, priority, converter, map)`: the entry for
 * `type` is written only when `type` is absent or `priority` is strictly
 * greater than the stored priority; what is written is the converter with
 * `getPriority(converter)`, NOT the supplied `priority`.
 */
module ConverterRegistry {
  import opened ConfigTypes

  /** The priority of a converter whose class carries no `@Priority`. */
  const DEFAULT_PRIORITY: int32 := 100

  type Registry = map<TypeKey, ConverterWithPriority>

  /** `getPriority`: the `@Priority` value of the converter's class, else 100. */
  function GetPriority(c: Converter): (p: int32)
    ensures c.priorityAnnotation.Some? ==> p == c.priorityAnnotation.value
    ensures c.priorityAnnotation.None? ==> p == DEFAULT_PRIORITY
  {
    match c.priorityAnnotation
    case Some(v) => v
    case None => DEFAULT_PRIORITY
  }

  /** Whether `addConverter(t, priority, _, m)` writes the entry for `t`. */
  predicate Replaces(m: Registry, t: TypeKey, priority: int32)
  {
    t !in m || priority > m[t].priority
  }

  /**
   * `addConverter(type, priority, converter, converters)`: only key `t` may
   * change; it is written iff absent or strictly outbid, and what is written
   * carries the converter's own resolved priority.
   */
  function AddConverter(t: TypeKey, priority: int32, c: Converter, m: Registry): (r: Registry)
    ensures r.Keys == m.Keys + {t}
    ensures forall k :: k in m && k != t ==> r[k] == m[k]
    ensures Replaces(m, t, priority) ==> r[t] == ConverterWithPriority(c, GetPriority(c))
    ensures !Replaces(m, t, priority) ==> r == m
  {
    if Replaces(m, t, priority) then m[t := ConverterWithPriority(c, GetPriority(c))] else m
  }

  /** `addConverter(type, converter, converters)`: the priority is resolved first. */
  function AddResolvedConverter(t: TypeKey, c: Converter, m: Registry): (r: Registry)
    ensures r.Keys == m.Keys + {t}
    ensures forall k :: k in m && k != t ==> r[k] == m[k]
    ensures t in m && GetPriority(c) <= m[t].priority ==> r[t] == m[t]
    ensures (t !in m || GetPriority(c) > m[t].priority) ==> r[t].converter == c && r[t].priority == GetPriority(c)
  {
    AddConverter(t, GetPriority(c), c, m)
  }

  /** Every entry records the resolved priority of its own converter. */
  ghost predicate Resolved(m: Registry)
  {
    forall t :: t in m ==> m[t].priority == GetPriority(m[t].converter)
  }

  /**
   * Whatever priority the caller supplies, the registry keeps recording
   * resolved priorities: the supplied value is used for the comparison only.
   */
  lemma AddConverterKeepsResolved(t: TypeKey, priority: int32, c: Converter, m: Registry)
    requires Resolved(m)
    ensures Resolved(AddConverter(t, priority, c, m))
    ensures AddConverter(t, priority, c, m)[t].priority == GetPriority(AddConverter(t, priority, c, m)[t].converter)
  {
    var r := AddConverter(t, priority, c, m);
    forall k | k in r
      ensures r[k].priority == GetPriority(r[k].converter)
    {
      if k != t { assert r[k] == m[k]; }
    }
  }

  /** On a tie the converter registered first stays. */
  lemma AddConverterTieKeepsFirst(t: TypeKey, c: Converter, m: Registry)
    requires t in m
    ensures AddConverter(t, m[t].priority, c, m) == m
  {
  }

  /**
   * The supplied priority is not what is recorded: a converter without
   * `@Priority` registered with priority 200 is stored with priority 100.
   */
  lemma SuppliedPriorityNotRecorded(t: TypeKey, c: Converter, m: Registry)
    requires t !in m && c.priorityAnnotation.None?
    ensures AddConverter(t, 200, c, m)[t] == ConverterWithPriority(c, 100)
  {
  }

  /** The result of the registration loop of `withConverters`. */
  datatype Registered = Registered(registry: Registry, thrown: Option<ConfigError>)

  /**
   * The loop of `withConverters` over `cs`, starting from registry `m`:
   * converters are added in order through `addConverter(type, converter, map)`;
   * the first one without a determinable target type throws, leaving what was
   * registered before it in place. Written from the last converter back, so
   * that `RegisterAll(cs[..i], m)` is the state after `i` iterations.
   */
  function RegisterAll(cs: seq<Converter>, m: Registry): (r: Registered)
    ensures m.Keys <= r.registry.Keys
    ensures r.thrown.Some? ==> r.thrown.value.converter in cs && r.thrown.value.converter.targetType.None?
    decreases |cs|
  {
    if cs == [] then Registered(m, None)
    else
      var prev := RegisterAll(cs[..|cs| - 1], m);
      var c := cs[|cs| - 1];
      if prev.thrown.Some? then prev
      else match c.targetType
        case None => Registered(prev.registry, Some(NotParameterized(c)))
        case Some(t) => Registered(AddResolvedConverter(t, c, prev.registry), None)
  }

  /** Every converter of `cs` has a determinable target type. */
  predicate AllParameterized(cs: seq<Converter>)
  {
    forall i :: 0 <= i < |cs| ==> cs[i].targetType.Some?
  }

  /** The set of target types of the converters in `cs`. */
  function TargetsOf(cs: seq<Converter>): (ts: set<TypeKey>)
    ensures forall i :: 0 <= i < |cs| && cs[i].targetType.Some? ==> cs[i].targetType.value in ts
    ensures forall t :: t in ts ==> exists i :: 0 <= i < |cs| && cs[i].targetType == Some(t)
  {
    set i | 0 <= i < |cs| && cs[i].targetType.Some? :: cs[i].targetType.value
  }

  /** The target types of `cs` are those of all but its last converter, and the last one's. */
  lemma TargetsOfLast(cs: seq<Converter>)
    requires cs != [] && cs[|cs| - 1].targetType.Some?
    ensures TargetsOf(cs) == TargetsOf(cs[..|cs| - 1]) + {cs[|cs| - 1].targetType.value}
  {
    var init := cs[..|cs| - 1];
    forall t | t in TargetsOf(cs) ensures t in TargetsOf(init) + {cs[|cs| - 1].targetType.value} {
      var i :| 0 <= i < |cs| && cs[i].targetType == Some(t);
      if i < |init| { assert init[i] == cs[i]; }
    }
    forall t | t in TargetsOf(init) ensures t in TargetsOf(cs) {
      var i :| 0 <= i < |init| && init[i].targetType == Some(t);
      assert cs[i] == init[i];
    }
  }

  /** The loop throws iff some converter is not parameterized. */
  lemma {:induction false} RegisterAllThrowsIff(cs: seq<Converter>, m: Registry)
    ensures RegisterAll(cs, m).thrown.None? <==> AllParameterized(cs)
    decreases |cs|
  {
    if cs != [] {
      var init := cs[..|cs| - 1];
      RegisterAllThrowsIff(init, m);
      assert forall i :: 0 <= i < |init| ==> init[i] == cs[i];
    }
  }

  /**
   * When converter `k` is the first one whose target type is undeterminable,
   * the loop throws naming it; the registry holds exactly what the converters
   * before it registered, and none after it is processed.
   */
  lemma {:induction false} RegisterAllStopsAt(cs: seq<Converter>, k: nat, m: Registry)
    requires k < |cs| && cs[k].targetType.None?
    requires AllParameterized(cs[..k])
    ensures RegisterAll(cs[..k], m).thrown.None?
    ensures RegisterAll(cs, m) == Registered(RegisterAll(cs[..k], m).registry, Some(NotParameterized(cs[k])))
    decreases |cs|
  {
    RegisterAllThrowsIff(cs[..k], m);
    if |cs| == k + 1 {
      assert cs[..|cs| - 1] == cs[..k];
    } else {
      var init := cs[..|cs| - 1];
      assert init[..k] == cs[..k];
      RegisterAllStopsAt(init, k, m);
    }
  }

  /** One more iteration of a loop that has not thrown, on a parameterized converter. */
  lemma RegisterAllLast(cs: seq<Converter>, m: Registry)
    requires cs != [] && AllParameterized(cs)
    ensures AllParameterized(cs[..|cs| - 1])
    ensures RegisterAll(cs[..|cs| - 1], m).thrown.None?
    ensures RegisterAll(cs, m) == Registered(
      AddResolvedConverter(cs[|cs| - 1].targetType.value, cs[|cs| - 1], RegisterAll(cs[..|cs| - 1], m).registry), None)
  {
    var init := cs[..|cs| - 1];
    assert forall i :: 0 <= i < |init| ==> init[i] == cs[i];
    RegisterAllThrowsIff(init, m);
  }

  /** After a successful loop the key set is the old one plus every target type. */
  lemma {:induction false} RegisterAllKeys(cs: seq<Converter>, m: Registry)
    requires AllParameterized(cs)
    ensures RegisterAll(cs, m).thrown.None?
    ensures RegisterAll(cs, m).registry.Keys == m.Keys + TargetsOf(cs)
    decreases |cs|
  {
    RegisterAllThrowsIff(cs, m);
    if cs != [] {
      var init := cs[..|cs| - 1];
      var c := cs[|cs| - 1];
      RegisterAllLast(cs, m);
      RegisterAllKeys(init, m);
      TargetsOfLast(cs);
    }
  }

  /**
   * Converter `i` is the one `withConverters` keeps for type `t`: it targets
   * `t`, its priority is strictly greater than that of every earlier
   * converter for `t`, and no later converter for `t` has a greater one.
   */
  ghost predicate IsWinner(cs: seq<Converter>, t: TypeKey, i: int)
  {
    && 0 <= i < |cs|
    && cs[i].targetType == Some(t)
    && (forall j :: 0 <= j < i && cs[j].targetType == Some(t) ==> GetPriority(cs[j]) < GetPriority(cs[i]))
    && (forall j :: i < j < |cs| && cs[j].targetType == Some(t) ==> GetPriority(cs[j]) <= GetPriority(cs[i]))
  }

  /** At most one converter is the winner for a type. */
  lemma WinnerUnique(cs: seq<Converter>, t: TypeKey, i: int, j: int)
    requires IsWinner(cs, t, i) && IsWinner(cs, t, j)
    ensures i == j
  {
  }

  /** Some converter of `cs` targets `t` with priority strictly above `floor`. */
  ghost predicate Outbids(cs: seq<Converter>, t: TypeKey, floor: Option<int32>)
  {
    exists j :: 0 <= j < |cs| && cs[j].targetType == Some(t) &&
      (floor.None? || GetPriority(cs[j]) > floor.value)
  }

  /** The priority already registered for `t`, if any. */
  function Floor(m: Registry, t: TypeKey): (f: Option<int32>)
    ensures f.Some? <==> t in m
  {
    if t in m then Some(m[t].priority) else None
  }

  /**
   * What `withConverters` leaves registered for type `t` in `r`: if no
   * converter of `cs` outbids the existing entry, the entry (or its absence)
   * is as before; otherwise it is the first converter of highest priority
   * among those for `t`, above the existing entry, with that priority.
   */
  ghost predicate KeepsFirstHighest(cs: seq<Converter>, m: Registry, r: Registry, t: TypeKey)
  {
    && (!Outbids(cs, t, Floor(m, t)) ==> (t in r <==> t in m) && (t in m ==> r[t] == m[t]))
    && (Outbids(cs, t, Floor(m, t)) ==>
          exists i :: IsWinner(cs, t, i) && (t in m ==> GetPriority(cs[i]) > m[t].priority) &&
            t in r && r[t] == ConverterWithPriority(cs[i], GetPriority(cs[i])))
  }

  /** One iteration on a converter for another type leaves the choice for `t` alone. */
  lemma KeepsFirstHighestOtherType(init: seq<Converter>, c: Converter, m: Registry, r: Registry, t: TypeKey)
    requires c.targetType.Some? && c.targetType != Some(t)
    requires KeepsFirstHighest(init, m, r, t)
    ensures KeepsFirstHighest(init + [c], m, AddResolvedConverter(c.targetType.value, c, r), t)
  {
    var cs := init + [c];
    var r2 := AddResolvedConverter(c.targetType.value, c, r);
    var fl := Floor(m, t);
    assert t in r2 <==> t in r;
    assert t in r ==> r2[t] == r[t];
    if Outbids(cs, t, fl) {
      var j :| 0 <= j < |cs| && cs[j].targetType == Some(t) && (fl.None? || GetPriority(cs[j]) > fl.value);
      assert init[j] == cs[j];
      assert Outbids(init, t, fl);
      var i :| IsWinner(init, t, i) && (t in m ==> GetPriority(init[i]) > m[t].priority) &&
        t in r && r[t] == ConverterWithPriority(init[i], GetPriority(init[i]));
      assert IsWinner(cs, t, i);
    } else {
      assert forall j :: 0 <= j < |init| ==> cs[j] == init[j];
    }
  }

  /** One iteration on a converter for `t` that outbids the current choice. */
  lemma KeepsFirstHighestNewWinner(init: seq<Converter>, c: Converter, m: Registry, r: Registry, t: TypeKey)
    requires c.targetType == Some(t)
    requires KeepsFirstHighest(init, m, r, t)
    requires t !in r || GetPriority(c) > r[t].priority
    ensures KeepsFirstHighest(init + [c], m, AddResolvedConverter(t, c, r), t)
  {
    var cs := init + [c];
    var n := |init|;
    var fl := Floor(m, t);
    var p := GetPriority(c);
    assert Outbids(cs, t, fl) by {
      assert cs[n] == c;
    }
    if Outbids(init, t, fl) {
      var i :| IsWinner(init, t, i) && (t in m ==> GetPriority(init[i]) > m[t].priority) &&
        t in r && r[t] == ConverterWithPriority(init[i], GetPriority(init[i]));
    }
    assert forall j :: 0 <= j < n ==> cs[j] == init[j];
    assert IsWinner(cs, t, n);
  }

  /** One iteration on a converter for `t` that does not outbid the current choice. */
  lemma KeepsFirstHighestSameWinner(init: seq<Converter>, c: Converter, m: Registry, r: Registry, t: TypeKey)
    requires c.targetType == Some(t)
    requires KeepsFirstHighest(init, m, r, t)
    requires t in r && GetPriority(c) <= r[t].priority
    ensures KeepsFirstHighest(init + [c], m, AddResolvedConverter(t, c, r), t)
  {
    var cs := init + [c];
    var n := |init|;
    var fl := Floor(m, t);
    assert AddResolvedConverter(t, c, r) == r;
    if Outbids(init, t, fl) {
      var i :| IsWinner(init, t, i) && (t in m ==> GetPriority(init[i]) > m[t].priority) &&
        t in r && r[t] == ConverterWithPriority(init[i], GetPriority(init[i]));
      assert cs[i] == init[i];
      assert Outbids(cs, t, fl);
      assert IsWinner(cs, t, i);
    } else {
      assert forall j :: 0 <= j < n ==> cs[j] == init[j];
    }
  }

  /**
   * The loop of `withConverters` keeps, for each type, the first converter of
   * highest priority, and only if it outbids what was registered before.
   */
  lemma {:induction false} RegisterAllKeepsFirstHighest(cs: seq<Converter>, m: Registry, t: TypeKey)
    requires AllParameterized(cs)
    ensures KeepsFirstHighest(cs, m, RegisterAll(cs, m).registry, t)
    decreases |cs|
  {
    if cs == [] {
      assert !Outbids(cs, t, Floor(m, t));
      return;
    }
    var n := |cs| - 1;
    var init, c := cs[..n], cs[n];
    assert cs == init + [c];
    RegisterAllLast(cs, m);
    RegisterAllKeepsFirstHighest(init, m, t);
    var r := RegisterAll(init, m).registry;
    if c.targetType != Some(t) {
      KeepsFirstHighestOtherType(init, c, m, r, t);
    } else if t in r && GetPriority(c) <= r[t].priority {
      KeepsFirstHighestSameWinner(init, c, m, r, t);
    } else {
      KeepsFirstHighestNewWinner(init, c, m, r, t);
    }
  }

  /** The registration loop keeps every recorded priority resolved. */
  lemma {:induction false} RegisterAllKeepsResolved(cs: seq<Converter>, m: Registry)
    requires Resolved(m)
    ensures Resolved(RegisterAll(cs, m).registry)
    decreases |cs|
  {
    if cs != [] {
      var init := cs[..|cs| - 1];
      RegisterAllKeepsResolved(init, m);
      var prev := RegisterAll(init, m);
      var c := cs[|cs| - 1];
      if prev.thrown.None? && c.targetType.Some? {
        AddConverterKeepsResolved(c.targetType.value, GetPriority(c), c, prev.registry);
      }
    }
  }
}
