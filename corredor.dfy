/** pkg/corredor/util.go: helpers that prepare automation-script triggers. Triggers are shared by
    reference, so they are objects here and the helpers change them in place. */
module Corredor {
  import opened Wrappers

  /** The event type of manually run scripts (declared elsewhere in the package). */
  const OnManualEventType: string := "onManual"

  /** A trigger constraint as a script declares it. */
  datatype TriggerConstraint = TriggerConstraint(name: string, op: string, value: seq<string>)

  /** What `eventbus.ConstraintMaker` builds; the event bus is not modelled, so a built constraint
      is known only through the maker that produced it. */
  datatype BusConstraint = BusConstraint(name: string, op: string, values: seq<string>)

  /** `eventbus.HandlerRegOp`: the options `On`, `For` and `Constraint`, as opaque constructors. */
  datatype HandlerRegOp = On(eventTypes: seq<string>) | For(resourceTypes: seq<string>) | Constraint(c: BusConstraint)

  class Trigger {
    var eventTypes: seq<string>
    var resourceTypes: seq<string>
    var constraints: seq<TriggerConstraint>

    constructor (eventTypes: seq<string>, resourceTypes: seq<string>, constraints: seq<TriggerConstraint>)
      ensures this.eventTypes == eventTypes && this.resourceTypes == resourceTypes
      ensures this.constraints == constraints
    {
      this.eventTypes := eventTypes;
      this.resourceTypes := resourceTypes;
      this.constraints := constraints;
    }
  }

  /** A script (`Script` and `ServerScript` alike): its triggers, by reference. The list itself is
      never replaced; the triggers it points to are updated in place. */
  class Script {
    const triggers: seq<Trigger>

    constructor (triggers: seq<Trigger>)
      ensures this.triggers == triggers
    {
      this.triggers := triggers;
    }
  }

  /** `s` with every occurrence of `x` removed, the rest in order. */
  function Without(s: seq<string>, x: string): seq<string> {
    if s == [] then [] else (if s[0] == x then [] else [s[0]]) + Without(s[1..], x)
  }

  /** Removal distributes over concatenation, so the elements kept stay in their order. */
  lemma {:induction false} WithoutAppend(a: seq<string>, b: seq<string>, x: string)
    ensures Without(a + b, x) == Without(a, x) + Without(b, x)
  {
    if a == [] {
      assert a + b == b;
    } else {
      assert (a + b)[0] == a[0];
      assert (a + b)[1..] == a[1..] + b;
      WithoutAppend(a[1..], b, x);
      var h := if a[0] == x then [] else [a[0]];
      assert Without(a + b, x) == h + Without(a[1..] + b, x);
      assert Without(a, x) == h + Without(a[1..], x);
    }
  }

  /** Removal deletes every `x` and only the `x`s: each other value occurs as often as before. */
  lemma {:induction false} WithoutCounts(s: seq<string>, x: string)
    ensures multiset(Without(s, x)) == multiset(s)[x := 0]
    ensures x !in Without(s, x)
  {
    if s != [] {
      WithoutCounts(s[1..], x);
      assert s == [s[0]] + s[1..];
      assert multiset(s) == multiset([s[0]]) + multiset(s[1..]);
    }
  }

  lemma WithoutNoOccurrence(s: seq<string>, x: string)
    requires x !in s
    ensures Without(s, x) == s
  {
    if s != [] {
      WithoutNoOccurrence(s[1..], x);
    }
  }

  /** `popOnManualEventType`: deletes, from the back, every on-manual event type of the
      trigger; reports whether there was one. */
  method PopOnManualEventType(trigger: Trigger) returns (found: bool)
    modifies trigger
    ensures trigger.eventTypes == Without(old(trigger.eventTypes), OnManualEventType)
    ensures found <==> OnManualEventType in old(trigger.eventTypes)
    ensures trigger.resourceTypes == old(trigger.resourceTypes) && trigger.constraints == old(trigger.constraints)
  {
    ghost var orig := trigger.eventTypes;
    found := false;
    var i := |trigger.eventTypes| - 1;
    while i >= 0
      invariant -1 <= i < |orig|
      invariant trigger.eventTypes == orig[..i + 1] + Without(orig[i + 1..], OnManualEventType)
      invariant found <==> OnManualEventType in orig[i + 1..]
      invariant trigger.resourceTypes == old(trigger.resourceTypes) && trigger.constraints == old(trigger.constraints)
    {
      assert orig[i..][0] == orig[i] && orig[i..][1..] == orig[i + 1..];
      assert trigger.eventTypes[i] == orig[i];
      if trigger.eventTypes[i] == OnManualEventType {
        found := true;
        trigger.eventTypes := trigger.eventTypes[..i] + trigger.eventTypes[i + 1..];
        assert trigger.eventTypes == orig[..i] + Without(orig[i..], OnManualEventType);
      } else {
        assert orig[..i + 1] == orig[..i] + [orig[i]];
      }
      assert orig[i..] == [orig[i]] + orig[i + 1..];
      i := i - 1;
    }
    assert orig[0..] == orig;
  }

  function EventTypesOf(ts: seq<Trigger>): (r: seq<seq<string>>)
    reads ts
    ensures |r| == |ts| && forall i :: 0 <= i < |ts| ==> r[i] == ts[i].eventTypes
  {
    if ts == [] then [] else [ts[0].eventTypes] + EventTypesOf(ts[1..])
  }

  function ResourceTypesOf(ts: seq<Trigger>): (r: seq<seq<string>>)
    reads ts
    ensures |r| == |ts| && forall i :: 0 <= i < |ts| ==> r[i] == ts[i].resourceTypes
  {
    if ts == [] then [] else [ts[0].resourceTypes] + ResourceTypesOf(ts[1..])
  }

  function Members(s: seq<string>): set<string> {
    set x | x in s
  }

  function ConstraintsOf(ts: seq<Trigger>): (r: seq<seq<TriggerConstraint>>)
    reads ts
    ensures |r| == |ts| && forall i :: 0 <= i < |ts| ==> r[i] == ts[i].constraints
  {
    if ts == [] then [] else [ts[0].constraints] + ConstraintsOf(ts[1..])
  }

  /** The resource types of the triggers that have an on-manual event type. */
  function ManualResources(ets: seq<seq<string>>, rts: seq<seq<string>>): set<string>
    requires |ets| == |rts|
  {
    if ets == [] then {}
    else
      ManualResources(ets[..|ets| - 1], rts[..|rts| - 1]) +
      (if OnManualEventType in ets[|ets| - 1] then Members(rts[|rts| - 1]) else {})
  }

  /** A resource type is collected iff some trigger with an on-manual event type lists it. */
  lemma {:induction false} ManualResourcesMembers(ets: seq<seq<string>>, rts: seq<seq<string>>, r: string)
    requires |ets| == |rts|
    ensures r in ManualResources(ets, rts) <==>
      exists i :: 0 <= i < |ets| && OnManualEventType in ets[i] && r in rts[i]
  {
    if ets != [] {
      var n := |ets| - 1;
      ManualResourcesMembers(ets[..n], rts[..n], r);
      if r in ManualResources(ets, rts) && r !in ManualResources(ets[..n], rts[..n]) {
        assert OnManualEventType in ets[n] && r in rts[n];
      }
      if exists i :: 0 <= i < |ets| && OnManualEventType in ets[i] && r in rts[i] {
        var i :| 0 <= i < |ets| && OnManualEventType in ets[i] && r in rts[i];
        if i < n {
          assert ets[..n][i] == ets[i] && rts[..n][i] == rts[i];
        }
      }
    }
  }

  /** The original event and resource types `ets` and `rts` agree for entries that are the same
      trigger. */
  ghost predicate SameTriggerSameTypes(ts: seq<Trigger>, ets: seq<seq<string>>, rts: seq<seq<string>>) {
    |ets| == |ts| && |rts| == |ts| &&
    forall j, k :: 0 <= j < |ts| && 0 <= k < |ts| && ts[j] == ts[k] ==> ets[j] == ets[k] && rts[j] == rts[k]
  }

  /** The triggers after `pluckManualTriggers` has handled the first `i` of them. */
  ghost predicate PoppedUpTo(ts: seq<Trigger>, ets: seq<seq<string>>, rts: seq<seq<string>>, cs: seq<seq<TriggerConstraint>>, i: nat)
    reads ts
  {
    |ets| == |ts| && |rts| == |ts| && |cs| == |ts| && i <= |ts| &&
    (forall j :: 0 <= j < |ts| ==> ts[j].resourceTypes == rts[j] && ts[j].constraints == cs[j]) &&
    (forall j :: 0 <= j < |ts| ==>
      ts[j].eventTypes == if ts[j] in ts[..i] then Without(ets[j], OnManualEventType) else ets[j])
  }

  /** The map after the first `i` triggers: every collected resource type, mapped to true. */
  ghost predicate CollectedUpTo(ets: seq<seq<string>>, rts: seq<seq<string>>, i: nat, hash: map<string, bool>) {
    i <= |ets| == |rts| && hash.Keys == ManualResources(ets[..i], rts[..i]) && (forall k :: k in hash ==> hash[k])
  }

  /** Marks every resource type in `rs` as true. */
  method MarkAll(hash: map<string, bool>, rs: seq<string>) returns (h: map<string, bool>)
    ensures h.Keys == hash.Keys + Members(rs)
    ensures forall k :: k in h ==> (if k in rs then h[k] else h[k] == hash[k])
  {
    h := hash;
    for k := 0 to |rs|
      invariant h.Keys == hash.Keys + Members(rs[..k])
      invariant forall key :: key in h ==> (if key in rs[..k] then h[key] else h[key] == hash[key])
    {
      h := h[rs[k] := true];
      assert rs[..k + 1] == rs[..k] + [rs[k]];
    }
    assert rs[..|rs|] == rs;
  }

  /** The first half of a turn of `pluckManualTriggers`' loop: popping `ts[i]`, which finds an
      on-manual event type only on the trigger's first visit. */
  method PopStep(ts: seq<Trigger>, ghost ets: seq<seq<string>>, ghost rts: seq<seq<string>>,
                 ghost cs: seq<seq<TriggerConstraint>>, i: nat)
    returns (found: bool)
    requires i < |ts| && SameTriggerSameTypes(ts, ets, rts) && PoppedUpTo(ts, ets, rts, cs, i)
    modifies ts[i]
    ensures PoppedUpTo(ts, ets, rts, cs, i + 1)
    ensures found <==> OnManualEventType in ets[i] && ts[i] !in ts[..i]
  {
    var trigger := ts[i];
    ghost var aliased := trigger in ts[..i];
    assert trigger.eventTypes == if aliased then Without(ets[i], OnManualEventType) else ets[i];
    found := PopOnManualEventType(trigger);
    SliceSnoc(ts, i);
    WithoutCounts(ets[i], OnManualEventType);
    if aliased {
      WithoutNoOccurrence(Without(ets[i], OnManualEventType), OnManualEventType);
    }
    assert trigger.eventTypes == Without(ets[i], OnManualEventType);
    forall j | 0 <= j < |ts|
      ensures ts[j].eventTypes == if ts[j] in ts[..i + 1] then Without(ets[j], OnManualEventType) else ets[j]
    {
      if ts[j] == trigger {
        assert ets[j] == ets[i];
      } else {
        assert (ts[j] in ts[..i + 1]) == (ts[j] in ts[..i]);
      }
    }
  }

  /** The second half: the trigger's resource types are added when the pop found something. */
  method CollectStep(ts: seq<Trigger>, ghost ets: seq<seq<string>>, ghost rts: seq<seq<string>>, i: nat,
                     hash: map<string, bool>, found: bool, rs: seq<string>)
    returns (h: map<string, bool>)
    requires i < |ts| && SameTriggerSameTypes(ts, ets, rts) && CollectedUpTo(ets, rts, i, hash)
    requires found <==> OnManualEventType in ets[i] && ts[i] !in ts[..i]
    requires rs == rts[i]
    ensures CollectedUpTo(ets, rts, i + 1, h)
  {
    SliceSnoc(ets, i);
    SliceSnoc(rts, i);
    ManualResourcesSnoc(ets[..i], rts[..i], ets[i], rts[i]);
    if found {
      h := MarkAll(hash, rs);
    } else {
      h := hash;
      if OnManualEventType in ets[i] {
        var j :| 0 <= j < i && ts[j] == ts[i];
        assert ets[..i][j] == ets[i] && rts[..i][j] == rts[i];
        ManualResourcesHas(ets[..i], rts[..i], j);
      }
    }
  }

  /** `pluckManualTriggers`: strips the on-manual event type from each of the script's own
      triggers and returns, all mapped to true, the resource types of those that had it.
      A trigger listed twice is handled once, as its second pass finds nothing to remove. */
  method PluckManualTriggers(script: Script) returns (hash: map<string, bool>)
    modifies script.triggers
    ensures forall j :: 0 <= j < |script.triggers| ==>
      script.triggers[j].eventTypes == Without(old(script.triggers[j].eventTypes), OnManualEventType) &&
      script.triggers[j].resourceTypes == old(script.triggers[j].resourceTypes) &&
      script.triggers[j].constraints == old(script.triggers[j].constraints)
    ensures hash.Keys == old(ManualResources(EventTypesOf(script.triggers), ResourceTypesOf(script.triggers)))
    ensures forall k :: k in hash ==> hash[k]
  {
    var ts := script.triggers;
    ghost var ets := EventTypesOf(ts);
    ghost var rts := ResourceTypesOf(ts);
    ghost var cs := ConstraintsOf(ts);
    PluckStart(ts, ets, rts, cs);
    hash := PluckLoop(ts, ets, rts, cs);
    PluckEnd(ts, ets, rts, cs, hash);
  }

  /** The loop of `pluckManualTriggers`, over the triggers in order. */
  method PluckLoop(ts: seq<Trigger>, ghost ets: seq<seq<string>>, ghost rts: seq<seq<string>>,
                   ghost cs: seq<seq<TriggerConstraint>>)
    returns (hash: map<string, bool>)
    requires SameTriggerSameTypes(ts, ets, rts) && PoppedUpTo(ts, ets, rts, cs, 0)
    modifies ts
    ensures PoppedUpTo(ts, ets, rts, cs, |ts|) && CollectedUpTo(ets, rts, |ts|, hash)
  {
    hash := map[];
    assert ets[..0] == [] && rts[..0] == [];
    for i := 0 to |ts|
      invariant PoppedUpTo(ts, ets, rts, cs, i) && CollectedUpTo(ets, rts, i, hash)
    {
      var found := PopStep(ts, ets, rts, cs, i);
      hash := CollectStep(ts, ets, rts, i, hash, found, ts[i].resourceTypes);
    }
  }

  /** Before `pluckManualTriggers`' loop: the recorded types are the triggers' own, and nothing
      has been handled or collected. */
  lemma PluckStart(ts: seq<Trigger>, ets: seq<seq<string>>, rts: seq<seq<string>>, cs: seq<seq<TriggerConstraint>>)
    requires ets == EventTypesOf(ts) && rts == ResourceTypesOf(ts) && cs == ConstraintsOf(ts)
    ensures SameTriggerSameTypes(ts, ets, rts) && PoppedUpTo(ts, ets, rts, cs, 0)
  {
  }

  /** After the loop: every trigger has been handled and every collected resource type is in the
      map. */
  lemma PluckEnd(ts: seq<Trigger>, ets: seq<seq<string>>, rts: seq<seq<string>>, cs: seq<seq<TriggerConstraint>>,
                 hash: map<string, bool>)
    requires PoppedUpTo(ts, ets, rts, cs, |ts|) && CollectedUpTo(ets, rts, |ts|, hash)
    ensures forall j :: 0 <= j < |ts| ==>
      ts[j].eventTypes == Without(ets[j], OnManualEventType) && ts[j].resourceTypes == rts[j] && ts[j].constraints == cs[j]
    ensures hash.Keys == ManualResources(ets, rts)
  {
    assert ets[..|ts|] == ets && rts[..|ts|] == rts && ts[..|ts|] == ts;
  }

  lemma SliceSnoc<T>(s: seq<T>, i: nat)
    requires i < |s|
    ensures s[..i + 1] == s[..i] + [s[i]]
  {
  }

  lemma ManualResourcesSnoc(ets: seq<seq<string>>, rts: seq<seq<string>>, et: seq<string>, rt: seq<string>)
    requires |ets| == |rts|
    ensures ManualResources(ets + [et], rts + [rt]) ==
      ManualResources(ets, rts) + (if OnManualEventType in et then Members(rt) else {})
  {
    assert (ets + [et])[..|ets|] == ets && (rts + [rt])[..|rts|] == rts;
  }

  lemma ManualResourcesHas(ets: seq<seq<string>>, rts: seq<seq<string>>, j: nat)
    requires |ets| == |rts| && j < |ets|
    ensures OnManualEventType in ets[j] ==> Members(rts[j]) <= ManualResources(ets, rts)
  {
    forall r | r in rts[j] && OnManualEventType in ets[j]
      ensures r in ManualResources(ets, rts)
    {
      ManualResourcesMembers(ets, rts, r);
    }
  }

  /** `makeTriggerOpts`: a trigger needs an event type, then a resource type; its options are
      `On`, `For` and one constraint option per declared constraint, in order, and the first
      constraint the maker rejects aborts with no options. */
  method MakeTriggerOpts(t: Trigger, maker: TriggerConstraint -> Result<BusConstraint>)
    returns (oo: seq<HandlerRegOp>, err: Option<string>)
    ensures |t.eventTypes| == 0 ==>
      oo == [] && err == Some("can not generate trigger without at least one events")
    ensures |t.eventTypes| > 0 && |t.resourceTypes| == 0 ==>
      oo == [] && err == Some("can not generate trigger without at least one resource")
    ensures err.None? <==>
      |t.eventTypes| > 0 && |t.resourceTypes| > 0 && forall i :: 0 <= i < |t.constraints| ==> maker(t.constraints[i]).Success?
    ensures err.Some? ==> oo == []
    ensures err.None? ==>
      |oo| == 2 + |t.constraints| && oo[0] == On(t.eventTypes) && oo[1] == For(t.resourceTypes) &&
      forall i :: 0 <= i < |t.constraints| ==> oo[2 + i] == Constraint(maker(t.constraints[i]).value)
    ensures err.Some? && |t.eventTypes| > 0 && |t.resourceTypes| > 0 ==>
      exists k :: 0 <= k < |t.constraints| && maker(t.constraints[k]).Failure? &&
        (forall i :: 0 <= i < k ==> maker(t.constraints[i]).Success?) &&
        err == Some("can not generate trigger: " + maker(t.constraints[k]).error)
  {
    if |t.eventTypes| == 0 {
      return [], Some("can not generate trigger without at least one events");
    }
    if |t.resourceTypes| == 0 {
      return [], Some("can not generate trigger without at least one resource");
    }
    oo := [On(t.eventTypes)];
    oo := oo + [For(t.resourceTypes)];
    var cs := t.constraints;
    for i := 0 to |cs|
      invariant |oo| == 2 + i && oo[0] == On(t.eventTypes) && oo[1] == For(t.resourceTypes)
      invariant forall j :: 0 <= j < i ==> maker(cs[j]).Success? && oo[2 + j] == Constraint(maker(cs[j]).value)
    {
      var c := maker(cs[i]);
      if c.Failure? {
        return [], Some("can not generate trigger: " + c.error);
      }
      oo := oo + [Constraint(c.value)];
    }
    err := None;
  }

  /** The argument map handed to a script run, shared by reference. */
  class Args {
    var entries: map<string, string>

    constructor (entries: map<string, string>)
      ensures this.entries == entries
    {
      this.entries := entries;
    }
  }

  /** `encodeArguments`: stores the JSON text of `val` under `key`; when marshalling fails the
      map is left as it was. */
  method EncodeArguments<T>(args: Args, key: string, val: T, marshal: T -> Result<string>)
    returns (err: Option<string>)
    modifies args
    ensures err.None? <==> marshal(val).Success?
    ensures err.Some? ==> err.value == marshal(val).error && args.entries == old(args.entries)
    ensures err.None? ==> args.entries == old(args.entries)[key := marshal(val).value]
  {
    var tmp := marshal(val);
    if tmp.Failure? {
      return Some(tmp.error);
    }
    args.entries := args.entries[key := tmp.value];
    err := None;
  }

  /** Encoding changes only the entry under `key`. */
  lemma EncodeOnlyTouchesKey(before: map<string, string>, key: string, json: string, k: string)
    requires k != key
    ensures (k in before[key := json] <==> k in before)
    ensures k in before ==> before[key := json][k] == before[k]
  {
  }

  /** The part of `Filter` that script filtering reads. */
  datatype Filter = Filter(resourceTypes: seq<string>, eventTypes: seq<string>)

  /** `slice.IntersectStrings(a, b)` is non-empty: the two share an element. */
  predicate Shares(a: seq<string>, b: seq<string>) {
    exists x :: x in a && x in b
  }

  /** A script with trigger resource types `rts` and event types `ets` passes the filter when
      each non-empty list of the filter is met by some trigger, not necessarily the same one. */
  predicate Accepts(f: Filter, rts: seq<seq<string>>, ets: seq<seq<string>>) {
    (|f.resourceTypes| == 0 || exists i :: 0 <= i < |rts| && Shares(f.resourceTypes, rts[i])) &&
    (|f.eventTypes| == 0 || exists i :: 0 <= i < |ets| && Shares(f.eventTypes, ets[i]))
  }

  /** The function `makeScriptFilter` returns, applied to a script: whether it passes, and
      never an error. */
  method ScriptFilter(f: Filter, s: Script) returns (b: bool, err: Option<string>)
    ensures b == Accepts(f, ResourceTypesOf(s.triggers), EventTypesOf(s.triggers))
    ensures err.None?
  {
    err := None;
    ghost var rts, ets := ResourceTypesOf(s.triggers), EventTypesOf(s.triggers);
    b := true;
    if |f.resourceTypes| > 0 {
      b := false;
      for i := 0 to |s.triggers|
        invariant b <==> exists j :: 0 <= j < i && Shares(f.resourceTypes, rts[j])
      {
        if Shares(f.resourceTypes, s.triggers[i].resourceTypes) {
          b := true;
        }
      }
      if !b {
        return;
      }
    }
    if |f.eventTypes| > 0 {
      b := false;
      for i := 0 to |s.triggers|
        invariant b <==> exists j :: 0 <= j < i && Shares(f.eventTypes, ets[j])
      {
        if Shares(f.eventTypes, s.triggers[i].eventTypes) {
          b := true;
        }
      }
      if !b {
        return;
      }
    }
  }

  /** A filter with no resource types and no event types accepts every script. */
  lemma EmptyFilterAcceptsAll(rts: seq<seq<string>>, ets: seq<seq<string>>)
    ensures Accepts(Filter([], []), rts, ets)
  {
  }

  /** The resource match and the event match may come from different triggers. */
  lemma MatchesMayComeFromDifferentTriggers()
    ensures Accepts(Filter(["record"], ["afterUpdate"]), [["record"], ["module"]], [["beforeDelete"], ["afterUpdate"]])
  {
    var rts: seq<seq<string>> := [["record"], ["module"]];
    var ets: seq<seq<string>> := [["beforeDelete"], ["afterUpdate"]];
    assert "record" in rts[0] && "record" in ["record"];
    assert Shares(["record"], rts[0]);
    assert "afterUpdate" in ets[1] && "afterUpdate" in ["afterUpdate"];
    assert Shares(["afterUpdate"], ets[1]);
  }
}
