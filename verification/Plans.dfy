/** The table of previewed proxy plans: bounded, each plan applied at most once and in time,
    and the fallback record told exactly which credentials really changed. */
module Plans {
  import opened Basics
  import opened FallbackGraph
  import P = ProfileStore

  const MAX_PLANS: nat := 256
  const PLAN_LIFETIME: int := 300_000_000_000  // 5 minutes in nanoseconds

  type Time = int

  datatype Item = Item(authIndex: string, errorCode: string, keep: bool, clear: bool, rawUrl: string)
  datatype Fallback = Fallback(profileId: string, activate: bool)
  datatype Plan = Plan(expiresAt: Time, items: seq<Item>, fallback: Option<Fallback>)

  type Table = map<string, Plan>

  /** What the guarded Host mutation of one item answers. */
  datatype Mutation = Refused(code: string) | Saved(proxyUrl: string)

  datatype ItemResult = ItemResult(authIndex: string, ok: bool, errorCode: string)

  // ---------------------------------------------------------------- pruning

  function Unexpired(plans: Table, now: Time): Table {
    map id | id in plans && now < plans[id].expiresAt :: plans[id]
  }

  /** `kept` is what remains of `plans`: the live plans that expire last, and all of them
      when there is room for one more. */
  ghost predicate Pruned(plans: Table, now: Time, kept: Table) {
    var live := Unexpired(plans, now);
    && kept.Keys <= live.Keys && (forall id :: id in kept ==> kept[id] == live[id])
    && |kept| == (if |live| < MAX_PLANS then |live| else MAX_PLANS - 1)
    && (forall out, stay :: out in live && out !in kept && stay in kept ==> live[out].expiresAt <= live[stay].expiresAt)
  }

  /** With room to spare nothing live is lost. */
  lemma PruneKeepsAll(plans: Table, now: Time, kept: Table)
    requires Pruned(plans, now, kept) && |Unexpired(plans, now)| < MAX_PLANS
    ensures kept == Unexpired(plans, now)
  {
    var live := Unexpired(plans, now);
    assert |kept.Keys| == |kept| && |live.Keys| == |live|;
    SameSize(kept.Keys, live.Keys);
  }

  lemma Missing(kept: Table, live: Table) returns (out: string)
    requires kept.Keys <= live.Keys && |kept| < |live|
    ensures out in live && out !in kept
  {
    assert |live.Keys| == |live| && |kept.Keys| == |kept|;
    if live.Keys <= kept.Keys {
      SubsetSize(live.Keys, kept.Keys);
    }
    out :| out in live.Keys && out !in kept.Keys;
  }

  method Earliest(plans: Table) returns (id: string)
    requires plans != map[]
    ensures id in plans && forall other :: other in plans ==> plans[id].expiresAt <= plans[other].expiresAt
  {
    var todo := plans.Keys;
    id :| id in todo;
    todo := todo - {id};
    while todo != {}
      invariant todo <= plans.Keys && id in plans
      invariant forall other :: other in plans.Keys - todo ==> plans[id].expiresAt <= plans[other].expiresAt
    {
      var next :| next in todo;
      todo := todo - {next};
      if plans[next].expiresAt < plans[id].expiresAt {
        id := next;
      }
    }
  }

  lemma RemoveOne(plans: Table, id: string)
    requires id in plans
    ensures |plans - {id}| == |plans| - 1
  {
    assert (plans - {id}).Keys == plans.Keys - {id};
    assert |(plans - {id}).Keys| == |plans - {id}| && |plans.Keys| == |plans|;
  }

  lemma AddOne(plans: Table, id: string, p: Plan)
    requires id !in plans
    ensures |plans[id := p]| == |plans| + 1 && plans[id := p] - {id} == plans
  {
    assert plans[id := p] - {id} == plans;
    RemoveOne(plans[id := p], id);
  }

  /** The eviction loop's state: the later-expiring part of the live plans. */
  ghost predicate Later(live: Table, kept: Table) {
    && kept.Keys <= live.Keys && (forall id :: id in kept ==> kept[id] == live[id])
    && (forall out, stay :: out in live && out !in kept && stay in kept ==> live[out].expiresAt <= live[stay].expiresAt)
  }

  method DropExpired(plans: Table, now: Time) returns (live: Table)
    ensures live == Unexpired(plans, now)
  {
    live := plans;
    var todo := plans.Keys;
    while todo != {}
      invariant todo <= plans.Keys
      invariant live.Keys == set id | id in plans && (id in todo || now < plans[id].expiresAt)
      invariant forall id :: id in live ==> live[id] == plans[id]
    {
      var id :| id in todo;
      todo := todo - {id};
      if now >= plans[id].expiresAt {
        live := live - {id};
      }
    }
  }

  method Evict(live: Table) returns (kept: Table)
    ensures Later(live, kept) && |kept| == if |live| < MAX_PLANS then |live| else MAX_PLANS - 1
  {
    kept := live;
    while |kept| >= MAX_PLANS
      invariant Later(live, kept)
      invariant |kept| == |live| || MAX_PLANS - 1 <= |kept| < |live|
    {
      assert kept != map[];
      var oldest := Earliest(kept);
      RemoveOne(kept, oldest);
      kept := kept - {oldest};
    }
  }

  predicate Precedes(p: Plan, q: Plan, strictly: bool) {
    p.expiresAt < q.expiresAt || (!strictly && p.expiresAt == q.expiresAt)
  }

  /** Some other live plan expires no later (or strictly earlier). */
  ghost predicate Sooner(live: Table, id: string, strictly: bool) {
    && id in live
    && (exists other :: other in live && other != id && Precedes(live[other], live[id], strictly))
  }

  lemma {:induction false} FirstOf(live: Table) returns (id: string)
    requires live != map[]
    ensures id in live && forall other :: other in live ==> live[id].expiresAt <= live[other].expiresAt
    decreases |live|
  {
    id :| id in live;
    var rest := live - {id};
    RemoveOne(live, id);
    if rest != map[] {
      var next := FirstOf(rest);
      assert forall other :: other in live ==> other == id || other in rest;
      if live[next].expiresAt < live[id].expiresAt {
        id := next;
      }
    }
  }

  /** Evicting any plan that expires first is a way to prune a full table. */
  lemma EvictingPrunes(plans: Table, now: Time, id: string)
    requires |Unexpired(plans, now)| == MAX_PLANS && id in Unexpired(plans, now)
    requires forall other :: other in Unexpired(plans, now) ==> plans[id].expiresAt <= plans[other].expiresAt
    ensures Pruned(plans, now, Unexpired(plans, now) - {id})
  {
    RemoveOne(Unexpired(plans, now), id);
  }

  lemma LiveSize(plans: Table, now: Time)
    ensures |Unexpired(plans, now)| <= |plans|
  {
    var live := Unexpired(plans, now);
    assert |live.Keys| == |live| && |plans.Keys| == |plans|;
    SubsetSize(live.Keys, plans.Keys);
  }

  /** One eviction cannot take two plans. */
  lemma TwoMissing(live: Table, kept: Table, a: string, b: string)
    requires kept.Keys <= live.Keys && |kept| == |live| - 1
    requires a in live && b in live && a !in kept && b !in kept
    ensures a == b
  {
    if a != b {
      assert |live.Keys| == |live| && |kept.Keys| == |kept|;
      assert |kept.Keys + {a, b}| == |kept.Keys| + 2;
      SubsetSize(kept.Keys + {a, b}, live.Keys);
      assert false;
    }
  }

  /** In every table the plugin can have, a live plan is found whichever way the table is
      pruned if and only if there is room or another live plan expires strictly earlier. */
  lemma AlwaysFound(plans: Table, now: Time, id: string)
    requires |plans| <= MAX_PLANS && id in plans && now < plans[id].expiresAt
    ensures (forall kept :: Pruned(plans, now, kept) ==> id in kept)
            <==> |Unexpired(plans, now)| < MAX_PLANS || Sooner(Unexpired(plans, now), id, true)
  {
    var live := Unexpired(plans, now);
    LiveSize(plans, now);
    if |live| < MAX_PLANS {
      forall kept | Pruned(plans, now, kept) ensures id in kept {
        PruneKeepsAll(plans, now, kept);
      }
    } else if Sooner(live, id, true) {
      var other :| other in live && other != id && Precedes(live[other], live[id], true);
      forall kept | Pruned(plans, now, kept) ensures id in kept {
        if id !in kept {
          assert other !in kept;
          TwoMissing(live, kept, id, other);
          assert false;
        }
      }
    } else {
      EvictingPrunes(plans, now, id);
    }
  }

  /** And it can be found, by some way of pruning, if and only if there is room or another live
      plan expires no later: among plans that expire first together, each may be the one to go. */
  lemma SometimesFound(plans: Table, now: Time, id: string)
    requires |plans| <= MAX_PLANS && id in plans && now < plans[id].expiresAt
    ensures (exists kept :: Pruned(plans, now, kept) && id in kept)
            <==> |Unexpired(plans, now)| < MAX_PLANS || Sooner(Unexpired(plans, now), id, false)
  {
    var live := Unexpired(plans, now);
    LiveSize(plans, now);
    if |live| < MAX_PLANS {
      assert Pruned(plans, now, live);
    } else if Sooner(live, id, false) {
      var first := FirstOf(live);
      if first == id {
        first :| first in live && first != id && Precedes(live[first], live[id], false);
      }
      EvictingPrunes(plans, now, first);
      assert id in live - {first};
    } else {
      forall kept | Pruned(plans, now, kept) ensures id !in kept {
        if id in kept {
          var out := Missing(kept, live);
          assert false;
        }
      }
    }
  }

  // ---------------------------------------------------------------- the service

  /** The items whose guarded change went through, in order. */
  predicate Changed(item: Item, m: Mutation) {
    item.errorCode == "" && !item.keep && m.Saved? && m.proxyUrl == (if item.clear then "" else item.rawUrl)
  }

  function ChangedIndexes(items: seq<Item>, ms: seq<Mutation>): seq<string>
    requires |items| == |ms|
  {
    if items == [] then []
    else
      var n := |items| - 1;
      ChangedIndexes(items[..n], ms[..n]) + if Changed(items[n], ms[n]) then [items[n].authIndex] else []
  }

  ghost predicate ChangedAt(items: seq<Item>, ms: seq<Mutation>, i: nat, index: string) {
    i < |items| && i < |ms| && Changed(items[i], ms[i]) && items[i].authIndex == index
  }

  lemma {:induction false} ChangedIndexesMeaning(items: seq<Item>, ms: seq<Mutation>, index: string)
    requires |items| == |ms|
    ensures index in ChangedIndexes(items, ms) <==> exists i: nat :: ChangedAt(items, ms, i, index)
    decreases |items|
  {
    if items != [] {
      var n := |items| - 1;
      ChangedIndexesMeaning(items[..n], ms[..n], index);
      if i: nat :| ChangedAt(items[..n], ms[..n], i, index) {
        assert ChangedAt(items, ms, i, index);
      }
      if i: nat :| ChangedAt(items, ms, i, index) {
        assert i < n ==> ChangedAt(items[..n], ms[..n], i, index);
        assert i == n ==> index in [items[n].authIndex];
      }
      assert Changed(items[n], ms[n]) ==> ChangedAt(items, ms, n, items[n].authIndex);
    }
  }

  /** What one item of an applied plan comes to: refused at preview, kept, refused by the Host,
      saved with another value than asked for, or changed. */
  predicate Reported(item: Item, m: Mutation, r: ItemResult) {
    && r.authIndex == item.authIndex
    && (item.errorCode != "" ==> !r.ok && r.errorCode == item.errorCode)
    && (item.errorCode == "" && item.keep ==> r.ok && r.errorCode == "")
    && (item.errorCode == "" && !item.keep && m.Refused? ==> !r.ok && r.errorCode == m.code)
    && (item.errorCode == "" && !item.keep && m.Saved? ==>
          var wanted := if item.clear then "" else item.rawUrl;
          r.ok == (m.proxyUrl == wanted) && r.errorCode == if m.proxyUrl == wanted then "" else "post_save_mismatch")
  }

  ghost predicate AllReported(items: seq<Item>, ms: seq<Mutation>, results: seq<ItemResult>) {
    |results| == |items| == |ms| && forall i :: 0 <= i < |items| ==> Reported(items[i], ms[i], results[i])
  }

  datatype Applied = Unknown | Finished(results: seq<ItemResult>, fallbackFailed: bool)

  class Service {
    var plans: Table
    const profileStore: P.Store
    /** Every plan ever issued, and those taken for application. */
    ghost var issued: map<string, Plan>
    ghost var taken: set<string>

    ghost predicate TableOk()
      reads this
    {
      && |plans| <= MAX_PLANS
      && plans.Keys <= issued.Keys && (forall id :: id in plans ==> plans[id] == issued[id])
      && taken <= issued.Keys && plans.Keys !! taken
    }

    ghost predicate Valid()
      reads this, profileStore
    {
      TableOk() && profileStore.Valid()
    }

    constructor (profileStore: P.Store)
      requires profileStore.Valid()
      ensures Valid() && plans == map[] && this.profileStore == profileStore && issued == map[] && taken == {}
    {
      this.profileStore := profileStore;
      plans := map[];
      issued := map[];
      taken := {};
    }

    method PrunePlansLocked(now: Time)
      requires TableOk()
      modifies this`plans
      ensures TableOk() && Pruned(old(plans), now, plans)
    {
      var live := DropExpired(plans, now);
      plans := Evict(live);
    }

    /** The end of a valid preview. `id` is the fresh random plan identifier. */
    method AddPlan(id: string, items: seq<Item>, fallback: Option<Fallback>, now: Time, later: Time)
      requires TableOk() && id !in issued
      modifies this
      ensures TableOk() && id in plans && plans[id] == Plan(now + PLAN_LIFETIME, items, fallback)
      ensures Pruned(old(plans), later, plans - {id})
      ensures issued == old(issued)[id := plans[id]] && taken == old(taken)
    {
      var p := Plan(now + PLAN_LIFETIME, items, fallback);
      PrunePlansLocked(later);
      ghost var kept := plans;
      AddOne(kept, id, p);
      plans := plans[id := p];
      issued := issued[id := p];
    }

    /** Takes a plan out of the table; `kept` is the table after pruning. Nothing is handed
        out twice, late, or unissued. */
    method TakePlan(id: string, now: Time, later: Time) returns (r: Option<Plan>, ghost kept: Table)
      requires TableOk()
      modifies this
      ensures TableOk() && issued == old(issued)
      ensures r.Some? ==> id in old(plans) && id in issued && r.value == issued[id] && id !in old(taken) && id in taken
      ensures old(taken) <= taken <= old(taken) + {id}
      ensures Pruned(old(plans), now, kept) && plans == kept - {id}
      ensures r.Some? <==> id in kept && later < kept[id].expiresAt
    {
      PrunePlansLocked(now);
      kept := plans;
      if id !in plans {
        assert plans == kept - {id};
        return None, kept;
      }
      var p := plans[id];
      RemoveOne(plans, id);
      plans := plans - {id};
      taken := taken + {id};
      r := if later < p.expiresAt then Some(p) else None;
    }

    /** The item loop of apply; `ms` are the answers of the Host. */
    method ApplyItems(items: seq<Item>, ms: seq<Mutation>) returns (results: seq<ItemResult>, changed: seq<string>)
      requires |items| == |ms|
      ensures AllReported(items, ms, results) && changed == ChangedIndexes(items, ms)
    {
      results, changed := [], [];
      for i := 0 to |items|
        invariant |results| == i && changed == ChangedIndexes(items[..i], ms[..i])
        invariant forall k :: 0 <= k < i ==> Reported(items[k], ms[k], results[k])
      {
        var item, m := items[i], ms[i];
        assert items[..i + 1][..i] == items[..i] && ms[..i + 1][..i] == ms[..i];
        var result := ItemResult(item.authIndex, false, "");
        if item.errorCode != "" {
          result := result.(errorCode := item.errorCode);
        } else if item.keep {
          result := result.(ok := true);
        } else if m.Refused? {
          result := result.(errorCode := m.code);
        } else if item.clear && m.proxyUrl != "" {
          result := result.(errorCode := "post_save_mismatch");
        } else if !item.clear && m.proxyUrl != item.rawUrl {
          result := result.(errorCode := "post_save_mismatch");
        } else {
          result := result.(ok := true);
          changed := changed + [item.authIndex];
        }
        results := results + [result];
      }
      assert items[..|items|] == items && ms[..|ms|] == ms;
    }

    /** apply. The fallback record changes by exactly the credentials this plan changed, and
        not at all when the plan has no fallback or changed nothing. */
    method Apply(id: string, ms: seq<Mutation>, now: Time, later: Time, written: bool) returns (r: Applied, ghost kept: Table)
      requires Valid() && (id in plans ==> |ms| == |plans[id].items|)
      modifies this, profileStore
      ensures Valid() && issued == old(issued)
      ensures Pruned(old(plans), now, kept) && plans == kept - {id}
      ensures r.Finished? <==> id in kept && later < kept[id].expiresAt
      ensures r.Finished? ==> id in issued && id !in old(taken) && id in taken && later < issued[id].expiresAt
      ensures r.Unknown? ==> profileStore.profiles == old(profileStore.profiles)
      ensures r.Finished? ==> |ms| == |issued[id].items| && AppliedTo(old(profileStore.profiles), profileStore.profiles, issued[id], ms, written, r)
    {
      ghost var known := id in plans;
      var p;
      p, kept := TakePlan(id, now, later);
      if p.None? {
        return Unknown, kept;
      }
      assert known;
      var results, changed := ApplyItems(p.value.items, ms);
      var failed := false;
      if p.value.fallback.Some? && |changed| > 0 {
        var f := p.value.fallback.value;
        var ok := profileStore.UpdateFallbackState(f.profileId, changed, f.activate, written);
        failed := !ok;
      }
      return Finished(results, failed), kept;
    }
  }

  ghost predicate AppliedTo(before: Catalog, after: Catalog, p: Plan, ms: seq<Mutation>, written: bool, r: Applied)
    requires |p.items| == |ms| && r.Finished?
  {
    var changed := ChangedIndexes(p.items, ms);
    && AllReported(p.items, ms, r.results)
    && if p.fallback.None? || changed == [] then after == before && !r.fallbackFailed
       else if written && MayRecord(before, p.fallback.value, changed)
       then FallbackUpdated(before, after, p.fallback.value, changed) && !r.fallbackFailed
       else after == before && r.fallbackFailed
  }

  /** The fallback record can take the changed credentials. */
  ghost predicate MayRecord(before: Catalog, f: Fallback, changed: seq<string>) {
    var id, given := TrimSpace(f.profileId), P.KeptIndexes(changed);
    && given != {} && id in before && before[id].mode != NONE
    && |P.Affected(before[id], given, f.activate)| <= MAX_PROFILES
  }

  ghost predicate FallbackUpdated(before: Catalog, after: Catalog, f: Fallback, changed: seq<string>) {
    var id := TrimSpace(f.profileId);
    && id in before && id in after
    && after == before[id := P.WithIndexes(before[id], after[id].indexes)]
    && P.Elements(after[id].indexes) == P.Affected(before[id], P.KeptIndexes(changed), f.activate)
  }
}
