/** `ReportService` as a class, and why a call nothing interrupts is a run of the
    cache machine. */
module ReportService {
  import opened Prelude
  import opened Runs
  import opened Report
  import opened ReportCache
  import opened ReportContent

  datatype Cached = Cached(result: ReportCache.Result, expiresAt: nat)

  type Cache = map<string, Cached>

  /** The reply to a call: refused, from the cache, or computed. */
  function Reply(tables: Tables, cache: Cache, now: nat, requester: int, scope: Scope): Option<ReportCache.Result> {
    var key := ScopeKey(scope);
    if !Allowed(tables, requester, scope) then None
    else if key in cache && now < cache[key].expiresAt then Some(cache[key].result)
    else Some(Uncached(scope, tables))
  }

  /** A computed result, and only that, is cached for a minute. */
  function Refreshed(tables: Tables, cache: Cache, now: nat, requester: int, scope: Scope): Cache {
    var key := ScopeKey(scope);
    if !Allowed(tables, requester, scope) || (key in cache && now < cache[key].expiresAt) then cache
    else cache[key := Cached(Uncached(scope, tables), now + REPORT_CACHE_TTL_MS)]
  }

  /** Only a permitted requester gets an answer; within a minute of a computed
      answer the same scope gets that answer again, whatever is written meanwhile
      and whoever else is served; from then on the current tables are read. */
  lemma CachedForAMinute(tables: Tables, cache: Cache, now: nat, requester: int, scope: Scope,
                         tables': Tables, later: nat, again: int, other: int, scope': Scope)
    requires Allowed(tables, requester, scope) && !(ScopeKey(scope) in cache && now < cache[ScopeKey(scope)].expiresAt)
    requires Allowed(tables', again, scope) && now <= later && scope' != scope
    ensures var first := Refreshed(tables, cache, now, requester, scope);
      var between := Refreshed(tables', first, later, other, scope');
      && Reply(tables, cache, now, requester, scope) == Some(Uncached(scope, tables))
      && Reply(tables', between, later, again, scope)
         == Some(Uncached(scope, if later < now + 60_000 then tables else tables'))
  {
    if ScopeKey(scope) == ScopeKey(scope') { OneScopePerKey(scope, scope'); }
    hide ScopeKey, Uncached, Allowed;
  }

  /** A live entry is answered as it is; otherwise the answer is stored under its
      own key for a minute and nothing else changes. */
  ghost predicate CacheLaw(cache: Cache, cache': Cache, now: nat, key: string, reply: Option<ReportCache.Result>) {
    if key in cache && now < cache[key].expiresAt then reply == Some(cache[key].result) && cache' == cache
    else
      && cache'.Keys == cache.Keys + {key} && reply == Some(cache'[key].result) && cache'[key].expiresAt == now + 60_000
      && forall other :: other in cache && other != key ==> cache'[other] == cache[other]
  }

  class ReportService {
    var tables: Tables
    var cache: Cache
    var now: nat

    constructor (tables: Tables)
      ensures this.tables == tables && cache == map[] && now == 0
    {
      this.tables := tables;
      cache := map[];
      now := 0;
    }

    method GenerateAdminReport(requester: int) returns (reply: Option<ReportCache.Result>)
      modifies this`cache
      ensures reply == Reply(tables, old(cache), now, requester, AdminScope)
      ensures cache == Refreshed(tables, old(cache), now, requester, AdminScope)
      ensures reply.Some? <==> requester in tables.profiles && tables.profiles[requester].rol == Some("admin")
      ensures if reply.Some? then CacheLaw(old(cache), cache, now, ScopeKey(AdminScope), reply) else cache == old(cache)
      ensures reply.Some? && !(ScopeKey(AdminScope) in old(cache) && now < old(cache)[ScopeKey(AdminScope)].expiresAt) ==>
                reply.value.AdminResult? && GroupsListed(Whole(tables), reply.value.groups)
    {
      AdminReportLists(Whole(tables));
      hide GroupsListed, ScopeKey;
      var profile := if requester in tables.profiles then Some(tables.profiles[requester]) else None;
      if profile.None? || profile.value.rol != Some(ADMIN) {
        return None;
      }
      var key := ScopeKey(AdminScope);
      if key in cache && now < cache[key].expiresAt {
        return Some(cache[key].result);
      }
      var farms := FarmsOfScope(tables.farms, AdminScope, tables.crops, tables.activities, tables.harvests);
      var groups := GroupByOwner(farms, tables.profiles);
      cache := cache[key := Cached(AdminResult(groups), now + REPORT_CACHE_TTL_MS)];
      return Some(AdminResult(groups));
    }

    method GenerateFarmerReport(farmer: int, requester: int) returns (reply: Option<ReportCache.Result>)
      modifies this`cache
      ensures reply == Reply(tables, old(cache), now, requester, FarmerScope(farmer))
      ensures cache == Refreshed(tables, old(cache), now, requester, FarmerScope(farmer))
      ensures reply.Some? <==> farmer == requester
      ensures if reply.Some? then CacheLaw(old(cache), cache, now, ScopeKey(FarmerScope(farmer)), reply) else cache == old(cache)
      ensures reply.Some? && !(ScopeKey(FarmerScope(farmer)) in old(cache) && now < old(cache)[ScopeKey(FarmerScope(farmer))].expiresAt) ==>
                reply.value.FarmerResult? && AreFarmsOf(Whole(tables), reply.value.farms, farmer)
    {
      FarmerReportLists(Whole(tables), farmer);
      hide AreFarmsOf, ScopeKey;
      if farmer != requester {
        return None;
      }
      var key := ScopeKey(FarmerScope(farmer));
      if key in cache && now < cache[key].expiresAt {
        return Some(cache[key].result);
      }
      var farms := FarmsOfScope(tables.farms, FarmerScope(farmer), tables.crops, tables.activities, tables.harvests);
      var result := FarmerResult(ShapeFarms(farms));
      cache := cache[key := Cached(result, now + REPORT_CACHE_TTL_MS)];
      return Some(result);
    }
  }

  // ---- The call and the machine --------------------------------------------------------

  /** The machine's cache without its history. */
  function View(s: State): Cache {
    map key | key in s.cache :: Cached(s.cache[key].result, s.cache[key].expiresAt)
  }

  function Working(s: State, c: Consumer, requester: int, scope: Scope, snaps: Snaps): State {
    s.(tasks := s.tasks[c := Task(requester, scope, Newest(s), Reading(snaps))])
  }

  /** Consumer `c` has read these parts, all from the current tables. */
  function Now(s: State, parts: set<Part>): (snaps: Snaps)
    requires s.log != []
    ensures snaps.Keys == parts
  {
    map part | part in parts :: Snap(|s.log| - 1, s.now)
  }

  lemma ReadNow(s: State, start: State, ls: seq<Label>, c: Consumer, requester: int, scope: Scope, parts: set<Part>, part: Part) returns (ls': seq<Label>)
    requires s.log != [] && Ready(scope, Now(s, parts), part)
    requires Valid(System(), start, ls) && Exec(System(), start, ls) == Working(s, c, requester, scope, Now(s, parts))
    ensures Valid(System(), start, ls') && Exec(System(), start, ls') == Working(s, c, requester, scope, Now(s, parts + {part}))
  {
    assert Now(s, parts)[part := Snap(|s.log| - 1, s.now)] == Now(s, parts + {part});
    ReadStep(s, c, requester, scope, Now(s, parts), part);
    hide Valid, Exec, Enabled, Next, Ready, Working, Now;
    Extend(System(), start, ls, Read(c, part));
    ls' := ls + [Read(c, part)];
  }

  lemma ReadStep(s: State, c: Consumer, requester: int, scope: Scope, snaps: Snaps, part: Part)
    requires s.log != [] && Ready(scope, snaps, part)
    ensures Enabled(Working(s, c, requester, scope, snaps), Read(c, part))
    ensures Next(Working(s, c, requester, scope, snaps), Read(c, part))
         == Working(s, c, requester, scope, snaps[part := Snap(|s.log| - 1, s.now)])
  {
    hide Newest, Ready;
    var after := Task(requester, scope, Newest(s), Reading(snaps[part := Snap(|s.log| - 1, s.now)]));
    assert s.tasks[c := Task(requester, scope, Newest(s), Reading(snaps))][c := after] == s.tasks[c := after];
  }

  /** The four queries every report makes. */
  lemma ReadTrees(s: State, start: State, ls: seq<Label>, c: Consumer, requester: int, scope: Scope) returns (ls': seq<Label>)
    requires s.log != []
    requires Valid(System(), start, ls) && Exec(System(), start, ls) == Working(s, c, requester, scope, map[])
    ensures Valid(System(), start, ls')
    ensures Exec(System(), start, ls') == Working(s, c, requester, scope, Now(s, {Farms, Crops, Activities, Harvests}))
  {
    assert Now(s, {}) == map[];
    assert {} + {Farms} == {Farms} && {Farms} + {Crops} == {Farms, Crops};
    assert {Farms, Crops} + {Activities} == {Farms, Crops, Activities};
    assert {Farms, Crops, Activities} + {Harvests} == {Farms, Crops, Activities, Harvests};
    hide Valid, Exec, System, Working, Now;
    ls' := ReadNow(s, start, ls, c, requester, scope, {}, Farms);
    ls' := ReadNow(s, start, ls', c, requester, scope, {Farms}, Crops);
    ls' := ReadNow(s, start, ls', c, requester, scope, {Farms, Crops}, Activities);
    ls' := ReadNow(s, start, ls', c, requester, scope, {Farms, Crops, Activities}, Harvests);
  }

  lemma ReadAll(s: State, start: State, ls: seq<Label>, c: Consumer, requester: int, scope: Scope) returns (ls': seq<Label>)
    requires s.log != []
    requires Valid(System(), start, ls) && Exec(System(), start, ls) == Working(s, c, requester, scope, map[])
    ensures Valid(System(), start, ls') && Exec(System(), start, ls') == Working(s, c, requester, scope, Now(s, Needed(scope)))
  {
    hide Valid, Exec, System, Working, Now;
    ls' := ReadTrees(s, start, ls, c, requester, scope);
    var trees := {Farms, Crops, Activities, Harvests};
    if scope.AdminScope? {
      ls' := ReadNow(s, start, ls', c, requester, scope, trees, Profiles);
      assert trees + {Profiles} == Needed(scope);
    } else {
      assert trees == Needed(scope);
    }
  }

  lemma BuiltNow(s: State, scope: Scope)
    requires s.log != []
    ensures Built(scope, Seen(s.log, Now(s, Needed(scope)))) == Uncached(scope, Current(s))
  {
    SameBuilt(scope, Seen(s.log, Now(s, Needed(scope))), Whole(Current(s)));
  }

  /** From `s` to `s'` the call was answered as the service replies, once or not
      at all, and the cache is the service's. */
  ghost predicate Delivers(s: State, s': State, requester: int, scope: Scope)
    requires s.log != []
  {
    var reply := Reply(Current(s), View(s), s.now, requester, scope);
    && s'.tasks == s.tasks && s'.log == s.log
    && View(s') == Refreshed(Current(s), View(s), s.now, requester, scope)
    && (match reply
        case None => s'.answers == s.answers
        case Some(result) =>
          && |s'.answers| == |s.answers| + 1 && s'.answers[..|s.answers|] == s.answers
          && var a := s'.answers[|s.answers|]; a.result == result && a.requester == requester && a.scope == scope)
  }

  /** A call nothing interrupts is a run of the machine. */
  lemma CallIsRun(s: State, c: Consumer, requester: int, scope: Scope) returns (ls: seq<Label>)
    requires s.log != [] && c !in s.tasks
    ensures Valid(System(), s, ls) && Delivers(s, Exec(System(), s, ls), requester, scope)
  {
    if !Allowed(Current(s), requester, scope) {
      SingleStep(System(), s, Ask(c, requester, scope));
      ls := [Ask(c, requester, scope)];
    } else {
      LookUpNow(s, c, requester, scope);
      ls := [Ask(c, requester, scope), LookUp(c)];
      var key := ScopeKey(scope);
      if key in s.cache && s.now < s.cache[key].expiresAt {
        HitDelivers(s, c, requester, scope);
      } else {
        hide Valid, Exec, System, Uncached, Working, View, Refreshed, Reply, Delivers;
        ls := ReadAll(s, s, ls, c, requester, scope);
        MissDelivers(s, c, requester, scope);
        ls := FinishNow(s, ls, c, requester, scope);
      }
    }
  }

  function Looked(s: State, c: Consumer, requester: int, scope: Scope): State {
    LookedUp(s.(tasks := s.tasks[c := Task(requester, scope, Newest(s), Asked)]), c)
  }

  lemma LookUpNow(s: State, c: Consumer, requester: int, scope: Scope)
    requires s.log != [] && c !in s.tasks && Allowed(Current(s), requester, scope)
    ensures Valid(System(), s, [Ask(c, requester, scope), LookUp(c)])
    ensures Exec(System(), s, [Ask(c, requester, scope), LookUp(c)]) == Looked(s, c, requester, scope)
    ensures var key := ScopeKey(scope);
      key !in s.cache || s.now >= s.cache[key].expiresAt ==> Looked(s, c, requester, scope) == Working(s, c, requester, scope, map[])
  {
    TwoSteps(System(), s, Ask(c, requester, scope), LookUp(c));
    assert s.tasks[c := Task(requester, scope, Newest(s), Asked)][c := Task(requester, scope, Newest(s), Reading(map[]))]
        == s.tasks[c := Task(requester, scope, Newest(s), Reading(map[]))];
    hide ScopeKey, Valid, Exec, Allowed;
  }

  lemma HitDelivers(s: State, c: Consumer, requester: int, scope: Scope)
    requires s.log != [] && c !in s.tasks && Allowed(Current(s), requester, scope)
    requires ScopeKey(scope) in s.cache && s.now < s.cache[ScopeKey(scope)].expiresAt
    ensures Delivers(s, Looked(s, c, requester, scope), requester, scope)
  {
    hide ScopeKey, Uncached;
    assert s.tasks[c := Task(requester, scope, Newest(s), Asked)] - {c} == s.tasks;
  }

  function AllNow(s: State, c: Consumer, requester: int, scope: Scope): State
    requires s.log != []
  {
    Working(s, c, requester, scope, Now(s, Needed(scope)))
  }

  lemma MissDelivers(s: State, c: Consumer, requester: int, scope: Scope)
    requires s.log != [] && c !in s.tasks && Allowed(Current(s), requester, scope)
    requires ScopeKey(scope) !in s.cache || s.now >= s.cache[ScopeKey(scope)].expiresAt
    ensures Delivers(s, Finished(AllNow(s, c, requester, scope), c), requester, scope)
  {
    FinishedNow(s, c, requester, scope);
    StoredDelivers(s, requester, scope, Now(s, Needed(scope)));
  }

  /** The machine's state once the uncached report is stored and answered. */
  function Stored(s: State, requester: int, scope: Scope, snaps: Snaps): State
    requires s.log != []
  {
    var result := Uncached(scope, Current(s));
    s.(cache := s.cache[ScopeKey(scope) := Entry(result, s.now + REPORT_CACHE_TTL_MS, scope, snaps, s.now)],
       answers := s.answers + [Answer(requester, scope, Newest(s), result, s.now, snaps, s.now)])
  }

  lemma FinishedNow(s: State, c: Consumer, requester: int, scope: Scope)
    requires s.log != [] && c !in s.tasks
    ensures Finished(AllNow(s, c, requester, scope), c) == Stored(s, requester, scope, Now(s, Needed(scope)))
  {
    hide Finished, Stored, Built, Uncached, Seen, Now, Needed, Working, Done, Newest;
    BuiltNow(s, scope);
    WorkingDone(s, c, requester, scope, Now(s, Needed(scope)));
    FinishedFrom(AllNow(s, c, requester, scope), s, c, requester, scope, Now(s, Needed(scope)));
  }

  lemma FinishedFrom(t: State, s: State, c: Consumer, requester: int, scope: Scope, snaps: Snaps)
    requires s.log != [] && IsReading(t, c) && t.tasks[c] == Task(requester, scope, Newest(s), Reading(snaps))
    requires Done(t, c) == s && t.log == s.log && t.now == s.now && t.cache == s.cache
    requires Built(scope, Seen(s.log, snaps)) == Uncached(scope, Current(s))
    ensures Finished(t, c) == Stored(s, requester, scope, snaps)
  {
    hide Built, Uncached, ScopeKey, Seen, Newest, Current;
  }

  lemma WorkingDone(s: State, c: Consumer, requester: int, scope: Scope, snaps: Snaps)
    requires c !in s.tasks
    ensures var t := Working(s, c, requester, scope, snaps);
      && Done(t, c) == s && t.log == s.log && t.now == s.now && t.cache == s.cache
      && IsReading(t, c) && t.tasks[c] == Task(requester, scope, Newest(s), Reading(snaps))
  {
    assert s.tasks[c := Task(requester, scope, Newest(s), Reading(snaps))] - {c} == s.tasks;
  }

  lemma StoredDelivers(s: State, requester: int, scope: Scope, snaps: Snaps)
    requires s.log != [] && Allowed(Current(s), requester, scope)
    requires ScopeKey(scope) !in s.cache || s.now >= s.cache[ScopeKey(scope)].expiresAt
    ensures Delivers(s, Stored(s, requester, scope, snaps), requester, scope)
  {
    hide Uncached, ScopeKey, Allowed;
    var s' := Stored(s, requester, scope, snaps);
    assert View(s') == View(s)[ScopeKey(scope) := Cached(Uncached(scope, Current(s)), s.now + REPORT_CACHE_TTL_MS)];
  }

  lemma FinishNow(s: State, ls: seq<Label>, c: Consumer, requester: int, scope: Scope) returns (ls': seq<Label>)
    requires s.log != [] && c !in s.tasks
    requires Valid(System(), s, ls) && Exec(System(), s, ls) == AllNow(s, c, requester, scope)
    ensures Valid(System(), s, ls') && Exec(System(), s, ls') == Finished(AllNow(s, c, requester, scope), c)
  {
    hide Valid, Exec, Built, ScopeKey, Seen, Finished;
    Extend(System(), s, ls, Finish(c));
    ls' := ls + [Finish(c)];
  }
}
