/** The cached reports as a labelled machine: the tree is read one table at a
    time while writers change the tables, results are cached for a minute, and
    any number of consumers compute at once. */
module ReportCache {
  import opened Prelude
  import opened Runs
  import opened Keys
  import opened Report

  const REPORT_CACHE_TTL_MS: nat := 60 * 1000
  const ADMIN := "admin"

  // ---- Tables and the report of one state ------------------------------------------

  datatype FarmRow = FarmRow(id: int, userId: int, info: FarmInfo)
  datatype CropRow = CropRow(id: int, farm: Option<int>, info: CropInfo)
  datatype ActivityRow = ActivityRow(crop: Option<int>, info: Activity)
  datatype HarvestRow = HarvestRow(crop: Option<int>, info: Harvest)

  datatype Tables = Tables(
    farms: seq<FarmRow>, crops: seq<CropRow>, activities: seq<ActivityRow>, harvests: seq<HarvestRow>,
    profiles: map<int, Profile>)

  datatype Scope = AdminScope | FarmerScope(farmer: int)

  datatype Result = AdminResult(groups: seq<Group>) | FarmerResult(farms: seq<Farm>)

  /** The queries one computation makes, the farms' first. */
  datatype Part = Farms | Crops | Activities | Harvests | Profiles

  function ActivitiesOf(rows: seq<ActivityRow>, crop: int): seq<Activity> {
    if rows == [] then []
    else ActivitiesOf(rows[..|rows| - 1], crop) + (if rows[|rows| - 1].crop == Some(crop) then [rows[|rows| - 1].info] else [])
  }

  function HarvestsOf(rows: seq<HarvestRow>, crop: int): seq<Harvest> {
    if rows == [] then []
    else HarvestsOf(rows[..|rows| - 1], crop) + (if rows[|rows| - 1].crop == Some(crop) then [rows[|rows| - 1].info] else [])
  }

  /** The rows of a farm's crops. */
  function CropRowsOf(rows: seq<CropRow>, farm: int): seq<CropRow> {
    if rows == [] then []
    else CropRowsOf(rows[..|rows| - 1], farm) + (if rows[|rows| - 1].farm == Some(farm) then [rows[|rows| - 1]] else [])
  }

  function CropTree(activities: seq<ActivityRow>, harvests: seq<HarvestRow>): CropRow -> CropEntity {
    (c: CropRow) => CropEntity(c.id, c.info, Some(ActivitiesOf(activities, c.id)), Some(HarvestsOf(harvests, c.id)))
  }

  /** A farm with its relations loaded. */
  function FarmTree(crops: seq<CropRow>, activities: seq<ActivityRow>, harvests: seq<HarvestRow>): FarmRow -> FarmEntity {
    (f: FarmRow) => FarmEntity(f.id, f.userId, f.info, Some(Map(CropTree(activities, harvests), CropRowsOf(crops, f.id))))
  }

  /** The rows of an owner's farms. */
  function RowsOf(rows: seq<FarmRow>, owner: int): seq<FarmRow> {
    if rows == [] then []
    else RowsOf(rows[..|rows| - 1], owner) + (if rows[|rows| - 1].userId == owner then [rows[|rows| - 1]] else [])
  }

  /** WHERE userId, or no condition. */
  function Scoped(rows: seq<FarmRow>, scope: Scope): seq<FarmRow> {
    match scope case AdminScope => rows case FarmerScope(farmer) => RowsOf(rows, farmer)
  }

  function FarmsOfScope(rows: seq<FarmRow>, scope: Scope, crops: seq<CropRow>, activities: seq<ActivityRow>, harvests: seq<HarvestRow>)
    : seq<FarmEntity>
  {
    Map(FarmTree(crops, activities, harvests), Scoped(rows, scope))
  }

  /** The report built from what each query saw. */
  function Built(scope: Scope, seen: Part -> Tables): Result {
    var farms := FarmsOfScope(seen(Farms).farms, scope, seen(Crops).crops, seen(Activities).activities, seen(Harvests).harvests);
    if scope.AdminScope? then AdminResult(Grouped(farms, seen(Profiles).profiles)) else FarmerResult(ShapeFarms(farms))
  }

  /** Every query sees the same state. */
  function Whole(t: Tables): Part -> Tables {
    _ => t
  }

  /** The uncached report of one database state. */
  function Uncached(scope: Scope, t: Tables): Result {
    Built(scope, Whole(t))
  }

  // ---- The machine -------------------------------------------------------------------

  type Consumer = nat

  /** The tables from time `at` until the next version. */
  datatype Version = Version(at: nat, tables: Tables)

  /** When a query ran and which version it saw. */
  datatype Snap = Snap(version: nat, at: nat)

  type Snaps = map<Part, Snap>

  datatype Entry = Entry(result: Result, expiresAt: nat, scope: Scope, snaps: Snaps, storedAt: nat)

  datatype Phase = Asked | Reading(snaps: Snaps)

  /** `asked` is the version the requester's permission was checked in. */
  datatype Task = Task(requester: int, scope: Scope, asked: nat, phase: Phase)

  /** One answer: who got which result when, and what it was computed from. */
  datatype Answer = Answer(requester: int, scope: Scope, asked: nat, result: Result, at: nat, snaps: Snaps, storedAt: nat)

  datatype State = State(now: nat, log: seq<Version>, cache: map<string, Entry>, tasks: map<Consumer, Task>, answers: seq<Answer>)

  datatype Label =
    | Wait(ms: nat)
    | Change(tables: Tables)
    | Ask(c: Consumer, requester: int, scope: Scope)
    | LookUp(c: Consumer)
    | Read(c: Consumer, part: Part)
    | Finish(c: Consumer)
    | Die(c: Consumer)

  function Start(t: Tables): State {
    State(0, [Version(0, t)], map[], map[], [])
  }

  function ScopeKey(scope: Scope): string {
    KeyString(match scope case AdminScope => AdminReport case FarmerScope(f) => FarmerReport(f))
  }

  function Newest(s: State): nat {
    if s.log == [] then 0 else |s.log| - 1
  }

  function Current(s: State): Tables
    requires s.log != []
  {
    s.log[|s.log| - 1].tables
  }

  /** A farmer may ask for their own report, an admin for the admin report; the
      role comes from the projection. */
  predicate Allowed(t: Tables, requester: int, scope: Scope) {
    match scope
    case FarmerScope(farmer) => farmer == requester
    case AdminScope => requester in t.profiles && t.profiles[requester].rol == Some(ADMIN)
  }

  function Needed(scope: Scope): set<Part> {
    if scope.AdminScope? then {Farms, Crops, Activities, Harvests, Profiles} else {Farms, Crops, Activities, Harvests}
  }

  /** Farms come first, then crops; activities and harvests in either order;
      profiles last. */
  predicate Ready(scope: Scope, snaps: Snaps, part: Part) {
    && part in Needed(scope) && part !in snaps
    && match part
       case Farms => true
       case Crops => Farms in snaps
       case Activities => Crops in snaps && Farms in snaps
       case Harvests => Crops in snaps && Farms in snaps
       case Profiles => Farms in snaps && Activities in snaps && Harvests in snaps
  }

  predicate IsReading(s: State, c: Consumer) {
    c in s.tasks && s.tasks[c].phase.Reading?
  }

  ghost predicate Enabled(s: State, l: Label) {
    && s.log != []
    && match l
       case Wait(_) => true
       case Change(_) => true
       case Ask(c, _, _) => c !in s.tasks
       case LookUp(c) => c in s.tasks && s.tasks[c].phase.Asked?
       case Read(c, part) => IsReading(s, c) && Ready(s.tasks[c].scope, s.tasks[c].phase.snaps, part)
       case Finish(c) => IsReading(s, c) && s.tasks[c].phase.snaps.Keys == Needed(s.tasks[c].scope)
       case Die(c) => c in s.tasks
  }

  /** The tables a query saw. */
  function Seen(log: seq<Version>, snaps: Snaps): Part -> Tables {
    part => if part in snaps && snaps[part].version < |log| then log[snaps[part].version].tables else Tables([], [], [], [], map[])
  }

  function Done(s: State, c: Consumer): State {
    s.(tasks := s.tasks - {c})
  }

  function Answered(s: State, c: Consumer, a: Answer): State {
    Done(s, c).(answers := s.answers + [a])
  }

  function LookedUp(s: State, c: Consumer): State
    requires c in s.tasks
  {
    var t := s.tasks[c];
    var key := ScopeKey(t.scope);
    if key in s.cache && s.now < s.cache[key].expiresAt then
      var e := s.cache[key];
      Answered(s, c, Answer(t.requester, t.scope, t.asked, e.result, s.now, e.snaps, e.storedAt))
    else s.(tasks := s.tasks[c := t.(phase := Reading(map[]))])
  }

  function HasRead(s: State, c: Consumer, part: Part): State
    requires IsReading(s, c) && s.log != []
  {
    var t := s.tasks[c];
    s.(tasks := s.tasks[c := t.(phase := Reading(t.phase.snaps[part := Snap(|s.log| - 1, s.now)]))])
  }

  function Finished(s: State, c: Consumer): State
    requires IsReading(s, c)
  {
    var t := s.tasks[c];
    var result := Built(t.scope, Seen(s.log, t.phase.snaps));
    Answered(s, c, Answer(t.requester, t.scope, t.asked, result, s.now, t.phase.snaps, s.now)).(
      cache := s.cache[ScopeKey(t.scope) := Entry(result, s.now + REPORT_CACHE_TTL_MS, t.scope, t.phase.snaps, s.now)])
  }

  ghost function Next(s: State, l: Label): State
    requires Enabled(s, l)
  {
    match l
    case Wait(ms) => s.(now := s.now + ms)
    case Change(tables) => s.(log := s.log + [Version(s.now, tables)])
    case Ask(c, requester, scope) =>
      if Allowed(Current(s), requester, scope) then s.(tasks := s.tasks[c := Task(requester, scope, Newest(s), Asked)]) else s
    case LookUp(c) => LookedUp(s, c)
    case Read(c, part) => HasRead(s, c, part)
    case Finish(c) => Finished(s, c)
    case Die(c) => Done(s, c)
  }

  ghost function System(): Machine<State, Label> {
    Machine((s, l) => Enabled(s, l), (s, l) => if Enabled(s, l) then Next(s, l) else s)
  }

  // ---- Where answers come from ---------------------------------------------------------

  /** The version was the database at that time. */
  ghost predicate WasCurrent(log: seq<Version>, snap: Snap) {
    && snap.version < |log| && log[snap.version].at <= snap.at
    && (snap.version + 1 < |log| ==> snap.at <= log[snap.version + 1].at)
  }

  /** Every read saw the database as it was, none before the farms were read. */
  ghost predicate ReadsOk(log: seq<Version>, now: nat, snaps: Snaps) {
    forall part :: part in snaps ==>
      && WasCurrent(log, snaps[part]) && snaps[part].at <= now
      && Farms in snaps && snaps[Farms].at <= snaps[part].at && snaps[Farms].version <= snaps[part].version
  }

  /** A result computed from complete snaps and finished at `storedAt`. */
  ghost predicate Computed(log: seq<Version>, scope: Scope, result: Result, snaps: Snaps, storedAt: nat) {
    && snaps.Keys == Needed(scope)
    && ReadsOk(log, storedAt, snaps)
    && result == Built(scope, Seen(log, snaps))
  }

  /** A farmer has their own report; the admin report needs the admin role in the
      projection at the time of asking. */
  ghost predicate MayHave(log: seq<Version>, requester: int, scope: Scope, asked: nat) {
    && asked < |log|
    && match scope
       case FarmerScope(farmer) => farmer == requester
       case AdminScope =>
         && requester in log[asked].tables.profiles
         && log[asked].tables.profiles[requester].rol == Some("admin")
  }

  lemma MayHaveStays(s: State, s': State, requester: int, scope: Scope, asked: nat)
    requires Grows(s, s') && MayHave(s.log, requester, scope, asked)
    ensures MayHave(s'.log, requester, scope, asked)
  {
    assert s'.log[asked] == s'.log[..|s.log|][asked];
  }

  ghost predicate EntryOk(s: State, key: string, e: Entry) {
    && key == ScopeKey(e.scope)
    && Computed(s.log, e.scope, e.result, e.snaps, e.storedAt)
    && e.storedAt <= s.now && e.expiresAt == e.storedAt + REPORT_CACHE_TTL_MS
  }

  ghost predicate AnswerOk(s: State, a: Answer) {
    && Computed(s.log, a.scope, a.result, a.snaps, a.storedAt)
    && a.storedAt <= a.at < a.storedAt + REPORT_CACHE_TTL_MS && a.at <= s.now
    && MayHave(s.log, a.requester, a.scope, a.asked)
  }

  ghost predicate LogOk(s: State) {
    && s.log != [] && s.log[|s.log| - 1].at <= s.now
    && forall i, j :: 0 <= i < j < |s.log| ==> s.log[i].at <= s.log[j].at
  }

  ghost predicate TaskOk(s: State, t: Task) {
    && MayHave(s.log, t.requester, t.scope, t.asked)
    && (t.phase.Reading? ==> ReadsOk(s.log, s.now, t.phase.snaps))
  }

  ghost predicate Inv(s: State) {
    && LogOk(s)
    && (forall key :: key in s.cache ==> EntryOk(s, key, s.cache[key]))
    && (forall c :: c in s.tasks ==> TaskOk(s, s.tasks[c]))
    && (forall i :: 0 <= i < |s.answers| ==> AnswerOk(s, s.answers[i]))
  }

  /** The log only grows, and only at the current time. */
  ghost predicate Grows(s: State, s': State) {
    && s.now <= s'.now && |s.log| <= |s'.log| && s'.log[..|s.log|] == s.log
    && forall i :: |s.log| <= i < |s'.log| ==> s'.log[i].at == s.now
  }

  lemma StepGrows(s: State, l: Label)
    requires LogOk(s) && Enabled(s, l)
    ensures Grows(s, Next(s, l)) && LogOk(Next(s, l))
  {
    StepLog(s, l);
    hide Next, Enabled;
  }

  lemma StepLog(s: State, l: Label)
    requires Enabled(s, l)
    ensures Next(s, l).log == if l.Change? then s.log + [Version(s.now, l.tables)] else s.log
    ensures Next(s, l).now == if l.Wait? then s.now + l.ms else s.now
  {
    hide Built, ScopeKey, Seen, Current, Allowed, LogOk;
  }

  lemma ReadsStay(s: State, s': State, now: nat, snaps: Snaps)
    requires Grows(s, s') && ReadsOk(s.log, now, snaps) && now <= s.now
    ensures ReadsOk(s'.log, now, snaps)
    ensures forall part :: part in snaps ==> Seen(s'.log, snaps)(part) == Seen(s.log, snaps)(part)
  {
    assert forall i :: 0 <= i < |s.log| ==> s'.log[i] == s.log[i];
  }

  lemma ComputedStays(s: State, s': State, scope: Scope, result: Result, snaps: Snaps, storedAt: nat)
    requires Grows(s, s') && Computed(s.log, scope, result, snaps, storedAt) && storedAt <= s.now
    ensures Computed(s'.log, scope, result, snaps, storedAt)
  {
    ReadsStay(s, s', storedAt, snaps);
    SameBuilt(scope, Seen(s.log, snaps), Seen(s'.log, snaps));
  }

  lemma SameBuilt(scope: Scope, a: Part -> Tables, b: Part -> Tables)
    requires forall part :: part in Needed(scope) ==> a(part) == b(part)
    ensures Built(scope, a) == Built(scope, b)
  {
    hide FarmsOfScope, Grouped, ShapeFarms;
  }

  lemma OneScopePerKey(a: Scope, b: Scope)
    requires ScopeKey(a) == ScopeKey(b)
    ensures a == b
  {
    NoTwoSlotsShareAKey(match a case AdminScope => AdminReport case FarmerScope(f) => FarmerReport(f),
                        match b case AdminScope => AdminReport case FarmerScope(f) => FarmerReport(f));
  }

  lemma EntriesStep(s: State, l: Label)
    requires Inv(s) && Enabled(s, l)
    ensures var s' := Next(s, l); forall key :: key in s'.cache ==> EntryOk(s', key, s'.cache[key])
  {
    StepGrows(s, l);
    CacheGrows(s, l);
    hide Next, Enabled, EntryOk, TaskOk, AnswerOk, LogOk, Grows, ScopeKey;
    var s' := Next(s, l);
    forall key | key in s'.cache ensures EntryOk(s', key, s'.cache[key]) {
      if key in s.cache && s'.cache[key] == s.cache[key] {
        EntryStays(s, s', key);
      } else {
        NewEntry(s, l);
      }
    }
  }

  lemma CacheGrows(s: State, l: Label)
    requires Enabled(s, l)
    ensures var s' := Next(s, l);
      forall key :: key in s'.cache ==>
        (key in s.cache && s'.cache[key] == s.cache[key]) || (l.Finish? && l.c in s.tasks && key == ScopeKey(s.tasks[l.c].scope))
  {
    hide Built, ScopeKey;
  }

  lemma EntryStays(s: State, s': State, key: string)
    requires Grows(s, s') && key in s.cache && EntryOk(s, key, s.cache[key])
    ensures EntryOk(s', key, s.cache[key])
  {
    var e := s.cache[key];
    ComputedStays(s, s', e.scope, e.result, e.snaps, e.storedAt);
    hide Computed, ScopeKey;
  }

  lemma NewEntry(s: State, l: Label)
    requires Inv(s) && Enabled(s, l) && l.Finish?
    ensures var s', key := Next(s, l), ScopeKey(s.tasks[l.c].scope); key in s'.cache && EntryOk(s', key, s'.cache[key])
  {
    hide Built, ScopeKey, AnswerOk, ReadsOk, Seen, LogOk, WasCurrent, MayHave;
    var t := s.tasks[l.c];
    assert TaskOk(s, t);
  }

  lemma AnswersStep(s: State, l: Label)
    requires Inv(s) && Enabled(s, l)
    ensures var s' := Next(s, l); forall i :: 0 <= i < |s'.answers| ==> AnswerOk(s', s'.answers[i])
  {
    StepGrows(s, l);
    AnswersGrow(s, l);
    hide Next, Enabled, EntryOk, TaskOk, AnswerOk, LogOk, Grows, ScopeKey;
    var s' := Next(s, l);
    if |s'.answers| > |s.answers| { NewAnswer(s, l); }
    OldAnswers(s, s');
    hide Inv;
    forall i | 0 <= i < |s'.answers| ensures AnswerOk(s', s'.answers[i]) {
      assert i < |s.answers| || i == |s.answers|;
    }
  }

  lemma OldAnswers(s: State, s': State)
    requires Inv(s) && Grows(s, s') && |s.answers| <= |s'.answers| && s'.answers[..|s.answers|] == s.answers
    ensures forall i :: 0 <= i < |s.answers| ==> AnswerOk(s', s'.answers[i])
  {
    hide AnswerOk, Grows;
    forall i | 0 <= i < |s.answers| ensures AnswerOk(s', s'.answers[i]) {
      assert s'.answers[i] == s'.answers[..|s.answers|][i];
      AnswerStays(s, s', s.answers[i]);
    }
  }

  lemma AnswerStays(s: State, s': State, a: Answer)
    requires Grows(s, s') && AnswerOk(s, a)
    ensures AnswerOk(s', a)
  {
    ComputedStays(s, s', a.scope, a.result, a.snaps, a.storedAt);
    MayHaveStays(s, s', a.requester, a.scope, a.asked);
    hide Computed;
  }

  lemma AnswersGrow(s: State, l: Label)
    requires Enabled(s, l)
    ensures var was, now := s.answers, Next(s, l).answers; |was| <= |now| <= |was| + 1 && now[..|was|] == was
  {
    hide Built, ScopeKey;
  }

  lemma NewAnswer(s: State, l: Label)
    requires Inv(s) && Enabled(s, l) && |Next(s, l).answers| > |s.answers|
    ensures |Next(s, l).answers| == |s.answers| + 1 && AnswerOk(Next(s, l), Next(s, l).answers[|s.answers|])
  {
    assert TaskOk(s, s.tasks[l.c]);
    if l.LookUp? {
      var key := ScopeKey(s.tasks[l.c].scope);
      assert EntryOk(s, key, s.cache[key]);
      OneScopePerKey(s.cache[key].scope, s.tasks[l.c].scope);
    }
  }

  lemma TasksStep(s: State, l: Label)
    requires Inv(s) && Enabled(s, l)
    ensures var s' := Next(s, l); forall c :: c in s'.tasks ==> TaskOk(s', s'.tasks[c])
  {
    StepGrows(s, l);
    TasksGrow(s, l);
    hide Next, Enabled, EntryOk, TaskOk, AnswerOk, LogOk, Grows;
    var s' := Next(s, l);
    forall c | c in s'.tasks ensures TaskOk(s', s'.tasks[c]) {
      if c in s.tasks && s'.tasks[c] == s.tasks[c] {
        TaskStays(s, s', s.tasks[c]);
      } else if l.Read? {
        ReadTask(s, c, l.part);
      } else {
        FreshTask(s, l, c);
      }
    }
  }

  lemma TasksGrow(s: State, l: Label)
    requires Enabled(s, l)
    ensures var s' := Next(s, l);
      forall c :: c in s'.tasks && !(c in s.tasks && s'.tasks[c] == s.tasks[c]) ==> (l.Read? || l.Ask? || l.LookUp?) && l.c == c
  {
    hide Built, ScopeKey;
  }

  lemma TaskStays(s: State, s': State, t: Task)
    requires Grows(s, s') && TaskOk(s, t)
    ensures TaskOk(s', t)
  {
    MayHaveStays(s, s', t.requester, t.scope, t.asked);
    if t.phase.Reading? { ReadsStay(s, s', s.now, t.phase.snaps); }
  }

  /** A request starts with nothing read. */
  lemma FreshTask(s: State, l: Label, c: Consumer)
    requires Inv(s) && Enabled(s, l) && (l.Ask? || l.LookUp?) && l.c == c && c in Next(s, l).tasks
    requires !(c in s.tasks && Next(s, l).tasks[c] == s.tasks[c])
    ensures TaskOk(Next(s, l), Next(s, l).tasks[c])
  {
    if l.LookUp? { assert TaskOk(s, s.tasks[c]); }
    hide ScopeKey, EntryOk, AnswerOk;
  }

  lemma ReadTask(s: State, c: Consumer, part: Part)
    requires Inv(s) && Enabled(s, Read(c, part))
    ensures TaskOk(Next(s, Read(c, part)), Next(s, Read(c, part)).tasks[c])
  {
    assert TaskOk(s, s.tasks[c]);
    MoreRead(s, s.tasks[c].scope, s.tasks[c].phase.snaps, part);
    hide Built, ScopeKey, ReadsOk, EntryOk, AnswerOk;
  }

  lemma MoreRead(s: State, scope: Scope, snaps: Snaps, part: Part)
    requires LogOk(s) && ReadsOk(s.log, s.now, snaps) && Ready(scope, snaps, part)
    ensures ReadsOk(s.log, s.now, snaps[part := Snap(|s.log| - 1, s.now)])
  {
  }

  lemma InvStep(s: State, l: Label)
    requires Inv(s) && Enabled(s, l)
    ensures Inv(Next(s, l))
  {
    StepGrows(s, l);
    EntriesStep(s, l);
    TasksStep(s, l);
    AnswersStep(s, l);
  }

  lemma InvRun(t: Tables, ls: seq<Label>)
    requires Valid(System(), Start(t), ls)
    ensures Inv(Exec(System(), Start(t), ls))
  {
    assert Inv(Start(t));
    forall s, l | Inv(s) && Enabled(s, l) ensures Inv(Next(s, l)) { InvStep(s, l); }
    Invariant(System(), s => Inv(s), _ => true, Start(t), ls);
  }

  // ---- Freshness ---------------------------------------------------------------------

  /** Whatever writers and other computations do, every answer was put together
      from tables each as it was at some time no earlier than the answer minus a
      minute minus the time its computation took, for the scope that was asked;
      a farmer's report only ever answers that farmer, and the admin report only
      someone who was an admin in the projection when they asked. */
  lemma AnswersAreFresh(t: Tables, ls: seq<Label>, i: nat)
    requires Valid(System(), Start(t), ls) && i < |Exec(System(), Start(t), ls).answers|
    ensures var s := Exec(System(), Start(t), ls);
      var a := s.answers[i];
      && Computed(s.log, a.scope, a.result, a.snaps, a.storedAt)
      && MayHave(s.log, a.requester, a.scope, a.asked)
      && forall part :: part in Needed(a.scope) ==>
           && Farms in a.snaps && part in a.snaps && a.snaps[Farms].at <= a.storedAt
           && WasCurrent(s.log, a.snaps[part])
           && a.at < a.snaps[part].at + 60_000 + (a.storedAt - a.snaps[Farms].at)
  {
    InvRun(t, ls);
    var s := Exec(System(), Start(t), ls);
    assert AnswerOk(s, s.answers[i]);
    hide Built, System, Exec, Valid;
  }
}
