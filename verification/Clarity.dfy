/** The Clarity dimension combinations (app_settings.py) and the daily fetch (clarity/fetcher.py). */
module Clarity {
  import opened Common

  type Combo = seq<string>

  const ALLOWED_DIMENSIONS := {
    "Browser", "Device", "Country/Region", "OS", "Source", "Medium", "Campaign", "Channel", "URL" }

  /** combo_key. */
  function ComboKey(dimensions: Combo): string {
    if dimensions != [] then Join("+", dimensions) else "overall"
  }

  datatype ComboError = TooManyCombos | TooManyDimensions | RepeatedDimension | UnknownDimension | DuplicateCombo

  ghost predicate ValidCombo(combo: Combo) {
    |combo| <= 3 && NoDuplicates(combo) && forall d :: d in combo ==> d in ALLOWED_DIMENSIONS
  }

  ghost predicate DistinctKeys(combos: seq<Combo>) {
    forall i, j :: 0 <= i < j < |combos| ==> ComboKey(combos[i]) != ComboKey(combos[j])
  }

  ghost predicate ValidCombos(combos: seq<Combo>) {
    |combos| <= 10 && (forall c :: c in combos ==> ValidCombo(c)) && DistinctKeys(combos)
  }

  function KeysOf(combos: seq<Combo>): set<string> { set c | c in combos :: ComboKey(c) }

  lemma DistinctKeysSnoc(combos: seq<Combo>, i: nat)
    requires i < |combos| && DistinctKeys(combos[..i]) && ComboKey(combos[i]) !in KeysOf(combos[..i])
    ensures DistinctKeys(combos[..i + 1]) && KeysOf(combos[..i + 1]) == KeysOf(combos[..i]) + {ComboKey(combos[i])}
  {
    assert combos[..i + 1] == combos[..i] + [combos[i]];
    forall k | 0 <= k < i ensures ComboKey(combos[k]) != ComboKey(combos[i]) {
      assert combos[..i][k] in combos[..i];
    }
  }

  lemma KeyRepeated(combos: seq<Combo>, i: nat)
    requires i < |combos| && ComboKey(combos[i]) in KeysOf(combos[..i])
    ensures !DistinctKeys(combos)
  {
    var k :| 0 <= k < i && ComboKey(combos[..i][k]) == ComboKey(combos[i]);
    assert combos[k] == combos[..i][k];
  }

  /** `len(set(combo)) != len(combo)`. */
  predicate Repeats(combo: Combo) {
    exists i, j :: 0 <= i < j < |combo| && combo[i] == combo[j]
  }

  /** The first thing wrong with one combination. */
  ghost predicate Faulty(combo: Combo, e: ComboError) {
    match e
    case TooManyDimensions => |combo| > 3
    case RepeatedDimension => |combo| <= 3 && !NoDuplicates(combo)
    case UnknownDimension => |combo| <= 3 && NoDuplicates(combo) && exists d :: d in combo && d !in ALLOWED_DIMENSIONS
    case _ => false
  }

  method CheckCombo(combo: Combo) returns (error: Option<ComboError>)
    ensures if error.None? then ValidCombo(combo) else Faulty(combo, error.value)
  {
    if |combo| > 3 {
      return Some(TooManyDimensions);
    }
    if Repeats(combo) {
      return Some(RepeatedDimension);
    }
    if d :| d in combo && d !in ALLOWED_DIMENSIONS {
      return Some(UnknownDimension);
    }
    return None;
  }

  /** What validate_combos reports: the first combination that cannot join the ones before it, and why. */
  ghost predicate Blames(combos: seq<Combo>, i: nat, e: ComboError)
    requires i < |combos|
  {
    && ValidCombos(combos[..i])
    && if e.DuplicateCombo? then ValidCombo(combos[i]) && ComboKey(combos[i]) in KeysOf(combos[..i])
       else Faulty(combos[i], e)
  }

  lemma ValidCombosSnoc(combos: seq<Combo>, i: nat)
    requires i < |combos| <= 10 && ValidCombos(combos[..i])
    requires ValidCombo(combos[i]) && ComboKey(combos[i]) !in KeysOf(combos[..i])
    ensures ValidCombos(combos[..i + 1]) && KeysOf(combos[..i + 1]) == KeysOf(combos[..i]) + {ComboKey(combos[i])}
  {
    DistinctKeysSnoc(combos, i);
    assert combos[..i + 1] == combos[..i] + [combos[i]];
  }

  lemma BlamedAreInvalid(combos: seq<Combo>, i: nat, e: ComboError)
    requires i < |combos| && Blames(combos, i, e)
    ensures !ValidCombos(combos)
  {
    if e.DuplicateCombo? {
      KeyRepeated(combos, i);
    } else {
      assert combos[i] in combos;
    }
  }

  /** validate_combos: accepts exactly the combo lists that can be fetched within the limits. */
  method ValidateCombos(combos: seq<Combo>) returns (error: Option<ComboError>)
    ensures error.None? <==> ValidCombos(combos)
    ensures error == Some(TooManyCombos) <==> |combos| > 10
    ensures error.Some? && |combos| <= 10 ==> exists i: nat :: i < |combos| && Blames(combos, i, error.value)
  {
    if |combos| > 10 {
      return Some(TooManyCombos);
    }
    var seen: set<string> := {};
    for i := 0 to |combos|
      invariant seen == KeysOf(combos[..i]) && ValidCombos(combos[..i])
    {
      var fault := CheckCombo(combos[i]);
      if fault.Some? {
        BlamedAreInvalid(combos, i, fault.value);
        error := fault;
        assert Blames(combos, i, error.value);
        return;
      }
      var key := ComboKey(combos[i]);
      if key in seen {
        error := Some(DuplicateCombo);
        assert Blames(combos, i, error.value);
        BlamedAreInvalid(combos, i, error.value);
        return;
      }
      ValidCombosSnoc(combos, i);
      seen := seen + {key};
    }
    assert combos[..|combos|] == combos;
    return None;
  }

  // ------------------------------------------------------ the key is injective

  lemma JoinHasSeparator(parts: seq<string>)
    requires |parts| >= 2
    ensures '+' in Join("+", parts)
  {
    assert Join("+", parts)[|parts[0]|] == '+';
  }

  lemma SplitAtPlus(a: string, r: string, b: string, s: string)
    requires '+' !in a && '+' !in b && a + "+" + r == b + "+" + s
    ensures a == b && r == s
  {
    var left, right := a + "+" + r, b + "+" + s;
    assert left[|a|] == '+' && right[|b|] == '+';
    forall i | 0 <= i < |a| ensures left[i] != '+' { assert left[i] == a[i]; }
    forall i | 0 <= i < |b| ensures right[i] != '+' { assert right[i] == b[i]; }
    assert left[..|a|] == a && right[..|a|] == b;
    assert left[|a| + 1..] == r && right[|a| + 1..] == s;
  }

  ghost predicate PlusFree(parts: seq<string>) { forall p :: p in parts ==> '+' !in p }

  lemma {:induction false} JoinInjective(a: seq<string>, b: seq<string>)
    requires a != [] && b != [] && PlusFree(a) && PlusFree(b) && Join("+", a) == Join("+", b)
    ensures a == b
  {
    if |a| == 1 || |b| == 1 {
      if |a| >= 2 { JoinHasSeparator(a); }
      if |b| >= 2 { JoinHasSeparator(b); }
    } else {
      SplitAtPlus(a[0], Join("+", a[1..]), b[0], Join("+", b[1..]));
      JoinInjective(a[1..], b[1..]);
      assert a == [a[0]] + a[1..] && b == [b[0]] + b[1..];
    }
  }

  lemma AllowedArePlusFree(combo: Combo)
    requires ValidCombo(combo)
    ensures PlusFree(combo)
  {
    forall d | d in ALLOWED_DIMENSIONS ensures '+' !in d {}
  }

  lemma OverallIsReserved(combo: Combo)
    requires ValidCombo(combo) && combo != []
    ensures ComboKey(combo) != "overall"
  {
    if |combo| >= 2 {
      JoinHasSeparator(combo);
    } else {
      assert combo[0] in combo;
    }
  }

  /** Different valid combinations never share a key, the empty one included. */
  lemma ComboKeyInjective(a: Combo, b: Combo)
    requires ValidCombo(a) && ValidCombo(b)
    ensures ComboKey(a) == ComboKey(b) <==> a == b
  {
    if a != [] { OverallIsReserved(a); }
    if b != [] { OverallIsReserved(b); }
    if a != [] && b != [] && ComboKey(a) == ComboKey(b) {
      AllowedArePlusFree(a);
      AllowedArePlusFree(b);
      JoinInjective(a, b);
    }
  }

  /** A list of valid combinations has pairwise different keys exactly when it repeats no combination. */
  lemma DistinctKeysIffDistinctCombos(combos: seq<Combo>)
    requires forall k :: 0 <= k < |combos| ==> ValidCombo(combos[k])
    ensures DistinctKeys(combos) <==> NoDuplicates(combos)
  {
    forall i, j | 0 <= i < j < |combos| ensures ComboKey(combos[i]) == ComboKey(combos[j]) <==> combos[i] == combos[j] {
      ComboKeyInjective(combos[i], combos[j]);
    }
  }

  // ------------------------------------------------------------ the daily fetch

  const DAILY_REQUEST_BUDGET: nat := 10
  const SECONDS_PER_DAY: nat := 86400

  datatype RunStatus = Running | Success | Partial | Failed

  /** Times are seconds on the UTC clock. */
  datatype FetchRun = FetchRun(createdAt: nat, dataDate: int, attempted: nat, succeeded: nat, status: RunStatus)

  datatype Snapshot = Snapshot(runId: nat, dataDate: int, comboKey: string, dimensions: Combo, success: bool)

  datatype ApiOutcome = Payload | ApiError(fatal: bool)

  /** The Clarity API: any answer per request number and combination. */
  type Api = (nat, Combo) -> ApiOutcome

  function Day(t: nat): nat { t / SECONDS_PER_DAY }

  function DayStart(t: nat): nat { Day(t) * SECONDS_PER_DAY }

  /** plan_combos. */
  function PlanCombos(combos: seq<Combo>, used: nat): seq<Combo> {
    var remaining := if used < DAILY_REQUEST_BUDGET then DAILY_REQUEST_BUDGET - used else 0;
    if |combos| > remaining then combos[..remaining] else combos
  }

  /** requests_used_today: the attempts of every logged run created since the start of the day. */
  function UsedSince(runs: seq<FetchRun>, start: nat): nat {
    if runs == [] then 0
    else
      var r := runs[|runs| - 1];
      UsedSince(runs[..|runs| - 1], start) + (if r.createdAt >= start then r.attempted else 0)
  }

  /** The attempts of the runs created on one day. */
  function AttemptedOn(runs: seq<FetchRun>, day: nat): nat {
    if runs == [] then 0
    else
      var r := runs[|runs| - 1];
      AttemptedOn(runs[..|runs| - 1], day) + (if Day(r.createdAt) == day then r.attempted else 0)
  }

  /** How many of the planned requests are made: up to and including the first fatal error. */
  function AttemptCount(planned: seq<Combo>, api: Api, from: nat): nat
    requires from <= |planned|
    decreases |planned| - from
  {
    if from == |planned| then 0
    else if api(from, planned[from]) == ApiError(true) then 1
    else 1 + AttemptCount(planned, api, from + 1)
  }

  lemma {:induction false} AttemptCountBound(planned: seq<Combo>, api: Api, from: nat)
    requires from <= |planned|
    ensures AttemptCount(planned, api, from) <= |planned| - from
    decreases |planned| - from
  {
    if from < |planned| {
      AttemptCountBound(planned, api, from + 1);
    }
  }

  function SuccessCount(planned: seq<Combo>, api: Api, n: nat): nat
    requires n <= |planned|
  {
    if n == 0 then 0 else SuccessCount(planned, api, n - 1) + (if api(n - 1, planned[n - 1]).Payload? then 1 else 0)
  }

  function StatusOf(combos: seq<Combo>, planned: seq<Combo>, succeeded: nat): RunStatus {
    if planned == [] || succeeded == 0 then Failed
    else if succeeded < |combos| then Partial
    else Success
  }

  /** Deleting the stored snapshots of one date and combination. */
  function Without(snapshots: seq<Snapshot>, date: int, key: string): seq<Snapshot> {
    if snapshots == [] then []
    else
      var s := snapshots[|snapshots| - 1];
      Without(snapshots[..|snapshots| - 1], date, key) + (if s.dataDate == date && s.comboKey == key then [] else [s])
  }

  /** A new snapshot takes the place of the one stored for its date and combination. */
  function Replace(snapshots: seq<Snapshot>, s: Snapshot): seq<Snapshot> {
    Without(snapshots, s.dataDate, s.comboKey) + [s]
  }

  function SnapshotFor(runId: nat, date: int, combo: Combo, outcome: ApiOutcome): Snapshot {
    Snapshot(runId, date, ComboKey(combo), combo, outcome.Payload?)
  }

  /** The store after the first `n` requests of a run. */
  function Stored(before: seq<Snapshot>, runId: nat, date: int, planned: seq<Combo>, api: Api, n: nat): seq<Snapshot>
    requires n <= |planned|
  {
    if n == 0 then before
    else
      var combo := planned[n - 1];
      Replace(Stored(before, runId, date, planned, api, n - 1), SnapshotFor(runId, date, combo, api(n - 1, combo)))
  }

  /** One scheduled or manual fetch. `createdAt` is what the database stamps on its run row, the start of the
      transaction; the clock is read for the budget later, at `checkedAt`. */
  datatype Request = Request(createdAt: nat, checkedAt: nat, dataDate: int, combos: seq<Combo>, hasToken: bool, api: Api)

  /** The run row a request leaves behind, given the log before it. */
  function RunFor(runs: seq<FetchRun>, q: Request): FetchRun {
    var planned := PlanCombos(q.combos, UsedSince(runs, DayStart(q.checkedAt)));
    AttemptCountBound(planned, q.api, 0);
    var attempted := AttemptCount(planned, q.api, 0);
    var succeeded := SuccessCount(planned, q.api, attempted);
    FetchRun(q.createdAt, q.dataDate, attempted, succeeded, StatusOf(q.combos, planned, succeeded))
  }

  ghost predicate NotAfter(runs: seq<FetchRun>, t: nat) {
    forall r :: r in runs ==> r.createdAt <= t
  }

  ghost predicate WithinDailyBudget(runs: seq<FetchRun>) {
    forall day :: AttemptedOn(runs, day) <= DAILY_REQUEST_BUDGET
  }

  ghost predicate OnePerCombo(snapshots: seq<Snapshot>) {
    forall i, j {:trigger Apart(snapshots[i], snapshots[j])} ::
      0 <= i < j < |snapshots| ==> Apart(snapshots[i], snapshots[j])
  }

  predicate Apart(a: Snapshot, b: Snapshot) { a.dataDate != b.dataDate || a.comboKey != b.comboKey }

  /** The fetch-run log and the stored snapshots. */
  class Store {
    var runs: seq<FetchRun>
    var snapshots: seq<Snapshot>

    constructor ()
      ensures runs == [] && snapshots == []
    {
      runs, snapshots := [], [];
    }

    /** The request loop of run_fetch. */
    method FetchAll(id: nat, date: int, planned: seq<Combo>, api: Api) returns (attempted: nat, succeeded: nat)
      modifies this`snapshots
      ensures attempted == AttemptCount(planned, api, 0) <= |planned|
      ensures succeeded == SuccessCount(planned, api, attempted)
      ensures snapshots == Stored(old(snapshots), id, date, planned, api, attempted)
    {
      AttemptCountBound(planned, api, 0);
      attempted, succeeded := 0, 0;
      var abort := false;
      while attempted < |planned| && !abort
        invariant attempted <= |planned|
        invariant attempted + (if abort then 0 else AttemptCount(planned, api, attempted)) == AttemptCount(planned, api, 0)
        invariant succeeded == SuccessCount(planned, api, attempted)
        invariant snapshots == Stored(old(snapshots), id, date, planned, api, attempted)
      {
        var combo := planned[attempted];
        var outcome := api(attempted, combo);
        snapshots := Without(snapshots, date, ComboKey(combo));
        snapshots := snapshots + [SnapshotFor(id, date, combo, outcome)];
        attempted := attempted + 1;
        if outcome.Payload? {
          succeeded := succeeded + 1;
        } else {
          abort := outcome.fatal;
        }
      }
    }

    /** run_fetch; a missing token raises before anything is written. */
    method RunFetch(q: Request)
      modifies this
      ensures !q.hasToken ==> runs == old(runs) && snapshots == old(snapshots)
      ensures q.hasToken ==>
        && runs == old(runs) + [RunFor(old(runs), q)]
        && var planned := PlanCombos(q.combos, UsedSince(old(runs), DayStart(q.checkedAt)));
           && RunFor(old(runs), q).attempted <= |planned|
           && snapshots == Stored(old(snapshots), |old(runs)|, q.dataDate, planned, q.api, RunFor(old(runs), q).attempted)
    {
      if !q.hasToken {
        return;
      }
      var planned := PlanCombos(q.combos, UsedSince(runs, DayStart(q.checkedAt)));
      var id := |runs|;
      runs := runs + [FetchRun(q.createdAt, q.dataDate, 0, 0, Running)];
      var attempted, succeeded := FetchAll(id, q.dataDate, planned, q.api);
      runs := runs[id := FetchRun(q.createdAt, q.dataDate, attempted, succeeded, StatusOf(q.combos, planned, succeeded))];
    }

    /** Any number of fetches, one after the other, none of which crosses midnight before reading the clock. */
    method RunAll(requests: seq<Request>)
      requires WithinDailyBudget(runs) && OnePerCombo(snapshots)
      requires requests != [] ==> NotAfter(runs, requests[0].createdAt)
      requires Monotone(requests) && forall q :: q in requests ==> SameDay(q)
      modifies this
      ensures WithinDailyBudget(runs) && OnePerCombo(snapshots)
    {
      for i := 0 to |requests|
        invariant WithinDailyBudget(runs) && OnePerCombo(snapshots)
        invariant i < |requests| ==> NotAfter(runs, requests[i].createdAt)
      {
        ghost var log := runs;
        ghost var stored := snapshots;
        RunFetch(requests[i]);
        if requests[i].hasToken {
          assert requests[i] in requests;
          BudgetKept(log, requests[i]);
          var planned := PlanCombos(requests[i].combos, UsedSince(log, DayStart(requests[i].checkedAt)));
          StoredOnePerCombo(stored, |log|, requests[i].dataDate, planned, requests[i].api,
                            RunFor(log, requests[i]).attempted);
        }
      }
    }
  }

  /** The fetch reads the clock in the UTC day its transaction began in. */
  predicate SameDay(q: Request) { Day(q.createdAt) == Day(q.checkedAt) }

  /** A clock that never goes back, and fetches that do not overlap. */
  ghost predicate Monotone(requests: seq<Request>) {
    && (forall i :: 0 <= i < |requests| ==> requests[i].createdAt <= requests[i].checkedAt)
    && (forall i :: 0 <= i < |requests| - 1 ==> requests[i].checkedAt <= requests[i + 1].createdAt)
  }

  // -------------------------------------------------------------- properties

  lemma {:induction false} SameDaySum(runs: seq<FetchRun>, t: nat)
    requires NotAfter(runs, t)
    ensures UsedSince(runs, DayStart(t)) == AttemptedOn(runs, Day(t))
  {
    if runs != [] {
      var last := |runs| - 1;
      assert runs == runs[..last] + [runs[last]];
      SameDaySum(runs[..last], t);
      assert runs[last] in runs;
      assert runs[last].createdAt >= DayStart(t) <==> Day(runs[last].createdAt) == Day(t);
    }
  }

  lemma AttemptedSnoc(runs: seq<FetchRun>, run: FetchRun, day: nat)
    ensures AttemptedOn(runs + [run], day)
         == AttemptedOn(runs, day) + (if Day(run.createdAt) == day then run.attempted else 0)
  {
    assert (runs + [run])[..|runs|] == runs;
  }

  /** What a fetch may attempt, whatever the API answers. */
  function Allowance(runs: seq<FetchRun>, q: Request): nat {
    |PlanCombos(q.combos, UsedSince(runs, DayStart(q.checkedAt)))|
  }

  /** A run is counted for the day it is stamped with: the budget holds after it exactly when that day has room. */
  lemma BudgetAfter(runs: seq<FetchRun>, q: Request)
    requires WithinDailyBudget(runs)
    ensures WithinDailyBudget(runs + [RunFor(runs, q)])
       <==> AttemptedOn(runs, Day(q.createdAt)) + RunFor(runs, q).attempted <= DAILY_REQUEST_BUDGET
  {
    var run := RunFor(runs, q);
    AttemptedSnoc(runs, run, Day(q.createdAt));
    forall day ensures day != Day(q.createdAt) ==> AttemptedOn(runs + [run], day) <= DAILY_REQUEST_BUDGET {
      AttemptedSnoc(runs, run, day);
      assert AttemptedOn(runs, day) <= DAILY_REQUEST_BUDGET;
    }
  }

  /** A fetch that reads the clock in the day its row is stamped with keeps every day within the budget. */
  lemma BudgetKept(runs: seq<FetchRun>, q: Request)
    requires WithinDailyBudget(runs) && NotAfter(runs, q.createdAt) && q.createdAt <= q.checkedAt && SameDay(q)
    ensures WithinDailyBudget(runs + [RunFor(runs, q)])
  {
    AttemptCountBound(PlanCombos(q.combos, UsedSince(runs, DayStart(q.checkedAt))), q.api, 0);
    BudgetAfter(runs, q);
    SameDaySum(runs, q.checkedAt);
  }

  /** Exactly when the daily budget survives a fetch, whatever the API answers: the fetch does not cross midnight
      between the start of its transaction and reading the clock, or the day it started in still has room for
      everything a fresh day allows. */
  lemma BudgetKeptIff(runs: seq<FetchRun>, q: Request)
    requires WithinDailyBudget(runs) && NotAfter(runs, q.createdAt) && q.createdAt <= q.checkedAt
    ensures (forall api :: WithinDailyBudget(runs + [RunFor(runs, q.(api := api))]))
       <==> SameDay(q) || AttemptedOn(runs, Day(q.createdAt)) + Allowance(runs, q) <= DAILY_REQUEST_BUDGET
    ensures !SameDay(q) ==> Allowance(runs, q) == if |q.combos| < DAILY_REQUEST_BUDGET then |q.combos| else DAILY_REQUEST_BUDGET
  {
    var planned := PlanCombos(q.combos, UsedSince(runs, DayStart(q.checkedAt)));
    forall api ensures RunFor(runs, q.(api := api)).attempted <= |planned| {
      AttemptCountBound(planned, api, 0);
    }
    if SameDay(q) {
      forall api ensures WithinDailyBudget(runs + [RunFor(runs, q.(api := api))]) {
        BudgetKept(runs, q.(api := api));
      }
    } else {
      NothingSince(runs, q.createdAt, DayStart(q.checkedAt));
      var works: Api := (k, combo) => Payload;
      NoFatalAttemptsAll(planned, works, 0);
      assert RunFor(runs, q.(api := works)).attempted == |planned|;
      forall api { BudgetAfter(runs, q.(api := api)); }
      assert q.(api := works).createdAt == q.createdAt;
    }
  }

  lemma {:induction false} NothingSince(runs: seq<FetchRun>, t: nat, start: nat)
    requires NotAfter(runs, t) && t < start
    ensures UsedSince(runs, start) == 0
  {
    if runs != [] {
      var last := |runs| - 1;
      assert runs == runs[..last] + [runs[last]];
      NothingSince(runs[..last], t, start);
      assert runs[last] in runs;
    }
  }

  /** Ten requests used on a day, and a fetch whose transaction starts in its last second but reads the clock
      after midnight: the new run is stamped with the old day, which then counts eleven. */
  lemma MidnightOverspends()
    ensures var runs := [FetchRun(0, 0, 10, 10, Success)];
            var q := Request(86399, 86400, 0, [["OS"]], true, (k, combo) => Payload);
            && WithinDailyBudget(runs) && NotAfter(runs, q.createdAt) && q.createdAt <= q.checkedAt
            && AttemptedOn(runs + [RunFor(runs, q)], 0) == 11
  {
    var runs := [FetchRun(0, 0, 10, 10, Success)];
    var q := Request(86399, 86400, 0, [["OS"]], true, (k, combo) => Payload);
    assert runs[..0] == [];
    assert forall day :: AttemptedOn(runs, day) == if day == 0 then 10 else 0;
    NothingSince(runs, q.createdAt, DayStart(q.checkedAt));
    NoFatalAttemptsAll([["OS"]], q.api, 0);
    assert RunFor(runs, q).attempted == 1;
    AttemptedSnoc(runs, RunFor(runs, q), 0);
  }

  lemma {:induction false} WithoutMembers(snapshots: seq<Snapshot>, date: int, key: string, s: Snapshot)
    ensures s in Without(snapshots, date, key) <==> s in snapshots && !(s.dataDate == date && s.comboKey == key)
  {
    if snapshots != [] {
      var last := |snapshots| - 1;
      assert snapshots == snapshots[..last] + [snapshots[last]];
      WithoutMembers(snapshots[..last], date, key, s);
    }
  }

  lemma {:induction false} WithoutKeepsOnePerCombo(snapshots: seq<Snapshot>, date: int, key: string)
    requires OnePerCombo(snapshots)
    ensures OnePerCombo(Without(snapshots, date, key))
  {
    if snapshots != [] {
      var last := |snapshots| - 1;
      var front := Without(snapshots[..last], date, key);
      forall i, j | 0 <= i < j < last ensures Apart(snapshots[..last][i], snapshots[..last][j]) {
        assert Apart(snapshots[i], snapshots[j]);
      }
      WithoutKeepsOnePerCombo(snapshots[..last], date, key);
      forall i | 0 <= i < |front| ensures Apart(front[i], snapshots[last]) {
        WithoutMembers(snapshots[..last], date, key, front[i]);
        var k :| 0 <= k < last && snapshots[k] == front[i];
        assert Apart(snapshots[k], snapshots[last]);
      }
      AppendKeepsOnePerCombo(front, snapshots[last]);
    }
  }

  lemma AppendKeepsOnePerCombo(front: seq<Snapshot>, s: Snapshot)
    requires OnePerCombo(front) && forall i {:trigger front[i]} :: 0 <= i < |front| ==> Apart(front[i], s)
    ensures OnePerCombo(front + [s])
  {
    forall i, j | 0 <= i < j < |front| + 1 ensures Apart((front + [s])[i], (front + [s])[j]) {
      if j < |front| {
        assert Apart(front[i], front[j]);
      } else {
        assert Apart(front[i], s);
      }
    }
  }

  lemma ReplaceKeepsOnePerCombo(snapshots: seq<Snapshot>, s: Snapshot)
    requires OnePerCombo(snapshots)
    ensures OnePerCombo(Replace(snapshots, s))
  {
    var kept := Without(snapshots, s.dataDate, s.comboKey);
    WithoutKeepsOnePerCombo(snapshots, s.dataDate, s.comboKey);
    forall i | 0 <= i < |kept| ensures Apart(kept[i], s) {
      WithoutMembers(snapshots, s.dataDate, s.comboKey, kept[i]);
    }
    AppendKeepsOnePerCombo(kept, s);
  }

  lemma ReplaceMembers(snapshots: seq<Snapshot>, added: Snapshot, s: Snapshot)
    ensures s in Replace(snapshots, added)
       <==> (s in snapshots && !(s.dataDate == added.dataDate && s.comboKey == added.comboKey)) || s == added
  {
    WithoutMembers(snapshots, added.dataDate, added.comboKey, s);
  }

  /** Each (data date, combination key) keeps at most one stored snapshot. */
  lemma {:induction false} StoredOnePerCombo(before: seq<Snapshot>, runId: nat, date: int, planned: seq<Combo>,
                                             api: Api, n: nat)
    requires n <= |planned| && OnePerCombo(before)
    ensures OnePerCombo(Stored(before, runId, date, planned, api, n))
  {
    if n > 0 {
      var earlier := Stored(before, runId, date, planned, api, n - 1);
      var added := SnapshotFor(runId, date, planned[n - 1], api(n - 1, planned[n - 1]));
      StoredOnePerCombo(before, runId, date, planned, api, n - 1);
      ReplaceKeepsOnePerCombo(earlier, added);
      assert Some(Stored(before, runId, date, planned, api, n)) == Some(Replace(earlier, added));
    }
  }

  ghost predicate Attempted(planned: seq<Combo>, n: nat, combo: Combo) {
    exists k {:trigger planned[k]} :: 0 <= k < n && k < |planned| && planned[k] == combo
  }

  ghost predicate WrittenBy(runId: nat, date: int, planned: seq<Combo>, api: Api, n: nat, s: Snapshot) {
    exists k {:trigger planned[k]} :: 0 <= k < n && k < |planned|
      && s == Snapshot(runId, date, ComboKey(planned[k]), planned[k], api(k, planned[k]).Payload?)
  }

  ghost predicate ValidPlan(planned: seq<Combo>) {
    NoDuplicates(planned) && forall combo :: combo in planned ==> ValidCombo(combo)
  }

  lemma StoredStep(before: seq<Snapshot>, runId: nat, date: int, planned: seq<Combo>, api: Api, n: nat, s: Snapshot)
    requires 0 < n <= |planned|
    ensures s in Stored(before, runId, date, planned, api, n)
       <==> (s in Stored(before, runId, date, planned, api, n - 1)
             && !(s.dataDate == date && s.comboKey == ComboKey(planned[n - 1])))
            || s == SnapshotFor(runId, date, planned[n - 1], api(n - 1, planned[n - 1]))
  {
    ReplaceMembers(Stored(before, runId, date, planned, api, n - 1),
                   SnapshotFor(runId, date, planned[n - 1], api(n - 1, planned[n - 1])), s);
  }

  ghost predicate ProperlyKeyed(s: Snapshot) { ValidCombo(s.dimensions) && s.comboKey == ComboKey(s.dimensions) }

  /** What a run wrote earlier is not replaced by its last request, which is for another combination. */
  lemma WrittenSplit(runId: nat, date: int, planned: seq<Combo>, api: Api, n: nat, s: Snapshot)
    requires 0 < n <= |planned| && ValidPlan(planned)
    ensures WrittenBy(runId, date, planned, api, n, s)
       <==> WrittenBy(runId, date, planned, api, n - 1, s)
            || s == SnapshotFor(runId, date, planned[n - 1], api(n - 1, planned[n - 1]))
    ensures WrittenBy(runId, date, planned, api, n - 1, s) ==> s.comboKey != ComboKey(planned[n - 1])
    ensures Attempted(planned, n, s.dimensions) <==> Attempted(planned, n - 1, s.dimensions) || s.dimensions == planned[n - 1]
  {
    if WrittenBy(runId, date, planned, api, n - 1, s) {
      var k :| 0 <= k < n - 1
        && s == Snapshot(runId, date, ComboKey(planned[k]), planned[k], api(k, planned[k]).Payload?);
      ComboKeyInjective(planned[k], planned[n - 1]);
    }
  }

  /** What the store should hold: old snapshots of other dates or combinations, and every attempt's outcome. */
  ghost predicate Expected(before: seq<Snapshot>, runId: nat, date: int, planned: seq<Combo>, api: Api, n: nat,
                           s: Snapshot) {
    || (s in before && !(s.dataDate == date && Attempted(planned, n, s.dimensions)))
    || WrittenBy(runId, date, planned, api, n, s)
  }

  lemma ExpectedStep(before: seq<Snapshot>, runId: nat, date: int, planned: seq<Combo>, api: Api, n: nat, s: Snapshot)
    requires 0 < n <= |planned| && ValidPlan(planned)
    requires s in before ==> ProperlyKeyed(s)
    ensures Expected(before, runId, date, planned, api, n, s)
       <==> (Expected(before, runId, date, planned, api, n - 1, s)
             && !(s.dataDate == date && s.comboKey == ComboKey(planned[n - 1])))
            || s == SnapshotFor(runId, date, planned[n - 1], api(n - 1, planned[n - 1]))
  {
    WrittenSplit(runId, date, planned, api, n, s);
    if s in before {
      ComboKeyInjective(s.dimensions, planned[n - 1]);
    }
  }

  /** With valid combinations a fetch replaces exactly the snapshots of that date and of the combinations
      it attempted: every other combination and date is untouched, and each attempt's outcome is stored. */
  lemma {:induction false} FetchReplacesOnlyItsCombos(before: seq<Snapshot>, runId: nat, date: int,
                                                      planned: seq<Combo>, api: Api, n: nat, s: Snapshot)
    requires n <= |planned| && ValidPlan(planned)
    requires s in before ==> ProperlyKeyed(s)
    ensures s in Stored(before, runId, date, planned, api, n) <==> Expected(before, runId, date, planned, api, n, s)
  {
    if n > 0 {
      FetchReplacesOnlyItsCombos(before, runId, date, planned, api, n - 1, s);
      StoredStep(before, runId, date, planned, api, n, s);
      ExpectedStep(before, runId, date, planned, api, n, s);
    }
  }

  lemma {:induction false} FullSuccess(planned: seq<Combo>, api: Api, n: nat)
    requires n <= |planned|
    ensures SuccessCount(planned, api, n) <= n
    ensures SuccessCount(planned, api, n) == n <==> forall k :: 0 <= k < n ==> api(k, planned[k]).Payload?
  {
    if n > 0 {
      FullSuccess(planned, api, n - 1);
    }
  }

  lemma {:induction false} NoFatalAttemptsAll(planned: seq<Combo>, api: Api, from: nat)
    requires from <= |planned| && forall k :: from <= k < |planned| ==> api(k, planned[k]).Payload?
    ensures AttemptCount(planned, api, from) == |planned| - from
    decreases |planned| - from
  {
    if from < |planned| {
      NoFatalAttemptsAll(planned, api, from + 1);
    }
  }

  // ---------------------------------------------------------- what a run tells

  /** `n` requests are made of a plan: all of it, or up to and including the first fatal error. */
  ghost predicate Makes(planned: seq<Combo>, api: Api, from: nat, n: nat) {
    && from + n <= |planned|
    && (forall k :: from <= k < from + n - 1 ==> api(k, planned[k]) != ApiError(true))
    && (from + n < |planned| ==> n > 0 && api(from + n - 1, planned[from + n - 1]) == ApiError(true))
  }

  lemma {:induction false} AttemptCountMeans(planned: seq<Combo>, api: Api, from: nat)
    requires from <= |planned|
    ensures Makes(planned, api, from, AttemptCount(planned, api, from))
    decreases |planned| - from
  {
    if from < |planned| && api(from, planned[from]) != ApiError(true) {
      AttemptCountMeans(planned, api, from + 1);
    }
  }

  /** The requests among the first `n` that brought a payload. */
  ghost function Fetched(planned: seq<Combo>, api: Api, n: nat): set<nat>
    requires n <= |planned|
  {
    set k: nat | k < n && api(k, planned[k]).Payload?
  }

  lemma {:induction false} SuccessCountMeans(planned: seq<Combo>, api: Api, n: nat)
    requires n <= |planned|
    ensures SuccessCount(planned, api, n) == |Fetched(planned, api, n)|
  {
    if n > 0 {
      SuccessCountMeans(planned, api, n - 1);
      var before := Fetched(planned, api, n - 1);
      assert Fetched(planned, api, n) == if api(n - 1, planned[n - 1]).Payload? then before + {n - 1} else before;
    } else {
      assert Fetched(planned, api, 0) == {};
    }
  }

  /** What is left of the ten requests of the day the clock shows. */
  function Room(runs: seq<FetchRun>, q: Request): nat {
    var used := AttemptedOn(runs, Day(q.checkedAt));
    if used < 10 then 10 - used else 0
  }

  /** The run row of a fetch: it plans the first combinations the day has room for, makes their requests until one fails
      for good, counts the payloads, and calls that a failure if there are none, a success if there is one for every
      configured combination, and partial in between. */
  lemma RunTells(runs: seq<FetchRun>, q: Request)
    requires NotAfter(runs, q.checkedAt)
    ensures var planned, run := First(q.combos, Room(runs, q)), RunFor(runs, q);
            && planned == PlanCombos(q.combos, UsedSince(runs, DayStart(q.checkedAt)))
            && run.createdAt == q.createdAt && run.dataDate == q.dataDate
            && Makes(planned, q.api, 0, run.attempted)
            && run.succeeded == |Fetched(planned, q.api, run.attempted)|
            && (run.status == Failed <==> run.succeeded == 0)
            && (run.status == Partial <==> 0 < run.succeeded < |q.combos|)
            && (run.status == Success <==> 0 < run.succeeded && |q.combos| <= run.succeeded)
  {
    var planned, n := PlanCombos(q.combos, UsedSince(runs, DayStart(q.checkedAt))), RunFor(runs, q).attempted;
    SameDaySum(runs, q.checkedAt);
    AttemptCountMeans(planned, q.api, 0);
    SuccessCountMeans(planned, q.api, n);
    FullSuccess(planned, q.api, n);
  }

  /** A run is marked success exactly when there was something to fetch and every configured
      combination was fetched successfully. */
  lemma SuccessIffAllFetched(runs: seq<FetchRun>, q: Request)
    ensures RunFor(runs, q).status == Success
       <==> && q.combos != []
            && PlanCombos(q.combos, UsedSince(runs, DayStart(q.checkedAt))) == q.combos
            && forall k :: 0 <= k < |q.combos| ==> q.api(k, q.combos[k]).Payload?
  {
    var planned := PlanCombos(q.combos, UsedSince(runs, DayStart(q.checkedAt)));
    AttemptCountBound(planned, q.api, 0);
    FullSuccess(planned, q.api, AttemptCount(planned, q.api, 0));
    if planned == q.combos && forall k :: 0 <= k < |planned| ==> q.api(k, planned[k]).Payload? {
      NoFatalAttemptsAll(planned, q.api, 0);
    }
  }
}
