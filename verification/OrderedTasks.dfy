/**
 Running indexed tasks with bounded parallelism and handing back their results in index
 order, as a protocol whose scheduler is free to choose every start and every completion.
 */
module OrderedTasks {

  datatype Result<+T, +E> = Ok(value: T) | Err(error: E)

  /** What task `i` yields once it is polled to its end: its index with a value, or an error. */
  type Tasks<T, E> = seq<Result<(nat, T), E>>

  /** `completed` lists finished tasks in the order in which they finished. */
  datatype State<+T, +E> =
    | Running(next: nat, inFlight: set<nat>, completed: seq<nat>)
    | Done(values: seq<T>)
    | Failed(error: E)

  datatype Step = Start | Complete(task: nat) | Return

  function Limit(concurrency: nat): nat {
    if concurrency < 1 then 1 else concurrency
  }

  // ----- sorting by index -----

  function Insert<T>(p: (nat, T), s: seq<(nat, T)>): (r: seq<(nat, T)>)
    ensures multiset(r) == multiset(s) + multiset{p}
  {
    if s == [] || p.0 < s[0].0 then [p] + s
    else
      assert s == [s[0]] + s[1..];
      [s[0]] + Insert(p, s[1..])
  }

  /** `sort_by_key` on the index: stable. */
  function SortByIndex<T>(s: seq<(nat, T)>): (r: seq<(nat, T)>)
    ensures multiset(r) == multiset(s)
  {
    if s == [] then []
    else
      assert s == s[..|s| - 1] + [s[|s| - 1]];
      Insert(s[|s| - 1], SortByIndex(s[..|s| - 1]))
  }

  ghost predicate Sorted<T>(s: seq<(nat, T)>) {
    forall i, j :: 0 <= i < j < |s| ==> s[i].0 <= s[j].0
  }

  lemma {:induction false} InsertSorted<T>(p: (nat, T), s: seq<(nat, T)>)
    requires Sorted(s)
    ensures Sorted(Insert(p, s))
  {
    if s != [] && p.0 >= s[0].0 {
      InsertSorted(p, s[1..]);
      var rest := Insert(p, s[1..]);
      forall j | 0 <= j < |rest| ensures s[0].0 <= rest[j].0 {
        assert rest[j] in multiset(rest);
        assert rest[j] == p || rest[j] in s[1..];
      }
    }
  }

  lemma {:induction false} SortByIndexSorted<T>(s: seq<(nat, T)>)
    ensures Sorted(SortByIndex(s))
  {
    if s != [] {
      SortByIndexSorted(s[..|s| - 1]);
      InsertSorted(s[|s| - 1], SortByIndex(s[..|s| - 1]));
    }
  }

  function Values<T>(s: seq<(nat, T)>): (r: seq<T>)
    ensures |r| == |s| && forall i :: 0 <= i < |s| ==> r[i] == s[i].1
  {
    seq(|s|, i requires 0 <= i < |s| => s[i].1)
  }

  // ----- the protocol -----

  ghost predicate Indexed<T, E>(tasks: Tasks<T, E>, completed: seq<nat>, indexed: seq<(nat, T)>) {
    && |indexed| == |completed|
    && forall j :: 0 <= j < |completed| ==> completed[j] < |tasks| && tasks[completed[j]] == Ok(indexed[j])
  }

  predicate AllYielded<T, E>(tasks: Tasks<T, E>, completed: seq<nat>) {
    forall j :: 0 <= j < |completed| ==> completed[j] < |tasks| && tasks[completed[j]].Ok?
  }

  /** What the stream has handed over, in order of completion. */
  function Outcomes<T, E>(tasks: Tasks<T, E>, completed: seq<nat>): (r: seq<(nat, T)>)
    requires AllYielded(tasks, completed)
    ensures Indexed(tasks, completed, r)
  {
    seq(|completed|, j requires 0 <= j < |completed| => tasks[completed[j]].value)
  }

  ghost predicate Takes<T, E>(tasks: Tasks<T, E>, concurrency: nat, s: State<T, E>, step: Step, s': State<T, E>) {
    s.Running? &&
    match step
    case Start =>
      && s.next < |tasks| && |s.inFlight| < Limit(concurrency)
      && s' == Running(s.next + 1, s.inFlight + {s.next}, s.completed)
    case Complete(i) =>
      && i in s.inFlight && i < |tasks|
      && s' == (if tasks[i].Ok? then Running(s.next, s.inFlight - {i}, s.completed + [i]) else Failed(tasks[i].error))
    case Return =>
      && s.next == |tasks| && s.inFlight == {}
      && AllYielded(tasks, s.completed)
      && s' == Done(Values(SortByIndex(Outcomes(tasks, s.completed))))
  }

  ghost predicate Next<T, E>(tasks: Tasks<T, E>, concurrency: nat, s: State<T, E>, s': State<T, E>) {
    exists step :: Takes(tasks, concurrency, s, step, s')
  }

  ghost predicate Run<T, E>(tasks: Tasks<T, E>, concurrency: nat, tr: seq<State<T, E>>) {
    && |tr| > 0 && tr[0] == Running(0, {}, [])
    && forall i :: 0 <= i < |tr| - 1 ==> Next(tasks, concurrency, tr[i], tr[i + 1])
  }

  predicate Distinct(s: seq<nat>) {
    forall i, j :: 0 <= i < j < |s| ==> s[i] != s[j]
  }

  /** Started tasks are `0..next`, each either in flight or completed, never both and never twice. */
  ghost predicate Inv<T, E>(tasks: Tasks<T, E>, concurrency: nat, s: State<T, E>) {
    match s
    case Running(next, inFlight, completed) =>
      && next <= |tasks| && |inFlight| <= Limit(concurrency)
      && Distinct(completed)
      && AllYielded(tasks, completed)
      && (forall i :: i in inFlight ==> i !in completed)
      && (forall i: nat :: i < next <==> i in inFlight || i in completed)
    case Done(values) =>
      exists completed :: Covers(tasks, completed) && AllYielded(tasks, completed)
                          && values == Values(SortByIndex(Outcomes(tasks, completed)))
    case Failed(error) => Err(error) in tasks
  }

  /** Every task completed once, and well. */
  ghost predicate Covers<T, E>(tasks: Tasks<T, E>, completed: seq<nat>) {
    && Distinct(completed)
    && forall i: nat :: i in completed <==> i < |tasks|
  }

  lemma StepKeepsInv<T, E>(tasks: Tasks<T, E>, concurrency: nat, s: State<T, E>, step: Step, s': State<T, E>)
    requires Inv(tasks, concurrency, s) && Takes(tasks, concurrency, s, step, s')
    ensures Inv(tasks, concurrency, s')
  {
    match step
    case Start =>
    case Complete(i) =>
      if tasks[i].Ok? {
        assert i in s.inFlight && i !in s.completed;
      }
    case Return =>
      assert Covers(tasks, s.completed);
  }

  lemma {:induction false} RunKeepsInv<T, E>(tasks: Tasks<T, E>, concurrency: nat, tr: seq<State<T, E>>, n: nat)
    requires Run(tasks, concurrency, tr) && n < |tr|
    ensures Inv(tasks, concurrency, tr[n])
  {
    if n > 0 {
      RunKeepsInv(tasks, concurrency, tr, n - 1);
      assert Next(tasks, concurrency, tr[n - 1], tr[n - 1 + 1]);
      var step :| Takes(tasks, concurrency, tr[n - 1], step, tr[n]);
      StepKeepsInv(tasks, concurrency, tr[n - 1], step, tr[n]);
    }
  }

  /** On every schedule at most `concurrency` tasks are in flight, and one if that is 0. */
  lemma RunWithinLimit<T, E>(tasks: Tasks<T, E>, concurrency: nat, tr: seq<State<T, E>>, n: nat)
    requires Run(tasks, concurrency, tr) && n < |tr| && tr[n].Running?
    ensures concurrency >= 1 ==> |tr[n].inFlight| <= concurrency
    ensures concurrency == 0 ==> |tr[n].inFlight| <= 1
  {
    RunKeepsInv(tasks, concurrency, tr, n);
  }

  /** And whenever there is room, and only then, the next task can be started, and none but the next. */
  lemma StartOpenIff<T, E>(tasks: Tasks<T, E>, concurrency: nat, s: State<T, E>, s': State<T, E>)
    requires s.Running?
    ensures Takes(tasks, concurrency, s, Start, s') <==>
            && s.next < |tasks|
            && (|s.inFlight| < concurrency || (concurrency == 0 && s.inFlight == {}))
            && s' == Running(s.next + 1, s.inFlight + {s.next}, s.completed)
  {
  }

  /** Any task in flight, and no other, can complete; the rest goes on unless it failed. */
  lemma CompleteOpenIff<T, E>(
    tasks: Tasks<T, E>, concurrency: nat, tr: seq<State<T, E>>, n: nat, i: nat, s': State<T, E>)
    requires Run(tasks, concurrency, tr) && n < |tr| && tr[n].Running?
    ensures Takes(tasks, concurrency, tr[n], Complete(i), s') <==>
            && i in tr[n].inFlight && i < |tasks|
            && (tasks[i].Ok? ==> s' == Running(tr[n].next, tr[n].inFlight - {i}, tr[n].completed + [i]))
            && (tasks[i].Err? ==> s' == Failed(tasks[i].error))
    ensures i in tr[n].inFlight ==> i < |tasks|
  {
    RunKeepsInv(tasks, concurrency, tr, n);
  }

  // ----- no deadlock, no endless run -----

  /** Some step is open in every running state, even with a concurrency limit of zero. */
  lemma Progress<T, E>(tasks: Tasks<T, E>, concurrency: nat, s: State<T, E>)
    requires Inv(tasks, concurrency, s) && s.Running?
    ensures exists step, s' :: Takes(tasks, concurrency, s, step, s')
  {
    if s.inFlight != {} {
      var i :| i in s.inFlight;
      assert i < s.next;
      var s' := if tasks[i].Ok? then Running(s.next, s.inFlight - {i}, s.completed + [i]) else Failed(tasks[i].error);
      assert Takes(tasks, concurrency, s, Complete(i), s');
    } else if s.next < |tasks| {
      assert Takes(tasks, concurrency, s, Start, Running(s.next + 1, s.inFlight + {s.next}, s.completed));
    } else {
      assert Takes(tasks, concurrency, s, Return, Done(Values(SortByIndex(Outcomes(tasks, s.completed)))));
    }
  }

  function Left<T, E>(tasks: Tasks<T, E>, s: State<T, E>): int {
    if s.Running? then 2 * (|tasks| - s.next) + |s.inFlight| + 1 else 0
  }

  lemma StepUsesUp<T, E>(tasks: Tasks<T, E>, concurrency: nat, s: State<T, E>, step: Step, s': State<T, E>)
    requires Inv(tasks, concurrency, s) && Takes(tasks, concurrency, s, step, s')
    ensures 0 <= Left(tasks, s') < Left(tasks, s)
  {
  }

  /** Every run ends within twice as many steps as there are tasks, and one. */
  lemma {:induction false} RunIsBounded<T, E>(tasks: Tasks<T, E>, concurrency: nat, tr: seq<State<T, E>>, n: nat)
    requires Run(tasks, concurrency, tr) && n < |tr|
    ensures n + Left(tasks, tr[n]) <= 2 * |tasks| + 1
    ensures Left(tasks, tr[n]) >= 0
  {
    RunKeepsInv(tasks, concurrency, tr, n);
    if n > 0 {
      RunIsBounded(tasks, concurrency, tr, n - 1);
      RunKeepsInv(tasks, concurrency, tr, n - 1);
      assert Next(tasks, concurrency, tr[n - 1], tr[n - 1 + 1]);
      var step :| Takes(tasks, concurrency, tr[n - 1], step, tr[n]);
      StepUsesUp(tasks, concurrency, tr[n - 1], step, tr[n]);
    }
  }

  // ----- the result does not depend on the schedule -----

  /** The callers number their tasks by position. */
  ghost predicate Enumerated<T, E>(tasks: Tasks<T, E>) {
    forall i :: 0 <= i < |tasks| && tasks[i].Ok? ==> tasks[i].value.0 == i
  }

  lemma SortedMember<T, E>(tasks: Tasks<T, E>, completed: seq<nat>, indexed: seq<(nat, T)>, p: (nat, T))
    requires Enumerated(tasks) && Indexed(tasks, completed, indexed) && p in multiset(indexed)
    ensures p.0 in completed && p.0 < |tasks| && tasks[p.0] == Ok(p)
  {
    assert p in indexed;
    var j :| 0 <= j < |indexed| && indexed[j] == p;
    assert completed[j] in completed;
  }

  lemma {:induction false} StrictlySorted<T, E>(
    tasks: Tasks<T, E>, completed: seq<nat>, indexed: seq<(nat, T)>, s: seq<(nat, T)>, i: nat, j: nat)
    requires Enumerated(tasks) && Distinct(completed) && Indexed(tasks, completed, indexed)
    requires Sorted(s) && multiset(s) == multiset(indexed) && i < j < |s|
    ensures s[i].0 < s[j].0
  {
    if s[i].0 == s[j].0 {
      assert s[i] in multiset(s) && s[j] in multiset(s);
      SortedMember(tasks, completed, indexed, s[i]);
      SortedMember(tasks, completed, indexed, s[j]);
      assert s[i] == s[j];
      assert s == s[..j] + s[j..] && s[i] in s[..j] && s[j] in s[j..];
      assert multiset(s)[s[i]] >= 2;
      OneOccurrence(tasks, completed, indexed, s[i]);
    }
  }

  lemma LastIsNew<T, E>(tasks: Tasks<T, E>, completed: seq<nat>, indexed: seq<(nat, T)>)
    requires Enumerated(tasks) && Distinct(completed) && Indexed(tasks, completed, indexed) && indexed != []
    ensures indexed[|indexed| - 1] !in indexed[..|indexed| - 1]
  {
    var n := |indexed| - 1;
    assert tasks[completed[n]] == Ok(indexed[n]);
    forall j | 0 <= j < n ensures indexed[j] != indexed[n] {
      assert completed[j] != completed[n] && tasks[completed[j]] == Ok(indexed[j]);
    }
  }

  lemma {:induction false} OneOccurrence<T, E>(
    tasks: Tasks<T, E>, completed: seq<nat>, indexed: seq<(nat, T)>, p: (nat, T))
    requires Enumerated(tasks) && Distinct(completed) && Indexed(tasks, completed, indexed)
    ensures multiset(indexed)[p] <= 1
  {
    if indexed != [] {
      var n := |indexed| - 1;
      OneOccurrence(tasks, completed[..n], indexed[..n], p);
      assert indexed == indexed[..n] + [indexed[n]];
      LastIsNew(tasks, completed, indexed);
    }
  }

  lemma {:induction false} AtLeast<T>(s: seq<(nat, T)>, k: nat)
    requires k < |s| && forall i, j :: 0 <= i < j < |s| ==> s[i].0 < s[j].0
    ensures s[k].0 >= k
  {
    if k > 0 { AtLeast(s, k - 1); }
  }

  lemma {:induction false} AtMost<T>(s: seq<(nat, T)>, k: nat, bound: nat)
    requires k < |s| && forall i, j :: 0 <= i < j < |s| ==> s[i].0 < s[j].0
    requires forall i :: 0 <= i < |s| ==> s[i].0 < bound
    ensures s[k].0 + (|s| - k) <= bound
    decreases |s| - k
  {
    if k + 1 < |s| { AtMost(s, k + 1, bound); }
  }

  function UpTo(n: nat): (r: set<nat>)
    ensures |r| == n && forall i: nat :: i in r <==> i < n
  {
    if n == 0 then {} else UpTo(n - 1) + {n - 1}
  }

  function Members(s: seq<nat>): (r: set<nat>)
    ensures forall i :: i in r <==> i in s
    ensures Distinct(s) ==> |r| == |s|
  {
    if s == [] then {}
    else
      var n := |s| - 1;
      assert s == s[..n] + [s[n]];
      Members(s[..n]) + {s[n]}
  }

  lemma CoversLength(completed: seq<nat>, n: nat)
    requires Distinct(completed) && forall i: nat :: i in completed <==> i < n
    ensures |completed| == n
  {
    assert Members(completed) == UpTo(n);
  }

  /** Sorting puts the outcomes of all tasks in strictly ascending index order. */
  lemma SortedFacts<T, E>(tasks: Tasks<T, E>, completed: seq<nat>, indexed: seq<(nat, T)>)
    requires Enumerated(tasks) && Distinct(completed) && Indexed(tasks, completed, indexed)
    ensures |SortByIndex(indexed)| == |indexed|
    ensures forall i, j :: 0 <= i < j < |SortByIndex(indexed)| ==> SortByIndex(indexed)[i].0 < SortByIndex(indexed)[j].0
  {
    var s := SortByIndex(indexed);
    assert |s| == |multiset(s)| == |multiset(indexed)| == |indexed|;
    SortByIndexSorted(indexed);
    forall i, j | 0 <= i < j < |s| ensures s[i].0 < s[j].0 {
      StrictlySorted(tasks, completed, indexed, s, i, j);
    }
  }

  lemma ByPosition<T, E>(tasks: Tasks<T, E>, s: seq<(nat, T)>, k: nat)
    requires |s| == |tasks| && k < |tasks|
    requires forall i, j :: 0 <= i < j < |s| ==> s[i].0 < s[j].0
    requires forall i :: 0 <= i < |s| ==> s[i].0 < |tasks| && tasks[s[i].0] == Ok(s[i])
    ensures tasks[k] == Ok(s[k])
  {
    AtLeast(s, k);
    AtMost(s, k, |tasks|);
  }

  /** Whatever the schedule, position `k` of the result holds the value of task `k`. */
  lemma SortedIsByPosition<T, E>(tasks: Tasks<T, E>, completed: seq<nat>, indexed: seq<(nat, T)>, k: nat)
    requires Enumerated(tasks) && Covers(tasks, completed) && Indexed(tasks, completed, indexed)
    ensures |SortByIndex(indexed)| == |tasks|
    ensures k < |tasks| ==> tasks[k] == Ok(SortByIndex(indexed)[k])
  {
    var s := SortByIndex(indexed);
    CoversLength(completed, |tasks|);
    SortedFacts(tasks, completed, indexed);
    if k < |tasks| {
      forall i | 0 <= i < |s| ensures s[i].0 < |tasks| && tasks[s[i].0] == Ok(s[i]) {
        assert s[i] in multiset(s);
        SortedMember(tasks, completed, indexed, s[i]);
      }
      ByPosition(tasks, s, k);
    }
  }

  ghost predicate AllOk<T, E>(tasks: Tasks<T, E>) {
    forall i :: 0 <= i < |tasks| ==> tasks[i].Ok?
  }

  /**
   The outcome of every finished run: a list exactly when all tasks succeed, and then the
   value of task `k` at position `k`; otherwise the error of some task, and no list.
   */
  lemma ScheduleIndependent<T, E>(tasks: Tasks<T, E>, concurrency: nat, tr: seq<State<T, E>>, n: nat)
    requires Run(tasks, concurrency, tr) && n < |tr| && !tr[n].Running? && Enumerated(tasks)
    ensures tr[n].Done? <==> AllOk(tasks)
    ensures tr[n].Done? ==> |tr[n].values| == |tasks|
    ensures tr[n].Done? ==> forall k :: 0 <= k < |tasks| ==> tr[n].values[k] == tasks[k].value.1
    ensures tr[n].Failed? ==> Err(tr[n].error) in tasks
  {
    RunKeepsInv(tasks, concurrency, tr, n);
    if tr[n].Done? {
      var completed :| Covers(tasks, completed) && AllYielded(tasks, completed)
                       && tr[n].values == Values(SortByIndex(Outcomes(tasks, completed)));
      var indexed := Outcomes(tasks, completed);
      SortedIsByPosition(tasks, completed, indexed, 0);
      forall k | 0 <= k < |tasks| ensures tasks[k].Ok? && tr[n].values[k] == tasks[k].value.1 {
        SortedIsByPosition(tasks, completed, indexed, k);
      }
    }
  }

  /** How the callers build their tasks: each result paired with its position. */
  function Enumerate<T, E>(results: seq<Result<T, E>>): (tasks: Tasks<T, E>)
    ensures |tasks| == |results| && Enumerated(tasks)
    ensures forall i :: 0 <= i < |results| ==>
              && (results[i].Ok? ==> tasks[i] == Ok((i, results[i].value)))
              && (results[i].Err? ==> tasks[i] == Err(results[i].error))
  {
    seq(|results|, (i: int) requires 0 <= i < |results| =>
      match results[i]
      case Ok(value) => Ok((i as nat, value))
      case Err(error) => Err(error))
  }

  /**
   The collecting loop and the final sort, for tasks that finish in the order `order`. The
   first error to arrive ends it.
   */
  method CollectOrdered<T, E>(tasks: Tasks<T, E>, order: seq<nat>) returns (r: Result<seq<T>, E>)
    requires Enumerated(tasks) && Covers(tasks, order)
    ensures r.Ok? <==> AllOk(tasks)
    ensures r.Ok? ==> |r.value| == |tasks| && forall k :: 0 <= k < |tasks| ==> r.value[k] == tasks[k].value.1
    ensures r.Err? ==> exists n :: 0 <= n < |order| && order[n] < |tasks| && tasks[order[n]] == Err(r.error)
                                   && AllYielded(tasks, order[..n])
  {
    var indexed := [];
    for n := 0 to |order|
      invariant Indexed(tasks, order[..n], indexed)
    {
      assert order[n] in order;
      var outcome := tasks[order[n]];
      if outcome.Err? {
        return Err(outcome.error);
      }
      indexed := indexed + [outcome.value];
    }
    assert order[..|order|] == order;
    var sorted := SortByIndex(indexed);
    SortedIsByPosition(tasks, order, indexed, 0);
    forall k | 0 <= k < |tasks| ensures tasks[k] == Ok(sorted[k]) {
      SortedIsByPosition(tasks, order, indexed, k);
    }
    r := Ok(Values(sorted));
  }
}
