/**
 * The property-test battery driver of development/testing/property/run.py.
 *
 * `run` builds a ledger module -> method -> [successes, failures] with every
 * entry zeroed, then repeats: draw a seed, pick a registered test, enter a fresh
 * directory, run the test, bump exactly one counter, go back to the parent
 * directory; it stops at the first iteration end whose elapsed time is strictly
 * greater than the timeout, writes the final record and notifies unless it runs
 * in the background.
 *
 * The outside world is given as inputs indexed by the iteration number: a raw
 * random draw for the seed, the sampler's pick, the test's outcome and the name
 * of the fresh directory; the clock is the sequence of readings taken at the
 * end of each iteration. Collaborators whose bodies are not modelled appear as
 * the `Event`s the harness hands to them, in order.
 */
module PropertyRun {
  import opened Wrappers

  /** get_test_dict: test module name -> its method names. */
  type Registry = map<string, seq<string>>

  /** A (module, method) pair naming one test. */
  datatype TestId = TestId(moduleName: string, methodName: string)

  /** One ledger entry, the list [successes, failures]. */
  datatype Counts = Counts(successes: nat, failures: nat)

  /** full_test_record: module -> method -> counters. */
  type Ledger = map<string, map<string, Counts>>

  /** What calling the test did: return normally, or raise an Exception. */
  datatype Outcome = Returned | Raised(diagnostic: string)

  /** One iteration: the test picked, the seed drawn and the test's outcome. */
  datatype Attempt = Attempt(test: TestId, seed: int, outcome: Outcome)

  /** The command line: --hours, --compile, --background. */
  datatype Args = Args(hours: real, isCompile: bool, isBackground: bool)

  /** A call into a collaborator of `run`, with the arguments it receives. */
  datatype Event =
    | Cleanup
    | CompilePackage(flag: bool)
    | CleanupTestingInfrastructure(flag: bool)
    | InitializeRecordCanvas(record: Ledger, start: int, timeout: int)
    | UpdateTestingRecord(test: TestId, seed: int, isSuccess: bool, msg: Option<string>, record: Ledger)
    | FinalizeTestingRecord(record: Ledger)
    | SendNotification(category: string, hours: real)

  // ---------------------------------------------------------------------------
  // Sequences

  /** A slice of a concatenation that lies wholly inside one of its parts. */
  lemma {:induction false} SliceOfConcat<T>(a: seq<T>, b: seq<T>, x: nat, y: nat)
    requires x <= y <= |a + b|
    ensures y <= |a| ==> (a + b)[x..y] == a[x..y]
    ensures |a| <= x ==> (a + b)[x..y] == b[x - |a|..y - |a|]
    ensures x == |a| && y == |a + b| ==> (a + b)[x..y] == b
  {
    if y <= |a| {
      assert forall j :: 0 <= j < y - x ==> (a + b)[x..y][j] == a[x..y][j];
    }
  }

  lemma {:induction false} ConcatAssoc<T>(a: seq<T>, b: seq<T>, c: seq<T>)
    ensures a + (b + c) == (a + b) + c
  {
  }

  lemma {:induction false} AppendTwo<T>(a: seq<T>, x: T, y: T)
    ensures a + [x] + [y] == a + [x, y]
  {
  }

  lemma {:induction false} PrefixOfPrefix<T>(s: seq<T>, k: nat, j: nat)
    requires j <= k <= |s|
    ensures s[..k][..j] == s[..j]
  {
  }

  lemma {:induction false} SliceOfPrefix<T>(s: seq<T>, k: nat, x: nat, y: nat)
    requires x <= y <= k <= |s|
    ensures s[..k][x..y] == s[x..y]
  {
  }

  // ---------------------------------------------------------------------------
  // Seeds and directories

  const SEED_LOW: int := 1
  const SEED_HIGH: int := 100000

  /** random.randrange(1, 100000) applied to a raw draw of the generator. */
  function NewSeed(raw: nat): (seed: int)
    ensures SEED_LOW <= seed < SEED_HIGH
  {
    SEED_LOW + raw % (SEED_HIGH - SEED_LOW)
  }

  /** Every seed of the range is drawn by some raw value. */
  lemma {:induction false} EverySeedIsDrawn(seed: int)
    requires SEED_LOW <= seed < SEED_HIGH
    ensures NewSeed((seed - SEED_LOW) as nat) == seed
  {
  }

  /** The directory that os.chdir('../') enters; the root is its own parent. */
  function Parent(cwd: seq<string>): seq<string>
  {
    if cwd == [] then [] else cwd[..|cwd| - 1]
  }

  // ---------------------------------------------------------------------------
  // The ledger

  predicate Registered(registry: Registry, t: TestId)
  {
    t.moduleName in registry && t.methodName in registry[t.moduleName]
  }

  predicate AllRegistered(registry: Registry, h: seq<Attempt>)
  {
    forall i :: 0 <= i < |h| ==> Registered(registry, h[i].test)
  }

  /** The ledger has an entry for `t`. */
  predicate Has(l: Ledger, t: TestId)
  {
    t.moduleName in l && t.methodName in l[t.moduleName]
  }

  /** The entry for `t`, or [0, 0] if there is none. */
  function Entry(l: Ledger, t: TestId): Counts
  {
    if Has(l, t) then l[t.moduleName][t.methodName] else Counts(0, 0)
  }

  function Weight(c: Counts): nat
  {
    c.successes + c.failures
  }

  /** Both ledgers have the same modules and, per module, the same methods. */
  predicate SameKeys(l: Ledger, r: Ledger)
  {
    l.Keys == r.Keys && forall m :: m in l ==> l[m].Keys == r[m].Keys
  }

  /** The tests a ledger has entries for. */
  function Tests(l: Ledger): (s: set<TestId>)
    ensures forall t :: t in s <==> Has(l, t)
  {
    set m, x | m in l && x in l[m] :: TestId(m, x)
  }

  function ZeroRow(methods: seq<string>): map<string, Counts>
  {
    map x | x in methods :: Counts(0, 0)
  }

  /** The ledger of run.py:49-53. */
  function InitialLedger(registry: Registry): (l: Ledger)
    ensures l.Keys == registry.Keys
    ensures forall t :: Has(l, t) <==> Registered(registry, t)
    ensures forall t :: Entry(l, t) == Counts(0, 0)
  {
    map m | m in registry :: ZeroRow(registry[m])
  }

  /** The `try: test()` block: one counter of `t` goes up, chosen by the outcome. */
  function Record(l: Ledger, t: TestId, o: Outcome): (r: Ledger)
    requires Has(l, t)
    ensures SameKeys(l, r)
    ensures Entry(r, t).successes == Entry(l, t).successes + (if o.Returned? then 1 else 0)
    ensures Entry(r, t).failures == Entry(l, t).failures + (if o.Raised? then 1 else 0)
    ensures forall u :: u != t ==> Entry(r, u) == Entry(l, u)
  {
    var c := l[t.moduleName][t.methodName];
    var c' := if o.Returned? then c.(successes := c.successes + 1) else c.(failures := c.failures + 1);
    l[t.moduleName := l[t.moduleName][t.methodName := c']]
  }

  /** Within `l`, the tests of `h` all have a row. */
  predicate Covers(l: Ledger, h: seq<Attempt>)
  {
    forall i :: 0 <= i < |h| ==> Has(l, h[i].test)
  }

  /** A prefix of covered iterations is covered. */
  lemma {:induction false} CoversPrefix(l: Ledger, h: seq<Attempt>, k: nat)
    requires Covers(l, h) && k <= |h|
    ensures Covers(l, h[..k])
  {
    forall i | 0 <= i < k ensures Has(l, h[..k][i].test) {
      assert h[..k][i] == h[i];
    }
  }

  /**
   * The ledger after the iterations `h`, starting from `l`. A pick without a
   * row would raise KeyError in run.py:83/86; here it leaves the ledger as it
   * is, and the lemmas below rule it out with `Covers`.
   */
  function Replay(l: Ledger, h: seq<Attempt>): (r: Ledger)
    ensures SameKeys(l, r)
    decreases |h|
  {
    if h == [] then l
    else
      var prev := Replay(l, h[..|h| - 1]);
      var a := h[|h| - 1];
      if Has(prev, a.test) then Record(prev, a.test, a.outcome) else prev
  }

  /** The ledger keeps its rows, so `l`'s rows are rows of any replay from `l`. */
  lemma {:induction false} ReplayHas(l: Ledger, h: seq<Attempt>, t: TestId)
    ensures Has(Replay(l, h), t) <==> Has(l, t)
  {
    var r := Replay(l, h);
    if t.moduleName in l {
      assert l[t.moduleName].Keys == r[t.moduleName].Keys;
    }
  }

  /** How often `t` was picked in `h`. */
  function Occurrences(h: seq<Attempt>, t: TestId): nat
  {
    if h == [] then 0
    else Occurrences(h[..|h| - 1], t) + (if h[|h| - 1].test == t then 1 else 0)
  }

  /** How often `t` was picked in `h` and returned normally. */
  function Successes(h: seq<Attempt>, t: TestId): nat
  {
    if h == [] then 0
    else Successes(h[..|h| - 1], t) + (if h[|h| - 1].test == t && h[|h| - 1].outcome.Returned? then 1 else 0)
  }

  /** How often `t` was picked in `h` and raised. */
  function Failures(h: seq<Attempt>, t: TestId): nat
  {
    if h == [] then 0
    else Failures(h[..|h| - 1], t) + (if h[|h| - 1].test == t && h[|h| - 1].outcome.Raised? then 1 else 0)
  }

  /** The counters of `t` grow by exactly its successes and failures in `h`. */
  lemma {:induction false} ReplayCounts(l: Ledger, h: seq<Attempt>, t: TestId)
    requires Covers(l, h)
    ensures Entry(Replay(l, h), t).successes == Entry(l, t).successes + Successes(h, t)
    ensures Entry(Replay(l, h), t).failures == Entry(l, t).failures + Failures(h, t)
    decreases |h|
  {
    if h != [] {
      var h' := h[..|h| - 1];
      CoversPrefix(l, h, |h| - 1);
      ReplayCounts(l, h', t);
      ReplayHas(l, h', h[|h| - 1].test);
    }
  }

  /** Every pick is counted once, as a success or as a failure. */
  lemma {:induction false} PicksAreCountedOnce(h: seq<Attempt>, t: TestId)
    ensures Successes(h, t) + Failures(h, t) == Occurrences(h, t)
    decreases |h|
  {
    if h != [] {
      PicksAreCountedOnce(h[..|h| - 1], t);
    }
  }

  /** The fresh ledger has a row for every test of iterations that pick registered tests. */
  lemma {:induction false} InitialCovers(registry: Registry, h: seq<Attempt>)
    requires AllRegistered(registry, h)
    ensures Covers(InitialLedger(registry), h)
  {
    var l := InitialLedger(registry);
    forall i | 0 <= i < |h| ensures Has(l, h[i].test) {
      assert Registered(registry, h[i].test);
    }
  }

  /** After any iterations, the ledger still holds exactly the registered tests. */
  lemma {:induction false} RowsAfter(registry: Registry, h: seq<Attempt>, t: TestId)
    ensures Has(Replay(InitialLedger(registry), h), t) <==> Registered(registry, t)
  {
    ReplayHas(InitialLedger(registry), h, t);
  }

  /**
   * After iterations that pick registered tests, each test's counters are the
   * number of its picks that succeeded and that failed.
   */
  lemma {:induction false} LedgerAfter(registry: Registry, h: seq<Attempt>, t: TestId)
    requires AllRegistered(registry, h)
    ensures Entry(Replay(InitialLedger(registry), h), t) == Counts(Successes(h, t), Failures(h, t))
    ensures Weight(Entry(Replay(InitialLedger(registry), h), t)) == Occurrences(h, t)
  {
    var l := InitialLedger(registry);
    InitialCovers(registry, h);
    ReplayCounts(l, h, t);
    assert Entry(l, t) == Counts(0, 0);
    PicksAreCountedOnce(h, t);
  }

  /** Counters never decrease: the ledger after a prefix is below the ledger after the whole. */
  lemma {:induction false} CountersNeverDecrease(l: Ledger, h: seq<Attempt>, k: nat, t: TestId)
    requires Covers(l, h)
    requires k <= |h|
    ensures Covers(l, h[..k])
    ensures Entry(Replay(l, h[..k]), t).successes <= Entry(Replay(l, h), t).successes
    ensures Entry(Replay(l, h[..k]), t).failures <= Entry(Replay(l, h), t).failures
  {
    CoversPrefix(l, h, k);
    ReplayCounts(l, h[..k], t);
    ReplayCounts(l, h, t);
    PrefixCountsNoMore(h, k, t);
  }

  /** A prefix of the iterations has no more successes and no more failures of `t`. */
  lemma {:induction false} PrefixCountsNoMore(h: seq<Attempt>, k: nat, t: TestId)
    requires k <= |h|
    ensures Successes(h[..k], t) <= Successes(h, t)
    ensures Failures(h[..k], t) <= Failures(h, t)
    decreases |h|
  {
    if k == |h| {
      assert h[..k] == h;
    } else {
      PrefixOfPrefix(h, |h| - 1, k);
      PrefixCountsNoMore(h[..|h| - 1], k, t);
    }
  }

  /** A test that raises whenever it is picked is never counted as a success, whatever the other tests do. */
  lemma {:induction false} AlwaysFailing(h: seq<Attempt>, t: TestId)
    requires forall i :: 0 <= i < |h| && h[i].test == t ==> h[i].outcome.Raised?
    ensures Successes(h, t) == 0
    ensures Failures(h, t) == Occurrences(h, t)
    decreases |h|
  {
    if h != [] {
      AlwaysFailing(h[..|h| - 1], t);
    }
  }

  /** One more iteration is one more Record on top of the ledger so far. */
  lemma {:induction false} ReplayAppend(l: Ledger, h: seq<Attempt>, a: Attempt)
    requires Has(l, a.test)
    ensures Has(Replay(l, h), a.test)
    ensures Replay(l, h + [a]) == Record(Replay(l, h), a.test, a.outcome)
  {
    assert (h + [a])[..|h|] == h;
    ReplayHas(l, h, a.test);
  }

  // ---------------------------------------------------------------------------
  // The sum of all counters

  /** Some test of a non-empty set. */
  ghost function Pick(s: set<TestId>): (t: TestId)
    requires s != {}
    ensures t in s
  {
    var t :| t in s; t
  }

  /** The sum of both counters over the tests of `s`. */
  ghost function SumOver(l: Ledger, s: set<TestId>): nat
    decreases s
  {
    if s == {} then 0
    else
      var t := Pick(s);
      Weight(Entry(l, t)) + SumOver(l, s - {t})
  }

  /** The sum of all success and failure counters of the ledger. */
  ghost function Total(l: Ledger): nat
  {
    SumOver(l, Tests(l))
  }

  /** The sum does not depend on which test is taken out first. */
  lemma {:induction false} SumOverRemove(l: Ledger, s: set<TestId>, t: TestId)
    requires t in s
    ensures SumOver(l, s) == Weight(Entry(l, t)) + SumOver(l, s - {t})
    decreases s
  {
    var u := Pick(s);
    assert SumOver(l, s) == Weight(Entry(l, u)) + SumOver(l, s - {u});
    if u != t {
      assert t in s - {u} && u in s - {t};
      SumOverRemove(l, s - {u}, t);
      SumOverRemove(l, s - {t}, u);
      assert s - {u} - {t} == s - {t} - {u};
    }
  }

  lemma {:induction false} SumOverAgree(l: Ledger, l': Ledger, s: set<TestId>)
    requires forall t :: t in s ==> Weight(Entry(l, t)) == Weight(Entry(l', t))
    ensures SumOver(l, s) == SumOver(l', s)
    decreases s
  {
    if s != {} {
      var t := Pick(s);
      SumOverAgree(l, l', s - {t});
      assert SumOver(l, s) == Weight(Entry(l, t)) + SumOver(l, s - {t});
      assert SumOver(l', s) == Weight(Entry(l', t)) + SumOver(l', s - {t});
    }
  }

  lemma {:induction false} SumOverZero(l: Ledger, s: set<TestId>)
    requires forall t :: t in s ==> Weight(Entry(l, t)) == 0
    ensures SumOver(l, s) == 0
    decreases s
  {
    if s != {} {
      SumOverZero(l, s - {Pick(s)});
    }
  }

  lemma {:induction false} InitialTotal(registry: Registry)
    ensures Total(InitialLedger(registry)) == 0
  {
    var l := InitialLedger(registry);
    SumOverZero(l, Tests(l));
  }

  /** One recorded iteration adds exactly one to the sum of all counters. */
  lemma {:induction false} RecordAddsOne(l: Ledger, t: TestId, o: Outcome)
    requires Has(l, t)
    ensures Total(Record(l, t, o)) == Total(l) + 1
  {
    var r := Record(l, t, o);
    assert Tests(r) == Tests(l);
    SumOverRemove(l, Tests(l), t);
    SumOverRemove(r, Tests(l), t);
    SumOverAgree(l, r, Tests(l) - {t});
  }

  lemma {:induction false} ReplayTotal(l: Ledger, h: seq<Attempt>)
    requires Covers(l, h)
    ensures Total(Replay(l, h)) == Total(l) + |h|
    decreases |h|
  {
    if h != [] {
      var h' := h[..|h| - 1];
      CoversPrefix(l, h, |h| - 1);
      ReplayTotal(l, h');
      ReplayHas(l, h', h[|h| - 1].test);
      RecordAddsOne(Replay(l, h'), h[|h| - 1].test, h[|h| - 1].outcome);
    }
  }

  /** After k iterations the success and failure counters add up to k. */
  lemma {:induction false} TotalIsIterationCount(registry: Registry, h: seq<Attempt>)
    requires AllRegistered(registry, h)
    ensures Total(Replay(InitialLedger(registry), h)) == |h|
  {
    InitialTotal(registry);
    InitialCovers(registry, h);
    ReplayTotal(InitialLedger(registry), h);
  }

  // ---------------------------------------------------------------------------
  // The clock

  /** Some reading is strictly more than `timeout` after `start`. */
  predicate Overruns(readings: seq<int>, start: int, timeout: int)
  {
    exists i :: 0 <= i < |readings| && timeout < readings[i] - start
  }

  /** If the first reading is within the timeout, a later one overruns it. */
  lemma {:induction false} OverrunsTail(readings: seq<int>, start: int, timeout: int)
    requires Overruns(readings, start, timeout) && readings[0] - start <= timeout
    ensures Overruns(readings[1..], start, timeout)
  {
    var i :| 0 <= i < |readings| && timeout < readings[i] - start;
    assert readings[1..][i - 1] == readings[i];
  }

  /**
   * The number of iterations of the do-while loop when readings[k] is the clock
   * at the end of iteration k: the loop stops at the first reading whose elapsed
   * time is strictly greater than the timeout, and not before the first one.
   */
  function Iterations(readings: seq<int>, start: int, timeout: int): (n: nat)
    requires Overruns(readings, start, timeout)
    ensures 1 <= n <= |readings|
    decreases |readings|
  {
    if timeout < readings[0] - start then 1
    else
      OverrunsTail(readings, start, timeout);
      1 + Iterations(readings[1..], start, timeout)
  }

  /**
   * The loop runs until the first reading that is strictly over the timeout:
   * that reading ends the last iteration, and every earlier one is within it.
   */
  lemma {:induction false} IterationsStop(readings: seq<int>, start: int, timeout: int)
    requires Overruns(readings, start, timeout)
    ensures timeout < readings[Iterations(readings, start, timeout) - 1] - start
    ensures forall i :: 0 <= i < Iterations(readings, start, timeout) - 1 ==> readings[i] - start <= timeout
    decreases |readings|
  {
    if readings[0] - start <= timeout {
      OverrunsTail(readings, start, timeout);
      var tail := readings[1..];
      IterationsStop(tail, start, timeout);
      var n := Iterations(readings, start, timeout);
      assert n == 1 + Iterations(tail, start, timeout);
      assert readings[n - 1] == tail[n - 2];
      forall i | 0 < i < n - 1 ensures readings[i] - start <= timeout {
        assert readings[i] == tail[i - 1];
      }
    }
  }

  /** A longer timeout never runs fewer iterations. */
  lemma {:induction false} LongerTimeoutRunsNoFewer(readings: seq<int>, start: int, t1: int, t2: int)
    requires t1 <= t2 && Overruns(readings, start, t2)
    ensures Overruns(readings, start, t1)
    ensures Iterations(readings, start, t1) <= Iterations(readings, start, t2)
  {
    var i :| 0 <= i < |readings| && t2 < readings[i] - start;
    assert t1 < readings[i] - start;
    IterationsStop(readings, start, t1);
    IterationsStop(readings, start, t2);
  }

  /**
   * The session overruns its timeout by at most the time its last iteration
   * took (the time between the last two iteration ends, or since the start).
   */
  lemma {:induction false} OverrunIsOneIteration(readings: seq<int>, start: int, timeout: int)
    requires 0 <= timeout && Overruns(readings, start, timeout)
    ensures var n := Iterations(readings, start, timeout);
      readings[n - 1] - start - timeout <= readings[n - 1] - (if n == 1 then start else readings[n - 2])
  {
    IterationsStop(readings, start, timeout);
  }

  // ---------------------------------------------------------------------------
  // The iterations and the collaborators' view of them

  /** The first n iterations drawn from the world's inputs. */
  function Attempts(draw: nat -> nat, sample: nat -> TestId, outcome: nat -> Outcome, n: nat): (h: seq<Attempt>)
    ensures |h| == n
  {
    if n == 0 then []
    else Attempts(draw, sample, outcome, n - 1) + [Attempt(sample(n - 1), NewSeed(draw(n - 1)), outcome(n - 1))]
  }

  /** Iteration i picks sample(i), seeds with the draw i and has outcome(i). */
  lemma {:induction false} AttemptsAt(draw: nat -> nat, sample: nat -> TestId, outcome: nat -> Outcome, n: nat, i: nat)
    requires i < n
    ensures Attempts(draw, sample, outcome, n)[i] == Attempt(sample(i), NewSeed(draw(i)), outcome(i))
    decreases n
  {
    if i < n - 1 {
      AttemptsAt(draw, sample, outcome, n - 1, i);
    }
  }

  /** If every pick is registered, so is every test of the first n iterations. */
  lemma {:induction false} AttemptsRegistered(registry: Registry, draw: nat -> nat, sample: nat -> TestId,
                                              outcome: nat -> Outcome, n: nat)
    requires forall i: nat :: Registered(registry, sample(i))
    ensures AllRegistered(registry, Attempts(draw, sample, outcome, n))
  {
    forall i | 0 <= i < n
      ensures Registered(registry, Attempts(draw, sample, outcome, n)[i].test)
    {
      AttemptsAt(draw, sample, outcome, n, i);
    }
  }

  /** What run.py:94-96 hands to the collaborators after the test of `a`, with the ledger then. */
  function IterationEvents(a: Attempt, record: Ledger): seq<Event>
  {
    [ UpdateTestingRecord(a.test, a.seed, a.outcome.Returned?,
                          if a.outcome.Raised? then Some(a.outcome.diagnostic) else None, record),
      CleanupTestingInfrastructure(true) ]
  }

  /** The collaborator calls of the loop, two per iteration, starting from ledger `l`. */
  function Trace(l: Ledger, h: seq<Attempt>): (e: seq<Event>)
    ensures |e| == 2 * |h|
    decreases |h|
  {
    if h == [] then []
    else Trace(l, h[..|h| - 1]) + IterationEvents(h[|h| - 1], Replay(l, h))
  }

  lemma {:induction false} TraceAppend(l: Ledger, h: seq<Attempt>, a: Attempt)
    ensures Trace(l, h + [a]) == Trace(l, h) + IterationEvents(a, Replay(l, h + [a]))
  {
    assert (h + [a])[..|h|] == h;
  }

  /** The calls of the first k iterations are never rewritten by later ones. */
  lemma {:induction false} TracePrefix(l: Ledger, h: seq<Attempt>, k: nat)
    requires k <= |h|
    ensures Trace(l, h)[..2 * k] == Trace(l, h[..k])
    decreases |h|
  {
    if k == |h| {
      assert h[..k] == h;
    } else {
      var h' := h[..|h| - 1];
      var back := IterationEvents(h[|h| - 1], Replay(l, h));
      assert Trace(l, h) == Trace(l, h') + back;
      SliceOfConcat(Trace(l, h'), back, 0, 2 * k);
      TracePrefix(l, h', k);
      PrefixOfPrefix(h, |h| - 1, k);
    }
  }

  /**
   * The events of iteration i report its test, seed and outcome, and the ledger
   * as it stands after the first i + 1 iterations.
   */
  lemma {:induction false} TraceAt(l: Ledger, h: seq<Attempt>, i: nat)
    requires i < |h|
    ensures Trace(l, h)[2 * i .. 2 * i + 2] == IterationEvents(h[i], Replay(l, h[..i + 1]))
  {
    var p := h[..i + 1];
    var q := h[..i];
    var back := IterationEvents(h[i], Replay(l, p));
    assert p == q + [h[i]];
    TraceAppend(l, q, h[i]);
    TracePrefix(l, h, i + 1);
    SliceOfConcat(Trace(l, q), back, 2 * i, 2 * i + 2);
    SliceOfPrefix(Trace(l, h), 2 * i + 2, 2 * i, 2 * i + 2);
  }

  /** run.py:39-58: the calls made before the loop. */
  function Prologue(args: Args, record: Ledger, start: int, timeout: int): seq<Event>
  {
    if args.isCompile then
      [Cleanup, CompilePackage(true), CleanupTestingInfrastructure(false), InitializeRecordCanvas(record, start, timeout)]
    else
      [Cleanup, CleanupTestingInfrastructure(false), InitializeRecordCanvas(record, start, timeout)]
  }

  /** run.py:102-107: the calls made after the loop. */
  function Epilogue(args: Args, record: Ledger): seq<Event>
  {
    if args.isBackground then [FinalizeTestingRecord(record)]
    else [FinalizeTestingRecord(record), SendNotification("property", args.hours)]
  }

  /** Every collaborator call of one session, in order. */
  function SessionLog(args: Args, registry: Registry, start: int, timeout: int, h: seq<Attempt>): seq<Event>
  {
    Prologue(args, InitialLedger(registry), start, timeout) + Trace(InitialLedger(registry), h)
      + Epilogue(args, Replay(InitialLedger(registry), h))
  }

  /** The notifications among the events, in order. */
  function Notifications(events: seq<Event>): (n: seq<Event>)
    ensures forall i :: 0 <= i < |n| ==> n[i].SendNotification?
    decreases |events|
  {
    if events == [] then []
    else
      var last := events[|events| - 1];
      Notifications(events[..|events| - 1]) + (if last.SendNotification? then [last] else [])
  }

  lemma {:induction false} NotificationsOfConcat(a: seq<Event>, b: seq<Event>)
    ensures Notifications(a + b) == Notifications(a) + Notifications(b)
    decreases |b|
  {
    if b == [] {
      assert a + b == a;
    } else {
      var b' := b[..|b| - 1];
      assert (a + b)[..|a + b| - 1] == a + b';
      assert (a + b)[|a + b| - 1] == b[|b| - 1];
      NotificationsOfConcat(a, b');
    }
  }

  /** The filter drops no notification: an event is selected iff it is a notification among the events. */
  lemma {:induction false} NotificationsExact(events: seq<Event>, e: Event)
    ensures e in Notifications(events) <==> e in events && e.SendNotification?
    decreases |events|
  {
    if events != [] {
      var p := events[..|events| - 1];
      var last := events[|events| - 1];
      NotificationsExact(p, e);
      assert events == p + [last];
      assert e in events <==> e in p || e == last;
    }
  }

  /** Events none of which is a notification yield no notifications. */
  lemma {:induction false} Silent(e: seq<Event>)
    requires forall i :: 0 <= i < |e| ==> !e[i].SendNotification?
    ensures Notifications(e) == []
    decreases |e|
  {
    if e != [] {
      var e' := e[..|e| - 1];
      assert forall i :: 0 <= i < |e'| ==> e'[i] == e[i];
      Silent(e');
    }
  }

  /** The two calls of one iteration notify nobody. */
  lemma {:induction false} IterationNotifiesNobody(a: Attempt, record: Ledger)
    ensures Notifications(IterationEvents(a, record)) == []
  {
    Silent(IterationEvents(a, record));
  }

  lemma {:induction false} TraceNotifiesNobody(l: Ledger, h: seq<Attempt>)
    ensures Notifications(Trace(l, h)) == []
    decreases |h|
  {
    if h != [] {
      var h' := h[..|h| - 1];
      var e := IterationEvents(h[|h| - 1], Replay(l, h));
      assert Trace(l, h) == Trace(l, h') + e;
      TraceNotifiesNobody(l, h');
      NotificationsOfConcat(Trace(l, h'), e);
      IterationNotifiesNobody(h[|h| - 1], Replay(l, h));
    }
  }

  /** A session notifies exactly once, with its `hours`, unless it runs in the background. */
  lemma {:induction false} NotifiedOnceUnlessBackground(args: Args, registry: Registry, start: int, timeout: int, h: seq<Attempt>)
    ensures Notifications(SessionLog(args, registry, start, timeout, h))
         == if args.isBackground then [] else [SendNotification("property", args.hours)]
  {
    var l := InitialLedger(registry);
    var pro := Prologue(args, l, start, timeout);
    var epi := Epilogue(args, Replay(l, h));
    NotificationsOfConcat(pro + Trace(l, h), epi);
    NotificationsOfConcat(pro, Trace(l, h));
    TraceNotifiesNobody(l, h);
    Silent(pro);
    if args.isBackground {
      Silent(epi);
    } else {
      assert epi[..|epi| - 1] == [FinalizeTestingRecord(Replay(l, h))];
      Silent(epi[..|epi| - 1]);
    }
  }

  // ---------------------------------------------------------------------------
  // The harness

  /** run.py:49-53: the nested loops that zero every registered test. */
  method InitializeLedger(registry: Registry) returns (record: Ledger)
    ensures record == InitialLedger(registry)
  {
    record := map[];
    var pending := registry.Keys;
    while pending != {}
      invariant pending <= registry.Keys
      invariant record.Keys == registry.Keys - pending
      invariant forall m :: m in record ==> record[m] == ZeroRow(registry[m])
      decreases pending
    {
      var m :| m in pending;
      var methods := registry[m];
      var row: map<string, Counts> := map[];
      for j := 0 to |methods|
        invariant row == ZeroRow(methods[..j])
      {
        assert methods[..j + 1] == methods[..j] + [methods[j]];
        row := row[methods[j] := Counts(0, 0)];
      }
      assert methods[..|methods|] == methods;
      record := record[m := row];
      pending := pending - {m};
    }
  }

  /** What one more pass of the loop of run.py:61-100 adds to the iterations so far. */
  lemma {:induction false} LoopStep(registry: Registry, first: Ledger, draw: nat -> nat, sample: nat -> TestId,
                                    outcome: nat -> Outcome, k: nat)
    requires forall i: nat :: Registered(registry, sample(i))
    requires forall t :: Registered(registry, t) ==> Has(first, t)
    ensures Has(Replay(first, Attempts(draw, sample, outcome, k)), sample(k))
    ensures Replay(first, Attempts(draw, sample, outcome, k + 1))
         == Record(Replay(first, Attempts(draw, sample, outcome, k)), sample(k), outcome(k))
    ensures Trace(first, Attempts(draw, sample, outcome, k + 1))
         == Trace(first, Attempts(draw, sample, outcome, k))
            + IterationEvents(Attempt(sample(k), NewSeed(draw(k)), outcome(k)),
                              Replay(first, Attempts(draw, sample, outcome, k + 1)))
  {
    var h := Attempts(draw, sample, outcome, k);
    var a := Attempt(sample(k), NewSeed(draw(k)), outcome(k));
    assert Attempts(draw, sample, outcome, k + 1) == h + [a];
    assert Registered(registry, sample(k));
    ReplayAppend(first, h, a);
    TraceAppend(first, h, a);
  }

  /** The loop of run.py:61-100 stops after the pass whose reading first exceeds the timeout. */
  lemma {:induction false} IterationsStep(readings: seq<int>, start: int, timeout: int, k: nat)
    requires Overruns(readings, start, timeout)
    requires k < Iterations(readings, start, timeout)
    ensures timeout < readings[k] - start ==> k + 1 == Iterations(readings, start, timeout)
    ensures readings[k] - start <= timeout ==> k + 1 < Iterations(readings, start, timeout)
  {
    IterationsStop(readings, start, timeout);
  }

  /**
   * run.py:81-88: the counter of `test` that the outcome selects goes up by
   * one; also returns the flag and message handed to update_testing_record.
   */
  method Count(record: Ledger, test: TestId, outcome: Outcome) returns (r: Ledger, isSuccess: bool, msg: Option<string>)
    requires Has(record, test)
    ensures r == Record(record, test, outcome)
    ensures isSuccess == outcome.Returned?
    ensures msg == if outcome.Raised? then Some(outcome.diagnostic) else None
  {
    r := Record(record, test, outcome);
    match outcome {
      case Returned =>
        isSuccess, msg := true, None;
      case Raised(diagnostic) =>
        isSuccess, msg := false, Some(diagnostic);
    }
  }

  /**
   * run.py:63-96: pass k of the loop, which seeds with the draw, runs the
   * picked test inside a fresh directory and reports the counted outcome.
   */
  method Pass(record: Ledger, log: seq<Event>, ghost cwd: seq<string>, draw: nat, test: TestId, outcome: Outcome, tmpDir: string)
    returns (record': Ledger, log': seq<Event>, ghost cwd': seq<string>, ghost testCwd: seq<string>)
    requires Has(record, test)
    ensures record' == Record(record, test, outcome)
    ensures log' == log + IterationEvents(Attempt(test, NewSeed(draw), outcome), record')
    ensures testCwd == cwd + [tmpDir]
    ensures cwd' == cwd
  {
    var seed := NewSeed(draw);
    cwd' := cwd + [tmpDir];
    testCwd := cwd';
    var isSuccess, msg;
    record', isSuccess, msg := Count(record, test, outcome);
    assert Parent(cwd') == cwd;
    cwd' := Parent(cwd');
    log' := log + [UpdateTestingRecord(test, seed, isSuccess, msg, record'), CleanupTestingInfrastructure(true)];
  }

  /** run.py:39-58: before the loop, with the ledger handed to initialize_record_canvas. */
  method Prepare(args: Args, registry: Registry, start: int, timeout: int) returns (record: Ledger, log: seq<Event>)
    ensures record == InitialLedger(registry)
    ensures log == Prologue(args, record, start, timeout)
  {
    log := [Cleanup];
    if args.isCompile {
      log := log + [CompilePackage(true)];
    }
    record := InitializeLedger(registry);
    log := log + [CleanupTestingInfrastructure(false), InitializeRecordCanvas(record, start, timeout)];
  }

  /**
   * run.py:61-100: iterate until an iteration ends after the timeout, from the
   * ledger `first`, the calls `log0` and the directory `cwd0`.
   */
  method Loop(registry: Registry, first: Ledger, log0: seq<Event>, ghost cwd0: seq<string>,
              start: int, timeout: int, readings: seq<int>,
              draw: nat -> nat, sample: nat -> TestId, outcome: nat -> Outcome, tmpDir: nat -> string)
    returns (record: Ledger, iterations: nat, log: seq<Event>, ghost cwd: seq<string>)
    requires Overruns(readings, start, timeout)
    requires forall i: nat :: Registered(registry, sample(i))
    requires forall t :: Registered(registry, t) ==> Has(first, t)
    ensures iterations == Iterations(readings, start, timeout)
    ensures record == Replay(first, Attempts(draw, sample, outcome, iterations))
    ensures log == log0 + Trace(first, Attempts(draw, sample, outcome, iterations))
    ensures cwd == cwd0
  {
    ghost var n := Iterations(readings, start, timeout);
    record, log, cwd := first, log0, cwd0;
    iterations := 0;
    while true
      invariant iterations < n
      invariant record == Replay(first, Attempts(draw, sample, outcome, iterations))
      invariant cwd == cwd0
      invariant log == log0 + Trace(first, Attempts(draw, sample, outcome, iterations))
      decreases n - iterations
    {
      var k := iterations;
      LoopStep(registry, first, draw, sample, outcome, k);
      ghost var before := Trace(first, Attempts(draw, sample, outcome, k));
      ghost var testCwd;
      record, log, cwd, testCwd := Pass(record, log, cwd, draw(k), sample(k), outcome(k), tmpDir(k));
      ConcatAssoc(log0, before, IterationEvents(Attempt(sample(k), NewSeed(draw(k)), outcome(k)), record));
      IterationsStep(readings, start, timeout, k);
      iterations := iterations + 1;
      if timeout < readings[k] - start {
        break;
      }
    }
  }

  /** run.py:102-107: after the loop. */
  method Conclude(args: Args, record: Ledger, log0: seq<Event>) returns (log: seq<Event>)
    ensures log == log0 + Epilogue(args, record)
  {
    log := log0 + [FinalizeTestingRecord(record)];
    if !args.isBackground {
      log := log + [SendNotification("property", args.hours)];
      AppendTwo(log0, FinalizeTestingRecord(record), SendNotification("property", args.hours));
    }
  }

  /**
   * The whole of `run` (run.py:36-107), in the directory `cwd0`: returns the
   * final ledger, the number of iterations, the collaborator calls in order and
   * the working directory at the end.
   */
  method Run(args: Args, registry: Registry, start: int, timeout: int, readings: seq<int>,
             draw: nat -> nat, sample: nat -> TestId, outcome: nat -> Outcome, tmpDir: nat -> string,
             ghost cwd0: seq<string>)
    returns (record: Ledger, iterations: nat, log: seq<Event>, ghost cwd: seq<string>)
    requires Overruns(readings, start, timeout)
    requires forall i: nat :: Registered(registry, sample(i))
    ensures iterations == Iterations(readings, start, timeout)
    ensures AllRegistered(registry, Attempts(draw, sample, outcome, iterations))
    ensures record == Replay(InitialLedger(registry), Attempts(draw, sample, outcome, iterations))
    ensures log == SessionLog(args, registry, start, timeout, Attempts(draw, sample, outcome, iterations))
    ensures cwd == cwd0
  {
    var first, prologue := Prepare(args, registry, start, timeout);
    var body;
    record, iterations, body, cwd := Loop(registry, first, prologue, cwd0, start, timeout, readings,
                                          draw, sample, outcome, tmpDir);
    log := Conclude(args, record, body);
    AttemptsRegistered(registry, draw, sample, outcome, iterations);
  }
}
