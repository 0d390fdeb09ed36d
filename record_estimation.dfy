/**
 * A model of the bookkeeping in respy/python/record/record_estimation.py, the
 * log of an estimation in progress. The optimiser object keeps three slots
 * (0: the start, 1: the best step so far, 2: the current evaluation), each a
 * criterion value with two parameter columns, and counts its evaluations and
 * steps. Around the update sit the selection rules of the printed tables: which
 * parameters get a row, when a number prints as '---' and which warnings are
 * raised. Files are modelled as the rows and cells written to them.
 */
module RecordEstimation {
  import opened Wrappers

  // ---------------------------------------------------------------------------
  // Printed numbers

  /** LARGE_FLOAT of respy/python/shared/shared_constants.py, 1.0e8. */
  const LARGE_FLOAT: real := 100000000.0

  function Abs(v: real): real
  {
    if v < 0.0 then -v else v
  }

  /** A value too large to print: strictly above LARGE_FLOAT in absolute value. */
  predicate IsLarge(v: real)
  {
    Abs(v) > LARGE_FLOAT
  }

  /** A printed number: '---', or the digits of the value (the format itself is not modelled). */
  datatype Cell = Dashes | Digits(value: real)

  function FloatCell(v: real): Cell
  {
    if IsLarge(v) then Dashes else Digits(v)
  }

  /** What char_floats is given: a single float, or a list of them. */
  datatype Floats = Single(v: real) | Many(vs: seq<real>)

  function Values(f: Floats): seq<real>
  {
    match f
    case Single(v) => [v]
    case Many(vs) => vs
  }

  /** The list that the loop of char_floats builds, one cell per value. */
  function Cells(vs: seq<real>): (line: seq<Cell>)
    ensures |line| == |vs|
    decreases |vs|
  {
    if vs == [] then [] else Cells(vs[..|vs| - 1]) + [FloatCell(vs[|vs| - 1])]
  }

  lemma {:induction false} CellsAt(vs: seq<real>, i: nat)
    requires i < |vs|
    ensures Cells(vs)[i] == FloatCell(vs[i])
    decreases |vs|
  {
    if i < |vs| - 1 {
      CellsAt(vs[..|vs| - 1], i);
    }
  }

  /** record_estimation.py:232-246. */
  function CharFloats(f: Floats): (line: seq<Cell>)
    ensures |line| == |Values(f)|
  {
    Cells(Values(f))
  }

  /** Position i is '---' exactly when value i is large, and its digits otherwise. */
  lemma {:induction false} CharFloatsAt(f: Floats, i: nat)
    requires i < |Values(f)|
    ensures CharFloats(f)[i] == Dashes <==> IsLarge(Values(f)[i])
    ensures !IsLarge(Values(f)[i]) ==> CharFloats(f)[i] == Digits(Values(f)[i])
  {
    CellsAt(Values(f), i);
  }

  /** A single float is printed as the one-element list holding it. */
  lemma {:induction false} CharFloatsSingle(v: real)
    ensures CharFloats(Single(v)) == CharFloats(Many([v]))
    ensures CharFloats(Single(v)) == [FloatCell(v)]
  {
    assert [v][..0] == [];
  }

  // ---------------------------------------------------------------------------
  // Warnings

  /**
   * record_estimation.py:189-196: the codes handed to record_warning, in order,
   * where slot i gives code i + 1.
   */
  function Warnings(vals: seq<real>): (codes: seq<nat>)
    ensures |codes| <= |vals|
    decreases |vals|
  {
    if vals == [] then []
    else Warnings(vals[..|vals| - 1]) + (if IsLarge(vals[|vals| - 1]) then [|vals|] else [])
  }

  lemma {:induction false} WarningsInRange(vals: seq<real>, i: nat)
    requires i < |Warnings(vals)|
    ensures 1 <= Warnings(vals)[i] <= |vals|
    decreases |vals|
  {
    var w' := Warnings(vals[..|vals| - 1]);
    if i < |w'| {
      WarningsInRange(vals[..|vals| - 1], i);
    }
  }

  /** A code is raised exactly when its slot holds a large value. */
  lemma {:induction false} WarningsExact(vals: seq<real>, code: int)
    ensures code in Warnings(vals) <==> 1 <= code <= |vals| && IsLarge(vals[code - 1])
    decreases |vals|
  {
    if vals != [] {
      var p := vals[..|vals| - 1];
      WarningsExact(p, code);
      if code in Warnings(p) {
        var i :| 0 <= i < |Warnings(p)| && Warnings(p)[i] == code;
        WarningsInRange(p, i);
      }
    }
  }

  /** The codes come in strictly increasing order. */
  lemma {:induction false} WarningsIncreasing(vals: seq<real>, i: nat, j: nat)
    requires i < j < |Warnings(vals)|
    ensures Warnings(vals)[i] < Warnings(vals)[j]
    decreases |vals|
  {
    var p := vals[..|vals| - 1];
    if j < |Warnings(p)| {
      WarningsIncreasing(p, i, j);
    } else {
      WarningsInRange(p, i);
    }
  }

  // ---------------------------------------------------------------------------
  // Free parameters

  /** The identifiers i with paras_fixed[i] false, in increasing order. */
  function FreeIds(fixed: seq<bool>): (ids: seq<nat>)
    ensures |ids| <= |fixed|
    decreases |fixed|
  {
    if fixed == [] then []
    else FreeIds(fixed[..|fixed| - 1]) + (if fixed[|fixed| - 1] then [] else [|fixed| - 1])
  }

  lemma {:induction false} FreeIdsAt(fixed: seq<bool>, k: nat)
    requires k < |FreeIds(fixed)|
    ensures FreeIds(fixed)[k] < |fixed| && !fixed[FreeIds(fixed)[k]]
    decreases |fixed|
  {
    var p := fixed[..|fixed| - 1];
    if k < |FreeIds(p)| {
      FreeIdsAt(p, k);
    }
  }

  /** Exactly the free parameters are listed. */
  lemma {:induction false} FreeIdsExact(fixed: seq<bool>, i: int)
    ensures i in FreeIds(fixed) <==> 0 <= i < |fixed| && !fixed[i]
    decreases |fixed|
  {
    if fixed != [] {
      var p := fixed[..|fixed| - 1];
      FreeIdsExact(p, i);
      if i in FreeIds(p) {
        var k :| 0 <= k < |FreeIds(p)| && FreeIds(p)[k] == i;
        FreeIdsAt(p, k);
      }
    }
  }

  /** They are listed in strictly increasing order. */
  lemma {:induction false} FreeIdsIncreasing(fixed: seq<bool>, k: nat, m: nat)
    requires k < m < |FreeIds(fixed)|
    ensures FreeIds(fixed)[k] < FreeIds(fixed)[m]
    decreases |fixed|
  {
    var p := fixed[..|fixed| - 1];
    if m < |FreeIds(p)| {
      FreeIdsIncreasing(p, k, m);
    } else {
      FreeIdsAt(p, k);
    }
  }

  /** The k-th free identifier has exactly k free parameters before it. */
  lemma {:induction false} FreeRank(fixed: seq<bool>, k: nat)
    requires k < |FreeIds(fixed)|
    ensures FreeIds(fixed)[k] <= |fixed|
    ensures |FreeIds(fixed[..FreeIds(fixed)[k]])| == k
    decreases |fixed|
  {
    var p := fixed[..|fixed| - 1];
    FreeIdsAt(fixed, k);
    if k < |FreeIds(p)| {
      var i := FreeIds(p)[k];
      FreeRank(p, k);
      FreeIdsAt(p, k);
      assert p[..i] == fixed[..i];
    } else {
      assert fixed[..|fixed| - 1] == p;
    }
  }

  /** A prefix has no more free parameters than the whole. */
  lemma {:induction false} FreeCountMonotone(fixed: seq<bool>, i: nat)
    requires i <= |fixed|
    ensures |FreeIds(fixed[..i])| <= |FreeIds(fixed)|
    decreases |fixed|
  {
    if i < |fixed| {
      var p := fixed[..|fixed| - 1];
      FreeCountMonotone(p, i);
      assert p[..i] == fixed[..i];
    } else {
      assert fixed[..i] == fixed;
    }
  }

  // ---------------------------------------------------------------------------
  // The preconditioning table, record_estimation.py:27-61

  datatype Bounds = Bounds(lower: real, upper: real)

  /** One row: the identifier, the original value, the scale and the transformed value and bounds. */
  datatype ScalingRow = ScalingRow(id: nat, original: real, scale: real, transformed: real, lower: Cell, upper: Cell)

  /** With is_setup, the table header; otherwise the rows of the free parameters. */
  datatype ScalingOutput = Header(labels: seq<string>) | Table(rows: seq<ScalingRow>)

  const SCALING_LABELS: seq<string> :=
    ["Identifier", "Original", "Scale", "Transformed Value", "Transformed Lower", "Transformed Upper"]

  /** The arrays about free parameters hold at least n entries, and the matrix an n x n top corner. */
  predicate Fits(n: nat, unscaled: seq<real>, scaled: seq<real>, bounds: seq<Bounds>, precond: seq<seq<real>>)
  {
    n <= |unscaled| && n <= |scaled| && n <= |bounds| && n <= |precond|
    && forall j :: 0 <= j < n ==> j < |precond[j]|
  }

  /** The row for parameter i, read at position j of the arrays about free parameters. */
  function ScalingEntry(i: nat, j: nat, unscaled: seq<real>, scaled: seq<real>, bounds: seq<Bounds>,
                        precond: seq<seq<real>>): ScalingRow
    requires Fits(j + 1, unscaled, scaled, bounds, precond)
  {
    ScalingRow(i, unscaled[j], precond[j][j], scaled[j], FloatCell(bounds[j].lower), FloatCell(bounds[j].upper))
  }

  /** The rows written for the parameters `fixed` describes, the j-th free one reading position j. */
  function ScalingTable(fixed: seq<bool>, unscaled: seq<real>, scaled: seq<real>, bounds: seq<Bounds>,
                        precond: seq<seq<real>>): (rows: seq<ScalingRow>)
    requires Fits(|FreeIds(fixed)|, unscaled, scaled, bounds, precond)
    ensures |rows| == |FreeIds(fixed)|
    decreases |fixed|
  {
    if fixed == [] then []
    else
      var p := fixed[..|fixed| - 1];
      ScalingTable(p, unscaled, scaled, bounds, precond)
        + if fixed[|fixed| - 1] then []
          else [ScalingEntry(|fixed| - 1, |FreeIds(p)|, unscaled, scaled, bounds, precond)]
  }

  /** Row k is the k-th free parameter, read at position k. */
  lemma {:induction false} ScalingTableAt(fixed: seq<bool>, unscaled: seq<real>, scaled: seq<real>,
                                          bounds: seq<Bounds>, precond: seq<seq<real>>, k: nat)
    requires Fits(|FreeIds(fixed)|, unscaled, scaled, bounds, precond)
    requires k < |FreeIds(fixed)|
    ensures ScalingTable(fixed, unscaled, scaled, bounds, precond)[k]
         == ScalingEntry(FreeIds(fixed)[k], k, unscaled, scaled, bounds, precond)
    decreases |fixed|
  {
    var p := fixed[..|fixed| - 1];
    if k < |FreeIds(p)| {
      ScalingTableAt(p, unscaled, scaled, bounds, precond, k);
    }
  }

  /**
   * The row for a free parameter i reads the arrays at the number of free
   * parameters before i, and a bound prints as '---' exactly when it is large.
   */
  lemma {:induction false} ScalingRowOf(fixed: seq<bool>, unscaled: seq<real>, scaled: seq<real>,
                                        bounds: seq<Bounds>, precond: seq<seq<real>>, k: nat)
    requires Fits(|FreeIds(fixed)|, unscaled, scaled, bounds, precond)
    requires k < |FreeIds(fixed)|
    ensures FreeIds(fixed)[k] <= |fixed|
    ensures var row := ScalingTable(fixed, unscaled, scaled, bounds, precond)[k];
            var j := |FreeIds(fixed[..FreeIds(fixed)[k]])|;
            && row.id == FreeIds(fixed)[k]
            && j == k
            && row.original == unscaled[j] && row.scale == precond[j][j] && row.transformed == scaled[j]
            && (row.lower == Dashes <==> IsLarge(bounds[j].lower))
            && (row.upper == Dashes <==> IsLarge(bounds[j].upper))
  {
    ScalingTableAt(fixed, unscaled, scaled, bounds, precond, k);
    FreeRank(fixed, k);
  }

  /** record_estimation.py:27-61, with the file replaced by what is written to it. */
  method RecordScaling(unscaled: seq<real>, scaled: seq<real>, bounds: seq<Bounds>, precond: seq<seq<real>>,
                       fixed: seq<bool>, isSetup: bool) returns (out: ScalingOutput)
    requires !isSetup ==> Fits(|FreeIds(fixed)|, unscaled, scaled, bounds, precond)
    ensures isSetup ==> out == Header(SCALING_LABELS)
    ensures !isSetup ==> out == Table(ScalingTable(fixed, unscaled, scaled, bounds, precond))
  {
    if isSetup {
      return Header(SCALING_LABELS);
    }
    var rows: seq<ScalingRow> := [];
    var j := 0;
    for i := 0 to |fixed|
      invariant j == |FreeIds(fixed[..i])| <= |FreeIds(fixed)|
      invariant rows == ScalingTable(fixed[..i], unscaled, scaled, bounds, precond)
    {
      assert fixed[..i + 1][..i] == fixed[..i];
      FreeCountMonotone(fixed, i + 1);
      if fixed[i] {
        continue;
      }
      rows := rows + [ScalingRow(i, unscaled[j], precond[j][j], scaled[j],
                                 FloatCell(bounds[j].lower), FloatCell(bounds[j].upper))];
      j := j + 1;
    }
    assert fixed[..|fixed|] == fixed;
    out := Table(rows);
  }

  // ---------------------------------------------------------------------------
  // The evaluation table of record_estimation.py:162-172

  /** One row: the identifier and the printed start, step and current values. */
  datatype EvalRow = EvalRow(id: nat, cells: seq<Cell>)

  /** Three columns of at least n entries each. */
  predicate ThreeColumns(cols: seq<seq<real>>, n: nat)
  {
    |cols| == 3 && n <= |cols[0]| && n <= |cols[1]| && n <= |cols[2]|
  }

  /** Row i of a three-column container, x_optim_container[i, :]. */
  function RowOf(cols: seq<seq<real>>, i: nat): seq<real>
    requires ThreeColumns(cols, i + 1)
  {
    [cols[0][i], cols[1][i], cols[2][i]]
  }

  /** The rows written for the free parameters among `fixed`. */
  function EvalTable(fixed: seq<bool>, cols: seq<seq<real>>): (rows: seq<EvalRow>)
    requires ThreeColumns(cols, |fixed|)
    ensures |rows| == |FreeIds(fixed)|
    decreases |fixed|
  {
    if fixed == [] then []
    else
      var i := |fixed| - 1;
      EvalTable(fixed[..i], cols) + if fixed[i] then [] else [EvalRow(i, CharFloats(Many(RowOf(cols, i))))]
  }

  lemma {:induction false} EvalTableAt(fixed: seq<bool>, cols: seq<seq<real>>, k: nat)
    requires ThreeColumns(cols, |fixed|)
    requires k < |FreeIds(fixed)|
    ensures FreeIds(fixed)[k] < |fixed|
    ensures EvalTable(fixed, cols)[k] == EvalRow(FreeIds(fixed)[k], CharFloats(Many(RowOf(cols, FreeIds(fixed)[k]))))
    decreases |fixed|
  {
    FreeIdsAt(fixed, k);
    var p := fixed[..|fixed| - 1];
    if k < |FreeIds(p)| {
      EvalTableAt(p, cols, k);
    }
  }

  /** The scaling table and the evaluation table list the same identifiers, in the same order. */
  lemma {:induction false} TablesAgree(fixed: seq<bool>, cols: seq<seq<real>>, unscaled: seq<real>,
                                       scaled: seq<real>, bounds: seq<Bounds>, precond: seq<seq<real>>, k: nat)
    requires ThreeColumns(cols, |fixed|)
    requires Fits(|FreeIds(fixed)|, unscaled, scaled, bounds, precond)
    requires k < |FreeIds(fixed)|
    ensures |EvalTable(fixed, cols)| == |ScalingTable(fixed, unscaled, scaled, bounds, precond)|
    ensures EvalTable(fixed, cols)[k].id == ScalingTable(fixed, unscaled, scaled, bounds, precond)[k].id
  {
    EvalTableAt(fixed, cols, k);
    ScalingTableAt(fixed, unscaled, scaled, bounds, precond, k);
  }

  // ---------------------------------------------------------------------------
  // The update of record_estimation_eval, record_estimation.py:101-124

  /**
   * The fields of the optimiser object that an evaluation reads and writes:
   * the counters, the three criterion values and the two containers, each as
   * its three columns.
   */
  datatype Progress = Progress(numEval: nat, numStep: nat, crit: seq<real>, optim: seq<seq<real>>, econ: seq<seq<real>>)

  predicate Slotted(p: Progress)
  {
    |p.crit| == 3 && |p.optim| == 3 && |p.econ| == 3
  }

  /**
   * Decided before the slots are visited: slot 0 is written on the first
   * evaluation, slot 1 when the value is strictly below the best step, slot 2
   * always.
   */
  predicate Writes(p: Progress, fval: real, i: nat)
    requires Slotted(p)
  {
    (i == 0 && p.numEval == 0) || (i == 1 && p.crit[1] > fval) || i == 2
  }

  /** Visiting slot i: if it is written, it takes the value and both columns, and its counter goes up. */
  function Visit(q: Progress, p: Progress, fval: real, x: seq<real>, econ: seq<real>, i: nat): Progress
    requires Slotted(p) && Slotted(q) && i < 3
  {
    if !Writes(p, fval, i) then q
    else
      q.(numStep := if i == 1 then q.numStep + 1 else q.numStep,
         numEval := if i == 2 then q.numEval + 1 else q.numEval,
         crit := q.crit[i := fval],
         optim := q.optim[i := x],
         econ := q.econ[i := econ])
  }

  /** The state after the loop has visited slots 0 up to i - 1. */
  function VisitAll(p: Progress, fval: real, x: seq<real>, econ: seq<real>, i: nat): (q: Progress)
    requires Slotted(p) && i <= 3
    ensures Slotted(q)
  {
    if i == 0 then p else Visit(VisitAll(p, fval, x, econ, i - 1), p, fval, x, econ, i - 1)
  }

  /** One evaluation with criterion `fval`, parameters `x` and economic parameters `econ`. */
  function EvalUpdate(p: Progress, fval: real, x: seq<real>, econ: seq<real>): (q: Progress)
    requires Slotted(p)
    ensures Slotted(q)
  {
    VisitAll(p, fval, x, econ, 3)
  }

  function Min(a: real, b: real): real
  {
    if a <= b then a else b
  }

  /**
   * Every evaluation counts one evaluation and becomes the current slot; the
   * start slot is written only by the first evaluation; the best step only by
   * a strict improvement, which counts one step, so it becomes the minimum.
   */
  lemma {:induction false} EvalSlots(p: Progress, fval: real, x: seq<real>, econ: seq<real>)
    requires Slotted(p)
    ensures var q := EvalUpdate(p, fval, x, econ);
      && q.numEval == p.numEval + 1
      && q.crit[2] == fval && q.optim[2] == x && q.econ[2] == econ
      && (p.numEval == 0 ==> q.crit[0] == fval && q.optim[0] == x && q.econ[0] == econ)
      && (p.numEval != 0 ==> q.crit[0] == p.crit[0] && q.optim[0] == p.optim[0] && q.econ[0] == p.econ[0])
      && (fval < p.crit[1] ==> q.numStep == p.numStep + 1 && q.crit[1] == fval && q.optim[1] == x && q.econ[1] == econ)
      && (p.crit[1] <= fval ==> q.numStep == p.numStep && q.crit[1] == p.crit[1] && q.optim[1] == p.optim[1]
                                 && q.econ[1] == p.econ[1])
      && q.crit[1] == Min(p.crit[1], fval)
  {
    assert VisitAll(p, fval, x, econ, 0) == p;
    var q1 := VisitAll(p, fval, x, econ, 1);
    assert q1 == Visit(p, p, fval, x, econ, 0);
    var q2 := VisitAll(p, fval, x, econ, 2);
    assert q2 == Visit(q1, p, fval, x, econ, 1);
    assert EvalUpdate(p, fval, x, econ) == Visit(q2, p, fval, x, econ, 2);
  }

  /** The columns of x_econ_container: the parameters with the shock and type-share blocks replaced. */
  function EconColumn(x: seq<real>, shocksCoeffs: seq<real>, shares: seq<real>, numTypes: nat): (col: seq<real>)
    requires 44 + numTypes <= |x| && |shocksCoeffs| == 10 && |shares| == numTypes
    ensures |col| == |x|
  {
    x[..34] + shocksCoeffs + shares + x[44 + numTypes..]
  }

  /** Outside the two replaced blocks, the economic column repeats the parameters. */
  lemma {:induction false} EconColumnCopies(x: seq<real>, shocksCoeffs: seq<real>, shares: seq<real>, numTypes: nat, r: nat)
    requires 44 + numTypes <= |x| && |shocksCoeffs| == 10 && |shares| == numTypes
    requires r < |x|
    ensures r < 34 || 44 + numTypes <= r ==> EconColumn(x, shocksCoeffs, shares, numTypes)[r] == x[r]
    ensures 34 <= r < 44 ==> EconColumn(x, shocksCoeffs, shares, numTypes)[r] == shocksCoeffs[r - 34]
    ensures 44 <= r < 44 + numTypes ==> EconColumn(x, shocksCoeffs, shares, numTypes)[r] == shares[r - 44]
  {
  }

  /** One evaluation's inputs. */
  datatype Evaluation = Evaluation(fval: real, x: seq<real>, econ: seq<real>)

  /** The state after the evaluations `es`, in order. */
  function EvaluateAll(p: Progress, es: seq<Evaluation>): (q: Progress)
    requires Slotted(p)
    ensures Slotted(q)
    decreases |es|
  {
    if es == [] then p
    else
      var e := es[|es| - 1];
      EvalUpdate(EvaluateAll(p, es[..|es| - 1]), e.fval, e.x, e.econ)
  }

  /** The lowest of `best` and the criterion values of `es`. */
  function Best(best: real, es: seq<Evaluation>): real
    decreases |es|
  {
    if es == [] then best else Min(Best(best, es[..|es| - 1]), es[|es| - 1].fval)
  }

  /** How many of `es` are strictly below every value before them, starting from `best`. */
  function Improvements(best: real, es: seq<Evaluation>): nat
    decreases |es|
  {
    if es == [] then 0
    else
      var p := es[..|es| - 1];
      Improvements(best, p) + if es[|es| - 1].fval < Best(best, p) then 1 else 0
  }

  /**
   * Over a run of evaluations, num_eval counts them, num_step counts the
   * strict improvements, the best step is the minimum, the current slot is the
   * last one and, from a fresh object, the start slot is the first one.
   */
  lemma {:induction false} EvaluateAllSlots(p: Progress, es: seq<Evaluation>)
    requires Slotted(p)
    ensures var q := EvaluateAll(p, es);
      && q.numEval == p.numEval + |es|
      && q.numStep == p.numStep + Improvements(p.crit[1], es)
      && q.crit[1] == Best(p.crit[1], es)
      && (es != [] ==> q.crit[2] == es[|es| - 1].fval)
      && (es != [] ==> q.optim[2] == es[|es| - 1].x && q.econ[2] == es[|es| - 1].econ)
      && (p.numEval == 0 && es != [] ==> q.crit[0] == es[0].fval && q.optim[0] == es[0].x && q.econ[0] == es[0].econ)
    decreases |es|
  {
    if es != [] {
      var es' := es[..|es| - 1];
      var e := es[|es| - 1];
      var q' := EvaluateAll(p, es');
      EvaluateAllSlots(p, es');
      EvalSlots(q', e.fval, e.x, e.econ);
      if es' != [] {
        assert es'[0] == es[0];
      }
    }
  }

  // ---------------------------------------------------------------------------
  // The optimiser object

  /** The three columns of a container with three columns, as sequences. */
  function Columns(m: array2<real>): (cols: seq<seq<real>>)
    reads m
    ensures |cols| == m.Length1
  {
    seq(m.Length1, c requires 0 <= c < m.Length1 reads m => seq(m.Length0, r requires 0 <= r < m.Length0 reads m => m[r, c]))
  }

  /** x_optim_container[:, c] = v. */
  method WriteColumn(m: array2<real>, c: nat, v: seq<real>)
    requires c < m.Length1 && |v| == m.Length0
    modifies m
    ensures Columns(m) == old(Columns(m))[c := v]
  {
    for r := 0 to m.Length0
      invariant forall r', k :: 0 <= r' < m.Length0 && 0 <= k < m.Length1 ==>
        m[r', k] == if k == c && r' < r then v[r'] else old(m[r', k])
    {
      m[r, c] := v[r];
    }
    forall k | 0 <= k < m.Length1
      ensures Columns(m)[k] == old(Columns(m))[c := v][k]
    {
      if k == c {
        assert forall r | 0 <= r < m.Length0 :: Columns(m)[k][r] == v[r];
      } else {
        assert forall r | 0 <= r < m.Length0 :: Columns(m)[k][r] == old(Columns(m))[k][r];
      }
    }
  }

  /** The report written for an evaluation, from the state after it. */
  datatype EvalReport = EvalReport(numEval: nat, numStep: nat, criterion: Cell, rows: seq<EvalRow>, warnings: seq<nat>)

  class Optimizer {
    const parasFixed: seq<bool>
    const numParas: nat
    const numTypes: nat
    var numEval: nat
    var numStep: nat
    const critVals: array<real>
    const xOptimContainer: array2<real>
    const xEconContainer: array2<real>

    /** One flag per parameter, room for the type shares, and three slots in every container. */
    predicate Valid()
      reads this
    {
      && |parasFixed| == numParas && 44 + numTypes <= numParas
      && critVals.Length == 3
      && xOptimContainer.Length0 == numParas && xOptimContainer.Length1 == 3
      && xEconContainer.Length0 == numParas && xEconContainer.Length1 == 3
      && xOptimContainer != xEconContainer
    }

    function State(): (p: Progress)
      requires Valid()
      reads this, critVals, xOptimContainer, xEconContainer
      ensures Slotted(p)
    {
      Progress(numEval, numStep, critVals[..], Columns(xOptimContainer), Columns(xEconContainer))
    }

    /** An object before its first evaluation, with the given criterion values and containers filled with zeros. */
    constructor (parasFixed: seq<bool>, numTypes: nat, crit: seq<real>)
      requires 44 + numTypes <= |parasFixed| && |crit| == 3
      ensures Valid()
      ensures this.parasFixed == parasFixed && this.numTypes == numTypes
      ensures numEval == 0 && numStep == 0 && critVals[..] == crit
      ensures forall i, c :: 0 <= i < numParas && 0 <= c < 3 ==> xOptimContainer[i, c] == 0.0 && xEconContainer[i, c] == 0.0
    {
      this.parasFixed := parasFixed;
      this.numParas := |parasFixed|;
      this.numTypes := numTypes;
      numEval, numStep := 0, 0;
      critVals := new real[3](i requires 0 <= i < 3 => crit[i]);
      xOptimContainer := new real[|parasFixed|, 3]((_, _) => 0.0);
      xEconContainer := new real[|parasFixed|, 3]((_, _) => 0.0);
    }

    /** record_estimation.py:165-171: the rows for the free parameters, from x_optim_container. */
    method EvalRows() returns (rows: seq<EvalRow>)
      requires Valid()
      ensures rows == EvalTable(parasFixed, Columns(xOptimContainer))
    {
      ghost var cols := Columns(xOptimContainer);
      rows := [];
      for i := 0 to numParas
        invariant rows == EvalTable(parasFixed[..i], cols)
      {
        assert parasFixed[..i + 1][..i] == parasFixed[..i];
        if parasFixed[i] {
          continue;
        }
        var line := [xOptimContainer[i, 0], xOptimContainer[i, 1], xOptimContainer[i, 2]];
        assert line == RowOf(cols, i);
        rows := rows + [EvalRow(i, CharFloats(Many(line)))];
      }
      assert parasFixed[..numParas] == parasFixed;
    }

    /**
     * record_estimation.py:87-196 for criterion `fval` and parameters `x`; the
     * shock coefficients and normalised type shares come in computed. Returns
     * the counters, the printed criterion, the rows and the warning codes.
     */
    method RecordEval(fval: real, x: seq<real>, shocksCoeffs: seq<real>, shares: seq<real>)
      returns (report: EvalReport)
      requires Valid()
      requires |x| == numParas && |shocksCoeffs| == 10 && |shares| == numTypes
      modifies this, critVals, xOptimContainer, xEconContainer
      ensures Valid()
      ensures State() == EvalUpdate(old(State()), fval, x, EconColumn(x, shocksCoeffs, shares, numTypes))
      ensures report == EvalReport(numEval, numStep, CharFloats(Single(fval))[0],
                                   EvalTable(parasFixed, State().optim), Warnings(State().crit))
    {
      ghost var p := State();
      var econ := EconColumn(x, shocksCoeffs, shares, numTypes);
      var isStart := numEval == 0;
      var isStep := critVals[1] > fval;
      for i := 0 to 3
        invariant State() == VisitAll(p, fval, x, econ, i)
      {
        if i == 0 && !isStart {
          continue;
        }
        if i == 1 {
          if !isStep {
            continue;
          } else {
            numStep := numStep + 1;
          }
        }
        if i == 2 {
          numEval := numEval + 1;
        }
        critVals[i] := fval;
        WriteColumn(xOptimContainer, i, x);
        WriteColumn(xEconContainer, i, econ);
      }
      var rows := EvalRows();
      var warnings := Warnings(critVals[..]);
      report := EvalReport(numEval, numStep, CharFloats(Single(fval))[0], rows, warnings);
    }
  }

  // ---------------------------------------------------------------------------
  // The scalability log, record_estimation.py:64-79

  /** One line of .scalability.respy.log: the argument, the date and the time. */
  datatype Stamp = Stamp(which: string, today: string, now: string)

  /**
   * The lines of the log after one call, from the lines before it; the date
   * and time are inputs. Only "Start" (which truncates) and "Finish" (which
   * appends) are accepted, anything else raises AssertionError.
   */
  function RecordScalability(log: seq<Stamp>, s: Stamp): (r: Result<seq<Stamp>, string>)
    ensures r.Success? <==> s.which == "Start" || s.which == "Finish"
    ensures r.Success? ==> |r.value| >= 1 && r.value[|r.value| - 1] == s
    ensures s.which == "Start" ==> r == Success([s])
    ensures s.which == "Finish" ==> r == Success(log + [s])
  {
    if s.which == "Start" then Success([s])
    else if s.which == "Finish" then Success(log + [s])
    else Failure("AssertionError")
  }

  /** The log after a run of calls, or the error of the first call that raises. */
  function Stamps(log: seq<Stamp>, calls: seq<Stamp>): Result<seq<Stamp>, string>
    decreases |calls|
  {
    if calls == [] then Success(log)
    else
      match Stamps(log, calls[..|calls| - 1])
      case Failure(e) => Failure(e)
      case Success(before) => RecordScalability(before, calls[|calls| - 1])
  }

  /**
   * After a run of calls that ends with a "Start" followed only by "Finish"
   * calls, the log holds exactly those calls: the Start truncated what was
   * there before.
   */
  lemma {:induction false} LogSinceLastStart(log: seq<Stamp>, calls: seq<Stamp>, k: nat)
    requires k < |calls| && calls[k].which == "Start"
    requires forall i :: k < i < |calls| ==> calls[i].which == "Finish"
    requires Stamps(log, calls[..k]).Success?
    ensures Stamps(log, calls) == Success(calls[k..])
    decreases |calls|
  {
    var p := calls[..|calls| - 1];
    if k == |calls| - 1 {
      assert p == calls[..k];
      assert calls[k..] == [calls[k]];
    } else {
      assert p[..k] == calls[..k];
      LogSinceLastStart(log, p, k);
      assert calls[|calls| - 1].which == "Finish";
      assert p[k..] == calls[k..|calls| - 1];
      assert calls[k..] == calls[k..|calls| - 1] + [calls[|calls| - 1]];
    }
  }

  /** "Finish" calls keep the lines already in the log and append theirs, in order. */
  lemma {:induction false} FinishesAppend(log: seq<Stamp>, calls: seq<Stamp>)
    requires forall i :: 0 <= i < |calls| ==> calls[i].which == "Finish"
    ensures Stamps(log, calls) == Success(log + calls)
    decreases |calls|
  {
    if calls == [] {
      assert log + calls == log;
    } else {
      var p := calls[..|calls| - 1];
      FinishesAppend(log, p);
      assert log + calls == (log + p) + [calls[|calls| - 1]];
    }
  }

  /** One call with any other argument makes the whole run raise AssertionError. */
  lemma {:induction false} BadCallRaises(log: seq<Stamp>, calls: seq<Stamp>)
    requires calls != [] && calls[|calls| - 1].which != "Start" && calls[|calls| - 1].which != "Finish"
    ensures Stamps(log, calls) == Failure("AssertionError")
  {
    var p := calls[..|calls| - 1];
    if Stamps(log, p).Success? {
      assert RecordScalability(Stamps(log, p).value, calls[|calls| - 1]) == Failure("AssertionError");
    } else {
      assert Stamps(log, p) == Failure("AssertionError") by {
        FirstErrorIsAssertion(log, p);
      }
    }
  }

  /** The only error a run of calls can end in is AssertionError. */
  lemma {:induction false} FirstErrorIsAssertion(log: seq<Stamp>, calls: seq<Stamp>)
    ensures Stamps(log, calls).Failure? ==> Stamps(log, calls).error == "AssertionError"
    decreases |calls|
  {
    if calls != [] {
      FirstErrorIsAssertion(log, calls[..|calls| - 1]);
    }
  }
}
