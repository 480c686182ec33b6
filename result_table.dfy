/**
  The result table (src/components/ResultTable.tsx): the totals folded over the
  engine's answer, the aggregate and per-row compression ratios, and the good/bad
  classification of each row. Nothing here changes the list it is given.
*/
module ResultTable {
  import opened Wrappers
  import opened JsNumber
  import opened Optimize

  /** One step of the reduce in `calcReducedSize`: a result adds its two sizes, an
      error leaves the accumulator as it is. */
  function Step(acc: (nat, nat), r: Outcome): (next: (nat, nat))
    ensures acc.0 <= next.0 && acc.1 <= next.1
    ensures r.Result? && r.value.originalSize > 0 ==> acc.0 < next.0
  {
    match r
    case Result(v) => (acc.0 + v.originalSize, acc.1 + v.finalSize)
    case Error(_, _) => acc
  }

  /** `results.reduce(Step, acc)`, a left fold. */
  function Reduce(acc: (nat, nat), rs: seq<Outcome>): (r: (nat, nat))
    ensures acc.0 <= r.0 && acc.1 <= r.1
    ensures (forall i :: 0 <= i < |rs| ==> rs[i].Error?) ==> r == acc
    decreases |rs|
  {
    if rs == [] then acc else Reduce(Step(acc, rs[0]), rs[1..])
  }

  /** The results of a list, in order, without its errors. */
  function Successes(rs: seq<Outcome>): (xs: seq<OptimizeResult>)
    ensures |xs| <= |rs|
    ensures forall x :: x in xs <==> Result(x) in rs
  {
    if rs == [] then []
    else match rs[0]
      case Result(v) => [v] + Successes(rs[1..])
      case Error(_, _) => Successes(rs[1..])
  }

  function TotalOriginal(xs: seq<OptimizeResult>): nat {
    if xs == [] then 0 else xs[0].originalSize + TotalOriginal(xs[1..])
  }

  function TotalFinal(xs: seq<OptimizeResult>): nat {
    if xs == [] then 0 else xs[0].finalSize + TotalFinal(xs[1..])
  }

  /** An error step is the identity. */
  lemma ErrorStepIsIdentity(acc: (nat, nat), path: string, error: string)
    ensures Step(acc, Error(path, error)) == acc
  {
  }

  /** The fold adds to its start the sums of the sizes of the results alone. */
  lemma {:induction false} ReduceIsSumOfResults(acc: (nat, nat), rs: seq<Outcome>)
    ensures Reduce(acc, rs) ==
      (acc.0 + TotalOriginal(Successes(rs)), acc.1 + TotalFinal(Successes(rs)))
    decreases |rs|
  {
    if rs != [] {
      ReduceIsSumOfResults(Step(acc, rs[0]), rs[1..]);
    }
  }

  lemma {:induction false} SuccessesAppend(a: seq<Outcome>, b: seq<Outcome>)
    ensures Successes(a + b) == Successes(a) + Successes(b)
  {
    if a != [] {
      assert (a + b)[0] == a[0] && (a + b)[1..] == a[1..] + b;
      SuccessesAppend(a[1..], b);
    } else {
      assert a + b == b;
    }
  }

  lemma {:induction false} TotalsAppend(xs: seq<OptimizeResult>, ys: seq<OptimizeResult>)
    ensures TotalOriginal(xs + ys) == TotalOriginal(xs) + TotalOriginal(ys)
    ensures TotalFinal(xs + ys) == TotalFinal(xs) + TotalFinal(ys)
  {
    if xs != [] {
      assert (xs + ys)[0] == xs[0] && (xs + ys)[1..] == xs[1..] + ys;
      TotalsAppend(xs[1..], ys);
    } else {
      assert xs + ys == ys;
    }
  }

  /** The totals of a concatenation are the sums of the totals of its parts. */
  lemma ReduceAdditive(a: seq<Outcome>, b: seq<Outcome>)
    ensures Reduce((0, 0), a + b).0 == Reduce((0, 0), a).0 + Reduce((0, 0), b).0
    ensures Reduce((0, 0), a + b).1 == Reduce((0, 0), a).1 + Reduce((0, 0), b).1
  {
    ReduceIsSumOfResults((0, 0), a + b);
    ReduceIsSumOfResults((0, 0), a);
    ReduceIsSumOfResults((0, 0), b);
    SuccessesAppend(a, b);
    TotalsAppend(Successes(a), Successes(b));
  }

  /** What `calcReducedSize` displays, before byte formatting and rounding. */
  datatype Summary = Summary(original: nat, final: nat, ratio: Num)

  /** `calcReducedSize`: the totals over the results, started from `[0, 0]`, and
      `1 - final / original`, which is a number only when the original total is
      not zero. */
  function CalcReducedSize(rs: seq<Outcome>): (s: Summary)
    ensures s.original == TotalOriginal(Successes(rs))
    ensures s.final == TotalFinal(Successes(rs))
    ensures s.ratio.Finite? <==> s.original > 0
    ensures s.original > 0 ==> s.ratio.value == 1.0 - (s.final as real) / (s.original as real)
  {
    ReduceIsSumOfResults((0, 0), rs);
    var totals := Reduce((0, 0), rs);
    Summary(totals.0, totals.1, SubFrom(1.0, Div(totals.1 as real, totals.0 as real)))
  }

  datatype Class = Good | Bad

  /** The compression ratio of a row: `1 - final_size / original_size` for a
      result, exactly 0 for an error. */
  function RowRatio(r: Outcome): (n: Num)
    ensures r.Error? ==> n == Finite(0.0)
    ensures r.Result? && r.value.originalSize > 0 ==>
      n == Finite(1.0 - (r.value.finalSize as real) / (r.value.originalSize as real))
  {
    match r
    case Result(v) => SubFrom(1.0, Div(v.finalSize as real, v.originalSize as real))
    case Error(_, _) => Finite(0.0)
  }

  /** The cell class: `ratio ? (ratio > 0 ? 'good' : 'bad') : undefined`. */
  function Classify(n: Num): (c: Option<Class>)
    ensures n.Finite? ==> (c == Some(Good) <==> n.value > 0.0)
    ensures n.Finite? ==> (c == Some(Bad) <==> n.value < 0.0)
    ensures n.Finite? ==> (c == None <==> n.value == 0.0)
    ensures n.NaN? ==> c == None
    ensures n.PosInfinity? ==> c == Some(Good)
    ensures n.NegInfinity? ==> c == Some(Bad)
  {
    if Truthy(n) then (if Positive(n) then Some(Good) else Some(Bad)) else None
  }

  lemma SignOfProduct(x: real, y: real)
    requires y > 0.0
    ensures x > 0.0 <==> x * y > 0.0
    ensures x < 0.0 <==> x * y < 0.0
  {
    if x > 0.0 { assert x * y > 0.0; }
    if x < 0.0 { assert (-x) * y > 0.0; }
  }

  /** A result row is good exactly when the file shrank, bad exactly when it grew,
      and unclassified when its size is unchanged, even for an empty original
      (0/0 is NaN, which is falsy; x/0 is an infinity). */
  lemma ClassFollowsSizes(v: OptimizeResult)
    ensures Classify(RowRatio(Result(v))) == Some(Good) <==> v.finalSize < v.originalSize
    ensures Classify(RowRatio(Result(v))) == Some(Bad) <==> v.finalSize > v.originalSize
    ensures Classify(RowRatio(Result(v))) == None <==> v.finalSize == v.originalSize
  {
    var f, o := v.finalSize as real, v.originalSize as real;
    if o > 0.0 {
      var q := f / o;
      assert (1.0 - q) * o == o - f;
      SignOfProduct(1.0 - q, o);
    }
  }

  /** A rendered row of the table. */
  datatype Row =
    | ResultRow(path: string, originalSize: nat, finalSize: nat, ratio: Num, verdict: Option<Class>)
    | ErrorRow(path: string, error: string)

  /** One row of the table: an error row for an error, otherwise a row whose
      verdict is good when the file shrank and bad when it grew. */
  function RowOf(r: Outcome): (row: Row)
    ensures row.ErrorRow? <==> r.Error?
    ensures r.Error? ==> row.path == r.path && row.error == r.error
    ensures r.Result? ==> row.path == r.value.path
    ensures r.Result? ==> (row.verdict == Some(Good) <==> r.value.finalSize < r.value.originalSize)
    ensures r.Result? ==> (row.verdict == Some(Bad) <==> r.value.finalSize > r.value.originalSize)
  {
    match r
    case Result(v) =>
      ClassFollowsSizes(v);
      ResultRow(v.path, v.originalSize, v.finalSize, RowRatio(r), Classify(RowRatio(r)))
    case Error(path, error) => ErrorRow(path, error)
  }

  /** `results.map(...)`: one row per entry, in the order of the list. */
  function Rows(rs: seq<Outcome>): (rows: seq<Row>)
    ensures |rows| == |rs|
    ensures forall i :: 0 <= i < |rs| ==> (rows[i].ErrorRow? <==> rs[i].Error?)
    ensures forall i :: 0 <= i < |rs| && rs[i].Error? ==>
      rows[i] == ErrorRow(rs[i].path, rs[i].error)
    ensures forall i :: 0 <= i < |rs| && rs[i].Result? ==>
      rows[i].path == rs[i].value.path &&
      rows[i].originalSize == rs[i].value.originalSize &&
      rows[i].finalSize == rs[i].value.finalSize &&
      rows[i].ratio == RowRatio(rs[i]) &&
      rows[i].verdict == Classify(rows[i].ratio)
  {
    if rs == [] then [] else [RowOf(rs[0])] + Rows(rs[1..])
  }

  /** A worked example: two results, one of which shrank, and an error. */
  lemma WorkedExample()
    ensures
      var rs := [Result(OptimizeResult("a.jpg", "a.jpg", 1000, 400)),
                 Result(OptimizeResult("b.png", "b.png", 2000, 2000)),
                 Error("c.png", "Unsupported")];
      && CalcReducedSize(rs) == Summary(3000, 2400, Finite(0.2))
      && RowRatio(rs[0]) == Finite(0.6) && Classify(RowRatio(rs[0])) == Some(Good)
      && RowRatio(rs[1]) == Finite(0.0) && Classify(RowRatio(rs[1])) == None
  {
    var rs := [Result(OptimizeResult("a.jpg", "a.jpg", 1000, 400)),
               Result(OptimizeResult("b.png", "b.png", 2000, 2000)),
               Error("c.png", "Unsupported")];
    assert Successes(rs) == [rs[0].value, rs[1].value] by {
      assert rs[1..][1..][1..] == [];
    }
  }
}
