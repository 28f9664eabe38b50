/**
 * The totals fold: the same `reduce` feeds the dashboard cards and the report's summary.
 * Each numeric field is coerced with `parseFloat(x) || 0`; `parseFloat` is a parameter.
 */
module Totals {
  import opened Wrappers
  import opened Entries
  import opened Seqs

  /** `parseFloat`: a number, or `None` where it yields `NaN`. */
  type Parser = string -> Option<real>

  /** `parseFloat(s) || 0`: `NaN` and `0` are falsy and become `0`. */
  function Coerce(parse: Parser, s: string): (v: real)
    ensures parse(s).None? ==> v == 0.0
    ensures parse(s).Some? ==> v == parse(s).value
  {
    var p := parse(s);
    if p.None? || p.value == 0.0 then 0.0 else p.value
  }

  /** The accumulator of the fold. */
  datatype Totals = Totals(
    standardHours: real,
    overtimeHours: real,
    mileage: real,
    gasExpense: real,
    otherExpense: real)

  /** The initial accumulator. */
  const Zero: Totals := Totals(0.0, 0.0, 0.0, 0.0, 0.0)

  /** The reducer: adds one entry's coerced fields to the accumulator. */
  function Step(parse: Parser, acc: Totals, e: Entry): Totals {
    Totals(
      acc.standardHours + Coerce(parse, e.form.standardHours),
      acc.overtimeHours + Coerce(parse, e.form.overtimeHours),
      acc.mileage + Coerce(parse, e.form.mileage),
      acc.gasExpense + Coerce(parse, e.form.gasExpense),
      acc.otherExpense + Coerce(parse, e.form.otherExpense))
  }

  /** `xs.reduce(Step, acc)`, a left fold. */
  function Fold(parse: Parser, acc: Totals, xs: seq<Entry>): Totals
    decreases |xs|
  {
    if xs == [] then acc else Fold(parse, Step(parse, acc, xs[0]), xs[1..])
  }

  /** The totals of an entry list, folded from the all-zero accumulator. */
  function TotalsOf(parse: Parser, xs: seq<Entry>): Totals {
    Fold(parse, Zero, xs)
  }

  /** `totalExpenses` of the report: gas plus other expense. */
  function TotalExpenses(t: Totals): real {
    t.gasExpense + t.otherExpense
  }

  /** The five summed fields, to speak of them one at a time. */
  datatype Field = StandardHours | OvertimeHours | Mileage | GasExpense | OtherExpense

  function FieldText(e: Entry, f: Field): string {
    match f
    case StandardHours => e.form.standardHours
    case OvertimeHours => e.form.overtimeHours
    case Mileage => e.form.mileage
    case GasExpense => e.form.gasExpense
    case OtherExpense => e.form.otherExpense
  }

  function FieldTotal(t: Totals, f: Field): real {
    match f
    case StandardHours => t.standardHours
    case OvertimeHours => t.overtimeHours
    case Mileage => t.mileage
    case GasExpense => t.gasExpense
    case OtherExpense => t.otherExpense
  }

  /** `e` with one numeric field replaced by the text `s`. */
  function WithField(e: Entry, f: Field, s: string): (r: Entry)
    ensures FieldText(r, f) == s
    ensures forall g :: g != f ==> FieldText(r, g) == FieldText(e, g)
  {
    match f
    case StandardHours => e.(form := e.form.(standardHours := s))
    case OvertimeHours => e.(form := e.form.(overtimeHours := s))
    case Mileage => e.(form := e.form.(mileage := s))
    case GasExpense => e.(form := e.form.(gasExpense := s))
    case OtherExpense => e.(form := e.form.(otherExpense := s))
  }

  /** What one entry adds to the totals, field by field. */
  function Contribution(parse: Parser, e: Entry): Totals {
    Totals(
      Coerce(parse, e.form.standardHours),
      Coerce(parse, e.form.overtimeHours),
      Coerce(parse, e.form.mileage),
      Coerce(parse, e.form.gasExpense),
      Coerce(parse, e.form.otherExpense))
  }

  function Add(a: Totals, b: Totals): Totals {
    Totals(
      a.standardHours + b.standardHours,
      a.overtimeHours + b.overtimeHours,
      a.mileage + b.mileage,
      a.gasExpense + b.gasExpense,
      a.otherExpense + b.otherExpense)
  }

  /** Reference definition of one total: the right-to-left sum of the coerced field. */
  function FieldSum(parse: Parser, xs: seq<Entry>, f: Field): real
    decreases |xs|
  {
    if xs == [] then 0.0 else Coerce(parse, FieldText(xs[0], f)) + FieldSum(parse, xs[1..], f)
  }

  /** The totals of no entries are zero in every field. */
  lemma EmptyTotals(parse: Parser)
    ensures TotalsOf(parse, []) == Zero
    ensures forall f :: FieldTotal(TotalsOf(parse, []), f) == 0.0
  {
  }

  /** Folding from any accumulator adds that accumulator to the totals. */
  lemma {:induction false} FoldFrom(parse: Parser, acc: Totals, xs: seq<Entry>)
    ensures Fold(parse, acc, xs) == Add(acc, TotalsOf(parse, xs))
    decreases |xs|
  {
    if xs != [] {
      FoldFrom(parse, Step(parse, acc, xs[0]), xs[1..]);
      FoldFrom(parse, Step(parse, Zero, xs[0]), xs[1..]);
    }
  }

  /** The totals of a concatenation are the field-wise sum of the totals of its parts. */
  lemma {:induction false} TotalsConcat(parse: Parser, xs: seq<Entry>, ys: seq<Entry>)
    ensures TotalsOf(parse, xs + ys) == Add(TotalsOf(parse, xs), TotalsOf(parse, ys))
    decreases |xs|
  {
    ConcatFront(xs, ys);
    if xs != [] {
      var x := xs[0];
      FoldFrom(parse, Step(parse, Zero, x), xs[1..] + ys);
      FoldFrom(parse, Step(parse, Zero, x), xs[1..]);
      TotalsConcat(parse, xs[1..], ys);
    }
  }

  /** The totals of a single entry are its contribution. */
  lemma TotalsSingle(parse: Parser, e: Entry)
    ensures TotalsOf(parse, [e]) == Contribution(parse, e)
  {
    assert Fold(parse, Zero, [e]) == Fold(parse, Step(parse, Zero, e), []);
  }

  /** Reading one field of a sum, or of a contribution. */
  lemma FieldOfAdd(parse: Parser, a: Totals, e: Entry, f: Field)
    ensures FieldTotal(Add(a, Contribution(parse, e)), f) == FieldTotal(a, f) + Coerce(parse, FieldText(e, f))
  {
  }

  /**
   * Additivity: appending an entry adds its coerced fields, and a field that `parseFloat`
   * cannot read adds exactly 0.
   */
  lemma TotalsAppend(parse: Parser, xs: seq<Entry>, e: Entry)
    ensures TotalsOf(parse, xs + [e]) == Add(TotalsOf(parse, xs), Contribution(parse, e))
    ensures forall f :: FieldTotal(TotalsOf(parse, xs + [e]), f) == FieldTotal(TotalsOf(parse, xs), f) + Coerce(parse, FieldText(e, f))
  {
    TotalsConcat(parse, xs, [e]);
    TotalsSingle(parse, e);
    forall f {
      FieldOfAdd(parse, TotalsOf(parse, xs), e, f);
    }
  }

  /** Each total is the sum of that field over the entries. */
  lemma {:induction false} TotalsAreFieldSums(parse: Parser, xs: seq<Entry>, f: Field)
    ensures FieldTotal(TotalsOf(parse, xs), f) == FieldSum(parse, xs, f)
    decreases |xs|
  {
    if xs != [] {
      SplitFirst(xs);
      TotalsConcat(parse, [xs[0]], xs[1..]);
      TotalsSingle(parse, xs[0]);
      TotalsAreFieldSums(parse, xs[1..], f);
    }
  }

  /** `totalExpenses` is the summed gas expense plus the summed other expense. */
  lemma {:induction false} TotalExpensesOf(parse: Parser, xs: seq<Entry>)
    ensures TotalExpenses(TotalsOf(parse, xs)) == FieldSum(parse, xs, GasExpense) + FieldSum(parse, xs, OtherExpense)
  {
    TotalsAreFieldSums(parse, xs, GasExpense);
    TotalsAreFieldSums(parse, xs, OtherExpense);
  }

  /**
   * Finds `x` in a permutation `ys` of `[x] + rest`: what stands around it is a permutation
   * of `rest`.
   */
  lemma PickOut(x: Entry, rest: seq<Entry>, ys: seq<Entry>) returns (pre: seq<Entry>, post: seq<Entry>)
    requires multiset([x] + rest) == multiset(ys)
    ensures ys == pre + ([x] + post)
    ensures multiset(rest) == multiset(pre + post)
  {
    assert x in multiset(ys);
    var i :| 0 <= i < |ys| && ys[i] == x;
    pre, post := ys[..i], ys[i + 1..];
    SplitAt(ys, i);
    RemoveOne(x, rest, pre, post);
  }

  /** Removing one occurrence of `x` from both sides keeps two multisets equal. */
  lemma RemoveOne(x: Entry, rest: seq<Entry>, pre: seq<Entry>, post: seq<Entry>)
    requires multiset([x] + rest) == multiset(pre + ([x] + post))
    ensures multiset(rest) == multiset(pre + post)
  {
    var a, b := multiset(rest), multiset(pre) + multiset(post);
    assert multiset([x] + rest) == multiset{x} + a;
    assert multiset(pre + ([x] + post)) == multiset{x} + b;
    assert a == (multiset{x} + a) - multiset{x};
    assert b == (multiset{x} + b) - multiset{x};
  }

  /** The totals of `[x] + rest`: `x`'s contribution plus the totals of `rest`. */
  lemma TotalsCons(parse: Parser, x: Entry, rest: seq<Entry>)
    ensures TotalsOf(parse, [x] + rest) == Add(Contribution(parse, x), TotalsOf(parse, rest))
  {
    TotalsConcat(parse, [x], rest);
    TotalsSingle(parse, x);
  }

  /** The totals do not depend on the order of the entries. */
  lemma {:induction false} TotalsPermutation(parse: Parser, xs: seq<Entry>, ys: seq<Entry>)
    requires multiset(xs) == multiset(ys)
    ensures TotalsOf(parse, xs) == TotalsOf(parse, ys)
    decreases |xs|
  {
    if xs == [] {
      assert |ys| == |multiset(ys)| == 0;
    } else {
      var x, rest := xs[0], xs[1..];
      SplitFirst(xs);
      var pre, post := PickOut(x, rest, ys);
      TotalsPermutation(parse, rest, pre + post);
      var c, a, b := Contribution(parse, x), TotalsOf(parse, pre), TotalsOf(parse, post);
      assert TotalsOf(parse, xs) == Add(c, Add(a, b)) by {
        TotalsCons(parse, x, rest);
        TotalsConcat(parse, pre, post);
      }
      assert TotalsOf(parse, ys) == Add(a, Add(c, b)) by {
        TotalsConcat(parse, pre, [x] + post);
        TotalsCons(parse, x, post);
      }
      AddSwap(c, a, b);
    }
  }

  lemma AddSwap(c: Totals, a: Totals, b: Totals)
    ensures Add(c, Add(a, b)) == Add(a, Add(c, b))
  {
  }

  /** Replacing one entry by another with the same coerced fields leaves the totals alone. */
  lemma SameContribution(parse: Parser, xs: seq<Entry>, i: int, e: Entry)
    requires 0 <= i < |xs|
    requires Contribution(parse, e) == Contribution(parse, xs[i])
    ensures TotalsOf(parse, xs[i := e]) == TotalsOf(parse, xs)
  {
    var pre, post := xs[..i], xs[i + 1..];
    SplitAt(xs, i);
    UpdateAt(xs, i, e);
    TotalsConcat(parse, pre, [xs[i]] + post);
    TotalsConcat(parse, pre, [e] + post);
    TotalsCons(parse, xs[i], post);
    TotalsCons(parse, e, post);
  }

  /**
   * A blank numeric field and a field holding `0` give the same totals, whenever
   * `parseFloat` reads the blank as `NaN` and `"0"` as zero (as it does).
   */
  lemma BlankIsZero(parse: Parser, xs: seq<Entry>, i: int, f: Field)
    requires 0 <= i < |xs|
    requires parse("").None?
    requires parse("0") == Some(0.0)
    ensures TotalsOf(parse, xs[i := WithField(xs[i], f, "")]) == TotalsOf(parse, xs[i := WithField(xs[i], f, "0")])
  {
    var zeroed := xs[i := WithField(xs[i], f, "0")];
    var blank := WithField(xs[i], f, "");
    assert xs[i := blank] == zeroed[i := blank];
    assert Contribution(parse, blank) == Contribution(parse, zeroed[i]) by {
      assert FieldText(blank, f) == "" && FieldText(zeroed[i], f) == "0";
      assert forall g :: FieldText(blank, g) == FieldText(zeroed[i], g) || g == f;
      assert forall g :: Coerce(parse, FieldText(blank, g)) == Coerce(parse, FieldText(zeroed[i], g));
      assert Coerce(parse, FieldText(blank, StandardHours)) == Coerce(parse, FieldText(zeroed[i], StandardHours));
      assert Coerce(parse, FieldText(blank, OvertimeHours)) == Coerce(parse, FieldText(zeroed[i], OvertimeHours));
      assert Coerce(parse, FieldText(blank, Mileage)) == Coerce(parse, FieldText(zeroed[i], Mileage));
      assert Coerce(parse, FieldText(blank, GasExpense)) == Coerce(parse, FieldText(zeroed[i], GasExpense));
      assert Coerce(parse, FieldText(blank, OtherExpense)) == Coerce(parse, FieldText(zeroed[i], OtherExpense));
    }
    SameContribution(parse, zeroed, i, blank);
  }
}
