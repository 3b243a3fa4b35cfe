/**
 * The accounting page: a ledger of income and expense transactions, the
 * "new transaction" form, the income, expense and profit figures and the
 * per-category chart data.
 */
module Accounting {
  import opened Lists
  import opened Records

  /** The fields of a transaction besides its id; `kind` is the `type` field. */
  datatype Txn = Txn(date: string, description: string, amount: real, kind: string, category: string)

  /** The form of the new-transaction dialog, its amount already read as a number. */
  datatype Form = Form(date: string, description: string, amount: real, kind: string, category: string)

  type Ledger = seq<Keyed<Txn>>

  /** The sum of the amounts of some transactions. */
  function AmountSum(ts: Ledger): real
    decreases |ts|
  {
    if ts == [] then 0.0 else ts[0].info.amount + AmountSum(ts[1..])
  }

  /** The transactions of one type, in order. */
  function OfKind(ts: Ledger, kind: string): (r: Ledger)
    ensures forall t :: t in r <==> t in ts && t.info.kind == kind
    ensures forall t :: multiset(r)[t] == if t.info.kind == kind then multiset(ts)[t] else 0
  {
    var keep := (t: Keyed<Txn>) => t.info.kind == kind;
    FilterCount(ts, keep);
    Filter(ts, keep)
  }

  /** `totalIncome`: the summed amounts of the "income" transactions. */
  function TotalIncome(ts: Ledger): real
  {
    AmountSum(OfKind(ts, "income"))
  }

  /** `totalExpenses`: the summed amounts of the "expense" transactions. */
  function TotalExpenses(ts: Ledger): real
  {
    AmountSum(OfKind(ts, "expense"))
  }

  /** `netProfit`. */
  function NetProfit(ts: Ledger): real
  {
    TotalIncome(ts) - TotalExpenses(ts)
  }

  /** A transaction's contribution to the chart: its amount for income, minus it for anything else. */
  function Signed(t: Keyed<Txn>): real
  {
    if t.info.kind == "income" then t.info.amount else -t.info.amount
  }

  /** The summed contributions of some transactions. */
  function SignedSum(ts: Ledger): real
    decreases |ts|
  {
    if ts == [] then 0.0 else Signed(ts[0]) + SignedSum(ts[1..])
  }

  /** Income and expense totals after one more transaction in front. */
  lemma TotalsCons(x: Keyed<Txn>, rest: Ledger)
    ensures TotalIncome([x] + rest) == (if x.info.kind == "income" then x.info.amount else 0.0) + TotalIncome(rest)
    ensures TotalExpenses([x] + rest) == (if x.info.kind == "expense" then x.info.amount else 0.0) + TotalExpenses(rest)
  {
    assert ([x] + rest)[1..] == rest;
    var inc := OfKind(rest, "income");
    var exp := OfKind(rest, "expense");
    if x.info.kind == "income" {
      assert ([x] + inc)[1..] == inc;
    }
    if x.info.kind == "expense" {
      assert ([x] + exp)[1..] == exp;
    }
  }

  /** When every transaction is income or expense, the signed sum is the net profit. */
  lemma {:induction false} SignedSumIsNetProfit(ts: Ledger)
    requires forall i :: 0 <= i < |ts| ==> ts[i].info.kind == "income" || ts[i].info.kind == "expense"
    ensures SignedSum(ts) == NetProfit(ts)
    decreases |ts|
  {
    if ts != [] {
      var x, rest := ts[0], ts[1..];
      assert ts == [x] + rest;
      SignedSumIsNetProfit(rest);
      TotalsCons(x, rest);
    }
  }

  /** `transactions.map(t => t.category)`. */
  function Categories(ts: Ledger): (cats: seq<string>)
    ensures |cats| == |ts|
    ensures forall i :: 0 <= i < |ts| ==> cats[i] == ts[i].info.category
  {
    seq(|ts|, i requires 0 <= i < |ts| => ts[i].info.category)
  }

  /** The categories of the ledger, each once, in first-appearance order. */
  function CategoryNames(ts: Ledger): (r: seq<string>)
    ensures NoDuplicates(r)
    ensures forall c :: c in r <==> exists i :: 0 <= i < |ts| && ts[i].info.category == c
    ensures forall c :: c in r <==> c in Categories(ts)
    ensures forall i, j :: 0 <= i < j < |r| ==>
      r[i] in Categories(ts) && r[j] in Categories(ts) &&
      FirstIndex(Categories(ts), r[i]) < FirstIndex(Categories(ts), r[j])
  {
    var cats := Categories(ts);
    DistinctFirstAppearanceOrder(cats);
    assert forall c :: c in cats <==> exists i :: 0 <= i < |ts| && ts[i].info.category == c by {
      forall c | c in cats ensures exists i :: 0 <= i < |ts| && ts[i].info.category == c {
        var i :| 0 <= i < |cats| && cats[i] == c;
        assert ts[i].info.category == c;
      }
    }
    Distinct(cats)
  }

  /** The chart amount of one category: its signed contributions summed. */
  function CategoryAmount(ts: Ledger, category: string): real
  {
    SignedSum(Filter(ts, (t: Keyed<Txn>) => t.info.category == category))
  }

  /** One bar of the chart. */
  datatype CategoryPoint = CategoryPoint(category: string, amount: real)

  /** `categoryData`: one point per category, in first-appearance order. */
  function CategoryData(ts: Ledger): (r: seq<CategoryPoint>)
    ensures |r| == |CategoryNames(ts)|
    ensures forall i :: 0 <= i < |r| ==>
      r[i].category == CategoryNames(ts)[i] && r[i].amount == CategoryAmount(ts, r[i].category)
    ensures forall i, j :: 0 <= i < j < |r| ==>
      r[i].category in Categories(ts) && r[j].category in Categories(ts) &&
      FirstIndex(Categories(ts), r[i].category) < FirstIndex(Categories(ts), r[j].category)
  {
    var names := CategoryNames(ts);
    seq(|names|, i requires 0 <= i < |names| => CategoryPoint(names[i], CategoryAmount(ts, names[i])))
  }

  /** The summed amounts of the chart points. */
  function PointSum(ps: seq<CategoryPoint>): real
    decreases |ps|
  {
    if ps == [] then 0.0 else ps[0].amount + PointSum(ps[1..])
  }

  /** The category amounts summed over some labels. */
  function AmountOver(ts: Ledger, labels: seq<string>): real
    decreases |labels|
  {
    if labels == [] then 0.0 else CategoryAmount(ts, labels[0]) + AmountOver(ts, labels[1..])
  }

  lemma {:induction false} PointSumIsAmountOver(ts: Ledger, ps: seq<CategoryPoint>, labels: seq<string>)
    requires |ps| == |labels|
    requires forall i :: 0 <= i < |ps| ==> ps[i].amount == CategoryAmount(ts, labels[i])
    ensures PointSum(ps) == AmountOver(ts, labels)
    decreases |labels|
  {
    if labels != [] {
      PointSumIsAmountOver(ts, ps[1..], labels[1..]);
    }
  }

  /** One more transaction in front adds its contribution to its own category only. */
  lemma CategoryAmountCons(x: Keyed<Txn>, rest: Ledger, c: string)
    ensures CategoryAmount([x] + rest, c) == (if x.info.category == c then Signed(x) else 0.0) + CategoryAmount(rest, c)
  {
    assert ([x] + rest)[1..] == rest;
    var f := Filter(rest, (t: Keyed<Txn>) => t.info.category == c);
    assert ([x] + f)[1..] == f;
  }

  lemma {:induction false} AmountOverCons(x: Keyed<Txn>, rest: Ledger, labels: seq<string>)
    requires NoDuplicates(labels)
    ensures AmountOver([x] + rest, labels) == (if x.info.category in labels then Signed(x) else 0.0) + AmountOver(rest, labels)
    decreases |labels|
  {
    if labels != [] {
      assert NoDuplicates(labels[1..]) by {
        forall i, j | 0 <= i < j < |labels[1..]| ensures labels[1..][i] != labels[1..][j] {
          assert labels[1..][i] == labels[i + 1] && labels[1..][j] == labels[j + 1];
        }
      }
      AmountOverCons(x, rest, labels[1..]);
      CategoryAmountCons(x, rest, labels[0]);
      if labels[0] == x.info.category {
        assert x.info.category !in labels[1..] by {
          forall j | 0 <= j < |labels[1..]| ensures labels[1..][j] != labels[0] {
            assert labels[1..][j] == labels[j + 1];
          }
        }
      }
    }
  }

  lemma {:induction false} AmountOverAll(ts: Ledger, labels: seq<string>)
    requires NoDuplicates(labels)
    requires forall i :: 0 <= i < |ts| ==> ts[i].info.category in labels
    ensures AmountOver(ts, labels) == SignedSum(ts)
    decreases |ts|
  {
    if ts == [] {
      AmountOverEmpty(labels);
    } else {
      var x, rest := ts[0], ts[1..];
      assert ts == [x] + rest;
      AmountOverAll(rest, labels);
      AmountOverCons(x, rest, labels);
    }
  }

  lemma {:induction false} AmountOverEmpty(labels: seq<string>)
    ensures AmountOver([], labels) == 0.0
    decreases |labels|
  {
    if labels != [] {
      AmountOverEmpty(labels[1..]);
    }
  }

  /**
   * The chart amounts add up to the signed sum of the whole ledger, and so,
   * when every transaction is income or expense, to the net profit.
   */
  lemma CategoryDataSumsToNetProfit(ts: Ledger)
    ensures PointSum(CategoryData(ts)) == SignedSum(ts)
    ensures (forall i :: 0 <= i < |ts| ==> ts[i].info.kind == "income" || ts[i].info.kind == "expense") ==>
      PointSum(CategoryData(ts)) == NetProfit(ts)
  {
    var names := CategoryNames(ts);
    PointSumIsAmountOver(ts, CategoryData(ts), names);
    forall i | 0 <= i < |ts| ensures ts[i].info.category in names {
    }
    AmountOverAll(ts, names);
    if forall i :: 0 <= i < |ts| ==> ts[i].info.kind == "income" || ts[i].info.kind == "expense" {
      SignedSumIsNetProfit(ts);
    }
  }

  /** The form passes validation: a description and a positive amount. */
  predicate ValidForm(f: Form)
  {
    f.description != "" && f.amount > 0.0
  }

  /** The transaction the form describes. */
  function TxnOf(f: Form): Txn
  {
    Txn(f.date, f.description, f.amount, f.kind, f.category)
  }

  /** The page's transaction list. */
  class AccountingPage {
    var transactions: Ledger

    constructor (initial: Ledger)
      ensures transactions == initial
    {
      transactions := initial;
    }

    /**
     * `handleSubmit`: an invalid form leaves the ledger as it is; a valid one
     * puts a new transaction with a fresh id in front of the old list.
     */
    method HandleSubmit(f: Form) returns (accepted: bool)
      modifies this
      ensures accepted <==> ValidForm(f)
      ensures !accepted ==> transactions == old(transactions)
      ensures accepted ==> transactions == PrependFresh(old(transactions), TxnOf(f))
      ensures UniqueIds(old(transactions)) ==> UniqueIds(transactions)
    {
      if f.description == "" || f.amount <= 0.0 {
        return false;
      }
      transactions := PrependFresh(transactions, TxnOf(f));
      accepted := true;
    }
  }

  /**
   * After a valid submit the totals move by the new amount: income for an
   * "income" transaction, expenses for an "expense" one.
   */
  lemma SubmitMovesTotals(ts: Ledger, f: Form)
    ensures TotalIncome(PrependFresh(ts, TxnOf(f))) == TotalIncome(ts) + (if f.kind == "income" then f.amount else 0.0)
    ensures TotalExpenses(PrependFresh(ts, TxnOf(f))) == TotalExpenses(ts) + (if f.kind == "expense" then f.amount else 0.0)
  {
    var r := PrependFresh(ts, TxnOf(f));
    assert r == [r[0]] + ts;
    TotalsCons(r[0], ts);
  }
}
