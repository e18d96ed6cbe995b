/** The dashboard's figures over the ledger: the income, expense, capital and
    profit cards, the five most recent entries, and the per-day chart series. */
module Dashboard {
  import opened Records

  /** The selections the cards sum over. */
  datatype Measure =
    | IncomeM         // income that is not capital
    | ExpenseM        // every expense, capital withdrawals included
    | CapitalM        // every capital entry, in either direction
    | CapitalInjectM  // income of category capital: counted by the capital card alone

  predicate Counts(m: Measure, t: Transaction) {
    match m
    case IncomeM => t.kind == Income && t.category != Capital
    case ExpenseM => t.kind == Expense
    case CapitalM => t.category == Capital
    case CapitalInjectM => t.kind == Income && t.category == Capital
  }

  /** The entries a card selects, in ledger order. */
  function Select(txs: seq<Transaction>, m: Measure): (r: seq<Transaction>)
    ensures |r| <= |txs|
  {
    if txs == [] then []
    else Select(txs[..|txs| - 1], m) + (if Counts(m, txs[|txs| - 1]) then [txs[|txs| - 1]] else [])
  }

  /** A card selects exactly the entries its measure counts. */
  lemma {:induction false} SelectExact(txs: seq<Transaction>, m: Measure)
    ensures forall t :: t in Select(txs, m) <==> t in txs && Counts(m, t)
  {
    if txs != [] {
      var p := txs[..|txs| - 1];
      SelectExact(p, m);
      assert txs == p + [txs[|txs| - 1]];
    }
  }

  /** The sum of the amounts, left to right. */
  function AmountSum(txs: seq<Transaction>): int {
    if txs == [] then 0 else AmountSum(txs[..|txs| - 1]) + txs[|txs| - 1].amount
  }

  /** A card's figure: the sum of the amounts it selects. */
  function Figure(txs: seq<Transaction>, m: Measure): int {
    AmountSum(Select(txs, m))
  }

  datatype Stats = Stats(income: int, expense: int, capital: int, profit: int)

  lemma {:induction false} AmountSumAppend(a: seq<Transaction>, b: seq<Transaction>)
    ensures AmountSum(a + b) == AmountSum(a) + AmountSum(b)
    decreases |b|
  {
    if b == [] {
      assert a + b == a;
    } else {
      AmountSumAppend(a, b[..|b| - 1]);
      assert (a + b)[..|a + b| - 1] == a + b[..|b| - 1];
    }
  }

  /** A one-entry extension of the ledger adds that entry's amount to each
      card that selects it. */
  lemma FigureSnoc(txs: seq<Transaction>, t: Transaction, m: Measure)
    ensures Figure(txs + [t], m) == Figure(txs, m) + (if Counts(m, t) then t.amount else 0)
  {
    assert (txs + [t])[..|txs|] == txs;
    AmountSumAppend(Select(txs, m), if Counts(m, t) then [t] else []);
    assert AmountSum([t]) == t.amount by { assert [t][..0] == []; }
  }

  /** Every entry is counted exactly once by the income card, the expense
      card, or as injected capital: the three add up to the ledger's sum. */
  lemma {:induction false} Partition(txs: seq<Transaction>)
    ensures Figure(txs, IncomeM) + Figure(txs, ExpenseM) + Figure(txs, CapitalInjectM) == AmountSum(txs)
  {
    if txs != [] {
      var p, t := txs[..|txs| - 1], txs[|txs| - 1];
      assert txs == p + [t];
      Partition(p);
      FigureSnoc(p, t, IncomeM);
      FigureSnoc(p, t, ExpenseM);
      FigureSnoc(p, t, CapitalInjectM);
    }
  }

  /** The capital card is the injected capital plus the capital withdrawals,
      which the expense card counts too. */
  lemma {:induction false} CapitalSplit(txs: seq<Transaction>)
    ensures Figure(txs, CapitalM) == Figure(txs, CapitalInjectM) + AmountSum(Select(Select(txs, ExpenseM), CapitalM))
  {
    if txs != [] {
      var p, t := txs[..|txs| - 1], txs[|txs| - 1];
      assert txs == p + [t];
      CapitalSplit(p);
      FigureSnoc(p, t, CapitalM);
      FigureSnoc(p, t, CapitalInjectM);
      FigureSnoc(p, t, ExpenseM);
      var e := Select(p, ExpenseM);
      if Counts(ExpenseM, t) {
        assert Select(txs, ExpenseM) == e + [t];
        FigureSnoc(e, t, CapitalM);
      } else {
        assert Select(txs, ExpenseM) == e;
      }
    }
  }

  /** The four cards. Profit is income less expense; the income and expense
      cards together with the injected capital (which only the capital card
      counts) account for every entry of the ledger exactly once; and the
      capital card is the injected capital plus the capital withdrawals the
      expense card also counts. */
  function ComputeStats(txs: seq<Transaction>): (s: Stats)
    ensures s.profit == s.income - s.expense
    ensures s.income + s.expense + Figure(txs, CapitalInjectM) == AmountSum(txs)
    ensures s.capital == Figure(txs, CapitalInjectM) + AmountSum(Select(Select(txs, ExpenseM), CapitalM))
  {
    Partition(txs);
    CapitalSplit(txs);
    var income := Figure(txs, IncomeM);
    var expense := Figure(txs, ExpenseM);
    Stats(income, expense, Figure(txs, CapitalM), income - expense)
  }

  function Reverse<T>(s: seq<T>): (r: seq<T>)
    ensures |r| == |s|
  {
    if s == [] then [] else [s[|s| - 1]] + Reverse(s[..|s| - 1])
  }

  lemma {:induction false} ReverseAt<T>(s: seq<T>, i: nat)
    requires i < |s|
    ensures Reverse(s)[i] == s[|s| - 1 - i]
  {
    if i > 0 {
      ReverseAt(s[..|s| - 1], i - 1);
    }
  }

  /** The recent list: the ledger newest first, cut to five entries. */
  function Recent(txs: seq<Transaction>): seq<Transaction> {
    var r := Reverse(txs);
    if |r| <= 5 then r else r[..5]
  }

  /** The recent list holds min(5, n) entries, the newest first. */
  lemma RecentNewestFirst(txs: seq<Transaction>)
    ensures |Recent(txs)| == if |txs| < 5 then |txs| else 5
    ensures forall i :: 0 <= i < |Recent(txs)| ==> Recent(txs)[i] == txs[|txs| - 1 - i]
  {
    forall i | 0 <= i < |Recent(txs)| ensures Recent(txs)[i] == txs[|txs| - 1 - i] {
      ReverseAt(txs, i);
    }
  }

  /** The chart's days in the order they first occur in the ledger. */
  function DayKeys(txs: seq<Transaction>, dayOf: string -> string): seq<string> {
    if txs == [] then []
    else
      var keys := DayKeys(txs[..|txs| - 1], dayOf);
      var d := dayOf(txs[|txs| - 1].date);
      if d in keys then keys else keys + [d]
  }

  ghost predicate Distinct(keys: seq<string>) {
    forall i, j :: 0 <= i < j < |keys| ==> keys[i] != keys[j]
  }

  /** Some entry of the ledger falls on day `d`. */
  ghost predicate HasDay(txs: seq<Transaction>, dayOf: string -> string, d: string) {
    exists j :: 0 <= j < |txs| && dayOf(txs[j].date) == d
  }

  /** The days listed are exactly the days of the entries, each once. */
  lemma {:induction false} DayKeysExact(txs: seq<Transaction>, dayOf: string -> string)
    ensures Distinct(DayKeys(txs, dayOf))
    ensures forall d :: d in DayKeys(txs, dayOf) <==> HasDay(txs, dayOf, d)
  {
    if txs != [] {
      var p := txs[..|txs| - 1];
      DayKeysExact(p, dayOf);
      forall d ensures HasDay(txs, dayOf, d) <==> (d == dayOf(txs[|txs| - 1].date) || HasDay(p, dayOf, d)) {
        if HasDay(txs, dayOf, d) {
          var j :| 0 <= j < |txs| && dayOf(txs[j].date) == d;
          if j < |p| {
            assert dayOf(p[j].date) == d;
          }
        }
        if HasDay(p, dayOf, d) {
          var j :| 0 <= j < |p| && dayOf(p[j].date) == d;
          assert dayOf(txs[j].date) == d;
        }
      }
    }
  }

  /** The day's figure for a chart series: the sum over the entries of that
      day that the measure selects. */
  function DaySum(txs: seq<Transaction>, dayOf: string -> string, d: string, m: Measure): int {
    if txs == [] then 0
    else
      var t := txs[|txs| - 1];
      DaySum(txs[..|txs| - 1], dayOf, d, m) + (if dayOf(t.date) == d && Counts(m, t) then t.amount else 0)
  }

  /** A day's figure for each day in `keys`, in order. */
  function Series(keys: seq<string>, txs: seq<Transaction>, dayOf: string -> string, m: Measure): (r: seq<int>)
    ensures |r| == |keys|
  {
    if keys == [] then [] else Series(keys[..|keys| - 1], txs, dayOf, m) + [DaySum(txs, dayOf, keys[|keys| - 1], m)]
  }

  lemma {:induction false} SeriesAt(keys: seq<string>, txs: seq<Transaction>, dayOf: string -> string, m: Measure, i: nat)
    requires i < |keys|
    ensures Series(keys, txs, dayOf, m)[i] == DaySum(txs, dayOf, keys[i], m)
  {
    if i < |keys| - 1 {
      SeriesAt(keys[..|keys| - 1], txs, dayOf, m, i);
    }
  }

  function IntSum(s: seq<int>): int {
    if s == [] then 0 else IntSum(s[..|s| - 1]) + s[|s| - 1]
  }

  /** Adding entry `t` of day `dayOf(t.date)` raises that day's figure, and
      only that day's, by what the measure takes from `t`. */
  lemma {:induction false} SeriesSnoc(keys: seq<string>, txs: seq<Transaction>, t: Transaction, dayOf: string -> string, m: Measure)
    requires Distinct(keys)
    ensures IntSum(Series(keys, txs + [t], dayOf, m)) ==
      IntSum(Series(keys, txs, dayOf, m)) + (if dayOf(t.date) in keys && Counts(m, t) then t.amount else 0)
  {
    if keys != [] {
      var k := keys[..|keys| - 1];
      assert Distinct(k);
      SeriesSnoc(k, txs, t, dayOf, m);
      assert (txs + [t])[..|txs|] == txs;
      var last := keys[|keys| - 1];
      assert dayOf(t.date) in keys <==> dayOf(t.date) in k || dayOf(t.date) == last;
      assert last !in k;
    }
  }

  /** Summed over all the chart's days, a series gives the card's figure:
      grouping by day loses and duplicates nothing. */
  lemma {:induction false} SeriesSumsToFigure(txs: seq<Transaction>, dayOf: string -> string, m: Measure)
    ensures IntSum(Series(DayKeys(txs, dayOf), txs, dayOf, m)) == Figure(txs, m)
  {
    if txs != [] {
      var p, t := txs[..|txs| - 1], txs[|txs| - 1];
      assert txs == p + [t];
      SeriesSumsToFigure(p, dayOf, m);
      FigureSnoc(p, t, m);
      SeriesStep(p, t, dayOf, m);
    }
  }

  /** One more entry adds what the measure takes from it to the sum of the series. */
  lemma SeriesStep(p: seq<Transaction>, t: Transaction, dayOf: string -> string, m: Measure)
    ensures IntSum(Series(DayKeys(p + [t], dayOf), p + [t], dayOf, m))
        == IntSum(Series(DayKeys(p, dayOf), p, dayOf, m)) + (if Counts(m, t) then t.amount else 0)
  {
    var txs := p + [t];
    var keys := DayKeys(p, dayOf);
    var d := dayOf(t.date);
    DayKeysSnoc(p, t, dayOf);
    assert Distinct(keys) && (d !in keys ==> !HasDay(p, dayOf, d)) by {
      DayKeysExact(p, dayOf);
    }
    SeriesSnoc(keys, p, t, dayOf, m);
    if d !in keys {
      SeriesNewKey(keys, d, txs, dayOf, m);
      IntSumSnoc(Series(keys, txs, dayOf, m), DaySum(txs, dayOf, d, m));
      DaySumSnoc(p, t, dayOf, d, m);
      DaySumNewDay(p, dayOf, d, m);
    }
  }

  lemma DayKeysSnoc(p: seq<Transaction>, t: Transaction, dayOf: string -> string)
    ensures var keys, d := DayKeys(p, dayOf), dayOf(t.date);
      DayKeys(p + [t], dayOf) == if d in keys then keys else keys + [d]
  {
    assert (p + [t])[..|p|] == p;
  }

  lemma SeriesNewKey(keys: seq<string>, d: string, txs: seq<Transaction>, dayOf: string -> string, m: Measure)
    ensures Series(keys + [d], txs, dayOf, m) == Series(keys, txs, dayOf, m) + [DaySum(txs, dayOf, d, m)]
  {
    assert (keys + [d])[..|keys|] == keys;
  }

  lemma DaySumSnoc(p: seq<Transaction>, t: Transaction, dayOf: string -> string, d: string, m: Measure)
    ensures DaySum(p + [t], dayOf, d, m) == DaySum(p, dayOf, d, m) + (if dayOf(t.date) == d && Counts(m, t) then t.amount else 0)
  {
    assert (p + [t])[..|p|] == p;
  }

  lemma IntSumSnoc(a: seq<int>, x: int)
    ensures IntSum(a + [x]) == IntSum(a) + x
  {
    assert (a + [x])[..|a|] == a;
  }

  /** A day no earlier entry has contributes nothing before its first entry. */
  lemma {:induction false} DaySumNewDay(txs: seq<Transaction>, dayOf: string -> string, d: string, m: Measure)
    requires forall j :: 0 <= j < |txs| ==> dayOf(txs[j].date) != d
    ensures DaySum(txs, dayOf, d, m) == 0
  {
    if txs != [] {
      var p := txs[..|txs| - 1];
      assert forall j :: 0 <= j < |p| ==> p[j] == txs[j];
      DaySumNewDay(p, dayOf, d, m);
    }
  }

  /** A day's two figures while the ledger is being folded. */
  datatype DayTotals = DayTotals(income: int, expense: int)

  /** `groupedData` and the three chart arrays: the ledger is folded into a
      table of day figures that grows a new zeroed entry on each new day,
      then read out in the order the days were first seen. `dayOf` gives the
      day label of an entry's date. */
  method GroupByDay(txs: seq<Transaction>, dayOf: string -> string)
    returns (dates: seq<string>, income: seq<int>, expense: seq<int>)
    ensures dates == DayKeys(txs, dayOf)
    ensures income == Series(dates, txs, dayOf, IncomeM)
    ensures expense == Series(dates, txs, dayOf, ExpenseM)
  {
    var acc: map<string, DayTotals> := map[];
    // The table's keys in the order they were added.
    var keys: seq<string> := [];
    for i := 0 to |txs|
      invariant keys == DayKeys(txs[..i], dayOf)
      invariant SameKeys(acc, keys)
      invariant Tallied(acc, txs[..i], dayOf)
    {
      acc, keys := Fold(acc, keys, txs, i, dayOf);
    }
    assert txs[..|txs|] == txs;
    dates := keys;
    income := ReadSeries(dates, acc, txs, dayOf, IncomeM);
    expense := ReadSeries(dates, acc, txs, dayOf, ExpenseM);
  }

  /** One turn of the reduce: the table and its key list over `txs[..i]`
      become those over `txs[..i + 1]`. */
  method Fold(acc: map<string, DayTotals>, keys: seq<string>, txs: seq<Transaction>, i: nat, dayOf: string -> string)
    returns (acc': map<string, DayTotals>, keys': seq<string>)
    requires i < |txs|
    requires keys == DayKeys(txs[..i], dayOf) && SameKeys(acc, keys) && Tallied(acc, txs[..i], dayOf)
    ensures keys' == DayKeys(txs[..i + 1], dayOf) && SameKeys(acc', keys') && Tallied(acc', txs[..i + 1], dayOf)
  {
    acc', keys' := Accumulate(acc, keys, txs[i], dayOf);
    FoldStep(txs, i, dayOf);
    SameKeysStep(acc, keys, acc', keys', dayOf(txs[i].date));
    TallyStep(acc, keys, acc', txs, i, dayOf);
  }

  /** The reducer's step for one entry: a zeroed row for a new day, then the
      amount added to the day's income (income that is not capital) or
      expense. `keys` lists the table's keys in insertion order. */
  method Accumulate(acc: map<string, DayTotals>, keys: seq<string>, t: Transaction, dayOf: string -> string)
    returns (acc': map<string, DayTotals>, keys': seq<string>)
    ensures var d := dayOf(t.date);
      && keys' == (if d in acc then keys else keys + [d])
      && acc'.Keys == acc.Keys + {d}
      && (forall e :: e in acc && e != d ==> acc'[e] == acc[e])
      && var base := if d in acc then acc[d] else DayTotals(0, 0);
         acc'[d] == DayTotals(base.income + (if Counts(IncomeM, t) then t.amount else 0),
                              base.expense + (if Counts(ExpenseM, t) then t.amount else 0))
  {
    var d := dayOf(t.date);
    acc', keys' := acc, keys;
    if d !in acc' {
      acc' := acc'[d := DayTotals(0, 0)];
      keys' := keys' + [d];
    }
    if t.kind == Income && t.category != Capital {
      acc' := acc'[d := acc'[d].(income := acc'[d].income + t.amount)];
    } else if t.kind == Expense {
      acc' := acc'[d := acc'[d].(expense := acc'[d].expense + t.amount)];
    }
  }

  /** The table has a row for exactly the listed days. */
  ghost predicate SameKeys(acc: map<string, DayTotals>, keys: seq<string>) {
    forall e :: e in acc <==> e in keys
  }

  /** Every row of the table holds its day's two figures over `txs`. */
  ghost predicate Tallied(acc: map<string, DayTotals>, txs: seq<Transaction>, dayOf: string -> string) {
    forall e :: e in acc ==>
      acc[e] == DayTotals(DaySum(txs, dayOf, e, IncomeM), DaySum(txs, dayOf, e, ExpenseM))
  }

  lemma SameKeysStep(acc: map<string, DayTotals>, keys: seq<string>, acc': map<string, DayTotals>, keys': seq<string>, d: string)
    requires SameKeys(acc, keys)
    requires acc'.Keys == acc.Keys + {d} && keys' == (if d in acc then keys else keys + [d])
    ensures SameKeys(acc', keys')
  {
  }

  /** The reducer's step keeps every row equal to its day's figures. */
  lemma TallyStep(acc: map<string, DayTotals>, keys: seq<string>, acc': map<string, DayTotals>, txs: seq<Transaction>, i: nat, dayOf: string -> string)
    requires i < |txs|
    requires keys == DayKeys(txs[..i], dayOf) && SameKeys(acc, keys)
    requires Tallied(acc, txs[..i], dayOf)
    requires var d, t := dayOf(txs[i].date), txs[i];
      && acc'.Keys == acc.Keys + {d}
      && (forall e :: e in acc && e != d ==> acc'[e] == acc[e])
      && var base := if d in acc then acc[d] else DayTotals(0, 0);
         acc'[d] == DayTotals(base.income + (if Counts(IncomeM, t) then t.amount else 0),
                              base.expense + (if Counts(ExpenseM, t) then t.amount else 0))
    ensures Tallied(acc', txs[..i + 1], dayOf)
  {
    var d := dayOf(txs[i].date);
    if d !in acc {
      DayKeysExact(txs[..i], dayOf);
      var p := txs[..i];
      DaySumNewDay(p, dayOf, d, IncomeM);
      DaySumNewDay(p, dayOf, d, ExpenseM);
    }
    forall e | e in acc'
      ensures acc'[e] == DayTotals(DaySum(txs[..i + 1], dayOf, e, IncomeM), DaySum(txs[..i + 1], dayOf, e, ExpenseM))
    {
      DaySumStep(txs, i, dayOf, e, IncomeM);
      DaySumStep(txs, i, dayOf, e, ExpenseM);
    }
  }

  /** One more entry of the ledger: its day joins the keys if new, and only
      its own day's figures change. */
  lemma FoldStep(txs: seq<Transaction>, i: nat, dayOf: string -> string)
    requires i < |txs|
    ensures var p, d := txs[..i], dayOf(txs[i].date);
      DayKeys(txs[..i + 1], dayOf) == if d in DayKeys(p, dayOf) then DayKeys(p, dayOf) else DayKeys(p, dayOf) + [d]
  {
    assert txs[..i + 1][..i] == txs[..i];
  }

  /** One more entry of the ledger changes a day's figure by its amount
      when it falls on that day and the measure counts it. */
  lemma DaySumStep(txs: seq<Transaction>, i: nat, dayOf: string -> string, e: string, m: Measure)
    requires i < |txs|
    ensures DaySum(txs[..i + 1], dayOf, e, m) ==
      DaySum(txs[..i], dayOf, e, m) + (if dayOf(txs[i].date) == e && Counts(m, txs[i]) then txs[i].amount else 0)
  {
    assert txs[..i + 1][..i] == txs[..i];
  }

  /** `dates.map(d => groupedData[d].income)` (or `.expense`). */
  function ReadSeries(dates: seq<string>, acc: map<string, DayTotals>, txs: seq<Transaction>, dayOf: string -> string, m: Measure): (r: seq<int>)
    requires m == IncomeM || m == ExpenseM
    requires forall d :: d in dates ==> d in acc
    requires Tallied(acc, txs, dayOf)
    ensures r == Series(dates, txs, dayOf, m)
  {
    if dates == [] then []
    else
      var d := dates[|dates| - 1];
      ReadSeries(dates[..|dates| - 1], acc, txs, dayOf, m) + [if m == IncomeM then acc[d].income else acc[d].expense]
  }
}
