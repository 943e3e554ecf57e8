/**
 * The date filter of the Transactions view: which transactions stay on screen
 * for the chosen filter type ("all", "daily", "monthly", "yearly", "range"),
 * the chosen date and the chosen range. Dates are ISO strings compared as
 * strings, never parsed.
 */
module TransactionFilter {

  datatype Transaction = Transaction(
    id: string, title: string, amount: real, txType: string, category: string, date: string)

  /** The view's filter state: the filter type, the date picker's value and the
      two ends of the range ("" while unset). */
  datatype DateFilter = DateFilter(filterType: string, dateValue: string, rangeStart: string, rangeEnd: string)

  /** `s.slice(0, n)`: the first `n` characters, or all of `s` when it is shorter. */
  function Prefix(s: string, n: nat): (r: string)
    ensures |r| == if |s| < n then |s| else n
    ensures r <= s
  {
    if |s| <= n then s else s[..n]
  }

  /** JavaScript's `a <= b` on strings: character by character, a proper prefix
      before the longer string. */
  predicate LexLe(a: string, b: string)
  {
    if a == [] then true
    else if b == [] then false
    else if a[0] != b[0] then a[0] < b[0]
    else LexLe(a[1..], b[1..])
  }

  /** The callback given to `transactions.filter`: does a transaction dated
      `date` stay on screen? */
  predicate Keeps(f: DateFilter, date: string)
  {
    if f.filterType == "all" then true
    else if f.filterType == "daily" then date == f.dateValue
    else if f.filterType == "monthly" then Prefix(date, 7) == Prefix(f.dateValue, 7)
    else if f.filterType == "yearly" then Prefix(date, 4) == Prefix(f.dateValue, 4)
    else if f.filterType == "range" then
      f.rangeStart == "" || f.rangeEnd == "" || (LexLe(f.rangeStart, date) && LexLe(date, f.rangeEnd))
    else true
  }

  /** `a` is `b` with some elements left out, the rest in their order. */
  predicate IsSubsequence<T(==)>(a: seq<T>, b: seq<T>)
    decreases |b|
  {
    if a == [] then true
    else if b == [] then false
    else (a[0] == b[0] && IsSubsequence(a[1..], b[1..])) || IsSubsequence(a, b[1..])
  }

  /** `filteredTransactions`: the transactions the filter keeps, in their order,
      each as often as in the input. */
  function FilterTransactions(txs: seq<Transaction>, f: DateFilter): (r: seq<Transaction>)
    ensures forall t :: multiset(r)[t] == if Keeps(f, t.date) then multiset(txs)[t] else 0
    ensures IsSubsequence(r, txs)
  {
    if txs == [] then []
    else
      var rest := FilterTransactions(txs[1..], f);
      assert txs == [txs[0]] + txs[1..];
      if Keeps(f, txs[0].date) then [txs[0]] + rest else rest
  }

  /** "all", a filter type the view does not know, and a range with an unset
      end keep every transaction. */
  predicate KeepsEverything(f: DateFilter)
  {
    || (f.filterType !in {"daily", "monthly", "yearly", "range"})
    || (f.filterType == "range" && (f.rangeStart == "" || f.rangeEnd == ""))
  }

  lemma {:induction false} FilterKeepsEverything(txs: seq<Transaction>, f: DateFilter)
    requires KeepsEverything(f)
    ensures FilterTransactions(txs, f) == txs
  {
    if txs != [] {
      FilterKeepsEverything(txs[1..], f);
      assert txs == [txs[0]] + txs[1..];
    }
  }

  /** A filter that keeps at least what another keeps shows a supersequence of
      what the other shows. */
  lemma {:induction false} FilterWidening(txs: seq<Transaction>, f: DateFilter, g: DateFilter)
    requires forall t :: t in txs && Keeps(f, t.date) ==> Keeps(g, t.date)
    ensures IsSubsequence(FilterTransactions(txs, f), FilterTransactions(txs, g))
  {
    if txs != [] {
      assert forall t :: t in txs[1..] ==> t in txs;
      FilterWidening(txs[1..], f, g);
      var rf := FilterTransactions(txs[1..], f);
      var rg := FilterTransactions(txs[1..], g);
      if Keeps(f, txs[0].date) {
        assert ([txs[0]] + rf)[1..] == rf && ([txs[0]] + rg)[1..] == rg;
      } else if Keeps(g, txs[0].date) {
        SubsequenceOfTail(rf, rg, txs[0]);
      }
    }
  }

  lemma SubsequenceOfTail<T>(a: seq<T>, b: seq<T>, x: T)
    requires IsSubsequence(a, b)
    ensures IsSubsequence(a, [x] + b)
  {
    assert ([x] + b)[1..] == b;
  }

  lemma PrefixOfPrefix(s: string)
    ensures Prefix(Prefix(s, 7), 4) == Prefix(s, 4)
  {
  }

  /** For one chosen date, the day's transactions are among the month's, and
      the month's among the year's. */
  lemma DayWithinMonthWithinYear(txs: seq<Transaction>, day: string, start: string, end: string)
    ensures IsSubsequence(FilterTransactions(txs, DateFilter("daily", day, start, end)),
                          FilterTransactions(txs, DateFilter("monthly", day, start, end)))
    ensures IsSubsequence(FilterTransactions(txs, DateFilter("monthly", day, start, end)),
                          FilterTransactions(txs, DateFilter("yearly", day, start, end)))
  {
    forall t | t in txs && Keeps(DateFilter("monthly", day, start, end), t.date)
      ensures Keeps(DateFilter("yearly", day, start, end), t.date)
    {
      PrefixOfPrefix(t.date);
      PrefixOfPrefix(day);
    }
    FilterWidening(txs, DateFilter("daily", day, start, end), DateFilter("monthly", day, start, end));
    FilterWidening(txs, DateFilter("monthly", day, start, end), DateFilter("yearly", day, start, end));
  }

  // String comparison is a total order: reflexive, antisymmetric, transitive
  // and total. Nothing else in the model calls these four lemmas; they are here
  // to justify reading the range filter's `<=` on date strings as an ordering
  // of dates.

  lemma {:induction false} LexLeReflexive(a: string)
    ensures LexLe(a, a)
  {
    if a != [] {
      LexLeReflexive(a[1..]);
    }
  }

  lemma {:induction false} LexLeAntisymmetric(a: string, b: string)
    requires LexLe(a, b) && LexLe(b, a)
    ensures a == b
  {
    if a != [] && b != [] {
      LexLeAntisymmetric(a[1..], b[1..]);
      assert a == [a[0]] + a[1..] && b == [b[0]] + b[1..];
    }
  }

  lemma {:induction false} LexLeTransitive(a: string, b: string, c: string)
    requires LexLe(a, b) && LexLe(b, c)
    ensures LexLe(a, c)
  {
    if a != [] && b != [] && c != [] && a[0] == b[0] && b[0] == c[0] {
      LexLeTransitive(a[1..], b[1..], c[1..]);
    }
  }

  lemma {:induction false} LexLeTotal(a: string, b: string)
    ensures LexLe(a, b) || LexLe(b, a)
  {
    if a != [] && b != [] && a[0] == b[0] {
      LexLeTotal(a[1..], b[1..]);
    }
  }

  /** A range whose start comes after its end shows nothing. */
  lemma InvertedRangeShowsNothing(txs: seq<Transaction>, f: DateFilter)
    requires f.filterType == "range" && f.rangeStart != "" && f.rangeEnd != ""
    requires !LexLe(f.rangeStart, f.rangeEnd)
    ensures FilterTransactions(txs, f) == []
  {
    forall t | t in txs ensures !Keeps(f, t.date) {
      if LexLe(f.rangeStart, t.date) && LexLe(t.date, f.rangeEnd) {
        LexLeTransitive(f.rangeStart, t.date, f.rangeEnd);
      }
    }
  }
}
