/**
 * The balance chart of the web client: which transactions are plotted, the
 * balance series and the point labels. The history arrives newest first;
 * the chart copies it, reverses the copy and keeps its last ten entries.
 */
module BalanceChart {
  import opened Wrappers
  import opened Chars

  /**
   * What the Date getters return for a transaction's timestamp in local
   * time: `month` as `getMonth()` (0 for January), `date`, `hours`, `minutes`.
   */
  datatype LocalTime = LocalTime(month: nat, date: nat, hours: nat, minutes: nat)

  /** A transaction as the client receives it. */
  datatype ChartTransaction = ChartTransaction(
    id: int,
    kind: string,
    amount: real,
    balanceAfter: real,
    createdAt: LocalTime,
    description: Option<string>)

  function Min(a: int, b: int): int
  {
    if a <= b then a else b
  }

  /** `Array.prototype.reverse` on a copy. */
  function Reverse<T>(s: seq<T>): (r: seq<T>)
    ensures |r| == |s|
    ensures forall k :: 0 <= k < |s| ==> r[k] == s[|s| - 1 - k]
  {
    if s == [] then [] else Reverse(s[1..]) + [s[0]]
  }

  /** `Array.prototype.slice(start)`: a negative start counts from the end, clamped to the bounds. */
  function SliceFrom<T>(s: seq<T>, start: int): seq<T>
  {
    var from := if start < 0 then (if |s| + start < 0 then 0 else |s| + start)
                else (if start > |s| then |s| else start);
    s[from..]
  }

  /** `[...transactions].reverse().slice(-10)`. */
  function RecentTransactions<T>(transactions: seq<T>): (r: seq<T>)
    ensures |r| == Min(10, |transactions|)
  {
    SliceFrom(Reverse(transactions), -10)
  }

  /**
   * The selection is the first min(10, n) entries of the input, in reverse
   * order: for a newest-first history, the ten newest, oldest first.
   */
  lemma RecentIsReversedPrefix<T>(transactions: seq<T>)
    ensures var m := Min(10, |transactions|);
      && |RecentTransactions(transactions)| == m
      && RecentTransactions(transactions) == Reverse(transactions[..m])
      && forall k :: 0 <= k < m ==> RecentTransactions(transactions)[k] == transactions[m - 1 - k]
  {
    var m := Min(10, |transactions|);
    var r := RecentTransactions(transactions);
    var n := |transactions|;
    assert |r| == m;
    forall k | 0 <= k < m
      ensures r[k] == transactions[m - 1 - k] && r[k] == Reverse(transactions[..m])[k]
    {
      assert r[k] == Reverse(transactions)[n - m + k];
    }
  }

  /** For a history whose ids fall newest first, the selection's ids rise: oldest first. */
  lemma RecentOldestFirst(transactions: seq<ChartTransaction>)
    requires forall i, j :: 0 <= i < j < |transactions| ==> transactions[i].id > transactions[j].id
    ensures var r := RecentTransactions(transactions);
      forall i, j :: 0 <= i < j < |r| ==> r[i].id < r[j].id
  {
    RecentIsReversedPrefix(transactions);
  }

  /** `recentTransactions.map(tx => tx.balanceAfter)`. */
  function BalanceSeries(selected: seq<ChartTransaction>): (data: seq<real>)
    ensures |data| == |selected|
    ensures forall k :: 0 <= k < |selected| ==> data[k] == selected[k].balanceAfter
  {
    seq(|selected|, k requires 0 <= k < |selected| => selected[k].balanceAfter)
  }

  // ---------------------------------------------------------------------
  // The labels.
  // ---------------------------------------------------------------------

  function DigitChar(d: nat): char
    requires d < 10
  {
    ['0', '1', '2', '3', '4', '5', '6', '7', '8', '9'][d]
  }

  predicate AllDigits(s: string)
  {
    forall k :: 0 <= k < |s| ==> IsDigit(s[k])
  }

  /** `Number.prototype.toString()` of a non-negative integer: its decimal digits, no padding. */
  function ToDecimal(n: nat): (s: string)
    ensures |s| >= 1 && AllDigits(s)
    ensures n < 10 <==> |s| == 1
    ensures n >= 10 ==> s[0] != '0'
  {
    if n < 10 then [DigitChar(n)] else ToDecimal(n / 10) + [DigitChar(n % 10)]
  }

  /** The value of a string of decimal digits. */
  function FromDecimal(s: string): nat
    requires AllDigits(s)
  {
    if s == [] then 0 else 10 * FromDecimal(s[..|s| - 1]) + ((s[|s| - 1] as int - '0' as int) as nat)
  }

  lemma {:induction false} DecimalRoundTrip(n: nat)
    ensures FromDecimal(ToDecimal(n)) == n
  {
    if n >= 10 {
      DecimalRoundTrip(n / 10);
      var s := ToDecimal(n);
      assert s[..|s| - 1] == ToDecimal(n / 10);
    }
  }

  /** Leading zeros do not change the value of a digit string. */
  lemma LeadingZero(s: string)
    requires AllDigits(s)
    ensures FromDecimal("0" + s) == FromDecimal(s)
    decreases |s|
  {
    if s != [] {
      var t := "0" + s;
      assert t[..|t| - 1] == "0" + s[..|s| - 1];
      LeadingZero(s[..|s| - 1]);
    }
  }

  /** `s.padStart(width, pad)` with a one-character pad string. */
  function PadStart(s: string, width: nat, pad: char): (r: string)
    ensures |r| == if |s| >= width then |s| else width
    ensures r[|r| - |s|..] == s
    ensures forall k :: 0 <= k < |r| - |s| ==> r[k] == pad
  {
    if |s| >= width then s else seq(width - |s|, _ => pad) + s
  }

  /** The two-digit minutes text: `getMinutes().toString().padStart(2, '0')`. */
  function Minutes(m: nat): string
  {
    PadStart(ToDecimal(m), 2, '0')
  }

  /** For a real minute value the text is two digits and reads back as the minute. */
  lemma MinutesTwoDigits(m: nat)
    requires m < 60
    ensures |Minutes(m)| == 2 && AllDigits(Minutes(m)) && FromDecimal(Minutes(m)) == m
  {
    DecimalRoundTrip(m);
    var d := ToDecimal(m);
    if m < 10 {
      assert Minutes(m) == "0" + d;
      LeadingZero(d);
    } else {
      assert Minutes(m) == d;
    }
  }

  /** `${getMonth() + 1}/${getDate()} ${getHours()}:${minutes}`. */
  function Label(t: LocalTime): string
  {
    ToDecimal(t.month + 1) + ("/" + (ToDecimal(t.date) + (" " + (ToDecimal(t.hours) + (":" + Minutes(t.minutes))))))
  }

  /** The text before the first `sep`, and the text after it. */
  function SplitAt(s: string, sep: char): Option<(string, string)>
  {
    if s == [] then None
    else if s[0] == sep then Some(([], s[1..]))
    else match SplitAt(s[1..], sep)
      case None => None
      case Some((a, b)) => Some(([s[0]] + a, b))
  }

  lemma {:induction false} SplitAtDigits(a: string, sep: char, b: string)
    requires AllDigits(a) && !IsDigit(sep)
    ensures SplitAt(a + ([sep] + b), sep) == Some((a, b))
  {
    if a == [] {
      assert a + ([sep] + b) == [sep] + b;
    } else {
      assert (a + ([sep] + b))[1..] == a[1..] + ([sep] + b);
      SplitAtDigits(a[1..], sep, b);
      assert [a[0]] + a[1..] == a;
    }
  }

  /** Reads a label back into month (1-based), date, hours and minutes. */
  function ParseLabel(s: string): Option<(nat, nat, nat, nat)>
  {
    match SplitAt(s, '/')
    case None => None
    case Some((month, r1)) =>
      match SplitAt(r1, ' ')
      case None => None
      case Some((date, r2)) =>
        match SplitAt(r2, ':')
        case None => None
        case Some((hours, minutes)) =>
          if AllDigits(month) && AllDigits(date) && AllDigits(hours) && AllDigits(minutes)
          then Some((FromDecimal(month), FromDecimal(date), FromDecimal(hours), FromDecimal(minutes)))
          else None
  }

  /** Four digit fields joined as a label read back as their values. */
  lemma ParseFields(month: string, date: string, hours: string, minutes: string)
    requires AllDigits(month) && AllDigits(date) && AllDigits(hours) && AllDigits(minutes)
    ensures ParseLabel(month + ("/" + (date + (" " + (hours + (":" + minutes)))))) ==
      Some((FromDecimal(month), FromDecimal(date), FromDecimal(hours), FromDecimal(minutes)))
  {
    var r2 := hours + ([':'] + minutes);
    var r1 := date + ([' '] + r2);
    assert "/" == ['/'] && " " == [' '] && ":" == [':'];
    SplitAtDigits(month, '/', r1);
    SplitAtDigits(date, ' ', r2);
    SplitAtDigits(hours, ':', minutes);
  }

  /**
   * A label shows the month one-based, then the date, the hour and the
   * minute, each recoverable from the text; the minute always takes two
   * digits, while an hour below ten takes one.
   */
  lemma LabelRoundTrip(t: LocalTime)
    requires t.minutes < 60
    ensures ParseLabel(Label(t)) == Some((t.month + 1, t.date, t.hours, t.minutes))
    ensures |Minutes(t.minutes)| == 2
    ensures t.hours < 10 ==> |ToDecimal(t.hours)| == 1
  {
    var month, date, hours, minutes := ToDecimal(t.month + 1), ToDecimal(t.date), ToDecimal(t.hours), Minutes(t.minutes);
    MinutesTwoDigits(t.minutes);
    DecimalRoundTrip(t.month + 1);
    DecimalRoundTrip(t.date);
    DecimalRoundTrip(t.hours);
    ParseFields(month, date, hours, minutes);
    assert Label(t) == month + ("/" + (date + (" " + (hours + (":" + minutes)))));
  }

  /** The chart's input: one label and one balance per selected transaction. */
  datatype ChartData = ChartData(labels: seq<string>, data: seq<real>)

  function Chart(transactions: seq<ChartTransaction>): (c: ChartData)
    ensures |c.labels| == |c.data| == Min(10, |transactions|)
  {
    var selected := RecentTransactions(transactions);
    ChartData(seq(|selected|, k requires 0 <= k < |selected| => Label(selected[k].createdAt)),
              BalanceSeries(selected))
  }

  /**
   * The chart has min(10, n) points; point `k` is input entry m - 1 - k,
   * showing its `balanceAfter` under its label.
   */
  lemma ChartPoints(transactions: seq<ChartTransaction>)
    ensures var c := Chart(transactions);
      var m := Min(10, |transactions|);
      && |c.labels| == |c.data| == m
      && forall k :: 0 <= k < m ==>
           && c.data[k] == transactions[m - 1 - k].balanceAfter
           && c.labels[k] == Label(transactions[m - 1 - k].createdAt)
  {
    RecentIsReversedPrefix(transactions);
  }
}
