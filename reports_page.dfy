/**
 * The reports page's derived values: which series the trend chart shows,
 * the growth, savings-rate and category-share figures with their zero
 * guards, the palette cycling, the largest-category label and the label of
 * the selected range.
 */
module ReportsPage {

  import opened Wrappers
  import opened Chars

  /** The three selectable range identifiers; their text lives outside this page. */
  datatype DateRanges = DateRanges(thisWeek: string, thisMonth: string, thisYear: string)

  /** One point of the trend chart. */
  datatype Point = Point(name: string, income: int, expenses: int)

  const WEEKLY: seq<Point> := [
    Point("Mon", 120, 80), Point("Tue", 200, 150), Point("Wed", 180, 120), Point("Thu", 250, 200),
    Point("Fri", 300, 180), Point("Sat", 150, 220), Point("Sun", 100, 90)]

  const YEARLY: seq<Point> := [
    Point("2020", 48000, 42000), Point("2021", 52000, 45000), Point("2022", 58000, 48000),
    Point("2023", 62000, 52000), Point("2024", 68000, 55000)]

  /** The fixed week series covers the seven days; the year series five years of rising income. */
  lemma MockSeriesShape()
    ensures |WEEKLY| == 7 && WEEKLY[0].name == "Mon" && WEEKLY[6].name == "Sun"
    ensures |YEARLY| == 5
    ensures forall k :: 0 < k < |YEARLY| ==> YEARLY[k - 1].income < YEARLY[k].income
  {
  }

  /**
   * `getChartData`: this week's and this year's ranges show the fixed
   * series, any other value the server's monthly data.
   */
  function ChartData(range: string, ranges: DateRanges, monthly: seq<Point>): (r: seq<Point>)
    ensures range == ranges.thisWeek ==> r == WEEKLY
    ensures range != ranges.thisWeek && range == ranges.thisYear ==> r == YEARLY
    ensures range != ranges.thisWeek && range != ranges.thisYear ==> r == monthly
  {
    if range == ranges.thisWeek then WEEKLY
    else if range == ranges.thisYear then YEARLY
    else monthly
  }

  /** The initial range, this month, shows the monthly data whenever it differs from the other two. */
  lemma InitialRangeShowsMonthly(ranges: DateRanges, monthly: seq<Point>)
    requires ranges.thisMonth != ranges.thisWeek && ranges.thisMonth != ranges.thisYear
    ensures ChartData(ranges.thisMonth, ranges, monthly) == monthly
  {
  }

  /** `calculateGrowth`: the relative change in percent, and 0 against a zero baseline. */
  function Growth(current: real, previous: real): (g: real)
    ensures previous == 0.0 ==> g == 0.0
    ensures previous != 0.0 ==> g * previous == (current - previous) * 100.0
  {
    if previous == 0.0 then 0.0 else (current - previous) / previous * 100.0
  }

  /** Against the mock baselines (90% and 85% of the total) the growth is fixed: 100/9 and 300/17 percent. */
  lemma MockGrowth(total: real)
    ensures total != 0.0 ==> Growth(total, total * 0.9) == 100.0 / 9.0
    ensures total != 0.0 ==> Growth(total, total * 0.85) == 300.0 / 17.0
    ensures total == 0.0 ==> Growth(total, total * 0.9) == 0.0 && Growth(total, total * 0.85) == 0.0
  {
    if total != 0.0 {
      var p := total * 0.9;
      assert p != 0.0;
      assert Growth(total, p) * p == (total - p) * 100.0;
      assert Growth(total, p) * (total * 9.0) == total * 100.0;
      var q := total * 0.85;
      assert q != 0.0;
      var g := Growth(total, q);
      assert g * q == (total - q) * 100.0;
      assert g * q == total * 15.0;
      assert q * 20.0 == total * 17.0;
      assert g * (total * 17.0) == (g * q) * 20.0;
      assert (g * 17.0 - 300.0) * total == 0.0;
      assert g * 17.0 == 300.0;
    }
  }

  /**
   * The guarded percentage the page shows twice: the savings rate (balance
   * of income) and each category's share (value of expenses), both 0 unless
   * the whole is positive.
   */
  function PercentOf(part: real, whole: real): (r: real)
    ensures whole <= 0.0 ==> r == 0.0
    ensures whole > 0.0 ==> r * whole == part * 100.0
  {
    if whole > 0.0 then part / whole * 100.0 else 0.0
  }

  /** A part between nothing and the whole gives a percentage between 0 and 100. */
  lemma PercentBounds(part: real, whole: real)
    requires 0.0 <= part <= whole
    ensures 0.0 <= PercentOf(part, whole) <= 100.0
  {
    if whole > 0.0 {
      var r := PercentOf(part, whole);
      assert r * whole == part * 100.0;
    }
  }

  /**
   * The insight's verdict, whose ratio is not guarded: a zero income gives
   * an infinite ratio for a positive balance (excellent) and a negative
   * infinity or NaN otherwise (good).
   */
  function SavingsVerdict(balance: real, totalIncome: real): (v: string)
    ensures v == "excellent" || v == "good"
  {
    if totalIncome == 0.0 then (if balance > 0.0 then "excellent" else "good")
    else if balance / totalIncome > 0.2 then "excellent" else "good"
  }

  /** With a positive income the verdict is excellent exactly when the rate shown exceeds 20 percent. */
  lemma VerdictMatchesRate(balance: real, totalIncome: real)
    requires totalIncome > 0.0
    ensures SavingsVerdict(balance, totalIncome) == "excellent" <==> PercentOf(balance, totalIncome) > 20.0
  {
    assert "excellent" != "good" by { assert "excellent"[0] != "good"[0]; }
    var r := PercentOf(balance, totalIncome);
    assert r == balance / totalIncome * 100.0;
  }

  /** With no income but a positive balance the page shows a 0% rate called excellent. */
  lemma ZeroIncomeVerdict(balance: real)
    requires balance > 0.0
    ensures PercentOf(balance, 0.0) == 0.0 && SavingsVerdict(balance, 0.0) == "excellent"
  {
  }

  /** One entry of the category breakdown. */
  datatype CategoryTotal = CategoryTotal(name: string, value: real)

  function SumValues(cats: seq<CategoryTotal>): real {
    if cats == [] then 0.0 else cats[0].value + SumValues(cats[1..])
  }

  function SumPercentages(cats: seq<CategoryTotal>, totalExpenses: real): real {
    if cats == [] then 0.0 else PercentOf(cats[0].value, totalExpenses) + SumPercentages(cats[1..], totalExpenses)
  }

  /** The shares add up to the categories' total over the expenses, in percent. */
  lemma {:induction false} SumPercentagesScales(cats: seq<CategoryTotal>, totalExpenses: real)
    requires totalExpenses > 0.0
    ensures SumPercentages(cats, totalExpenses) * totalExpenses == SumValues(cats) * 100.0
  {
    if cats != [] {
      SumPercentagesScales(cats[1..], totalExpenses);
      var p := PercentOf(cats[0].value, totalExpenses);
      var rest := SumPercentages(cats[1..], totalExpenses);
      assert (p + rest) * totalExpenses == p * totalExpenses + rest * totalExpenses;
    }
  }

  /** When the expenses are the sum of the categories, the shares add up to 100 percent. */
  lemma SharesAddUp(cats: seq<CategoryTotal>, totalExpenses: real)
    requires totalExpenses > 0.0 && totalExpenses == SumValues(cats)
    ensures SumPercentages(cats, totalExpenses) == 100.0
  {
    SumPercentagesScales(cats, totalExpenses);
    var s := SumPercentages(cats, totalExpenses);
    assert s * totalExpenses == 100.0 * totalExpenses;
  }

  /** The colour of the entry at `index`: the palette cycled, nothing for an empty palette. */
  function ColorAt(palette: seq<string>, index: nat): (c: Option<string>)
    ensures c.Some? <==> |palette| > 0
    ensures c.Some? ==> c.value == palette[index % |palette|]
  {
    if |palette| == 0 then None else Some(palette[index % |palette|])
  }

  /** A product of a factor of at least one with a positive number is at least that number. */
  lemma MulAtLeast(d: int, n: int)
    requires d >= 1 && n > 0
    ensures d * n >= n
  {
    assert d * n == (d - 1) * n + n;
    assert (d - 1) * n >= 0;
  }

  /** Division with remainder is unique. */
  lemma ModOfDecomposition(a: int, n: int, q: int, r: int)
    requires n > 0 && 0 <= r < n && a == q * n + r
    ensures a % n == r
  {
    var q' := a / n;
    var r' := a % n;
    assert a == q' * n + r' && 0 <= r' < n;
    assert (q - q') * n == r' - r;
    if q > q' {
      MulAtLeast(q - q', n);
    } else if q < q' {
      MulAtLeast(q' - q, n);
    }
  }

  /** Colours repeat with the palette's length, and the first entries take the palette in order. */
  lemma ColorsCycle(palette: seq<string>, index: nat)
    requires |palette| > 0
    ensures ColorAt(palette, index + |palette|) == ColorAt(palette, index)
    ensures index < |palette| ==> ColorAt(palette, index) == Some(palette[index])
  {
    var n := |palette|;
    assert index == (index / n) * n + index % n;
    ModOfDecomposition(index + n, n, index / n + 1, index % n);
    if index < n {
      ModOfDecomposition(index, n, 0, index);
    }
  }

  /** Neighbouring entries get different colours when the palette's colours are distinct. */
  lemma NeighboursDiffer(palette: seq<string>, index: nat)
    requires |palette| > 1
    requires forall i, j :: 0 <= i < j < |palette| ==> palette[i] != palette[j]
    ensures ColorAt(palette, index) != ColorAt(palette, index + 1)
  {
    var n := |palette|;
    var a := index % n;
    assert index == (index / n) * n + a;
    if a == n - 1 {
      ModOfDecomposition(index + 1, n, index / n + 1, 0);
    } else {
      ModOfDecomposition(index + 1, n, index / n, a + 1);
    }
  }

  const NO_CATEGORY: string := "N/A"

  /** The largest category is the first entry's name; no entries or an empty name give N/A. */
  function LargestCategoryLabel(cats: seq<CategoryTotal>): (l: string)
    ensures l != ""
    ensures cats != [] && cats[0].name != "" ==> l == cats[0].name
    ensures cats == [] || cats[0].name == "" ==> l == NO_CATEGORY
  {
    if cats != [] && cats[0].name != "" then cats[0].name else NO_CATEGORY
  }

  /** Past a first character other than `c`, the first `c` is one position further on. */
  lemma IndexOfTail(s: string, c: char)
    requires c in s && s[0] != c
    ensures c in s[1..] && IndexOf(s, c) == 1 + IndexOf(s[1..], c)
  {
  }

  /** `s.replace(c, d)` with a string pattern: only the first occurrence is replaced. */
  function ReplaceFirst(s: string, c: char, d: char): (r: string)
    ensures |r| == |s|
    ensures c !in s ==> r == s
    ensures c in s ==> r == s[..IndexOf(s, c)] + [d] + s[IndexOf(s, c) + 1..]
  {
    if s == [] then []
    else if s[0] == c then [d] + s[1..]
    else
      if c in s then IndexOfTail(s, c); [s[0]] + ReplaceFirst(s[1..], c, d)
      else [s[0]] + ReplaceFirst(s[1..], c, d)
  }

  /** Replacing by another character removes exactly one occurrence, when there is one. */
  lemma ReplaceFirstRemovesOne(s: string, c: char, d: char)
    requires c != d && c in s
    ensures multiset(ReplaceFirst(s, c, d))[c] == multiset(s)[c] - 1
    ensures multiset(ReplaceFirst(s, c, d))[d] == multiset(s)[d] + 1
  {
    var i := IndexOf(s, c);
    var a, z := s[..i], s[i + 1..];
    assert s == a + [c] + z;
    assert multiset(s) == multiset(a) + multiset([c]) + multiset(z);
    assert multiset(ReplaceFirst(s, c, d)) == multiset(a) + multiset([d]) + multiset(z);
  }

  /** Whether position `k` starts a word: a word character after a non-word character or the start. */
  predicate WordStart(s: string, k: nat)
    requires k < |s|
  {
    IsWordChar(s[k]) && (k == 0 || !IsWordChar(s[k - 1]))
  }

  /** `s.replace(/\b\w/g, l => l.toUpperCase())`, scanning with whether the previous character was a word character. */
  function CapitaliseFrom(s: string, afterWord: bool): (r: string)
    ensures |r| == |s|
    ensures forall k :: 0 < k < |s| ==>
      r[k] == if WordStart(s, k) then ToUpper(s[k]) else s[k]
    ensures |s| > 0 ==> r[0] == if IsWordChar(s[0]) && !afterWord then ToUpper(s[0]) else s[0]
  {
    if s == [] then []
    else
      var head := if IsWordChar(s[0]) && !afterWord then ToUpper(s[0]) else s[0];
      var t := CapitaliseFrom(s[1..], IsWordChar(s[0]));
      assert forall k :: 1 < k < |s| ==> (WordStart(s, k) <==> WordStart(s[1..], k - 1));
      [head] + t
  }

  /** The upper-casing pass on its own: every word start upper-cased, every other character kept. */
  function CapitaliseWords(s: string): (r: string)
    ensures |r| == |s|
    ensures forall k :: 0 <= k < |s| ==> r[k] == if WordStart(s, k) then ToUpper(s[k]) else s[k]
  {
    CapitaliseFrom(s, false)
  }

  /** Whether position `k` of `range` is the one `_` that the heading turns into a space. */
  predicate IsFirstUnderscore(range: string, k: int) {
    '_' in range && k == IndexOf(range, '_')
  }

  /**
   * Whether position `k` starts a word of the heading: a word character that
   * is not the replaced `_`, at the start, after a non-word character or
   * right after the replaced `_`.
   */
  predicate LabelWordStart(range: string, k: nat)
    requires k < |range|
  {
    IsWordChar(range[k]) && !IsFirstUnderscore(range, k)
    && (k == 0 || !IsWordChar(range[k - 1]) || IsFirstUnderscore(range, k - 1))
  }

  /**
   * The heading of the category details: the first `_` of the range becomes a
   * space, the first character of each word of the result is upper-cased and
   * every other character is kept.
   */
  function RangeLabel(range: string): (l: string)
    ensures |l| == |range|
    ensures forall k :: 0 <= k < |range| ==>
      l[k] == if IsFirstUnderscore(range, k) then ' '
              else if LabelWordStart(range, k) then ToUpper(range[k])
              else range[k]
  {
    var t := ReplaceFirst(range, '_', ' ');
    assert forall k :: 0 <= k < |range| ==> t[k] == if IsFirstUnderscore(range, k) then ' ' else range[k];
    assert forall k :: 0 <= k < |range| ==> (WordStart(t, k) <==> LabelWordStart(range, k));
    CapitaliseWords(t)
  }

  /** Capitalising twice changes nothing more: upper-case letters stay as they are. */
  lemma CapitaliseIdempotent(s: string)
    ensures CapitaliseWords(CapitaliseWords(s)) == CapitaliseWords(s)
  {
    var r := CapitaliseWords(s);
    var rr := CapitaliseWords(r);
    assert forall k :: 0 <= k < |s| ==> (IsWordChar(r[k]) <==> IsWordChar(s[k]));
    assert forall k :: 0 <= k < |s| ==> (WordStart(r, k) <==> WordStart(s, k));
    assert forall k :: 0 <= k < |s| ==> rr[k] == r[k];
  }

  /** The first `_` of a text with it at position 4 becomes a space. */
  lemma ReplaceAtFour(s: string)
    requires |s| >= 5 && s[4] == '_' && '_' !in s[..4]
    ensures ReplaceFirst(s, '_', ' ') == s[..4] + " " + s[5..]
  {
    assert IndexOf(s, '_') == 4;
  }

  lemma CapitaliseExample(t: string)
    requires |t| == 10 && t[..5] == "this " && t[5..] == "month"
    ensures CapitaliseWords(t) == "This Month"
  {
    var r := CapitaliseWords(t);
    forall k | 0 <= k < |t|
      ensures r[k] == "This Month"[k]
    {
      assert t[k] == "this month"[k] by {
        if k < 5 { assert t[k] == t[..5][k]; } else { assert t[k] == t[5..][k - 5]; }
      }
      if k != 0 && k != 5 {
        assert !WordStart(t, k) by {
          assert t[k - 1] == "this month"[k - 1] by {
            if k - 1 < 5 { assert t[k - 1] == t[..5][k - 1]; } else { assert t[k - 1] == t[5..][k - 6]; }
          }
        }
      }
    }
  }

  lemma CapitaliseAfterUnderscoreExample(t: string)
    requires |t| == 13 && t[..5] == "last " && t[5..] == "3_months"
    ensures CapitaliseWords(t) == "Last 3_months"
  {
    var r := CapitaliseWords(t);
    forall k | 0 <= k < |t|
      ensures r[k] == "Last 3_months"[k]
    {
      assert t[k] == "last 3_months"[k] by {
        if k < 5 { assert t[k] == t[..5][k]; } else { assert t[k] == t[5..][k - 5]; }
      }
      if k != 0 && k != 5 {
        assert !WordStart(t, k) by {
          assert t[k - 1] == "last 3_months"[k - 1] by {
            if k - 1 < 5 { assert t[k - 1] == t[..5][k - 1]; } else { assert t[k - 1] == t[5..][k - 6]; }
          }
        }
      }
    }
  }

  /** The range `this_month` is headed This Month. */
  lemma RangeLabelExample(s: string)
    requires |s| == 10 && s[..4] == "this" && s[4] == '_' && s[5..] == "month"
    ensures RangeLabel(s) == "This Month"
  {
    ReplaceAtFour(s);
    var t := ReplaceFirst(s, '_', ' ');
    assert t[..5] == "this " && t[5..] == "month";
    CapitaliseExample(t);
  }

  /** Only the first `_` becomes a space; a later one still joins its word to the previous one. */
  lemma RangeLabelSecondUnderscore(s: string)
    requires |s| == 13 && s[..4] == "last" && s[4] == '_' && s[5..] == "3_months"
    ensures RangeLabel(s) == "Last 3_months"
  {
    ReplaceAtFour(s);
    var t := ReplaceFirst(s, '_', ' ');
    assert t[..5] == "last " && t[5..] == "3_months";
    CapitaliseAfterUnderscoreExample(t);
  }
}
