/** The song-feature table, its cleaning, the popularity classifier's training
    data and the analysis and prediction operations of `SpotifyDataAnalyzer`.
    Plotting, float formatting, correlation arithmetic and the classifier
    library are parameters (see `Formatter`, `corr`, `Fit`). */
module DataAnalyzer {
  import opened Basics
  import opened Strings
  import opened JsonValue

  // ---------------------------------------------------------------------
  // The table
  // ---------------------------------------------------------------------

  /** A cell as CSV loading produces it: a number or a piece of text. */
  datatype Value = Num(x: real) | Text(s: string)

  /** A row holds one cell per column; `None` is a missing value (NaN). */
  type Row = seq<Option<Value>>

  datatype Table = Table(columns: seq<string>, rows: seq<Row>)

  predicate Distinct<T(==)>(s: seq<T>) {
    forall i, j :: 0 <= i < j < |s| ==> s[i] != s[j]
  }

  /** What loading a CSV file guarantees: unique column names and one cell
      per column in every row. */
  predicate Rectangular(t: Table) {
    Distinct(t.columns) && forall i :: 0 <= i < |t.rows| ==> |t.rows[i]| == |t.columns|
  }

  /** The first index of `x` in `s` (the column index of a column name). */
  function Position<T(==)>(s: seq<T>, x: T): (k: nat)
    requires x in s
    ensures k < |s| && s[k] == x
    ensures forall j :: 0 <= j < k ==> s[j] != x
  {
    if s[0] == x then 0 else 1 + Position(s[1..], x)
  }

  lemma PositionInPrefix<T>(s: seq<T>, c: T, x: T)
    requires x in s
    ensures x in s + [c] && Position(s + [c], x) == Position(s, x)
  {
    var p, q := Position(s + [c], x), Position(s, x);
    assert (s + [c])[q] == x;
  }

  /** Row `r` holds a number in column `k`. */
  predicate NumAt(r: Row, k: nat) {
    k < |r| && r[k].Some? && r[k].value.Num?
  }

  /** Every row of `t` has a numeric cell in column `c`. */
  predicate NumericColumn(t: Table, c: string) {
    c in t.columns && forall i :: 0 <= i < |t.rows| ==> NumAt(t.rows[i], Position(t.columns, c))
  }

  predicate AllNumeric(t: Table, cs: seq<string>) {
    forall c :: c in cs ==> NumericColumn(t, c)
  }

  /** The numbers of a numeric column, in row order. */
  function Numbers(t: Table, c: string): (xs: seq<real>)
    requires NumericColumn(t, c)
    ensures |xs| == |t.rows|
    ensures forall i :: 0 <= i < |t.rows| ==> t.rows[i][Position(t.columns, c)] == Some(Num(xs[i]))
  {
    var k := Position(t.columns, c);
    seq(|t.rows|, i requires 0 <= i < |t.rows| => t.rows[i][k].value.x)
  }

  /** `df[cs]` as a numeric matrix: one row per table row, one entry per
      column of `cs`, in the order of `cs`. */
  function FeatureMatrix(t: Table, cs: seq<string>): (m: seq<seq<real>>)
    requires AllNumeric(t, cs)
    ensures |m| == |t.rows|
    ensures forall i :: 0 <= i < |m| ==> |m[i]| == |cs|
    ensures forall i, k :: 0 <= i < |m| && 0 <= k < |cs| ==>
      cs[k] in cs && m[i][k] == Numbers(t, cs[k])[i]
  {
    seq(|t.rows|, i requires 0 <= i < |t.rows| =>
      seq(|cs|, k requires 0 <= k < |cs| => assert cs[k] in cs; Numbers(t, cs[k])[i]))
  }

  /** `df[name] = cells`: overwrites column `name` if the table has one,
      and otherwise appends it as a new last column. */
  function WithColumn(t: Table, name: string, cells: seq<Option<Value>>): (r: Table)
    requires Rectangular(t) && |cells| == |t.rows|
    ensures Rectangular(r) && |r.rows| == |t.rows|
    ensures name !in t.columns ==> r.columns == t.columns + [name]
    ensures name !in t.columns ==> forall i :: 0 <= i < |t.rows| ==> r.rows[i] == t.rows[i] + [cells[i]]
    ensures name in t.columns ==> r.columns == t.columns
    ensures name in t.columns ==> forall i :: 0 <= i < |t.rows| ==>
      r.rows[i] == t.rows[i][Position(t.columns, name) := cells[i]]
  {
    if name in t.columns then
      var k := Position(t.columns, name);
      Table(t.columns, seq(|t.rows|, i requires 0 <= i < |t.rows| => t.rows[i][k := cells[i]]))
    else
      Table(t.columns + [name], seq(|t.rows|, i requires 0 <= i < |t.rows| => t.rows[i] + [cells[i]]))
  }

  /** Adding or overwriting column `name` leaves every other column where it
      was, with the same cells. */
  lemma {:induction false} WithColumnKeepsOtherColumns(t: Table, name: string, cells: seq<Option<Value>>, c: string)
    requires Rectangular(t) && |cells| == |t.rows| && c in t.columns && c != name
    ensures var r := WithColumn(t, name, cells);
      c in r.columns && Position(r.columns, c) == Position(t.columns, c) &&
      forall i :: 0 <= i < |t.rows| ==> r.rows[i][Position(t.columns, c)] == t.rows[i][Position(t.columns, c)]
    ensures NumericColumn(WithColumn(t, name, cells), c) <==> NumericColumn(t, c)
    ensures NumericColumn(t, c) ==> Numbers(WithColumn(t, name, cells), c) == Numbers(t, c)
  {
    var r := WithColumn(t, name, cells);
    var k := Position(t.columns, c);
    if name !in t.columns {
      PositionInPrefix(t.columns, name, c);
    } else {
      assert Position(t.columns, name) != k;
    }
    assert forall i :: 0 <= i < |t.rows| ==> r.rows[i][k] == t.rows[i][k];
  }

  // ---------------------------------------------------------------------
  // clean_data: dropna, then drop_duplicates (keep the first occurrence)
  // ---------------------------------------------------------------------

  predicate Complete(r: Row) {
    forall k :: 0 <= k < |r| ==> r[k].Some?
  }

  /** `dropna()`: the rows without a missing value, in their order. */
  function DropMissing(rows: seq<Row>): (r: seq<Row>)
    ensures forall x :: x in r <==> x in rows && Complete(x)
    ensures |r| <= |rows|
  {
    if |rows| == 0 then []
    else
      var init, last := rows[..|rows| - 1], rows[|rows| - 1];
      assert rows == init + [last];
      DropMissing(init) + (if Complete(last) then [last] else [])
  }

  /** `drop_duplicates()`: a row survives iff no earlier row equals it. */
  function DropDuplicates(rows: seq<Row>): (r: seq<Row>)
    ensures forall x :: x in r <==> x in rows
    ensures Distinct(r)
    ensures |r| <= |rows|
  {
    if |rows| == 0 then []
    else
      var init, last := rows[..|rows| - 1], rows[|rows| - 1];
      assert rows == init + [last];
      DropDuplicates(init) + (if last in init then [] else [last])
  }

  /** Reference definition of the cleaned table: the rows, in their original
      order, that are complete and equal to no earlier row. */
  ghost function FirstCompleteOccurrences(rows: seq<Row>): seq<Row> {
    if |rows| == 0 then []
    else
      var init, last := rows[..|rows| - 1], rows[|rows| - 1];
      FirstCompleteOccurrences(init) + (if Complete(last) && last !in init then [last] else [])
  }

  /** Dropping missing rows and then duplicates keeps exactly the first
      occurrence of every complete row, in order. */
  lemma {:induction false} CleanKeepsFirstCompleteOccurrences(rows: seq<Row>)
    ensures DropDuplicates(DropMissing(rows)) == FirstCompleteOccurrences(rows)
  {
    if |rows| > 0 {
      var init, last := rows[..|rows| - 1], rows[|rows| - 1];
      CleanKeepsFirstCompleteOccurrences(init);
      var dm := DropMissing(init);
      if Complete(last) {
        var s := dm + [last];
        assert DropMissing(rows) == s;
        assert s[..|s| - 1] == dm;
        assert (last in dm) == (last in init);
      } else {
        assert DropMissing(rows) == dm;
      }
    }
  }

  predicate AllComplete(rows: seq<Row>) {
    forall i :: 0 <= i < |rows| ==> Complete(rows[i])
  }

  /** The cleaned rows: none has a missing value, no two are equal, they are
      exactly the complete rows of the input, and they keep its width. */
  lemma {:induction false} CleanedRows(rows: seq<Row>, width: nat)
    requires forall i :: 0 <= i < |rows| ==> |rows[i]| == width
    ensures var c := DropDuplicates(DropMissing(rows));
      && AllComplete(c) && Distinct(c)
      && (forall r :: r in c <==> r in rows && Complete(r))
      && (forall i :: 0 <= i < |c| ==> |c[i]| == width)
  {
    var c := DropDuplicates(DropMissing(rows));
    forall i | 0 <= i < |c|
      ensures Complete(c[i]) && |c[i]| == width
    {
      assert c[i] in c;
      var j :| 0 <= j < |rows| && rows[j] == c[i];
    }
  }

  /** The cleaned table (`dropna()` then `drop_duplicates()`): the same
      columns over rows that have no missing value and no repeats. */
  function Clean(t: Table): (c: Table)
    requires Rectangular(t)
    ensures c.columns == t.columns && c.rows == DropDuplicates(DropMissing(t.rows))
    ensures Rectangular(c) && AllComplete(c.rows) && Distinct(c.rows)
    ensures forall r :: r in c.rows <==> r in t.rows && Complete(r)
  {
    CleanedRows(t.rows, |t.columns|);
    Table(t.columns, DropDuplicates(DropMissing(t.rows)))
  }

  // ---------------------------------------------------------------------
  // The feature list
  // ---------------------------------------------------------------------

  const Candidates: seq<string> := ["danceability", "energy", "valence", "acousticness",
                                    "instrumentalness", "liveness", "speechiness", "tempo"]
  const PopularityColumn: string := "popularity"
  const CategoryColumn: string := "pop_category"
  const DefaultFeature: string := "danceability"

  /** `[f for f in cands if f in columns]`. */
  function Present(cands: seq<string>, columns: seq<string>): (r: seq<string>)
    ensures forall f :: f in r <==> f in cands && f in columns
    ensures |r| <= |cands|
    ensures Distinct(cands) ==> Distinct(r)
    ensures Distinct(cands) ==> forall i, j :: 0 <= i < j < |r| ==> Position(cands, r[i]) < Position(cands, r[j])
  {
    if |cands| == 0 then []
    else
      var init, last := cands[..|cands| - 1], cands[|cands| - 1];
      assert cands == init + [last];
      var p := Present(init, columns);
      if last !in columns then p
      else
        var r := p + [last];
        if Distinct(cands) then
          assert Distinct(init);
          assert last !in init;
          forall y | y in init ensures Position(cands, y) == Position(init, y) < |init| {
            PositionInPrefix(init, last, y);
          }
          assert Position(cands, last) == |init|;
          assert forall i :: 0 <= i < |p| ==> p[i] in init;
          r
        else r
  }

  /** The audio features of a table with these columns. */
  function SelectFeatures(columns: seq<string>): seq<string> {
    Present(Candidates, columns)
  }

  /** The feature list is exactly the candidates present among the columns,
      in declaration order, without repeats. */
  lemma FeatureSelection(columns: seq<string>)
    ensures var fs := SelectFeatures(columns);
      (forall f :: f in fs <==> f in Candidates && f in columns) && Distinct(fs) &&
      (forall i, j :: 0 <= i < j < |fs| ==> Position(Candidates, fs[i]) < Position(Candidates, fs[j]))
  {
    assert Distinct(Candidates);
  }

  /** A column that is not a candidate does not change the feature list. */
  lemma {:induction false} PresentIgnoresOtherColumn(cands: seq<string>, columns: seq<string>, x: string)
    requires x !in cands
    ensures Present(cands, columns + [x]) == Present(cands, columns)
  {
    if |cands| > 0 {
      var init := cands[..|cands| - 1];
      assert cands == init + [cands[|cands| - 1]];
      PresentIgnoresOtherColumn(init, columns, x);
    }
  }

  // ---------------------------------------------------------------------
  // Popularity categories: pd.cut(popularity, bins=3, labels=[Low, Medium, High])
  // ---------------------------------------------------------------------

  datatype Label = Low | Medium | High

  function LabelName(l: Label): string {
    match l
    case Low => "Low"
    case Medium => "Medium"
    case High => "High"
  }

  /** The order Low < Medium < High. */
  function Rank(l: Label): nat {
    match l
    case Low => 0
    case Medium => 1
    case High => 2
  }

  /** The four edges of three equal-width bins over [lo, hi]. */
  function BinEdges(lo: real, hi: real): (e: seq<real>)
    requires lo <= hi
    ensures |e| == 4 && e[0] == lo && e[3] == hi
    ensures forall k :: 0 <= k < 3 ==> e[k + 1] - e[k] == (hi - lo) / 3.0
  {
    var w := (hi - lo) / 3.0;
    [lo, lo + w, lo + 2.0 * w, hi]
  }

  /** The bin of `v`: bins are closed on the right, the first one also
      holds `lo`. When all values are equal, pandas widens the range around
      the single value, which then falls into the middle bin. */
  function Categorize(v: real, lo: real, hi: real): (l: Label)
    requires lo <= v <= hi
    ensures lo < hi && v == lo ==> l == Low
    ensures lo < hi && v == hi ==> l == High
    ensures lo == hi ==> l == Medium
    ensures lo < hi ==> (l == Low <==> v <= BinEdges(lo, hi)[1])
    ensures lo < hi ==> (l == High <==> BinEdges(lo, hi)[2] < v)
  {
    if lo == hi then Medium
    else
      var e := BinEdges(lo, hi);
      if v <= e[1] then Low else if v <= e[2] then Medium else High
  }

  /** Labelling is monotone in popularity. */
  lemma CategorizeMonotone(v1: real, v2: real, lo: real, hi: real)
    requires lo <= v1 <= v2 <= hi
    ensures Rank(Categorize(v1, lo, hi)) <= Rank(Categorize(v2, lo, hi))
  {
  }

  function Sum(xs: seq<real>): real {
    if |xs| == 0 then 0.0 else Sum(xs[..|xs| - 1]) + xs[|xs| - 1]
  }

  function MinOf(xs: seq<real>): (m: real)
    requires |xs| > 0
    ensures m in xs && forall i :: 0 <= i < |xs| ==> m <= xs[i]
  {
    if |xs| == 1 then xs[0]
    else
      var init := xs[..|xs| - 1];
      assert xs == init + [xs[|xs| - 1]];
      var m := MinOf(init);
      if xs[|xs| - 1] < m then xs[|xs| - 1] else m
  }

  function MaxOf(xs: seq<real>): (m: real)
    requires |xs| > 0
    ensures m in xs && forall i :: 0 <= i < |xs| ==> xs[i] <= m
  {
    if |xs| == 1 then xs[0]
    else
      var init := xs[..|xs| - 1];
      assert xs == init + [xs[|xs| - 1]];
      var m := MaxOf(init);
      if xs[|xs| - 1] > m then xs[|xs| - 1] else m
  }

  /** A statistic as pandas reports it: NaN for an empty column. */
  datatype Stat = NaN | Finite(x: real)

  /** `Series.mean()`: NaN without values, otherwise the sum over the count,
      which lies between the smallest and the largest value. */
  function Mean(xs: seq<real>): (m: Stat)
    ensures m.NaN? <==> |xs| == 0
    ensures m.Finite? ==> MinOf(xs) <= m.x <= MaxOf(xs)
  {
    if |xs| == 0 then NaN
    else
      MeanBetween(xs);
      Finite(Sum(xs) / |xs| as real)
  }

  /** `describe()['min']`: NaN without values, otherwise the least value. */
  function Lowest(xs: seq<real>): (r: Stat)
    ensures r.NaN? <==> |xs| == 0
    ensures r.Finite? ==> r.x in xs && forall i :: 0 <= i < |xs| ==> r.x <= xs[i]
  {
    if |xs| == 0 then NaN else Finite(MinOf(xs))
  }

  /** `describe()['max']`: NaN without values, otherwise the greatest value. */
  function Highest(xs: seq<real>): (r: Stat)
    ensures r.NaN? <==> |xs| == 0
    ensures r.Finite? ==> r.x in xs && forall i :: 0 <= i < |xs| ==> xs[i] <= r.x
  {
    if |xs| == 0 then NaN else Finite(MaxOf(xs))
  }

  /** The label of every popularity value, in row order. */
  function Categories(pops: seq<real>): (ls: seq<Label>)
    requires |pops| > 0
    ensures |ls| == |pops|
    ensures forall i :: 0 <= i < |pops| ==> ls[i] == Categorize(pops[i], MinOf(pops), MaxOf(pops))
  {
    var lo, hi := MinOf(pops), MaxOf(pops);
    seq(|pops|, i requires 0 <= i < |pops| => Categorize(pops[i], lo, hi))
  }

  /** The labels are ordered like the popularity values; a minimum is Low and,
      when the values are not all equal, a maximum is High. */
  lemma CategoriesOrdered(pops: seq<real>, i: nat, j: nat)
    requires i < |pops| && j < |pops|
    ensures pops[i] <= pops[j] ==> Rank(Categories(pops)[i]) <= Rank(Categories(pops)[j])
    ensures MinOf(pops) < MaxOf(pops) && pops[i] == MinOf(pops) ==> Categories(pops)[i] == Low
    ensures MinOf(pops) < MaxOf(pops) && pops[i] == MaxOf(pops) ==> Categories(pops)[i] == High
  {
    if pops[i] <= pops[j] {
      CategorizeMonotone(pops[i], pops[j], MinOf(pops), MaxOf(pops));
    }
  }

  function LabelCells(ls: seq<Label>): (cells: seq<Option<Value>>)
    ensures |cells| == |ls|
    ensures forall i :: 0 <= i < |ls| ==> cells[i] == Some(Text(LabelName(ls[i])))
  {
    seq(|ls|, i requires 0 <= i < |ls| => Some(Text(LabelName(ls[i]))))
  }

  /** The classifier is opaque: fitting it to a matrix and its target labels
      yields a function from a feature vector to a label. */
  type Classifier = seq<real> -> Label
  type Fit = (seq<seq<real>>, seq<Label>) -> Classifier

  /** The training precondition: a popularity column and at least one feature. */
  predicate Trainable(t: Table, features: seq<string>) {
    PopularityColumn in t.columns && |features| > 0
  }

  /** pd.cut succeeds: a non-empty, numeric popularity column. */
  predicate Binnable(t: Table) {
    |t.rows| > 0 && NumericColumn(t, PopularityColumn)
  }

  // ---------------------------------------------------------------------
  // Results of the query operations
  // ---------------------------------------------------------------------

  /** A feature and the strength of its correlation with popularity; the
      strength is NaN when the correlation is undefined (a constant column, or
      fewer than two rows). */
  datatype Scored = Scored(feature: string, strength: Stat)

  /** The semantic content of a chart; rendering it to an image is not part
      of this model. */
  datatype Chart =
    | PopularityChart(histogram: seq<real>, ranking: seq<Scored>)
    | CorrelationHeatmap(features: seq<string>)
    | FeatureChart(feature: string, histogram: seq<real>, againstPopularity: bool)

  datatype Analysis = Analysis(text: string, chart: Option<Chart>)

  /** Float formatting (`:.1f`, `:.3f`) and `str.title()`, left abstract. */
  datatype Formatter = Formatter(fixed1: Stat -> string, fixed3: Stat -> string, title: string -> string)

  datatype Summary = Summary(totalSongs: nat, columnCount: nat, audioFeatures: seq<string>,
                             averagePopularity: Option<Stat>)

  function Abs(x: real): real { if x < 0.0 then -x else x }

  /** `abs()` on a statistic: NaN stays NaN. */
  function AbsStat(x: Stat): (r: Stat)
    ensures r.NaN? <==> x.NaN?
    ensures r.Finite? ==> r.x >= 0.0 && (r.x == x.x || r.x == -x.x)
  {
    match x
    case NaN => NaN
    case Finite(v) => Finite(Abs(v))
  }

  /** The order of `sort_values()`: numbers ascending, NaN after every
      number (`na_position='last'`). */
  predicate AtMost(a: Stat, b: Stat) {
    b.NaN? || (a.Finite? && a.x <= b.x)
  }

  /** The order is total and transitive, so sorting by it is well defined. */
  lemma AtMostTotalOrder(a: Stat, b: Stat, c: Stat)
    ensures AtMost(a, a)
    ensures AtMost(a, b) || AtMost(b, a)
    ensures AtMost(a, b) && AtMost(b, c) ==> AtMost(a, c)
    ensures AtMost(NaN, b) ==> b.NaN?
  {
  }

  /** `df[features].corrwith(df.popularity).abs()`, pairing each feature with
      the magnitude of its correlation. */
  function Scores(features: seq<string>, corr: string -> Stat): (s: seq<Scored>)
    ensures |s| == |features|
    ensures forall k :: 0 <= k < |features| ==>
      s[k].feature == features[k] && s[k].strength == AbsStat(corr(features[k]))
  {
    seq(|features|, k requires 0 <= k < |features| => Scored(features[k], AbsStat(corr(features[k]))))
  }

  predicate Ascending(s: seq<Scored>) {
    forall i, j :: 0 <= i <= j < |s| ==> AtMost(s[i].strength, s[j].strength)
  }

  /** Putting an element no stronger than all of `t` in front keeps `t`
      ascending. */
  lemma ConsAscending(a: Scored, t: seq<Scored>)
    requires Ascending(t) && forall j :: 0 <= j < |t| ==> AtMost(a.strength, t[j].strength)
    ensures Ascending([a] + t)
  {
    var r := [a] + t;
    forall i, j | 0 <= i <= j < |r| ensures AtMost(r[i].strength, r[j].strength) {
      if 0 < i {
        assert r[i] == t[i - 1] && r[j] == t[j - 1];
      } else if 0 < j {
        assert r[j] == t[j - 1];
      }
    }
  }

  /** Every element of a permutation of `rest + [x]` is at least `lo` when
      `x` and every element of `rest` are. */
  lemma BoundedPermutation(lo: Stat, x: Scored, rest: seq<Scored>, t: seq<Scored>)
    requires multiset(t) == multiset(rest) + multiset{x}
    requires AtMost(lo, x.strength) && forall j :: 0 <= j < |rest| ==> AtMost(lo, rest[j].strength)
    ensures forall j :: 0 <= j < |t| ==> AtMost(lo, t[j].strength)
  {
    forall j | 0 <= j < |t| ensures AtMost(lo, t[j].strength) {
      assert t[j] in multiset(t);
      if t[j] != x {
        assert t[j] in multiset(rest);
        var k :| 0 <= k < |rest| && rest[k] == t[j];
      }
    }
  }

  /** One step of insertion sort. */
  function Insert(x: Scored, s: seq<Scored>): (r: seq<Scored>)
    requires Ascending(s)
    ensures Ascending(r)
    ensures multiset(r) == multiset(s) + multiset{x}
  {
    if |s| == 0 then [x]
    else if !AtMost(s[0].strength, x.strength) then
      ConsAscending(x, s);
      [x] + s
    else
      var rest := s[1..];
      assert s == [s[0]] + rest;
      var t := Insert(x, rest);
      BoundedPermutation(s[0].strength, x, rest, t);
      ConsAscending(s[0], t);
      [s[0]] + t
  }

  /** An ascending sort by strength (`sort_values()`). */
  function SortAscending(xs: seq<Scored>): (r: seq<Scored>)
    ensures Ascending(r)
    ensures multiset(r) == multiset(xs)
  {
    if |xs| == 0 then []
    else
      assert xs == [xs[0]] + xs[1..];
      Insert(xs[0], SortAscending(xs[1..]))
  }

  /** In an ascending sequence, every element before index n is at most
      every element from n on. */
  lemma {:induction false} SplitOfAscending(s: seq<Scored>, n: nat)
    requires Ascending(s) && n <= |s|
    ensures multiset(s) - multiset(s[n..]) == multiset(s[..n])
    ensures forall x, y :: x in multiset(s[..n]) && y in s[n..] ==> AtMost(x.strength, y.strength)
  {
    assert s == s[..n] + s[n..];
    assert multiset(s) == multiset(s[..n]) + multiset(s[n..]);
    forall x, y | x in multiset(s[..n]) && y in s[n..]
      ensures AtMost(x.strength, y.strength)
    {
      var i :| 0 <= i < n && s[i] == x;
      var j :| n <= j < |s| && s[j] == y;
    }
  }

  /** A suffix of an ascending sequence is ascending. */
  lemma {:induction false} SuffixAscending(s: seq<Scored>, n: nat)
    requires Ascending(s) && n <= |s|
    ensures Ascending(s[n..])
  {
    var r := s[n..];
    forall i, j | 0 <= i <= j < |r| ensures AtMost(r[i].strength, r[j].strength) {
      assert r[i] == s[n + i] && r[j] == s[n + j];
    }
  }

  /** A suffix of a permutation of `xs` is taken from `xs`. */
  lemma {:induction false} SuffixTakenFrom(xs: seq<Scored>, s: seq<Scored>, n: nat)
    requires Ascending(s) && multiset(s) == multiset(xs) && n <= |s|
    ensures multiset(s[n..]) <= multiset(xs)
  {
    var r := s[n..];
    assert s == s[..n] + r;
    assert multiset(s) == multiset(s[..n]) + multiset(r);
  }

  /** No element of `xs` left out of a suffix of its sorted permutation is
      stronger than one kept. */
  lemma {:induction false} SuffixHoldsStrongest(xs: seq<Scored>, s: seq<Scored>, n: nat)
    requires Ascending(s) && multiset(s) == multiset(xs) && n <= |s|
    ensures forall x, y :: x in multiset(xs) - multiset(s[n..]) && y in s[n..] ==> AtMost(x.strength, y.strength)
  {
    SplitOfAscending(s, n);
  }

  /** `sort_values().tail(5)`: the five strongest scores, weakest first. */
  function TopFive(xs: seq<Scored>): (r: seq<Scored>)
    ensures |r| == Min(5, |xs|)
    ensures Ascending(r)
    ensures multiset(r) <= multiset(xs)
    ensures forall x, y :: x in multiset(xs) - multiset(r) && y in r ==> AtMost(x.strength, y.strength)
  {
    var s := SortAscending(xs);
    assert |s| == |xs| by {
      assert |multiset(s)| == |multiset(xs)|;
    }
    var n := |s| - Min(5, |s|);
    SuffixAscending(s, n);
    SuffixTakenFrom(xs, s, n);
    SuffixHoldsStrongest(xs, s, n);
    s[n..]
  }

  /** A feature whose correlation is undefined sorts after every number, so
      it is left out of the top five only when every kept score is undefined
      as well. */
  lemma UndefinedScoresRankStrongest(xs: seq<Scored>, x: Scored)
    requires x in multiset(xs) - multiset(TopFive(xs)) && x.strength.NaN?
    ensures forall y :: y in TopFive(xs) ==> y.strength.NaN?
  {
  }

  /** The value a prediction uses for one feature, when the caller supplied a
      usable one: absent keys, `None`, the text "none" in any letter case and
      values `float()` rejects give `None`. */
  function Supplied(values: map<string, Json>, feat: string, parseFloat: string -> Option<real>): (r: Option<real>)
    ensures r.Some? ==> feat in values && (values[feat].Number? || values[feat].Bool? || values[feat].Str?)
    ensures feat in values && values[feat].Number? ==> r == Some(values[feat].x)
    ensures feat in values && values[feat].Bool? ==> r == Some(if values[feat].b then 1.0 else 0.0)
    ensures feat in values && values[feat].Str? ==>
      (r.Some? <==> AsciiLower(values[feat].s) != "none" && parseFloat(values[feat].s).Some?) &&
      (r.Some? ==> r == parseFloat(values[feat].s))
  {
    if feat !in values then None
    else
      match values[feat]
      case Null => None
      case Str(s) => if AsciiLower(s) == "none" then None else parseFloat(s)
      case Number(x) => Some(x)
      case Bool(b) => Some(if b then 1.0 else 0.0)
      case Array(_) => None
      case Object(_) => None
  }

  const NotTrained: string := "Model not trained."

  function PredictedText(l: Label): string {
    "\U{1F3B5} Predicted: " + LabelName(l) + " popularity"
  }


  /** A sum of n values lies between n times their lower and upper bounds. */
  lemma {:induction false} SumBounds(xs: seq<real>, lo: real, hi: real)
    requires forall i :: 0 <= i < |xs| ==> lo <= xs[i] <= hi
    ensures |xs| as real * lo <= Sum(xs) <= |xs| as real * hi
  {
    if |xs| > 0 {
      SumBounds(xs[..|xs| - 1], lo, hi);
    }
  }

  /** Dividing by a positive count keeps a value between the bounds. */
  lemma DivBetween(s: real, n: real, lo: real, hi: real)
    requires n > 0.0 && n * lo <= s <= n * hi
    ensures lo <= s / n <= hi
  {
    var q := s / n;
    assert q * n == s;
    assert (q - lo) * n == s - n * lo;
    assert (hi - q) * n == n * hi - s;
  }

  /** The mean of values that all lie in [lo, hi] lies there too. */
  lemma BoundedMean(total: real, count: nat, lo: real, hi: real, xs: seq<real>)
    requires count > 0 && |xs| == count && total == Sum(xs)
    requires forall i :: 0 <= i < |xs| ==> lo <= xs[i] <= hi
    ensures lo <= total / count as real <= hi
  {
    SumBounds(xs, lo, hi);
    DivBetween(total, count as real, lo, hi);
  }

  /** The mean of a non-empty sequence lies between its minimum and maximum. */
  lemma MeanBetween(xs: seq<real>)
    requires |xs| > 0
    ensures MinOf(xs) <= Sum(xs) / |xs| as real <= MaxOf(xs)
  {
    BoundedMean(Sum(xs), |xs|, MinOf(xs), MaxOf(xs), xs);
  }

  /** The mean of a numeric column over the whole table (`df[c].mean()`):
      it lies between the column's minimum and maximum. */
  function ColumnMean(t: Table, c: string): (m: real)
    requires NumericColumn(t, c) && |t.rows| > 0
    ensures Mean(Numbers(t, c)) == Finite(m)
    ensures MinOf(Numbers(t, c)) <= m <= MaxOf(Numbers(t, c))
  {
    var xs := Numbers(t, c);
    MeanBetween(xs);
    Sum(xs) / |xs| as real
  }

  /** The feature vector `predict_song` classifies: one entry per feature, in
      feature order, the supplied number or else the column mean. */
  function InputVector(t: Table, fs: seq<string>, values: map<string, Json>,
                       parseFloat: string -> Option<real>): (v: seq<real>)
    requires AllNumeric(t, fs) && |t.rows| > 0
    ensures |v| == |fs|
    ensures forall k :: 0 <= k < |fs| && Supplied(values, fs[k], parseFloat).None? ==>
      v[k] == ColumnMean(t, fs[k])
    ensures forall k :: 0 <= k < |fs| && Supplied(values, fs[k], parseFloat).Some? ==>
      v[k] == Supplied(values, fs[k], parseFloat).value
  {
    seq(|fs|, k requires 0 <= k < |fs| =>
      assert fs[k] in fs; Supplied(values, fs[k], parseFloat).GetOr(ColumnMean(t, fs[k])))
  }

  /** Entry `i` of the vector extends its prefix by the value for feature `i`. */
  lemma InputVectorStep(t: Table, fs: seq<string>, values: map<string, Json>,
                        parseFloat: string -> Option<real>, i: nat)
    requires AllNumeric(t, fs) && |t.rows| > 0 && i < |fs|
    ensures NumericColumn(t, fs[i])
    ensures InputVector(t, fs, values, parseFloat)[..i + 1] ==
      InputVector(t, fs, values, parseFloat)[..i] + [Supplied(values, fs[i], parseFloat).GetOr(ColumnMean(t, fs[i]))]
  {
    assert fs[i] in fs;
    var v := InputVector(t, fs, values, parseFloat);
    assert v[..i + 1] == v[..i] + [v[i]];
  }

  /** The imputation rule, per feature: the column mean when the value is
      absent, `None`, the text "none" in any letter case, or something `float()`
      rejects; otherwise the number it denotes. */
  lemma ImputationRule(t: Table, fs: seq<string>, values: map<string, Json>,
                       parseFloat: string -> Option<real>, k: nat)
    requires AllNumeric(t, fs) && |t.rows| > 0 && k < |fs|
    ensures var v, f := InputVector(t, fs, values, parseFloat), fs[k];
      && (f !in values ==> v[k] == ColumnMean(t, f))
      && (f in values && values[f].Null? ==> v[k] == ColumnMean(t, f))
      && (f in values && values[f].Str? && AsciiLower(values[f].s) == "none" ==> v[k] == ColumnMean(t, f))
      && (f in values && values[f].Str? && AsciiLower(values[f].s) != "none" ==>
            v[k] == parseFloat(values[f].s).GetOr(ColumnMean(t, f)))
      && (f in values && (values[f].Array? || values[f].Object?) ==> v[k] == ColumnMean(t, f))
      && (f in values && values[f].Number? ==> v[k] == values[f].x)
      && (f in values && values[f].Bool? ==> v[k] == if values[f].b then 1.0 else 0.0)
  {
    var v, f := InputVector(t, fs, values, parseFloat), fs[k];
    assert v[k] == Supplied(values, f, parseFloat).GetOr(ColumnMean(t, f));
  }

  /** Each feature is resolved independently of the others: two inputs that
      agree on one feature give the same entry for it. */
  lemma ImputationPerFeature(t: Table, fs: seq<string>, v1: map<string, Json>, v2: map<string, Json>,
                             parseFloat: string -> Option<real>, k: nat)
    requires AllNumeric(t, fs) && |t.rows| > 0 && k < |fs|
    requires fs[k] in v1 <==> fs[k] in v2
    requires fs[k] in v1 ==> v1[fs[k]] == v2[fs[k]]
    ensures InputVector(t, fs, v1, parseFloat)[k] == InputVector(t, fs, v2, parseFloat)[k]
  {
    assert Supplied(v1, fs[k], parseFloat) == Supplied(v2, fs[k], parseFloat);
  }

  /** Appending one cell to every row of equal-width, pairwise different rows
      keeps them pairwise different. */
  lemma AppendKeepsDistinct(rows: seq<Row>, cells: seq<Option<Value>>, rows': seq<Row>, width: nat)
    requires Distinct(rows) && |cells| == |rows| == |rows'|
    requires forall i :: 0 <= i < |rows| ==> |rows[i]| == width && rows'[i] == rows[i] + [cells[i]]
    ensures Distinct(rows')
  {
    forall i, j | 0 <= i < j < |rows'| ensures rows'[i] != rows'[j] {
      assert rows'[i][..width] == rows[i] && rows'[j][..width] == rows[j];
    }
  }

  /** The table after training adds the category column: still clean, with
      the same feature list, popularity and feature columns. */
  lemma {:induction false} CategoryColumnKeepsTable(t: Table, fs: seq<string>, ls: seq<Label>)
    requires Rectangular(t) && AllComplete(t.rows) && fs == SelectFeatures(t.columns)
    requires |ls| == |t.rows| && Binnable(t)
    ensures var t' := WithColumn(t, CategoryColumn, LabelCells(ls));
      && Rectangular(t') && AllComplete(t'.rows) && |t'.rows| == |t.rows|
      && fs == SelectFeatures(t'.columns)
      && Binnable(t') && Numbers(t', PopularityColumn) == Numbers(t, PopularityColumn)
      && (AllNumeric(t', fs) <==> AllNumeric(t, fs))
      && (Distinct(t.rows) && CategoryColumn !in t.columns ==> Distinct(t'.rows))
  {
    var cells := LabelCells(ls);
    var t' := WithColumn(t, CategoryColumn, cells);
    if CategoryColumn !in t.columns {
      PresentIgnoresOtherColumn(Candidates, t.columns, CategoryColumn);
      if Distinct(t.rows) {
        AppendKeepsDistinct(t.rows, cells, t'.rows, |t.columns|);
      }
    }
    WithColumnKeepsOtherColumns(t, CategoryColumn, cells, PopularityColumn);
    forall i | 0 <= i < |t'.rows| ensures Complete(t'.rows[i]) {
      assert Complete(t.rows[i]);
    }
    forall f | f in fs ensures NumericColumn(t', f) <==> NumericColumn(t, f) {
      WithColumnKeepsOtherColumns(t, CategoryColumn, cells, f);
    }
  }

  // ---------------------------------------------------------------------
  // SpotifyDataAnalyzer
  // ---------------------------------------------------------------------

  class SpotifyDataAnalyzer {
    var df: Table
    var features: seq<string>
    var model: Option<Classifier>

    /** The state after construction: a clean table, the feature list, and a
        model exactly when the training precondition holds. */
    ghost predicate Valid()
      reads this
    {
      && Rectangular(df)
      && AllComplete(df.rows)
      && features == SelectFeatures(df.columns)
      && (model.Some? <==> Trainable(df, features))
      && (model.Some? ==> Binnable(df) && AllNumeric(df, features))
    }

    /** `self.df = pd.read_csv(path)`: the loaded table (reading the file is
        not modelled). */
    constructor Read(table: Table)
      requires Rectangular(table)
      ensures df == table && features == [] && model.None?
    {
      df := table;
      features := [];
      model := None;
    }

    /** `clean_data`. */
    method CleanData()
      requires Rectangular(df)
      modifies this
      ensures df == Clean(old(df))
      ensures features == SelectFeatures(df.columns)
      ensures model == old(model)
    {
      ghost var c := Clean(df);
      df := df.(rows := DropMissing(df.rows));
      df := df.(rows := DropDuplicates(df.rows));
      features := SelectFeatures(df.columns);
    }

    /** The popularity column's labels (pd.cut), the target of training. */
    function PopularityCategories(): (ls: seq<Label>)
      reads this
      requires Binnable(df)
      ensures |ls| == |df.rows|
      ensures var pops := Numbers(df, PopularityColumn);
        forall i :: 0 <= i < |ls| ==> ls[i] == Categorize(pops[i], MinOf(pops), MaxOf(pops))
    {
      Categories(Numbers(df, PopularityColumn))
    }

    /** `train_model`. `raised` reports an exception escaping from pd.cut
        (empty or non-numeric popularity) or from fitting (a non-numeric
        feature column). */
    method TrainModel(fit: Fit) returns (raised: bool)
      requires Rectangular(df) && AllComplete(df.rows)
      requires features == SelectFeatures(df.columns) && model.None?
      modifies this
      ensures features == old(features)
      ensures !Trainable(old(df), features) ==> !raised && df == old(df) && model.None?
      ensures Trainable(old(df), features) && !Binnable(old(df)) ==> raised && df == old(df) && model.None?
      ensures Trainable(old(df), features) && Binnable(old(df)) ==>
        && df == WithColumn(old(df), CategoryColumn, LabelCells(old(PopularityCategories())))
        && (raised <==> !AllNumeric(df, features))
        && (raised <==> !AllNumeric(old(df), features))
        && (!raised ==> model == Some(fit(FeatureMatrix(df, features), old(PopularityCategories()))))
      ensures raised ==> model.None?
      ensures !raised ==> Valid()
    {
      raised := false;
      if PopularityColumn in df.columns && |features| > 0 {
        if !Binnable(df) {
          raised := true;
          return;
        }
        var y := PopularityCategories();
        CategoryColumnKeepsTable(df, features, y);
        df := WithColumn(df, CategoryColumn, LabelCells(y));
        if !AllNumeric(df, features) {
          raised := true;
          return;
        }
        model := Some(fit(FeatureMatrix(df, features), y));
      }
    }

    /** What `predict_song(values)` returns; once the model exists `values`
        must be a mapping (`.get` is called on it). */
    function Prediction(values: Json, parseFloat: string -> Option<real>): (r: Attempt<string>)
      reads this
      requires Valid()
      ensures model.None? ==> r == Returned(NotTrained)
      ensures model.Some? && !values.Object? ==> r.Raises?
      ensures model.Some? && values.Object? ==>
        r == Returned(PredictedText(model.value(InputVector(df, features, values.fields, parseFloat))))
    {
      if model.None? then Returned(NotTrained)
      else if !values.Object? then Raises
      else Returned(PredictedText(model.value(InputVector(df, features, values.fields, parseFloat))))
    }

    /** `predict_song`: fills the feature vector one feature at a time. */
    method PredictSong(values: Json, parseFloat: string -> Option<real>) returns (r: Attempt<string>)
      requires Valid()
      ensures r == Prediction(values, parseFloat)
    {
      if model.None? {
        return Returned(NotTrained);
      }
      var t, fs, m := df, features, model.value;
      assert AllNumeric(t, fs) && |t.rows| > 0;
      var input: seq<real> := [];
      for i := 0 to |fs|
        invariant values.Object? ==> input == InputVector(t, fs, values.fields, parseFloat)[..i]
      {
        if !values.Object? {
          return Raises;
        }
        var feat := fs[i];
        InputVectorStep(t, fs, values.fields, parseFloat, i);
        var clean: real;
        match Supplied(values.fields, feat, parseFloat) {
          case Some(x) => clean := x;
          case None => clean := ColumnMean(t, feat);
        }
        input := input + [clean];
      }
      if !values.Object? {
        return Raises;
      }
      ghost var v := InputVector(t, fs, values.fields, parseFloat);
      assert input == v[..|v|] == v;
      r := Returned(PredictedText(m(input)));
    }

    /** The facts `get_summary` reports; `r` raises when the popularity column
        exists but is not numeric (describe() then has no mean). */
    function Summarize(): (r: Attempt<Summary>)
      reads this
      requires Valid()
      ensures r.Raises? <==> PopularityColumn in df.columns && !NumericColumn(df, PopularityColumn)
      ensures r.Returned? ==>
        && r.value.totalSongs == |df.rows| && r.value.columnCount == |df.columns|
        && |r.value.audioFeatures| == Min(5, |features|)
        && r.value.audioFeatures == features[..|r.value.audioFeatures|]
        && (forall f :: f in r.value.audioFeatures ==> f in Candidates && f in df.columns)
        && (r.value.averagePopularity.Some? <==> PopularityColumn in df.columns)
      ensures r.Returned? && PopularityColumn in df.columns ==>
        NumericColumn(df, PopularityColumn) &&
        r.value.averagePopularity == Some(Mean(Numbers(df, PopularityColumn)))
    {
      var shown := features[..Min(5, |features|)];
      assert forall f :: f in shown ==> f in features;
      if PopularityColumn !in df.columns then
        Returned(Summary(|df.rows|, |df.columns|, shown, None))
      else if !NumericColumn(df, PopularityColumn) then Raises
      else Returned(Summary(|df.rows|, |df.columns|, shown, Some(Mean(Numbers(df, PopularityColumn)))))
    }

    /** `get_summary`: the summary as text. */
    function GetSummary(fmt: Formatter): (r: Attempt<string>)
      reads this
      requires Valid()
      ensures r.Raises? <==> PopularityColumn in df.columns && !NumericColumn(df, PopularityColumn)
      ensures r.Returned? ==>
        var head := "\n**Dataset Summary:**\n• Total songs: " + NatToDecimal(|df.rows|) +
                    "\n• Features: " + NatToDecimal(|df.columns|) +
                    "\n• Audio features: " + Join(", ", features[..Min(5, |features|)]) + "\n";
        && (PopularityColumn !in df.columns ==> r.value == head)
        && (PopularityColumn in df.columns ==>
              r.value == head + "• Average popularity: " + fmt.fixed1(Mean(Numbers(df, PopularityColumn))) + "/100\n")
    {
      match Summarize()
      case Raises => Raises
      case Returned(s) =>
        var head := "\n**Dataset Summary:**\n• Total songs: " + NatToDecimal(s.totalSongs) +
                    "\n• Features: " + NatToDecimal(s.columnCount) +
                    "\n• Audio features: " + Join(", ", s.audioFeatures) + "\n";
        match s.averagePopularity
        case None => Returned(head)
        case Some(m) => Returned(head + "• Average popularity: " + fmt.fixed1(m) + "/100\n")
    }

    /** `analyze_popularity`: a guard text without popularity; otherwise the
        histogram of popularity and the five features most correlated with it.
        With no feature there is nothing to plot in the bar chart, which raises. */
    function AnalyzePopularity(corr: string -> Stat, fmt: Formatter): (r: Attempt<Analysis>)
      reads this
      requires Valid()
      ensures PopularityColumn !in df.columns ==> r == Returned(Analysis("Popularity data not available.", None))
      ensures PopularityColumn in df.columns && (!NumericColumn(df, PopularityColumn) || |features| == 0) ==> r.Raises?
      ensures PopularityColumn in df.columns && NumericColumn(df, PopularityColumn) && |features| > 0 ==>
        r.Returned? && r.value.chart.Some? && r.value.chart.value.PopularityChart? &&
        var ranking := r.value.chart.value.ranking;
        && r.value.chart.value.histogram == Numbers(df, PopularityColumn)
        && |ranking| == Min(5, |features|)
        && Ascending(ranking)
        && multiset(ranking) <= multiset(Scores(features, corr))
        && (forall x, y :: x in multiset(Scores(features, corr)) - multiset(ranking) && y in ranking ==>
              AtMost(x.strength, y.strength))
    {
      if PopularityColumn !in df.columns then Returned(Analysis("Popularity data not available.", None))
      else if !NumericColumn(df, PopularityColumn) || |features| == 0 then Raises
      else
        var pops := Numbers(df, PopularityColumn);
        var ranking := TopFive(Scores(features, corr));
        Returned(Analysis("\U{1F3B5} **Popularity Analysis:**\nAverage: " + fmt.fixed1(Mean(pops)) + "/100",
                          Some(PopularityChart(pops, ranking))))
    }

    /** `show_correlations`: needs two features; the pandas correlation of a
        non-numeric feature column raises. */
    function ShowCorrelations(): (r: Attempt<Analysis>)
      reads this
      requires Valid()
      ensures |features| < 2 ==> r == Returned(Analysis("Not enough features.", None))
      ensures |features| >= 2 ==> (r.Raises? <==> !AllNumeric(df, features))
      ensures r.Returned? && |features| >= 2 ==> r.value.chart == Some(CorrelationHeatmap(features))
    {
      if |features| < 2 then Returned(Analysis("Not enough features.", None))
      else if !AllNumeric(df, features) then Raises
      else Returned(Analysis("\U{1F517} **Feature Correlations**\nRed = positive, Blue = negative",
                             Some(CorrelationHeatmap(features))))
    }

    /** `analyze_feature`: any column of the table can be inspected; a
        non-numeric one raises (describe() has no mean). */
    function AnalyzeFeature(name: string, fmt: Formatter): (r: Attempt<Analysis>)
      reads this
      requires Valid()
      ensures name !in df.columns ==> r == Returned(Analysis("Feature '" + name + "' not found.", None))
      ensures name in df.columns ==> (r.Raises? <==> !NumericColumn(df, name))
      ensures r.Returned? && name in df.columns ==>
        r.value.chart == Some(FeatureChart(name, Numbers(df, name), PopularityColumn in df.columns))
    {
      if name !in df.columns then Returned(Analysis("Feature '" + name + "' not found.", None))
      else if !NumericColumn(df, name) then Raises
      else
        var xs := Numbers(df, name);
        Returned(Analysis(" **" + fmt.title(name) + ":** Avg: " + fmt.fixed3(Mean(xs)) +
                          ", Range: " + fmt.fixed3(Lowest(xs)) + "-" + fmt.fixed3(Highest(xs)),
                          Some(FeatureChart(name, xs, PopularityColumn in df.columns))))
    }
  }

  /** A constructed analyzer has a model exactly when the table has a
      popularity column and at least one audio feature; without one every
      prediction is the fixed "not trained" text. */
  lemma ModelExistsIff(a: SpotifyDataAnalyzer, values: Json, parseFloat: string -> Option<real>)
    requires a.Valid()
    ensures a.model.Some? <==> PopularityColumn in a.df.columns && |a.features| > 0
    ensures a.model.None? ==> a.Prediction(values, parseFloat) == Returned("Model not trained.")
  {
  }

  /** Constructing an analyzer over `t` completes: training is skipped, or
      pd.cut and fitting both succeed on the cleaned table. */
  predicate Opens(t: Table)
    requires Rectangular(t)
  {
    var c := Clean(t);
    !Trainable(c, SelectFeatures(t.columns)) || (Binnable(c) && AllNumeric(c, SelectFeatures(t.columns)))
  }

  /** The popularity labels of the cleaned table, the training target. */
  function TrainingLabels(t: Table): (ls: seq<Label>)
    requires Rectangular(t) && Binnable(Clean(t))
    ensures |ls| == |Clean(t).rows|
  {
    Categories(Numbers(Clean(t), PopularityColumn))
  }

  /** The table held by an analyzer constructed over `t`: the cleaned table,
      with `pop_category` added when training ran. */
  function OpenedTable(t: Table): Table
    requires Rectangular(t) && Opens(t)
  {
    var c := Clean(t);
    if Trainable(c, SelectFeatures(t.columns)) then WithColumn(c, CategoryColumn, LabelCells(TrainingLabels(t)))
    else c
  }

  /** The two-row table of `OverwriteCanMergeRows`. */
  function SampleTable(): Table {
    Table([PopularityColumn, DefaultFeature, CategoryColumn],
          [[Some(Num(1.0)), Some(Num(0.5)), Some(Text("a"))],
           [Some(Num(1.0)), Some(Num(0.5)), Some(Text("b"))]])
  }

  lemma {:induction false} PresentNone(cands: seq<string>, columns: seq<string>)
    requires forall c :: c in cands ==> c !in columns
    ensures Present(cands, columns) == []
  {
    if |cands| > 0 {
      var init := cands[..|cands| - 1];
      assert forall c :: c in init ==> c in cands;
      PresentNone(init, columns);
    }
  }

  /** When exactly one candidate is among the columns, it alone is kept. */
  lemma {:induction false} PresentSingle(cands: seq<string>, columns: seq<string>, x: string)
    requires Distinct(cands) && x in cands
    requires forall c :: c in cands ==> (c in columns <==> c == x)
    ensures Present(cands, columns) == [x]
  {
    var init, last := cands[..|cands| - 1], cands[|cands| - 1];
    assert cands == init + [last];
    assert forall c :: c in init ==> c in cands;
    assert Distinct(init);
    if last == x {
      assert x !in init;
      PresentNone(init, columns);
    } else {
      PresentSingle(init, columns, x);
    }
  }

  /** Columns among which danceability is the only candidate select just it. */
  lemma OnlyFeature(cols: seq<string>)
    requires DefaultFeature in cols
    requires forall c :: c in cols && c != DefaultFeature ==> c !in Candidates
    ensures SelectFeatures(cols) == [DefaultFeature]
  {
    assert Distinct(Candidates);
    PresentSingle(Candidates, cols, DefaultFeature);
  }

  lemma SampleFeatures()
    ensures SelectFeatures(SampleTable().columns) == [DefaultFeature]
  {
    assert PopularityColumn !in Candidates && CategoryColumn !in Candidates;
    OnlyFeature(SampleTable().columns);
  }

  lemma SampleRectangular()
    ensures Rectangular(SampleTable())
    ensures SampleTable().rows[0] != SampleTable().rows[1]
  {
    var t := SampleTable();
    assert t.rows[0][2] != t.rows[1][2];
  }

  lemma SampleComplete()
    ensures DropMissing(SampleTable().rows) == SampleTable().rows
  {
    var rows := SampleTable().rows;
    assert Complete(rows[0]) && Complete(rows[1]);
    assert rows[..1][..0] == [];
    assert DropMissing(rows[..1]) == rows[..1];
    assert rows[..1] + [rows[1]] == rows;
  }

  lemma SampleIsClean()
    ensures Rectangular(SampleTable()) && Clean(SampleTable()) == SampleTable()
  {
    var rows := SampleTable().rows;
    SampleRectangular();
    SampleComplete();
    assert rows[..1][..0] == [];
    assert DropDuplicates(rows[..1]) == rows[..1];
    assert rows[..1] + [rows[1]] == rows;
    assert DropDuplicates(rows) == rows;
  }

  /** A data file that already has a `pop_category` column gets it
      overwritten by training; rows that differed only there become equal, so
      a constructed analyzer's table can hold duplicates. */
  lemma OverwriteCanMergeRows()
    ensures Rectangular(SampleTable()) && Distinct(SampleTable().rows)
    ensures Opens(SampleTable()) && !Distinct(OpenedTable(SampleTable()).rows)
  {
    var t := SampleTable();
    SampleOpens();
    var cells := LabelCells([Medium, Medium]);
    var o := WithColumn(t, CategoryColumn, cells);
    assert Position(t.columns, CategoryColumn) == 2 by {
      assert t.columns[0] != CategoryColumn && t.columns[1] != CategoryColumn;
    }
    assert cells[0] == cells[1];
    UpdateMerges(t.rows[0], t.rows[1], 2, cells[0]);
    assert o.rows[0] == o.rows[1];
  }

  /** Two rows that differ at most in cell `k` are equal once that cell is
      overwritten with the same value. */
  lemma UpdateMerges(a: Row, b: Row, k: nat, v: Option<Value>)
    requires |a| == |b| && k < |a|
    requires forall i :: 0 <= i < |a| && i != k ==> a[i] == b[i]
    ensures a[k := v] == b[k := v]
  {
  }

  lemma SampleLabels()
    ensures Categories([1.0, 1.0]) == [Medium, Medium]
  {
    var ls := Categories([1.0, 1.0]);
    assert MinOf([1.0, 1.0]) == 1.0 == MaxOf([1.0, 1.0]);
  }

  /** The sample table opens, and training overwrites its `pop_category`
      column with the labels of its popularity column. */
  lemma SampleOpens()
    ensures Rectangular(SampleTable()) && Distinct(SampleTable().rows) && Opens(SampleTable())
    ensures OpenedTable(SampleTable()) == WithColumn(SampleTable(), CategoryColumn, LabelCells([Medium, Medium]))
  {
    var t := SampleTable();
    SampleRectangular();
    SampleIsClean();
    SampleTrains();
    SampleTrainingLabels();
    assert OpenedTable(t) == WithColumn(Clean(t), CategoryColumn, LabelCells(TrainingLabels(t)));
  }

  /** The sample table is trainable, and training succeeds on it. */
  lemma SampleTrains()
    ensures Rectangular(SampleTable())
    ensures Trainable(Clean(SampleTable()), SelectFeatures(SampleTable().columns))
    ensures Binnable(Clean(SampleTable())) && AllNumeric(Clean(SampleTable()), SelectFeatures(SampleTable().columns))
  {
    SampleIsClean();
    SampleFeatures();
    SampleNumeric();
  }

  lemma SampleTrainingLabels()
    ensures Rectangular(SampleTable()) && Binnable(Clean(SampleTable()))
    ensures TrainingLabels(SampleTable()) == [Medium, Medium]
  {
    SampleIsClean();
    SampleNumeric();
    SampleLabels();
  }

  lemma SampleNumeric()
    ensures NumericColumn(SampleTable(), PopularityColumn) && NumericColumn(SampleTable(), DefaultFeature)
    ensures Numbers(SampleTable(), PopularityColumn) == [1.0, 1.0]
  {
    var t := SampleTable();
    assert Position(t.columns, PopularityColumn) == 0;
    assert Position(t.columns, DefaultFeature) == 1;
  }

  /** `SpotifyDataAnalyzer(path)` on a loaded table: read, clean, train.
      `null` stands for the exception training lets escape. */
  method Open(table: Table, fit: Fit) returns (a: SpotifyDataAnalyzer?)
    requires Rectangular(table)
    ensures a != null <==> Opens(table)
    ensures a != null ==> fresh(a) && a.Valid()
    ensures a != null ==> a.df == OpenedTable(table) && a.features == SelectFeatures(table.columns)
    ensures a != null ==> (a.model.Some? <==> Trainable(Clean(table), a.features))
    ensures a != null && a.model.Some? ==> a.model.value == fit(FeatureMatrix(a.df, a.features), TrainingLabels(table))
  {
    var an := new SpotifyDataAnalyzer.Read(table);
    an.CleanData();
    var raised := an.TrainModel(fit);
    if raised {
      return null;
    }
    a := an;
  }
}
