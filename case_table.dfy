/**
 * The table logic that the three role dashboards and the case-report page
 * share: status filters and counts, the sort toggle, the comparator that
 * `Array.prototype.sort` is given, page slicing, age and category buckets
 * for the pie charts, the per-month bar counts, and the table's UI state.
 * Per-page constants (age tables, titles, action rules) live in the
 * modules of the individual pages.
 */
module CaseTable {
  import opened Js

  // ---------------------------------------------------------------------
  // Filtering and counting
  // ---------------------------------------------------------------------

  /** `rows.filter(keep)`. */
  function Filter(rows: seq<Record>, keep: Record -> bool): (r: seq<Record>)
    ensures |r| <= |rows|
    ensures forall x :: x in r <==> x in rows && keep(x)
  {
    if rows == [] then []
    else Filter(rows[..|rows| - 1], keep) + (if keep(rows[|rows| - 1]) then [rows[|rows| - 1]] else [])
  }

  /** Filtering distributes over concatenation, so it keeps the rows' order. */
  lemma {:induction false} FilterAppend(a: seq<Record>, b: seq<Record>, keep: Record -> bool)
    ensures Filter(a + b, keep) == Filter(a, keep) + Filter(b, keep)
    decreases |b|
  {
    if b == [] {
      assert a + b == a;
    } else {
      var b' := b[..|b| - 1];
      assert (a + b)[..|a + b| - 1] == a + b';
      assert (a + b)[|a + b| - 1] == b[|b| - 1];
      FilterAppend(a, b', keep);
    }
  }

  /** Two filters that never both accept a row select at most all rows between them. */
  lemma {:induction false} FilterDisjoint(rows: seq<Record>, p: Record -> bool, q: Record -> bool)
    requires forall x :: !(p(x) && q(x))
    ensures |Filter(rows, p)| + |Filter(rows, q)| <= |rows|
    decreases |rows|
  {
    if rows != [] {
      FilterDisjoint(rows[..|rows| - 1], p, q);
    }
  }

  /** A filter that accepts every row leaves the rows as they are. */
  lemma {:induction false} FilterAll(rows: seq<Record>, keep: Record -> bool)
    requires forall x :: x in rows ==> keep(x)
    ensures Filter(rows, keep) == rows
    decreases |rows|
  {
    if rows != [] {
      var init, last := rows[..|rows| - 1], rows[|rows| - 1];
      assert rows == init + [last];
      assert forall x :: x in init ==> keep(x) by {
        forall x | x in init ensures keep(x) {
          assert x in rows;
        }
      }
      FilterAll(init, keep);
      assert keep(last);
    }
  }

  /** `row.status === status`. */
  predicate HasStatus(row: Record, status: string)
  {
    Get(row, "status") == Some(Str(status))
  }

  /** `rows.filter(p => p.status === status)`. */
  function WithStatus(rows: seq<Record>, status: string): seq<Record>
  {
    Filter(rows, x => HasStatus(x, status))
  }

  /**
   * The "reported today" test of one row,
   * `new Date(row.created_at).toISOString().split('T')[0] === today`:
   * `None` where `toISOString` throws because the rendered date does not
   * parse back (a missing date renders as "Invalid Date").
   */
  type DateTest = Record -> Option<bool>

  /** The test answers for every row, so the summary can be computed without throwing. */
  predicate Answers(rows: seq<Record>, test: DateTest)
  {
    forall i :: 0 <= i < |rows| ==> test(rows[i]).Some?
  }

  /** The test as the filter `patients.filter(...)` applies it, once it answers. */
  function IsNew(test: DateTest): Record -> bool
  {
    x => test(x) == Some(true)
  }

  /** The summary counts of a dashboard card row. */
  datatype Summary = Summary(totalCases: nat, newCases: nat, recovered: nat, deceased: nat)

  /** The counts every dashboard computes when its data arrives. */
  function Summarize(rows: seq<Record>, isNew: Record -> bool): (s: Summary)
    ensures s.totalCases == |rows|
    ensures s.recovered == |WithStatus(rows, "Recovered")|
    ensures s.deceased == |WithStatus(rows, "Dead")|
    ensures s.newCases == |Filter(rows, isNew)|
    ensures s.recovered + s.deceased <= s.totalCases
    ensures s.newCases <= s.totalCases
  {
    FilterDisjoint(rows, x => HasStatus(x, "Recovered"), x => HasStatus(x, "Dead"));
    Summary(|rows|, |Filter(rows, isNew)|, |WithStatus(rows, "Recovered")|, |WithStatus(rows, "Dead")|)
  }

  /** The rows a summary card opens in the modal table (`handleOpenModal`'s switch). */
  function Select(kind: string, rows: seq<Record>, isNew: Record -> bool): seq<Record>
  {
    match kind
    case "total" => rows
    case "new" => Filter(rows, isNew)
    case "recovered" => WithStatus(rows, "Recovered")
    case "deceased" => WithStatus(rows, "Dead")
    case _ => []
  }

  /** What each card type selects, stated in terms of membership and counts. */
  lemma SelectMeaning(kind: string, rows: seq<Record>, isNew: Record -> bool)
    ensures kind == "total" ==> Select(kind, rows, isNew) == rows
    ensures kind == "recovered" ==>
      forall x :: x in Select(kind, rows, isNew) <==> x in rows && HasStatus(x, "Recovered")
    ensures kind == "deceased" ==>
      forall x :: x in Select(kind, rows, isNew) <==> x in rows && HasStatus(x, "Dead")
    ensures kind == "new" ==>
      forall x :: x in Select(kind, rows, isNew) <==> x in rows && isNew(x)
    ensures kind !in {"total", "new", "recovered", "deceased"} ==> Select(kind, rows, isNew) == []
    ensures |Select(kind, rows, isNew)| <= |rows|
  {
  }

  /** The modal opened from a card shows as many rows as the card's count. */
  lemma SelectMatchesSummary(rows: seq<Record>, isNew: Record -> bool)
    ensures |Select("total", rows, isNew)| == Summarize(rows, isNew).totalCases
    ensures |Select("new", rows, isNew)| == Summarize(rows, isNew).newCases
    ensures |Select("recovered", rows, isNew)| == Summarize(rows, isNew).recovered
    ensures |Select("deceased", rows, isNew)| == Summarize(rows, isNew).deceased
  {
  }

  // ---------------------------------------------------------------------
  // Sorting
  // ---------------------------------------------------------------------

  datatype Direction = Asc | Desc

  /** The `sortBy` / `sortDirection` pair of a table. */
  datatype SortState = SortState(sortBy: string, direction: Direction)

  /** `handleSort(column)`. */
  function Toggle(s: SortState, column: string): (r: SortState)
    ensures r.sortBy == column
    ensures r.direction == Desc <==> s.sortBy == column && s.direction == Asc
  {
    SortState(column, if s.sortBy == column && s.direction == Asc then Desc else Asc)
  }

  /** Clicking the current sort column twice restores the sort state. */
  lemma ToggleTwice(s: SortState)
    ensures Toggle(Toggle(s, s.sortBy), s.sortBy) == s
  {
  }

  /** Lexicographic order of strings, as JavaScript's `<` compares two strings. */
  predicate StrLess(a: string, b: string)
    decreases |a|
  {
    if a == [] then b != []
    else b != [] && (a[0] < b[0] || (a[0] == b[0] && StrLess(a[1..], b[1..])))
  }

  lemma {:induction false} StrLessAsymmetric(a: string, b: string)
    ensures !(StrLess(a, b) && StrLess(b, a))
    decreases |a|
  {
    if a != [] && b != [] && a[0] == b[0] {
      StrLessAsymmetric(a[1..], b[1..]);
    }
  }

  lemma {:induction false} StrLessTotal(a: string, b: string)
    ensures a == b || StrLess(a, b) || StrLess(b, a)
    decreases |a|
  {
    if a != [] && b != [] && a[0] == b[0] {
      StrLessTotal(a[1..], b[1..]);
      if a[1..] == b[1..] {
        assert a == [a[0]] + a[1..] && b == [b[0]] + b[1..];
      }
    }
  }

  lemma {:induction false} StrLessTransitive(a: string, b: string, c: string)
    requires StrLess(a, b) && StrLess(b, c)
    ensures StrLess(a, c)
    decreases |a|
  {
    if a != [] && a[0] == b[0] && b[0] == c[0] {
      StrLessTransitive(a[1..], b[1..], c[1..]);
    }
  }

  /**
   * JavaScript `a < b` on two property values. Numbers compare numerically
   * and strings lexicographically; every other pairing is treated as
   * incomparable.
   */
  predicate Less(a: Option<Value>, b: Option<Value>)
  {
    match (a, b)
    case (Some(Num(x)), Some(Num(y))) => x < y
    case (Some(Str(x)), Some(Str(y))) => StrLess(x, y)
    case _ => false
  }

  lemma LessAsymmetric(a: Option<Value>, b: Option<Value>)
    ensures !(Less(a, b) && Less(b, a))
  {
    if a.Some? && b.Some? && a.value.Str? && b.value.Str? {
      StrLessAsymmetric(a.value.s, b.value.s);
    }
  }

  /** The comparator handed to `sort`: -1, 0 or 1 for `a[sortBy]` against `b[sortBy]`. */
  function Compare(a: Record, b: Record, s: SortState): (c: int)
    ensures -1 <= c <= 1
    ensures c == 0 <==> !Less(Get(a, s.sortBy), Get(b, s.sortBy)) && !Less(Get(b, s.sortBy), Get(a, s.sortBy))
  {
    var ka, kb := Get(a, s.sortBy), Get(b, s.sortBy);
    if Less(ka, kb) then (if s.direction == Asc then -1 else 1)
    else if Less(kb, ka) then (if s.direction == Asc then 1 else -1)
    else 0
  }

  /** Swapping the arguments negates the comparator. */
  lemma CompareAntisymmetric(a: Record, b: Record, s: SortState)
    ensures Compare(b, a, s) == -Compare(a, b, s)
  {
    LessAsymmetric(Get(a, s.sortBy), Get(b, s.sortBy));
  }

  datatype Kind = NumberKind | StringKind

  predicate OfKind(v: Option<Value>, k: Kind)
  {
    v.Some? && (if k == NumberKind then v.value.Num? else v.value.Str?)
  }

  /** Every row has a value of the given kind in the sort column. */
  predicate Homogeneous(rows: seq<Record>, key: string, k: Kind)
  {
    forall x :: x in rows ==> OfKind(Get(x, key), k)
  }

  /** On values of one kind the comparator is a total preorder. */
  lemma CompareTransitive(a: Record, b: Record, c: Record, s: SortState, k: Kind)
    requires OfKind(Get(a, s.sortBy), k) && OfKind(Get(b, s.sortBy), k) && OfKind(Get(c, s.sortBy), k)
    requires Compare(a, b, s) <= 0 && Compare(b, c, s) <= 0
    ensures Compare(a, c, s) <= 0
  {
    var ka, kb, kc := Get(a, s.sortBy).value, Get(b, s.sortBy).value, Get(c, s.sortBy).value;
    if k == StringKind {
      StrLessTotal(ka.s, kb.s);
      StrLessTotal(kb.s, kc.s);
      if StrLess(ka.s, kb.s) && StrLess(kb.s, kc.s) { StrLessTransitive(ka.s, kb.s, kc.s); }
      if StrLess(kc.s, kb.s) && StrLess(kb.s, ka.s) { StrLessTransitive(kc.s, kb.s, ka.s); }
      StrLessAsymmetric(ka.s, kc.s);
    }
  }

  /** Stable insertion: `x` goes after every element it does not precede. */
  function Insert(x: Record, sorted: seq<Record>, s: SortState): (r: seq<Record>)
    ensures |r| == |sorted| + 1
    ensures multiset(r) == multiset(sorted) + multiset{x}
  {
    if sorted == [] then [x]
    else if Compare(x, sorted[0], s) < 0 then [x] + sorted
    else
      assert sorted == [sorted[0]] + sorted[1..];
      [sorted[0]] + Insert(x, sorted[1..], s)
  }

  /**
   * `[...rows].sort(comparator)`: a stable sort of a copy (rows are
   * values, so the original sequence is untouched by construction).
   */
  function Sort(rows: seq<Record>, s: SortState): (r: seq<Record>)
    ensures |r| == |rows|
  {
    if rows == [] then [] else Insert(rows[|rows| - 1], Sort(rows[..|rows| - 1], s), s)
  }

  predicate Ordered(rows: seq<Record>, s: SortState)
  {
    forall i, j :: 0 <= i < j < |rows| ==> Compare(rows[i], rows[j], s) <= 0
  }

  /** The sorted copy holds exactly the rows of the input. */
  lemma {:induction false} SortPermutation(rows: seq<Record>, s: SortState)
    ensures multiset(Sort(rows, s)) == multiset(rows)
    decreases |rows|
  {
    if rows != [] {
      SortPermutation(rows[..|rows| - 1], s);
      assert rows == rows[..|rows| - 1] + [rows[|rows| - 1]];
    }
  }

  /** A row no later than every row of an ordered sequence can go in front. */
  lemma OrderedCons(h: Record, r: seq<Record>, s: SortState)
    requires Ordered(r, s)
    requires forall j :: 0 <= j < |r| ==> Compare(h, r[j], s) <= 0
    ensures Ordered([h] + r, s)
  {
    var t := [h] + r;
    forall i, j | 0 <= i < j < |t| ensures Compare(t[i], t[j], s) <= 0 {
      assert t[j] == r[j - 1];
      if i > 0 {
        assert t[i] == r[i - 1];
      }
    }
  }

  /** A row no later than `x` and every row of `tail` stays no later than every row once `x` is inserted. */
  lemma HeadBelowInsert(h: Record, x: Record, tail: seq<Record>, s: SortState)
    requires Compare(h, x, s) <= 0
    requires forall j :: 0 <= j < |tail| ==> Compare(h, tail[j], s) <= 0
    ensures forall j :: 0 <= j < |Insert(x, tail, s)| ==> Compare(h, Insert(x, tail, s)[j], s) <= 0
  {
    var r := Insert(x, tail, s);
    forall j | 0 <= j < |r| ensures Compare(h, r[j], s) <= 0 {
      assert r[j] in multiset(r);
      if r[j] != x {
        assert r[j] in multiset(tail);
        var m :| 0 <= m < |tail| && tail[m] == r[j];
      }
    }
  }

  lemma {:induction false} InsertOrdered(x: Record, sorted: seq<Record>, s: SortState, k: Kind)
    requires Ordered(sorted, s)
    requires OfKind(Get(x, s.sortBy), k) && Homogeneous(sorted, s.sortBy, k)
    ensures Ordered(Insert(x, sorted, s), s)
    decreases |sorted|
  {
    if sorted != [] {
      var h := sorted[0];
      if Compare(x, h, s) < 0 {
        forall j | 0 <= j < |sorted| ensures Compare(x, sorted[j], s) <= 0 {
          if j > 0 {
            CompareTransitive(x, h, sorted[j], s, k);
          }
        }
        assert Insert(x, sorted, s) == [x] + sorted;
        OrderedCons(x, sorted, s);
      } else {
        var tail := sorted[1..];
        OrderedTail(sorted, s);
        assert Homogeneous(tail, s.sortBy, k) by {
          forall y | y in tail ensures y in sorted {
            var m :| 0 <= m < |tail| && tail[m] == y;
            assert sorted[m + 1] == y;
          }
        }
        InsertOrdered(x, tail, s, k);
        CompareAntisymmetric(x, h, s);
        forall j | 0 <= j < |tail| ensures Compare(h, tail[j], s) <= 0 {
          assert tail[j] == sorted[j + 1];
        }
        HeadBelowInsert(h, x, tail, s);
        assert Insert(x, sorted, s) == [h] + Insert(x, tail, s);
        OrderedCons(h, Insert(x, tail, s), s);
      }
    }
  }

  /** With values of one kind in the sort column, the sorted copy is in comparator order. */
  lemma {:induction false} SortOrdered(rows: seq<Record>, s: SortState, k: Kind)
    requires Homogeneous(rows, s.sortBy, k)
    ensures Ordered(Sort(rows, s), s)
    decreases |rows|
  {
    if rows != [] {
      var init := rows[..|rows| - 1];
      assert Homogeneous(init, s.sortBy, k);
      SortOrdered(init, s, k);
      SortPermutation(init, s);
      var sorted := Sort(init, s);
      forall x | x in sorted ensures OfKind(Get(x, s.sortBy), k) {
        assert x in multiset(init);
      }
      InsertOrdered(rows[|rows| - 1], sorted, s, k);
    }
  }

  lemma {:induction false} InsertTied(x: Record, sorted: seq<Record>, s: SortState)
    requires forall y :: y in sorted ==> Compare(x, y, s) == 0
    ensures Insert(x, sorted, s) == sorted + [x]
    decreases |sorted|
  {
    if sorted != [] {
      InsertTied(x, sorted[1..], s);
    }
  }

  /**
   * When no row precedes another (for instance, none of them has the sort
   * column at all), the sort keeps the original order.
   */
  lemma {:induction false} SortStable(rows: seq<Record>, s: SortState)
    requires forall x, y :: x in rows && y in rows ==> Compare(x, y, s) == 0
    ensures Sort(rows, s) == rows
    decreases |rows|
  {
    if rows != [] {
      var init := rows[..|rows| - 1];
      assert forall x :: x in init ==> x in rows;
      SortStable(init, s);
      InsertTied(rows[|rows| - 1], init, s);
      assert init + [rows[|rows| - 1]] == rows;
    }
  }

  /** Whether a row holds `v` in column `key`. */
  function HasKey(key: string, v: Option<Value>): Record -> bool
  {
    x => Get(x, key) == v
  }

  /** The comparator reads nothing but the sort column. */
  lemma CompareByKey(a: Record, b: Record, c: Record, s: SortState)
    requires Get(a, s.sortBy) == Get(b, s.sortBy)
    ensures Compare(a, c, s) == Compare(b, c, s)
  {
  }

  lemma OrderedTail(sorted: seq<Record>, s: SortState)
    requires Ordered(sorted, s) && sorted != []
    ensures Ordered(sorted[1..], s)
  {
    var tail := sorted[1..];
    forall i, j | 0 <= i < j < |tail| ensures Compare(tail[i], tail[j], s) <= 0 {
      assert tail[i] == sorted[i + 1] && tail[j] == sorted[j + 1];
    }
  }

  /** A row that precedes the first of an ordered sequence shares its sort value with none of it. */
  lemma PrecedesAll(x: Record, sorted: seq<Record>, s: SortState)
    requires Ordered(sorted, s) && sorted != [] && Compare(x, sorted[0], s) < 0
    ensures Filter(sorted, HasKey(s.sortBy, Get(x, s.sortBy))) == []
  {
    var p := HasKey(s.sortBy, Get(x, s.sortBy));
    var h := sorted[0];
    forall e | e in sorted ensures !p(e) {
      if p(e) {
        CompareByKey(e, x, h, s);
        var j :| 0 <= j < |sorted| && sorted[j] == e;
        CompareAntisymmetric(h, e, s);
      }
    }
    if Filter(sorted, p) != [] {
      assert Filter(sorted, p)[0] in Filter(sorted, p);
    }
  }

  /** A row put in front of two sequences whose filters differ by a suffix. */
  lemma FilterCons(h: Record, a: seq<Record>, b: seq<Record>, extra: seq<Record>, p: Record -> bool)
    requires Filter(b, p) == Filter(a, p) + extra
    ensures Filter([h] + b, p) == Filter([h] + a, p) + extra
  {
    FilterAppend([h], b, p);
    FilterAppend([h], a, p);
    ConcatAssoc(Filter([h], p), Filter(a, p), extra);
  }

  lemma ConcatAssoc(x: seq<Record>, y: seq<Record>, z: seq<Record>)
    ensures x + (y + z) == (x + y) + z
  {
  }

  /** The case of `InsertKeepsTies` where `x` goes first. */
  lemma InsertFirstKeepsTies(x: Record, sorted: seq<Record>, s: SortState, p: Record -> bool, v: Option<Value>)
    requires Ordered(sorted, s) && sorted != [] && Compare(x, sorted[0], s) < 0
    requires p == HasKey(s.sortBy, v)
    ensures Filter([x] + sorted, p) == Filter(sorted, p) + Filter([x], p)
  {
    assert [x][..0] == [];
    FilterAppend([x], sorted, p);
    if p(x) {
      PrecedesAll(x, sorted, s);
    }
  }

  /**
   * Inserting into an ordered sequence puts `x` after every row with the
   * same sort value, and moves none of those rows.
   */
  lemma {:induction false} InsertKeepsTies(x: Record, sorted: seq<Record>, s: SortState, v: Option<Value>)
    requires Ordered(sorted, s)
    ensures Filter(Insert(x, sorted, s), HasKey(s.sortBy, v))
         == Filter(sorted, HasKey(s.sortBy, v)) + Filter([x], HasKey(s.sortBy, v))
    decreases |sorted|
  {
    var p := HasKey(s.sortBy, v);
    if sorted == [] {
      assert Insert(x, sorted, s) == [x];
    } else {
      var h, tail := sorted[0], sorted[1..];
      var r := Insert(x, sorted, s);
      if Compare(x, h, s) < 0 {
        assert r == [x] + sorted;
        InsertFirstKeepsTies(x, sorted, s, p, v);
      } else {
        var rest := Insert(x, tail, s);
        assert r == [h] + rest;
        OrderedTail(sorted, s);
        InsertKeepsTies(x, tail, s, v);
        FilterCons(h, tail, rest, Filter([x], p), p);
        assert sorted == [h] + tail;
      }
    }
  }

  /**
   * The sort is stable: for every sort value, the rows holding it appear
   * in the sorted copy in the order they had in the input.
   */
  lemma {:induction false} SortKeepsTieOrder(rows: seq<Record>, s: SortState, k: Kind, v: Option<Value>)
    requires Homogeneous(rows, s.sortBy, k)
    ensures Filter(Sort(rows, s), HasKey(s.sortBy, v)) == Filter(rows, HasKey(s.sortBy, v))
    decreases |rows|
  {
    if rows != [] {
      var init, last := rows[..|rows| - 1], rows[|rows| - 1];
      assert Homogeneous(init, s.sortBy, k);
      assert [last][..0] == [];
      SortKeepsTieOrder(init, s, k, v);
      SortOrdered(init, s, k);
      InsertKeepsTies(last, Sort(init, s), s, v);
    }
  }

  /** A column that no row has leaves the order unchanged. */
  lemma MissingColumnKeepsOrder(rows: seq<Record>, s: SortState)
    requires forall x :: x in rows ==> s.sortBy !in x
    ensures Sort(rows, s) == rows
  {
    SortStable(rows, s);
  }

  // ---------------------------------------------------------------------
  // Pagination
  // ---------------------------------------------------------------------

  /** `rows.slice(page * rpp, page * rpp + rpp)`; `slice` clamps both ends. */
  function PageSlice<T>(rows: seq<T>, page: nat, rpp: nat): (r: seq<T>)
    ensures |r| <= rpp && |r| <= |rows|
    ensures page * rpp < |rows| ==> |r| == if |rows| - page * rpp < rpp then |rows| - page * rpp else rpp
    ensures page * rpp >= |rows| ==> r == []
    ensures forall k :: 0 <= k < |r| ==> page * rpp + k < |rows| && r[k] == rows[page * rpp + k]
  {
    var start := page * rpp;
    var end := start + rpp;
    var from := if start < |rows| then start else |rows|;
    var to := if end < |rows| then end else |rows|;
    rows[from..to]
  }

  /** Every row is shown on exactly one page: row `i` is entry `i % rpp` of page `i / rpp`. */
  lemma PageOfRow<T>(rows: seq<T>, rpp: nat, i: nat)
    requires rpp > 0 && i < |rows|
    ensures i % rpp < |PageSlice(rows, i / rpp, rpp)|
    ensures PageSlice(rows, i / rpp, rpp)[i % rpp] == rows[i]
  {
    var p := i / rpp;
    assert p * rpp + i % rpp == i;
    assert p * rpp <= i;
  }

  // ---------------------------------------------------------------------
  // Pie charts
  // ---------------------------------------------------------------------

  datatype AgeGroup = AgeGroup(name: string, min: int, max: int)

  /**
   * `p.age >= group.min && p.age <= group.max`: both comparisons convert
   * the age to a number, so a null or false age counts as 0, true as 1 and
   * a numeric string as its value; a missing age or other text is NaN and
   * lies in no group.
   */
  predicate InGroup(row: Record, g: AgeGroup)
  {
    var age := ToNumber(Get(row, "age"));
    age.Some? && g.min <= age.value <= g.max
  }

  /** How many groups of a table contain the age `n`. */
  function Membership(groups: seq<AgeGroup>, n: int): nat
  {
    if groups == [] then 0
    else Membership(groups[..|groups| - 1], n) + (if groups[|groups| - 1].min <= n <= groups[|groups| - 1].max then 1 else 0)
  }

  /** Each group is non-empty and starts right after the previous one ends. */
  predicate Contiguous(groups: seq<AgeGroup>)
  {
    |groups| > 0
    && (forall i :: 0 <= i < |groups| ==> groups[i].min <= groups[i].max)
    && (forall i :: 0 <= i < |groups| - 1 ==> groups[i + 1].min == groups[i].max + 1)
  }

  /** In a contiguous table every age in range lies in exactly one group, others in none. */
  lemma {:induction false} ContiguousMembership(groups: seq<AgeGroup>, n: int)
    requires Contiguous(groups)
    ensures Membership(groups, n) == if groups[0].min <= n <= groups[|groups| - 1].max then 1 else 0
    ensures forall i :: 0 <= i < |groups| ==> groups[0].min <= groups[i].min && groups[i].max <= groups[|groups| - 1].max
    decreases |groups|
  {
    if |groups| > 1 {
      var init := groups[..|groups| - 1];
      ContiguousMembership(init, n);
    }
  }

  datatype PieSlice = PieSlice(name: string, value: nat)

  /** `.filter(group => group.value > 0)`. */
  function DropEmpty(slices: seq<PieSlice>): (r: seq<PieSlice>)
    ensures |r| <= |slices|
    ensures forall e :: e in r <==> e in slices && e.value > 0
  {
    if slices == [] then []
    else DropEmpty(slices[..|slices| - 1]) + (if slices[|slices| - 1].value > 0 then [slices[|slices| - 1]] else [])
  }

  /** `rows.filter(p => p.age >= g.min && p.age <= g.max).length`. */
  function GroupSize(rows: seq<Record>, g: AgeGroup): nat
  {
    |Filter(rows, x => InGroup(x, g))|
  }

  /** One slice per age group, counting the rows in that group. */
  function AgeSlices(groups: seq<AgeGroup>, rows: seq<Record>): (r: seq<PieSlice>)
    ensures |r| == |groups|
    ensures forall i :: 0 <= i < |groups| ==> r[i] == PieSlice(groups[i].name, GroupSize(rows, groups[i]))
  {
    seq(|groups|, i requires 0 <= i < |groups| => PieSlice(groups[i].name, GroupSize(rows, groups[i])))
  }

  /** The age pie: the non-empty age groups with their counts. */
  function AgePie(groups: seq<AgeGroup>, rows: seq<Record>): (r: seq<PieSlice>)
    ensures forall e :: e in r <==> (e in AgeSlices(groups, rows) && e.value > 0)
  {
    DropEmpty(AgeSlices(groups, rows))
  }

  /** The sum of the slice values, i.e. the whole of the pie. */
  function Total(slices: seq<PieSlice>): nat
  {
    if slices == [] then 0 else Total(slices[..|slices| - 1]) + slices[|slices| - 1].value
  }

  /** Dropping the empty slices does not change the size of the pie. */
  lemma {:induction false} DropEmptyTotal(slices: seq<PieSlice>)
    ensures Total(DropEmpty(slices)) == Total(slices)
    decreases |slices|
  {
    if slices != [] {
      var init := slices[..|slices| - 1];
      DropEmptyTotal(init);
      var last, d := slices[|slices| - 1], DropEmpty(init);
      if last.value > 0 {
        assert DropEmpty(slices) == d + [last];
        assert (d + [last])[..|d|] == d;
      } else {
        assert DropEmpty(slices) == d + [];
        assert d + [] == d;
      }
    }
  }

  /** The number of rows whose age, converted to a number, lies in `[lo, hi]`. */
  function InRangeCount(rows: seq<Record>, lo: int, hi: int): nat
  {
    |Filter(rows, x => InGroup(x, AgeGroup("", lo, hi)))|
  }

  /** How many groups contain the row's age; an age that converts to NaN is in none. */
  function RowMembership(groups: seq<AgeGroup>, row: Record): nat
  {
    var age := ToNumber(Get(row, "age"));
    if age.Some? then Membership(groups, age.value) else 0
  }

  /** The group sizes summed over a table of groups. */
  function GroupCount(groups: seq<AgeGroup>, rows: seq<Record>): nat
  {
    if groups == [] then 0 else GroupCount(groups[..|groups| - 1], rows) + GroupSize(rows, groups[|groups| - 1])
  }

  lemma {:induction false} AgeSlicesTotal(groups: seq<AgeGroup>, rows: seq<Record>)
    ensures Total(AgeSlices(groups, rows)) == GroupCount(groups, rows)
    decreases |groups|
  {
    if groups != [] {
      var init := groups[..|groups| - 1];
      AgeSlicesTotal(init, rows);
      assert AgeSlices(groups, rows)[..|groups| - 1] == AgeSlices(init, rows);
    }
  }

  /** One more row adds its membership count to the summed group sizes. */
  lemma {:induction false} GroupCountSnoc(groups: seq<AgeGroup>, rows: seq<Record>, x: Record)
    ensures GroupCount(groups, rows + [x]) == GroupCount(groups, rows) + RowMembership(groups, x)
    decreases |groups|
  {
    if groups != [] {
      var init := groups[..|groups| - 1];
      GroupCountSnoc(init, rows, x);
      assert (rows + [x])[..|rows + [x]| - 1] == rows;
    }
  }

  /**
   * With a contiguous table every row whose age converts to a number inside the table's
   * range is counted in exactly one slice: the age pie adds up to the number
   * of such rows.
   */
  lemma {:induction false} AgePieTotal(groups: seq<AgeGroup>, rows: seq<Record>)
    requires Contiguous(groups)
    ensures Total(AgePie(groups, rows)) == InRangeCount(rows, groups[0].min, groups[|groups| - 1].max)
    decreases |rows|
  {
    DropEmptyTotal(AgeSlices(groups, rows));
    AgeSlicesTotal(groups, rows);
    GroupCountRows(groups, rows);
  }

  lemma {:induction false} GroupCountRows(groups: seq<AgeGroup>, rows: seq<Record>)
    requires Contiguous(groups)
    ensures GroupCount(groups, rows) == InRangeCount(rows, groups[0].min, groups[|groups| - 1].max)
    decreases |rows|
  {
    if rows == [] {
      GroupCountEmpty(groups);
    } else {
      var init, x := rows[..|rows| - 1], rows[|rows| - 1];
      GroupCountRows(groups, init);
      assert init + [x] == rows;
      GroupCountSnoc(groups, init, x);
      var age := ToNumber(Get(x, "age"));
      if age.Some? {
        ContiguousMembership(groups, age.value);
      }
    }
  }

  lemma {:induction false} GroupCountEmpty(groups: seq<AgeGroup>)
    ensures GroupCount(groups, []) == 0
    decreases |groups|
  {
    if groups != [] {
      GroupCountEmpty(groups[..|groups| - 1]);
    }
  }

  /** `rows.filter(p => p[field] === key)` counted for each category, empty ones dropped. */
  function CategoryPie(field: string, keys: seq<string>, rows: seq<Record>): (r: seq<PieSlice>)
    ensures |r| <= |keys|
    ensures forall e :: e in r <==> (e in CategorySlices(field, keys, rows) && e.value > 0)
  {
    DropEmpty(CategorySlices(field, keys, rows))
  }

  /** `rows.filter(p => p[field] === key).length`. */
  function CategorySize(rows: seq<Record>, field: string, key: string): nat
  {
    |Filter(rows, x => Get(x, field) == Some(Str(key)))|
  }

  /** One slice per category key, counting the rows whose `field` equals it. */
  function CategorySlices(field: string, keys: seq<string>, rows: seq<Record>): (r: seq<PieSlice>)
    ensures |r| == |keys|
    ensures forall i :: 0 <= i < |keys| ==> r[i] == PieSlice(keys[i], CategorySize(rows, field, keys[i]))
  {
    seq(|keys|, i requires 0 <= i < |keys| => PieSlice(keys[i], CategorySize(rows, field, keys[i])))
  }

  // ---------------------------------------------------------------------
  // Monthly bar chart
  // ---------------------------------------------------------------------

  /**
   * Distinct month keys in order of first appearance. This is the key order
   * of `Object.entries` for keys that are not integer-like, as month names are.
   */
  function FirstSeen(rows: seq<Record>, monthOf: Record -> string): (r: seq<string>)
    ensures forall m :: m in r <==> exists x :: x in rows && monthOf(x) == m
    ensures forall i, j :: 0 <= i < j < |r| ==> r[i] != r[j]
  {
    if rows == [] then []
    else
      var prefix := FirstSeen(rows[..|rows| - 1], monthOf);
      var m := monthOf(rows[|rows| - 1]);
      assert forall x :: x in rows <==> x in rows[..|rows| - 1] || x == rows[|rows| - 1];
      if m in prefix then prefix else prefix + [m]
  }

  /** The number of rows falling in month `m`. */
  function Occurrences(rows: seq<Record>, monthOf: Record -> string, m: string): nat
  {
    if rows == [] then 0
    else Occurrences(rows[..|rows| - 1], monthOf, m) + (if monthOf(rows[|rows| - 1]) == m then 1 else 0)
  }

  datatype Bar = Bar(month: string, count: nat)

  /**
   * The `monthlyCounts` loop and `barData`: one bar per month that occurs,
   * in order of first appearance, with the number of rows in that month.
   */
  method MonthlyBars(rows: seq<Record>, monthOf: Record -> string) returns (bars: seq<Bar>)
    ensures |bars| == |FirstSeen(rows, monthOf)|
    ensures forall i :: 0 <= i < |bars| ==>
      bars[i] == Bar(FirstSeen(rows, monthOf)[i], Occurrences(rows, monthOf, FirstSeen(rows, monthOf)[i]))
  {
    var counts: map<string, nat> := map[];
    var months: seq<string> := [];
    var i := 0;
    while i < |rows|
      invariant 0 <= i <= |rows|
      invariant months == FirstSeen(rows[..i], monthOf)
      invariant forall m :: m in counts <==> m in months
      invariant forall m :: m in counts ==> counts[m] == Occurrences(rows[..i], monthOf, m)
    {
      var m := monthOf(rows[i]);
      assert rows[..i + 1][..i] == rows[..i];
      var previous := if m in counts then counts[m] else 0;
      if m !in counts {
        months := months + [m];
      }
      if m !in counts {
        OccurrencesAbsent(rows[..i], monthOf, m);
      }
      counts := counts[m := previous + 1];
      i := i + 1;
    }
    assert rows[..i] == rows;
    bars := seq(|months|, j requires 0 <= j < |months| => Bar(months[j], counts[months[j]]));
  }

  /** Occurrences of months absent from the rows are zero. */
  lemma {:induction false} OccurrencesAbsent(rows: seq<Record>, monthOf: Record -> string, m: string)
    requires m !in FirstSeen(rows, monthOf)
    ensures Occurrences(rows, monthOf, m) == 0
    decreases |rows|
  {
    if rows != [] {
      OccurrencesAbsent(rows[..|rows| - 1], monthOf, m);
    }
  }

  // ---------------------------------------------------------------------
  // Table UI state
  // ---------------------------------------------------------------------

  /** Action cell of a row in a dashboard table. */
  datatype RowAction = Button(caption: string, disabled: bool) | NoAction

  /** The table's data set with its paging and sorting state. */
  class TableView {
    var rows: seq<Record>
    var page: nat
    var rowsPerPage: nat
    var sort: SortState

    /** `useState` defaults: page 0, five rows per page, the given sort. */
    constructor (sortBy: string, direction: Direction)
      ensures rows == [] && page == 0 && rowsPerPage == 5
      ensures sort == SortState(sortBy, direction)
    {
      rows := [];
      page := 0;
      rowsPerPage := 5;
      sort := SortState(sortBy, direction);
    }

    /** `handleChangePage`. */
    method HandleChangePage(newPage: nat)
      modifies this
      ensures page == newPage
      ensures rows == old(rows) && rowsPerPage == old(rowsPerPage) && sort == old(sort)
    {
      page := newPage;
    }

    /** `handleChangeRowsPerPage`: the parsed value, and back to the first page. */
    method HandleChangeRowsPerPage(parsed: nat)
      modifies this
      ensures rowsPerPage == parsed && page == 0
      ensures rows == old(rows) && sort == old(sort)
    {
      rowsPerPage := parsed;
      page := 0;
    }

    /** `handleSort`. */
    method HandleSort(column: string)
      modifies this
      ensures sort == Toggle(old(sort), column)
      ensures rows == old(rows) && page == old(page) && rowsPerPage == old(rowsPerPage)
    {
      sort := Toggle(sort, column);
    }

    /** Replaces the data set; the page is kept, as `setFilteredPatients` / `setCases` keep it. */
    method SetRows(newRows: seq<Record>)
      modifies this
      ensures rows == newRows
      ensures page == old(page) && rowsPerPage == old(rowsPerPage) && sort == old(sort)
    {
      rows := newRows;
    }

    /** The rows handed to the table component: the current page of the sorted copy. */
    function Visible(): (r: seq<Record>)
      reads this
      ensures |r| <= rowsPerPage && |r| <= |rows|
      ensures multiset(r) <= multiset(rows)
    {
      SortPermutation(rows, sort);
      SliceSubMultiset(Sort(rows, sort), page, rowsPerPage);
      PageSlice(Sort(rows, sort), page, rowsPerPage)
    }
  }

  lemma SliceSubMultiset<T>(rows: seq<T>, page: nat, rpp: nat)
    ensures multiset(PageSlice(rows, page, rpp)) <= multiset(rows)
  {
    var start := page * rpp;
    var end := start + rpp;
    var from := if start < |rows| then start else |rows|;
    var to := if end < |rows| then end else |rows|;
    assert PageSlice(rows, page, rpp) == rows[from..to];
    SubrangeSubMultiset(rows, from, to);
  }

  lemma SubrangeSubMultiset<T>(rows: seq<T>, from: nat, to: nat)
    requires from <= to <= |rows|
    ensures multiset(rows[from..to]) <= multiset(rows)
  {
    assert rows == rows[..from] + rows[from..to] + rows[to..];
  }

  // ---------------------------------------------------------------------
  // Case rows and dashboard state
  // ---------------------------------------------------------------------

  /**
   * The row built from one case report of `GET cases/`: the case's own
   * fields with the nested patient's name, age, gender, street, condition
   * and status lifted to the top, and the report date rendered by
   * `localeDate` (standing for `toLocaleDateString`). Reading a field of a
   * missing or null `patient` throws, which `None` stands for.
   */
  function CaseRow(c: Record, localeDate: Option<Value> -> string): (r: Option<Record>)
    ensures r.None? <==> Get(c, "patient") == None || Get(c, "patient") == Some(Null)
    ensures r.Some? ==> forall k :: k !in LiftedFields ==> Get(r.value, k) == Get(c, k)
    ensures r.Some? ==> Get(r.value, "status") == Get(PatientOf(c), "status")
    ensures r.Some? ==> Get(r.value, "age") == Get(PatientOf(c), "age")
    ensures r.Some? ==> (Get(r.value, "name") ==
      Some(Str(ToStr(Get(PatientOf(c), "first_name")) + " " + ToStr(Get(PatientOf(c), "last_name")))))
  {
    var p := Get(c, "patient");
    if p == None || p == Some(Null) then None
    else Some(map k | k in c.Keys + LiftedFields && RowField(c, localeDate, k).Some? :: RowField(c, localeDate, k).value)
  }

  /** A property of the flattened row: lifted from the patient, or the case's own. */
  function RowField(c: Record, localeDate: Option<Value> -> string, k: string): Option<Value>
  {
    if k == "name" then Some(Str(ToStr(Get(PatientOf(c), "first_name")) + " " + ToStr(Get(PatientOf(c), "last_name"))))
    else if k == "created_at" || k == "updated_at" then Some(Str(localeDate(Get(c, "date"))))
    else if k in LiftedFields then Get(PatientOf(c), k)
    else Get(c, k)
  }

  const LiftedFields: set<string> :=
    {"name", "age", "gender", "street", "condition", "status", "created_at", "updated_at"}

  /** The properties of `c.patient`; a primitive in its place has none. */
  function PatientOf(c: Record): Record
  {
    match Get(c, "patient")
    case Some(Obj(f)) => f
    case _ => map[]
  }

  /** `response.data.map(...)`: every case flattened, or a failure if any of them throws. */
  function CaseRows(data: seq<Record>, localeDate: Option<Value> -> string): (r: Option<seq<Record>>)
    ensures r.Some? <==> forall i :: 0 <= i < |data| ==> CaseRow(data[i], localeDate).Some?
    ensures r.Some? ==> |r.value| == |data|
    ensures r.Some? ==> forall i :: 0 <= i < |data| ==> r.value[i] == CaseRow(data[i], localeDate).value
  {
    if forall i :: 0 <= i < |data| ==> CaseRow(data[i], localeDate).Some? then
      Some(seq(|data|, i requires 0 <= i < |data| => CaseRow(data[i], localeDate).value))
    else None
  }

  /** The state every role dashboard keeps: its data, the summary cards and the modal table. */
  class Dashboard {
    var patients: seq<Record>
    var summary: Summary
    var loading: bool
    var modalOpen: bool
    var modalTitle: string
    const table: TableView

    /** Initial state: no data, loading, modal closed, table sorted by `first_name` ascending. */
    constructor ()
      ensures fresh(table)
      ensures patients == [] && summary == Summary(0, 0, 0, 0) && loading
      ensures !modalOpen && modalTitle == ""
      ensures table.rows == [] && table.page == 0 && table.rowsPerPage == 5
      ensures table.sort == SortState("first_name", Asc)
    {
      patients := [];
      summary := Summary(0, 0, 0, 0);
      loading := true;
      modalOpen := false;
      modalTitle := "";
      table := new TableView("first_name", Asc);
    }

    /** `setDashboardData` after a successful fetch. */
    method Loaded(rows: seq<Record>, isNew: Record -> bool)
      modifies this
      ensures patients == rows && summary == Summarize(rows, isNew) && !loading
      ensures modalOpen == old(modalOpen) && modalTitle == old(modalTitle)
    {
      patients := rows;
      summary := Summarize(rows, isNew);
      loading := false;
    }

    /** The fetch failed: only `loading` changes. */
    method LoadFailed()
      modifies this
      ensures !loading
      ensures patients == old(patients) && summary == old(summary)
      ensures modalOpen == old(modalOpen) && modalTitle == old(modalTitle)
    {
      loading := false;
    }

    /** The tail of `handleOpenModal`: the filtered rows, the title, and the modal opened. */
    method ShowModal(rows: seq<Record>, title: string)
      modifies this, table
      ensures table.rows == rows && modalTitle == title && modalOpen
      ensures table.page == old(table.page) && table.rowsPerPage == old(table.rowsPerPage)
      ensures table.sort == old(table.sort)
      ensures patients == old(patients) && summary == old(summary) && loading == old(loading)
    {
      table.SetRows(rows);
      modalTitle := title;
      modalOpen := true;
    }

    /** `handleCloseModal`. */
    method HandleCloseModal()
      modifies this
      ensures !modalOpen
      ensures modalTitle == old(modalTitle) && patients == old(patients)
      ensures summary == old(summary) && loading == old(loading)
    {
      modalOpen := false;
    }
  }
}
