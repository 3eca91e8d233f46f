/** Resolving a fill plan: rows of source workbooks are totalled per key, merged over the sources,
    cut off by date, and given a reporting period. Amounts are exact reals. */
module FillPlan {
  import opened Transcript

  // ----- dates and rows, as parsed -----

  datatype Date = Date(year: int, month: int, day: int)

  predicate NotAfter(a: Date, b: Date) {
    || a.year < b.year
    || (a.year == b.year && (a.month < b.month || (a.month == b.month && a.day <= b.day)))
  }

  datatype Key = Text(text: string) | Day(date: Date)

  /** One grid row under the header: whether both columns exist, the key cell's stripped text (None for an
      empty cell), what the text is, and what the two cells parse to. */
  datatype Row = Row(
    inRange: bool, text: Option<string>, skipMarker: bool, headerWord: bool,
    date: Option<Date>, amount: Option<real>)

  datatype Mode = KeyMode | DateMode | OtherMode

  datatype Entry = Entry(key: Key, amount: real)

  function DateEntry(r: Row): Option<Entry> {
    if !r.inRange || r.text.None? || r.skipMarker || r.date.None? || r.amount.None? then None
    else Some(Entry(Day(r.date.value), r.amount.value))
  }

  function KeyEntry(r: Row): Option<Entry> {
    if !r.inRange || r.text.None? || r.text.value == "" || r.skipMarker || r.headerWord
       || r.date.Some? || r.amount.None? then None
    else Some(Entry(Text(r.text.value), r.amount.value))
  }

  /** The entry a row contributes; None for a total, a heading, or cells that do not parse. */
  function Counted(r: Row, mode: Mode): Option<Entry> {
    if mode.KeyMode? then KeyEntry(r) else DateEntry(r)
  }

  // ----- totals per key -----

  type Totals = map<Key, real>

  function At(m: Totals, k: Key): real {
    if k in m then m[k] else 0.0
  }

  function Add(m: Totals, k: Key, amount: real): Totals {
    m[k := At(m, k) + amount]
  }

  function AddRow(m: Totals, r: Row, mode: Mode): Totals {
    match Counted(r, mode)
    case None => m
    case Some(e) => Add(m, e.key, e.amount)
  }

  function Extracted(rows: seq<Row>, mode: Mode): Totals {
    if rows == [] then map[] else AddRow(Extracted(rows[..|rows| - 1], mode), rows[|rows| - 1], mode)
  }

  /** `_extract_date_values`. */
  method ExtractDateValues(rows: seq<Row>) returns (out: Totals)
    ensures out == Extracted(rows, DateMode)
  {
    out := map[];
    for i := 0 to |rows|
      invariant out == Extracted(rows[..i], DateMode)
    {
      var r := rows[i];
      assert rows[..i + 1][..i] == rows[..i];
      if !r.inRange { continue; }
      if r.text.None? { continue; }
      if r.skipMarker { continue; }
      if r.date.None? { continue; }
      if r.amount.None? { continue; }
      var key := Day(r.date.value);
      out := out[key := At(out, key) + r.amount.value];
    }
    assert rows[..|rows|] == rows;
  }

  /** `_extract_key_values`. */
  method ExtractKeyValues(rows: seq<Row>) returns (out: Totals)
    ensures out == Extracted(rows, KeyMode)
  {
    out := map[];
    for i := 0 to |rows|
      invariant out == Extracted(rows[..i], KeyMode)
    {
      var r := rows[i];
      assert rows[..i + 1][..i] == rows[..i];
      if !r.inRange || r.text.None? || r.text.value == "" { continue; }
      if r.skipMarker || r.headerWord { continue; }
      if r.date.Some? { continue; }
      if r.amount.None? { continue; }
      var key := Text(r.text.value);
      out := out[key := At(out, key) + r.amount.value];
    }
    assert rows[..|rows|] == rows;
  }

  /** The row carries this key with this amount: both columns are there, it is no total, and the key cell holds a
      text that is neither a heading nor a date, or a date. */
  predicate Carries(r: Row, mode: Mode, k: Key, amount: real) {
    && r.inRange && r.text.Some? && !r.skipMarker && r.amount == Some(amount)
    && match k
       case Text(text) => mode == KeyMode && r.text == Some(text) && text != "" && !r.headerWord && r.date == None
       case Day(date) => mode != KeyMode && r.date == Some(date)
  }

  lemma CountedMeans(r: Row, mode: Mode, k: Key, amount: real)
    ensures Counted(r, mode) == Some(Entry(k, amount)) <==> Carries(r, mode, k, amount)
  {
  }

  /** Each further row adds its amount to the total of the key it carries, and changes nothing else. */
  lemma RowAdds(rows: seq<Row>, r: Row, mode: Mode, k: Key)
    ensures var before, after := Extracted(rows, mode), Extracted(rows + [r], mode);
      && (forall a :: Carries(r, mode, k, a) ==> k in after && after[k] == At(before, k) + a)
      && ((forall a :: !Carries(r, mode, k, a)) ==> (k in after <==> k in before) && At(after, k) == At(before, k))
  {
    assert (rows + [r])[..|rows|] == rows;
    forall a ensures Counted(r, mode) == Some(Entry(k, a)) <==> Carries(r, mode, k, a) {
      CountedMeans(r, mode, k, a);
    }
    if Counted(r, mode).Some? {
      var e := Counted(r, mode).value;
      CountedMeans(r, mode, e.key, e.amount);
    }
  }

  /** A total row, or one that lacks a column, changes no total, wherever it stands. */
  lemma {:induction false} SkippedRowsAreInvisible(a: seq<Row>, r: Row, b: seq<Row>, mode: Mode)
    requires r.skipMarker || !r.inRange || r.text.None? || r.amount.None?
    ensures Extracted(a + [r] + b, mode) == Extracted(a + b, mode)
    decreases |b|
  {
    if b == [] {
      assert a + [r] + b == a + [r] && a + b == a;
      assert (a + [r])[..|a|] == a;
    } else {
      var front, last := b[..|b| - 1], b[|b| - 1];
      SkippedRowsAreInvisible(a, r, front, mode);
      assert a + [r] + b == a + [r] + front + [last] && a + b == a + front + [last];
      assert (a + [r] + front + [last])[..|a + [r] + front|] == a + [r] + front;
      assert (a + front + [last])[..|a + front|] == a + front;
    }
  }

  /** On calendar dates the comparison is that of the days counted out. */
  lemma NotAfterCounts(a: Date, b: Date)
    requires 1 <= a.month <= 12 && 1 <= a.day <= 31 && 1 <= b.month <= 12 && 1 <= b.day <= 31
    ensures NotAfter(a, b) <==> (a.year * 12 + a.month) * 31 + a.day <= (b.year * 12 + b.month) * 31 + b.day
  {
  }

  lemma ModesAgree(rows: seq<Row>)
    ensures Extracted(rows, OtherMode) == Extracted(rows, DateMode)
  {
    if rows != [] {
      ModesAgree(rows[..|rows| - 1]);
    }
  }

  /** The amounts of all counted rows with this key. */
  function AmountAt(rows: seq<Row>, mode: Mode, k: Key): real {
    if rows == [] then 0.0
    else
      var e := Counted(rows[|rows| - 1], mode);
      AmountAt(rows[..|rows| - 1], mode, k) + if e.Some? && e.value.key == k then e.value.amount else 0.0
  }

  predicate CountsUnder(r: Row, mode: Mode, k: Key) {
    Counted(r, mode).Some? && Counted(r, mode).value.key == k
  }

  /** A source has a key exactly when some counted row carries it, and its total is those rows' amounts. */
  lemma {:induction false} ExtractedMeans(rows: seq<Row>, mode: Mode, k: Key)
    ensures k in Extracted(rows, mode) <==> exists i :: 0 <= i < |rows| && CountsUnder(rows[i], mode, k)
    ensures At(Extracted(rows, mode), k) == AmountAt(rows, mode, k)
  {
    if rows != [] {
      var front, last := rows[..|rows| - 1], rows[|rows| - 1];
      ExtractedMeans(front, mode, k);
      if i :| 0 <= i < |front| && CountsUnder(front[i], mode, k) {
        assert CountsUnder(rows[i], mode, k);
      }
      if i :| 0 <= i < |rows| && CountsUnder(rows[i], mode, k) {
        assert i < |front| ==> CountsUnder(front[i], mode, k);
      }
    }
  }

  // ----- merging the sources -----

  /** The cutoff applies in date mode only. */
  predicate Admitted(k: Key, mode: Mode, cutoff: Option<Date>) {
    mode.DateMode? && cutoff.Some? && k.Day? ==> NotAfter(k.date, cutoff.value)
  }

  function Restrict(m: Totals, mode: Mode, cutoff: Option<Date>): Totals {
    map k | k in m && Admitted(k, mode, cutoff) :: m[k]
  }

  /** One (already restricted) source merged in: amounts added, or earlier sources win. */
  function MergeOne(m: Totals, src: Totals, first: bool): Totals {
    map k | k in m.Keys + src.Keys :: if first && k in m then m[k] else At(m, k) + At(src, k)
  }

  function Merged(sources: seq<Totals>, first: bool, mode: Mode, cutoff: Option<Date>): Totals {
    if sources == [] then map[]
    else MergeOne(Merged(sources[..|sources| - 1], first, mode, cutoff),
                  Restrict(sources[|sources| - 1], mode, cutoff), first)
  }

  /** The inner loop over one source's items, in whatever order they come. */
  method MergeSource(merged0: Totals, src: Totals, first: bool, mode: Mode, cutoff: Option<Date>)
    returns (merged: Totals)
    ensures merged == MergeOne(merged0, Restrict(src, mode, cutoff), first)
  {
    merged := merged0;
    var left := src.Keys;
    ghost var done: Totals := map[];
    while left != {}
      invariant left <= src.Keys && done.Keys == src.Keys - left
      invariant forall k :: k in done ==> done[k] == src[k]
      invariant merged == MergeOne(merged0, Restrict(done, mode, cutoff), first)
      decreases |left|
    {
      var key :| key in left;
      left := left - {key};
      ghost var before := done;
      done := done[key := src[key]];
      merged := MergeItem(merged, merged0, before, key, src[key], first, mode, cutoff);
    }
    assert done == src;
  }

  method MergeItem(merged1: Totals, ghost merged0: Totals, ghost done: Totals, key: Key, num: real,
                   first: bool, mode: Mode, cutoff: Option<Date>)
    returns (merged: Totals)
    requires key !in done && merged1 == MergeOne(merged0, Restrict(done, mode, cutoff), first)
    ensures merged == MergeOne(merged0, Restrict(done[key := num], mode, cutoff), first)
  {
    merged := merged1;
    RestrictMore(done, key, num, mode, cutoff);
    if mode.DateMode? && cutoff.Some? && key.Day? && !NotAfter(key.date, cutoff.value) {
      return;
    }
    MergeOneMore(merged0, Restrict(done, mode, cutoff), key, num, first);
    if first {
      if key !in merged {
        merged := merged[key := num];
      }
    } else {
      merged := merged[key := At(merged, key) + num];
    }
  }

  lemma RestrictMore(done: Totals, key: Key, num: real, mode: Mode, cutoff: Option<Date>)
    requires key !in done
    ensures key !in Restrict(done, mode, cutoff)
    ensures Restrict(done[key := num], mode, cutoff)
         == if Admitted(key, mode, cutoff) then Restrict(done, mode, cutoff)[key := num]
            else Restrict(done, mode, cutoff)
  {
  }

  lemma MergeOneMore(m: Totals, src: Totals, key: Key, num: real, first: bool)
    requires key !in src
    ensures var was := MergeOne(m, src, first);
      MergeOne(m, src[key := num], first)
        == if first && key in was then was else was[key := At(was, key) + num]
  {
  }

  // ----- what merging means, key by key -----

  function SumAt(sources: seq<Totals>, k: Key): real {
    if sources == [] then 0.0 else At(sources[0], k) + SumAt(sources[1..], k)
  }

  predicate Somewhere(sources: seq<Totals>, k: Key) {
    exists i :: 0 <= i < |sources| && k in sources[i]
  }

  lemma {:induction false} SumAtSnoc(sources: seq<Totals>, last: Totals, k: Key)
    ensures SumAt(sources + [last], k) == SumAt(sources, k) + At(last, k)
  {
    if sources == [] {
      assert [] + [last] == [last];
    } else {
      assert (sources + [last])[1..] == sources[1..] + [last];
      SumAtSnoc(sources[1..], last, k);
    }
  }

  /** Under `sum`, a key is resolved when it is admitted and some source has it, to the sources' total. */
  lemma {:induction false} MergedSumMeans(sources: seq<Totals>, mode: Mode, cutoff: Option<Date>, k: Key)
    ensures k in Merged(sources, false, mode, cutoff) <==> Admitted(k, mode, cutoff) && Somewhere(sources, k)
    ensures k in Merged(sources, false, mode, cutoff) ==> Merged(sources, false, mode, cutoff)[k] == SumAt(sources, k)
  {
    if sources != [] {
      var front, last := sources[..|sources| - 1], sources[|sources| - 1];
      assert sources == front + [last];
      MergedSumMeans(front, mode, cutoff, k);
      SumAtSnoc(front, last, k);
      SomewhereSnoc(front, last, k);
      if !Somewhere(front, k) {
        AbsentSumsToZero(front, k);
      }
    }
  }

  lemma {:induction false} AbsentSumsToZero(sources: seq<Totals>, k: Key)
    requires !Somewhere(sources, k)
    ensures SumAt(sources, k) == 0.0
  {
    if sources != [] {
      var rest := sources[1..];
      forall i | 0 <= i < |rest| ensures k !in rest[i] {
        assert rest[i] == sources[i + 1];
      }
      AbsentSumsToZero(sources[1..], k);
    }
  }

  lemma SomewhereSnoc(front: seq<Totals>, last: Totals, k: Key)
    ensures Somewhere(front + [last], k) <==> Somewhere(front, k) || k in last
  {
    var all := front + [last];
    if Somewhere(front, k) {
      var i :| 0 <= i < |front| && k in front[i];
      assert k in all[i];
    }
    assert k in last ==> k in all[|front|];
  }

  /** The earliest source that has the key. */
  predicate Earliest(sources: seq<Totals>, k: Key, i: nat) {
    i < |sources| && k in sources[i] && forall j :: 0 <= j < i ==> k !in sources[j]
  }

  /** Under `first`, each admitted key takes the total of the earliest source that has it. */
  lemma {:induction false} MergedFirstMeans(sources: seq<Totals>, mode: Mode, cutoff: Option<Date>, k: Key)
    ensures var m := Merged(sources, true, mode, cutoff);
      && (k in m <==> Admitted(k, mode, cutoff) && Somewhere(sources, k))
      && (forall i: nat :: k in m && Earliest(sources, k, i) ==> m[k] == sources[i][k])
  {
    if sources != [] {
      var front, last := sources[..|sources| - 1], sources[|sources| - 1];
      assert sources == front + [last];
      MergedFirstMeans(front, mode, cutoff, k);
      SomewhereSnoc(front, last, k);
      forall i: nat | k in Merged(sources, true, mode, cutoff) && Earliest(sources, k, i)
        ensures Merged(sources, true, mode, cutoff)[k] == sources[i][k]
      {
        if i < |front| {
          assert Earliest(front, k, i);
          assert Somewhere(front, k);
        } else {
          forall j | 0 <= j < |front| ensures k !in front[j] {
            assert front[j] == sources[j];
          }
        }
      }
    }
  }

  // ----- order of the sources -----

  lemma WithoutOne<T>(b: seq<T>, j: nat)
    requires j < |b|
    ensures multiset(b[..j] + b[j + 1..]) == multiset(b) - multiset{b[j]}
  {
    assert b == b[..j] + ([b[j]] + b[j + 1..]);
    assert multiset(b) == multiset(b[..j]) + multiset{b[j]} + multiset(b[j + 1..]);
  }

  lemma PositionOf<T>(b: seq<T>, x: T) returns (j: nat)
    requires x in multiset(b)
    ensures j < |b| && b[j] == x
  {
    assert x in b;
    j :| j < |b| && b[j] == x;
  }

  lemma WithoutHead<T>(a: seq<T>)
    requires a != []
    ensures a[0] in multiset(a) && multiset(a[1..]) == multiset(a) - multiset{a[0]}
  {
    assert a == [a[0]] + a[1..];
  }

  lemma PickBoth<T>(a: seq<T>, b: seq<T>) returns (j: nat)
    requires a != [] && multiset(a) == multiset(b)
    ensures j < |b| && b[j] == a[0]
    ensures multiset(a[1..]) == multiset(b[..j] + b[j + 1..])
  {
    WithoutHead(a);
    j := PositionOf(b, a[0]);
    WithoutOne(b, j);
  }

  lemma {:induction false} SumAtIgnoresOrder(a: seq<Totals>, b: seq<Totals>, k: Key)
    requires multiset(a) == multiset(b)
    ensures SumAt(a, k) == SumAt(b, k)
  {
    if a == [] {
      assert |b| == |multiset(b)|;
    } else {
      var j := PickBoth(a, b);
      SumAtPick(b, j, k);
      SumAtIgnoresOrder(a[1..], b[..j] + b[j + 1..], k);
    }
  }

  lemma {:induction false} SumAtPick(b: seq<Totals>, j: nat, k: Key)
    requires j < |b|
    ensures SumAt(b, k) == At(b[j], k) + SumAt(b[..j] + b[j + 1..], k)
  {
    if j == 0 {
      assert b[..0] + b[1..] == b[1..];
    } else {
      SumAtPick(b[1..], j - 1, k);
      assert (b[..j] + b[j + 1..])[1..] == b[1..][..j - 1] + b[1..][j..];
    }
  }

  /** Under `sum` the resolved values do not depend on the order of the sources. */
  lemma SumIgnoresSourceOrder(a: seq<Totals>, b: seq<Totals>, mode: Mode, cutoff: Option<Date>)
    requires multiset(a) == multiset(b)
    ensures Merged(a, false, mode, cutoff) == Merged(b, false, mode, cutoff)
  {
    var ma, mb := Merged(a, false, mode, cutoff), Merged(b, false, mode, cutoff);
    forall k ensures (k in ma <==> k in mb) && (k in ma ==> ma[k] == mb[k]) {
      MergedSumMeans(a, mode, cutoff, k);
      MergedSumMeans(b, mode, cutoff, k);
      SumAtIgnoresOrder(a, b, k);
      if Somewhere(a, k) { SomewhereIgnoresOrder(a, b, k); }
      if Somewhere(b, k) { SomewhereIgnoresOrder(b, a, k); }
    }
  }

  lemma SomewhereIgnoresOrder(a: seq<Totals>, b: seq<Totals>, k: Key)
    requires multiset(a) == multiset(b) && Somewhere(a, k)
    ensures Somewhere(b, k)
  {
    var i :| 0 <= i < |a| && k in a[i];
    assert a[i] in multiset(b);
    assert a[i] in b;
  }

  // ----- conservation -----

  /** The sum of all values of a map. */
  ghost function Whole(m: Totals): real
    decreases |m|
  {
    if m == map[] then 0.0 else var k :| k in m; m[k] + Whole(m - {k})
  }

  lemma {:induction false} WholeMinus(m: Totals, k: Key)
    requires k in m
    ensures Whole(m) == m[k] + Whole(m - {k})
    decreases |m|
  {
    var p :| p in m && Whole(m) == m[p] + Whole(m - {p});
    if p != k {
      WholeMinus(m - {p}, k);
      WholeMinus(m - {k}, p);
      assert m - {p} - {k} == m - {k} - {p};
    }
  }

  lemma WholeAdd(m: Totals, k: Key, amount: real)
    ensures Whole(Add(m, k, amount)) == Whole(m) + amount
  {
    var r := Add(m, k, amount);
    WholeMinus(r, k);
    assert r - {k} == m - {k};
    if k in m {
      WholeMinus(m, k);
    } else {
      assert m - {k} == m;
    }
  }

  lemma Reinsert(src: Totals, k: Key)
    requires k in src
    ensures (src - {k})[k := src[k]] == src
    ensures k !in src - {k} && |src - {k}| < |src|
  {
    assert (src - {k}).Keys == src.Keys - {k};
  }

  lemma WholeMergeStep(m: Totals, rest: Totals, k: Key, x: real)
    requires k !in rest
    ensures Whole(MergeOne(m, rest[k := x], false)) == Whole(MergeOne(m, rest, false)) + x
  {
    MergeOneMore(m, rest, k, x, false);
    WholeAdd(MergeOne(m, rest, false), k, x);
  }

  /** Merging one source under `sum` adds its whole amount. */
  lemma {:induction false} WholeMerge(m: Totals, src: Totals)
    ensures Whole(MergeOne(m, src, false)) == Whole(m) + Whole(src)
    decreases |src|
  {
    if src == map[] {
      assert MergeOne(m, src, false) == m;
    } else {
      var k :| k in src;
      Reinsert(src, k);
      WholeMinus(src, k);
      WholeMerge(m, src - {k});
      WholeMergeStep(m, src - {k}, k, src[k]);
    }
  }

  /** The amount of a row that counts and whose key is admitted. */
  function CountedAmount(r: Row, mode: Mode, cutoff: Option<Date>): real {
    match Counted(r, mode)
    case None => 0.0
    case Some(e) => if Admitted(e.key, mode, cutoff) then e.amount else 0.0
  }

  function GrandTotal(rows: seq<Row>, mode: Mode, cutoff: Option<Date>): real {
    if rows == [] then 0.0
    else GrandTotal(rows[..|rows| - 1], mode, cutoff) + CountedAmount(rows[|rows| - 1], mode, cutoff)
  }

  lemma RestrictAdd(m: Totals, k: Key, amount: real, mode: Mode, cutoff: Option<Date>)
    ensures Restrict(Add(m, k, amount), mode, cutoff)
         == if Admitted(k, mode, cutoff) then Add(Restrict(m, mode, cutoff), k, amount) else Restrict(m, mode, cutoff)
  {
  }

  lemma {:induction false} SourceConserves(rows: seq<Row>, mode: Mode, cutoff: Option<Date>)
    ensures Whole(Restrict(Extracted(rows, mode), mode, cutoff)) == GrandTotal(rows, mode, cutoff)
  {
    if rows == [] {
      assert Restrict(map[], mode, cutoff) == map[];
    } else {
      var front, e := rows[..|rows| - 1], Counted(rows[|rows| - 1], mode);
      SourceConserves(front, mode, cutoff);
      if e.Some? {
        var m := Extracted(front, mode);
        RestrictAdd(m, e.value.key, e.value.amount, mode, cutoff);
        WholeAdd(Restrict(m, mode, cutoff), e.value.key, e.value.amount);
      }
    }
  }

  function ExtractedAll(sources: seq<seq<Row>>, mode: Mode): (r: seq<Totals>)
    ensures |r| == |sources| && forall i :: 0 <= i < |r| ==> r[i] == Extracted(sources[i], mode)
  {
    seq(|sources|, i requires 0 <= i < |sources| => Extracted(sources[i], mode))
  }

  function GrandTotals(sources: seq<seq<Row>>, mode: Mode, cutoff: Option<Date>): real {
    if sources == [] then 0.0
    else GrandTotals(sources[..|sources| - 1], mode, cutoff) + GrandTotal(sources[|sources| - 1], mode, cutoff)
  }

  /** Nothing is lost and nothing is counted twice: under `sum` the resolved values total the numeric
      cells of all rows that count, over all sources, up to the cutoff. */
  lemma {:induction false} FillConserves(sources: seq<seq<Row>>, mode: Mode, cutoff: Option<Date>)
    ensures Whole(Merged(ExtractedAll(sources, mode), false, mode, cutoff)) == GrandTotals(sources, mode, cutoff)
  {
    if sources != [] {
      var front, last := sources[..|sources| - 1], sources[|sources| - 1];
      FillConserves(front, mode, cutoff);
      var all := ExtractedAll(sources, mode);
      assert all[..|all| - 1] == ExtractedAll(front, mode);
      WholeMerge(Merged(ExtractedAll(front, mode), false, mode, cutoff), Restrict(Extracted(last, mode), mode, cutoff));
      SourceConserves(last, mode, cutoff);
    }
  }

  // ----- resolving one sheet -----

  datatype StartMode = Preserve | SourceMin | MonthStart

  /** What reading the period cell of the template gives: an error of the file or the reference, a missing
      sheet, digits that are no calendar date, no date at all, or a date with its style. */
  datatype PeriodCell = Unreadable | NoSheet | ImpossibleDate | NoDate | Dated(date: Date, style: string)

  /** `style` is None when the cell's own style is to be preserved. */
  datatype Period = Period(mode: StartMode, style: Option<string>, cell: PeriodCell)

  /** A source file: None when it is missing or cannot be read. */
  type Source = Option<seq<Row>>

  datatype Sheet = Sheet(sources: seq<Source>, first: bool, mode: Mode, period: Option<Period>)

  datatype Span = Span(start: Date, end: Date, style: string)

  datatype Problem =
    | SourceUnreadable
    | NothingResolved
    | CutoffRequired
    | TemplateUnreadable
    | TemplateSheetMissing
    | CellDateImpossible
    | NoCellDate
    | NoSourceMin
    | NoStyle

  datatype Resolution = Resolved(values: Totals, period: Option<Span>) | Failed(problem: Problem)

  predicate Readable(sources: seq<Source>) {
    forall i :: 0 <= i < |sources| ==> sources[i].Some?
  }

  function RowsOf(sources: seq<Source>): (r: seq<seq<Row>>)
    requires Readable(sources)
    ensures |r| == |sources| && forall i :: 0 <= i < |r| ==> r[i] == sources[i].value
  {
    seq(|sources|, i requires 0 <= i < |sources| => sources[i].value)
  }

  ghost predicate IsMinDay(m: Totals, d: Date) {
    Day(d) in m && forall e :: Day(e) in m ==> NotAfter(d, e)
  }

  /** The earliest day among the resolved keys. */
  ghost function EarliestDay(m: Totals): Option<Date> {
    if exists d :: IsMinDay(m, d) then
      var d :| IsMinDay(m, d);
      Some(d)
    else None
  }

  lemma MinDayIsUnique(m: Totals, d: Date)
    requires IsMinDay(m, d)
    ensures EarliestDay(m) == Some(d)
  {
    var e := EarliestDay(m).value;
    assert NotAfter(d, e) && NotAfter(e, d);
  }

  method MinDay(m: Totals) returns (d: Option<Date>)
    ensures d == EarliestDay(m)
    ensures d.Some? ==> IsMinDay(m, d.value)
    ensures d.None? ==> forall e :: Day(e) !in m
  {
    d := None;
    var left := m.Keys;
    while left != {}
      invariant left <= m.Keys
      invariant d.Some? ==> Day(d.value) in m && forall e :: Day(e) in m && Day(e) !in left ==> NotAfter(d.value, e)
      invariant d.None? ==> forall e :: Day(e) in m ==> Day(e) in left
      decreases |left|
    {
      var k :| k in left;
      left := left - {k};
      if k.Day? {
        if d.None? || NotAfter(k.date, d.value) {
          d := Some(k.date);
        }
      }
    }
    if d.Some? {
      MinDayIsUnique(m, d.value);
    }
  }

  function PeriodStart(p: Period, cutoff: Date, sourceMin: Option<Date>): Option<Date> {
    match p.mode
    case Preserve => if p.cell.Dated? then Some(p.cell.date) else None
    case SourceMin => sourceMin
    case MonthStart => Some(Date(cutoff.year, cutoff.month, 1))
  }

  datatype PeriodResult = PeriodIs(span: Span) | PeriodFails(problem: Problem)

  /** `_resolve_period_value`: the cell is read first, whatever the mode. */
  function ResolvePeriod(p: Period, cutoff: Date, sourceMin: Option<Date>): PeriodResult {
    var start := PeriodStart(p, cutoff, sourceMin);
    var style := if p.style.Some? then p.style else if p.cell.Dated? then Some(p.cell.style) else None;
    if p.cell.Unreadable? then PeriodFails(TemplateUnreadable)
    else if p.cell.NoSheet? then PeriodFails(TemplateSheetMissing)
    else if p.cell.ImpossibleDate? then PeriodFails(CellDateImpossible)
    else if start.None? then PeriodFails(if p.mode.Preserve? then NoCellDate else NoSourceMin)
    else if style.None? then PeriodFails(NoStyle)
    else PeriodIs(Span(start.value, cutoff, style.value))
  }

  function MergedRows(sheet: Sheet, cutoff: Option<Date>): Totals
    requires Readable(sheet.sources)
  {
    Merged(ExtractedAll(RowsOf(sheet.sources), sheet.mode), sheet.first, sheet.mode, cutoff)
  }

  /** One sheet of `resolve_fill_plan`, with every error in the order it is met. */
  ghost function ResolvedSheet(sheet: Sheet, cutoff: Option<Date>): Resolution {
    if !Readable(sheet.sources) then Failed(SourceUnreadable)
    else
      var m := MergedRows(sheet, cutoff);
      if m == map[] then Failed(NothingResolved)
      else if sheet.period.None? then Resolved(m, None)
      else if cutoff.None? then Failed(CutoffRequired)
      else
        match ResolvePeriod(sheet.period.value, cutoff.value, if sheet.mode.DateMode? then EarliestDay(m) else None)
        case PeriodFails(problem) => Failed(problem)
        case PeriodIs(span) => Resolved(m, Some(span))
  }

  method ResolveSheet(sheet: Sheet, cutoff: Option<Date>) returns (r: Resolution)
    ensures r == ResolvedSheet(sheet, cutoff)
  {
    var read := MergeSources(sheet, cutoff);
    if read.None? {
      return Failed(SourceUnreadable);
    }
    var merged := read.value;
    if merged == map[] {
      return Failed(NothingResolved);
    }
    if sheet.period.None? {
      return Resolved(merged, None);
    }
    if cutoff.None? {
      return Failed(CutoffRequired);
    }
    var sourceMin := None;
    if sheet.mode.DateMode? {
      sourceMin := MinDay(merged);
    }
    var p := ResolvePeriod(sheet.period.value, cutoff.value, sourceMin);
    r := match p
      case PeriodFails(problem) => Failed(problem)
      case PeriodIs(span) => Resolved(merged, Some(span));
  }

  /** A derived period never starts after a cutoff that is a calendar date, and ends on it. */
  lemma PeriodStartsInTime(sheet: Sheet, cutoff: Date)
    requires cutoff.day >= 1 && sheet.period.Some? && !sheet.period.value.mode.Preserve?
    requires ResolvedSheet(sheet, Some(cutoff)).Resolved?
    ensures var span := ResolvedSheet(sheet, Some(cutoff)).period.value;
      NotAfter(span.start, cutoff) && span.end == cutoff
  {
    var m := MergedRows(sheet, Some(cutoff));
    if sheet.period.value.mode.SourceMin? {
      var d := EarliestDay(m).value;
      assert sheet.mode.DateMode? && IsMinDay(m, d);
      ResolvedDaysAreAdmitted(ExtractedAll(RowsOf(sheet.sources), sheet.mode), sheet.first, cutoff, d);
    }
  }

  method MergeSources(sheet: Sheet, cutoff: Option<Date>) returns (merged: Option<Totals>)
    ensures merged.Some? <==> Readable(sheet.sources)
    ensures merged.Some? ==>
      merged.value == Merged(ExtractedAll(RowsOf(sheet.sources), sheet.mode), sheet.first, sheet.mode, cutoff)
  {
    var m: Totals := map[];
    ghost var done: seq<Totals> := [];
    for i := 0 to |sheet.sources|
      invariant |done| == i && forall j :: 0 <= j < i ==> IsExtract(sheet, j, done[j])
      invariant m == Merged(done, sheet.first, sheet.mode, cutoff)
    {
      var src := sheet.sources[i];
      if src.None? {
        return None;
      }
      var extracted := Extract(src.value, sheet.mode);
      m := MergeSource(m, extracted, sheet.first, sheet.mode, cutoff);
      assert (done + [extracted])[..|done|] == done;
      done := done + [extracted];
    }
    ExtractsAreAll(sheet, done);
    merged := Some(m);
  }

  ghost predicate IsExtract(sheet: Sheet, i: nat, m: Totals) {
    i < |sheet.sources| && sheet.sources[i].Some? && m == Extracted(sheet.sources[i].value, sheet.mode)
  }

  lemma ExtractsAreAll(sheet: Sheet, done: seq<Totals>)
    requires |done| == |sheet.sources| && forall j :: 0 <= j < |done| ==> IsExtract(sheet, j, done[j])
    ensures Readable(sheet.sources) && done == ExtractedAll(RowsOf(sheet.sources), sheet.mode)
  {
    forall i | 0 <= i < |sheet.sources| ensures sheet.sources[i].Some? {
      assert IsExtract(sheet, i, done[i]);
    }
  }

  method Extract(rows: seq<Row>, mode: Mode) returns (out: Totals)
    ensures out == Extracted(rows, mode)
  {
    if mode.KeyMode? {
      out := ExtractKeyValues(rows);
    } else {
      out := ExtractDateValues(rows);
      if mode.OtherMode? {
        ModesAgree(rows);
      }
    }
  }

  // ----- a sheet in plain terms -----

  /** Some counted row of some source carries the key, and in date mode it does not lie behind the cutoff. */
  ghost predicate IsResolved(sources: seq<Source>, mode: Mode, cutoff: Option<Date>, k: Key)
    requires Readable(sources)
  {
    && (mode == DateMode && cutoff.Some? && k.Day? ==> NotAfter(k.date, cutoff.value))
    && exists i :: InSource(sources, mode, k, i)
  }

  ghost predicate InSource(sources: seq<Source>, mode: Mode, k: Key, i: int)
    requires Readable(sources)
  {
    0 <= i < |sources| && exists j, a :: 0 <= j < |sources[i].value| && Carries(sources[i].value[j], mode, k, a)
  }

  lemma InSourceMeans(sources: seq<Source>, mode: Mode, k: Key, i: nat)
    requires Readable(sources) && i < |sources|
    ensures InSource(sources, mode, k, i) <==> k in Extracted(sources[i].value, mode)
  {
    var rows := sources[i].value;
    ExtractedMeans(rows, mode, k);
    if j :| 0 <= j < |rows| && CountsUnder(rows[j], mode, k) {
      CountedMeans(rows[j], mode, k, Counted(rows[j], mode).value.amount);
    }
    if j, a :| 0 <= j < |rows| && Carries(rows[j], mode, k, a) {
      CountedMeans(rows[j], mode, k, a);
      assert CountsUnder(rows[j], mode, k);
    }
  }

  /** The value of a resolved key: the sources' totals added up, or the total of the first source that has it. */
  ghost predicate HasValue(sheet: Sheet, m: Totals, k: Key)
    requires Readable(sheet.sources) && k in m
  {
    var all := ExtractedAll(RowsOf(sheet.sources), sheet.mode);
    if sheet.first then forall i: nat :: Earliest(all, k, i) ==> m[k] == all[i][k] else m[k] == SumAt(all, k)
  }

  lemma MergedMeans(sheet: Sheet, cutoff: Option<Date>, k: Key)
    requires Readable(sheet.sources)
    ensures var m := MergedRows(sheet, cutoff);
      (k in m <==> IsResolved(sheet.sources, sheet.mode, cutoff, k)) && (k in m ==> HasValue(sheet, m, k))
  {
    var all := ExtractedAll(RowsOf(sheet.sources), sheet.mode);
    MergedSumMeans(all, sheet.mode, cutoff, k);
    MergedFirstMeans(all, sheet.mode, cutoff, k);
    if i :| 0 <= i < |all| && k in all[i] {
      InSourceMeans(sheet.sources, sheet.mode, k, i);
    }
    if i :| InSource(sheet.sources, sheet.mode, k, i) {
      InSourceMeans(sheet.sources, sheet.mode, k, i);
      assert k in all[i];
    }
  }

  /** The day a period starts on: the one in its cell, the first resolved day, or the first of the month. */
  ghost predicate StartsOn(p: Period, cutoff: Date, mode: Mode, m: Totals, start: Date) {
    match p.mode
    case Preserve => p.cell.Dated? && start == p.cell.date
    case SourceMin => mode == DateMode && IsMinDay(m, start)
    case MonthStart => start == Date(cutoff.year, cutoff.month, 1)
  }

  /** Some key resolves, and the map holds exactly the resolved keys with their values. */
  ghost predicate HoldsResolved(sheet: Sheet, cutoff: Option<Date>, m: Totals)
    requires Readable(sheet.sources)
  {
    forall k :: (k in m <==> IsResolved(sheet.sources, sheet.mode, cutoff, k)) && (k in m ==> HasValue(sheet, m, k))
  }

  lemma MergedHoldsResolved(sheet: Sheet, cutoff: Option<Date>)
    requires Readable(sheet.sources)
    ensures HoldsResolved(sheet, cutoff, MergedRows(sheet, cutoff))
  {
    var m := MergedRows(sheet, cutoff);
    forall k ensures (k in m <==> IsResolved(sheet.sources, sheet.mode, cutoff, k))
      && (k in m ==> HasValue(sheet, m, k))
    {
      MergedMeans(sheet, cutoff, k);
    }
  }

  /** When reading or merging a sheet fails, and what it resolves to otherwise. */
  lemma SheetMeans(sheet: Sheet, cutoff: Option<Date>)
    ensures var r := ResolvedSheet(sheet, cutoff);
      && (r == Failed(SourceUnreadable) <==> exists i :: 0 <= i < |sheet.sources| && sheet.sources[i].None?)
      && (Readable(sheet.sources) ==>
            && (r == Failed(NothingResolved) <==> forall k :: !IsResolved(sheet.sources, sheet.mode, cutoff, k))
            && (r.Resolved? ==> HoldsResolved(sheet, cutoff, r.values)))
      && (r.Resolved? ==> (r.period.None? <==> sheet.period.None?))
  {
    if Readable(sheet.sources) {
      MergedHoldsResolved(sheet, cutoff);
      var m := MergedRows(sheet, cutoff);
      assert m == map[] <==> forall k :: k !in m;
    }
  }

  /** The period of a sheet whose values resolve, and the errors in finding it. */
  lemma PeriodMeans(sheet: Sheet, cutoff: Option<Date>)
    requires Readable(sheet.sources) && sheet.period.Some? && MergedRows(sheet, cutoff) != map[]
    ensures var r, p, m := ResolvedSheet(sheet, cutoff), sheet.period.value, MergedRows(sheet, cutoff);
      if cutoff.None? then r == Failed(CutoffRequired)
      else if p.cell == Unreadable then r == Failed(TemplateUnreadable)
      else if p.cell == NoSheet then r == Failed(TemplateSheetMissing)
      else if p.cell == ImpossibleDate then r == Failed(CellDateImpossible)
      else if forall d :: !StartsOn(p, cutoff.value, sheet.mode, m, d) then
        r == Failed(if p.mode == Preserve then NoCellDate else NoSourceMin)
      else if p.style.None? && p.cell == NoDate then r == Failed(NoStyle)
      else
        && r.Resolved? && r.values == m && r.period.Some? && r.period.value.end == cutoff.value
        && StartsOn(p, cutoff.value, sheet.mode, m, r.period.value.start)
        && r.period.value.style == if p.style.Some? then p.style.value else p.cell.style
  {
    var p, m := sheet.period.value, MergedRows(sheet, cutoff);
    if cutoff.Some? {
      if d :| StartsOn(p, cutoff.value, sheet.mode, m, d) {
        if p.mode.SourceMin? {
          MinDayIsUnique(m, d);
        }
      }
      var start := PeriodStart(p, cutoff.value, if sheet.mode.DateMode? then EarliestDay(m) else None);
      assert start.Some? ==> StartsOn(p, cutoff.value, sheet.mode, m, start.value);
    }
  }

  /** No resolved day lies behind the cutoff. */
  lemma ResolvedDaysAreAdmitted(sources: seq<Totals>, first: bool, cutoff: Date, d: Date)
    requires Day(d) in Merged(sources, first, DateMode, Some(cutoff))
    ensures NotAfter(d, cutoff)
  {
    if first {
      MergedFirstMeans(sources, DateMode, Some(cutoff), Day(d));
    } else {
      MergedSumMeans(sources, DateMode, Some(cutoff), Day(d));
    }
  }

  // ----- resolving and applying a plan -----

  /** A sheet of a plan, with the values it was built with. */
  datatype PlanSheet = PlanSheet(sheet: Sheet, given: Totals)

  /** What a workbook fill is given for one sheet. */
  datatype Filling = Filling(values: Totals, period: Option<Span>)

  datatype PlanResolution = PlanResolved(fillings: seq<Filling>) | PlanFailed(problem: Problem)

  predicate HasSources(sheets: seq<PlanSheet>) {
    exists i :: 0 <= i < |sheets| && sheets[i].sheet.sources != []
  }

  /** What `parse_fill_plan` lets through: at least one sheet, each with sources and without values. */
  predicate ParsedPlan(sheets: seq<PlanSheet>) {
    sheets != [] && forall i :: 0 <= i < |sheets| ==> sheets[i].sheet.sources != [] && sheets[i].given == map[]
  }

  /** `resolve_fill_plan`: all sheets, or the first error. */
  ghost function ResolvedPlan(sheets: seq<PlanSheet>, cutoff: Option<Date>): PlanResolution {
    if sheets == [] then PlanResolved([])
    else match ResolvedPlan(sheets[..|sheets| - 1], cutoff)
         case PlanFailed(problem) => PlanFailed(problem)
         case PlanResolved(done) =>
           match ResolvedSheet(sheets[|sheets| - 1].sheet, cutoff)
           case Failed(problem) => PlanFailed(problem)
           case Resolved(values, period) => PlanResolved(done + [Filling(values, period)])
  }

  lemma {:induction false} FailureLasts(sheets: seq<PlanSheet>, i: nat, cutoff: Option<Date>)
    requires i <= |sheets| && ResolvedPlan(sheets[..i], cutoff).PlanFailed?
    ensures ResolvedPlan(sheets, cutoff) == ResolvedPlan(sheets[..i], cutoff)
  {
    if i < |sheets| {
      var front := sheets[..|sheets| - 1];
      assert front[..i] == sheets[..i];
      FailureLasts(front, i, cutoff);
    } else {
      assert sheets[..i] == sheets;
    }
  }

  method ResolvePlan(sheets: seq<PlanSheet>, cutoff: Option<Date>) returns (r: PlanResolution)
    ensures r == ResolvedPlan(sheets, cutoff)
  {
    var done: seq<Filling> := [];
    for i := 0 to |sheets|
      invariant ResolvedPlan(sheets[..i], cutoff) == PlanResolved(done)
    {
      assert sheets[..i + 1][..i] == sheets[..i];
      var one := ResolveSheet(sheets[i].sheet, cutoff);
      if one.Failed? {
        FailureLasts(sheets, i + 1, cutoff);
        return PlanFailed(one.problem);
      }
      done := done + [Filling(one.values, one.period)];
    }
    assert sheets[..|sheets|] == sheets;
    r := PlanResolved(done);
  }

  function Given(sheets: seq<PlanSheet>): (r: seq<Filling>)
    ensures |r| == |sheets| && forall i :: 0 <= i < |r| ==> r[i] == Filling(sheets[i].given, None)
  {
    seq(|sheets|, i requires 0 <= i < |sheets| => Filling(sheets[i].given, None))
  }

  /** What one sheet reports. */
  datatype Line = NoValues | Filled | FillError

  /** The sheets from the `i`-th on. `fill` is the workbook tool on one sheet; None is its hard error.
      The first sheet is filled from the template, every later one from the output file. */
  function AppliedFrom<B>(template: B, output: Option<B>, sheets: seq<Filling>,
                          fill: (B, nat, Filling) -> Option<B>, i: nat): (Option<B>, seq<Line>)
    requires i <= |sheets|
    decreases |sheets| - i
  {
    if i == |sheets| then (output, [])
    else if sheets[i].values == map[] then
      var rest := AppliedFrom(template, output, sheets, fill, i + 1);
      (rest.0, [NoValues] + rest.1)
    else
      var src := if i == 0 then Some(template) else output;
      var book := if src.Some? then fill(src.value, i, sheets[i]) else None;
      if book.None? then (output, [FillError])
      else
        var rest := AppliedFrom(template, book, sheets, fill, i + 1);
        (rest.0, [Filled] + rest.1)
  }

  method FillSheets<B>(template: B, stale: Option<B>, sheets: seq<Filling>, fill: (B, nat, Filling) -> Option<B>)
    returns (output: Option<B>, lines: seq<Line>)
    ensures (output, lines) == AppliedFrom(template, stale, sheets, fill, 0)
  {
    output, lines := stale, [];
    var i := 0;
    assert [] + AppliedFrom(template, stale, sheets, fill, 0).1 == AppliedFrom(template, stale, sheets, fill, 0).1;
    while i < |sheets|
      invariant 0 <= i <= |sheets|
      invariant var rest := AppliedFrom(template, output, sheets, fill, i);
        AppliedFrom(template, stale, sheets, fill, 0) == (rest.0, lines + rest.1)
    {
      ghost var before := AppliedFrom(template, output, sheets, fill, i);
      if sheets[i].values == map[] {
        ghost var later := AppliedFrom(template, output, sheets, fill, i + 1).1;
        assert before.1 == [NoValues] + later && lines + ([NoValues] + later) == lines + [NoValues] + later;
        lines := lines + [NoValues];
        i := i + 1;
        continue;
      }
      var src := if i == 0 then Some(template) else output;
      var book := if src.Some? then fill(src.value, i, sheets[i]) else None;
      if book.None? {
        lines := lines + [FillError];
        return;
      }
      output := book;
      ghost var later := AppliedFrom(template, output, sheets, fill, i + 1).1;
      assert before.1 == [Filled] + later && lines + ([Filled] + later) == lines + [Filled] + later;
      lines := lines + [Filled];
      i := i + 1;
    }
    assert lines + [] == lines;
  }

  datatype Applied<B> = Raised(problem: Problem) | Done(output: Option<B>, lines: seq<Line>)

  ghost function AppliedPlan<B>(template: B, stale: Option<B>, sheets: seq<PlanSheet>, cutoff: Option<Date>,
                                fill: (B, nat, Filling) -> Option<B>): Applied<B>
  {
    var fillings := if HasSources(sheets) then ResolvedPlan(sheets, cutoff) else PlanResolved(Given(sheets));
    match fillings
    case PlanFailed(problem) => Raised(problem)
    case PlanResolved(fs) =>
      var r := AppliedFrom(template, stale, fs, fill, 0);
      Done(r.0, r.1)
  }

  /** `apply_fill_plan`; `stale` is what the output path held before. */
  method ApplyFillPlan<B>(template: B, stale: Option<B>, sheets: seq<PlanSheet>, cutoff: Option<Date>,
                          fill: (B, nat, Filling) -> Option<B>)
    returns (r: Applied<B>)
    ensures r == AppliedPlan(template, stale, sheets, cutoff, fill)
  {
    var fillings := Given(sheets);
    if HasSources(sheets) {
      var resolved := ResolvePlan(sheets, cutoff);
      if resolved.PlanFailed? {
        return Raised(resolved.problem);
      }
      fillings := resolved.fillings;
    }
    var output, lines := FillSheets(template, stale, fillings, fill);
    r := Done(output, lines);
  }

  // ----- what applying means -----

  predicate AllValued(sheets: seq<Filling>) {
    forall i :: 0 <= i < |sheets| ==> sheets[i].values != map[]
  }

  /** A resolved plan has values for every sheet. */
  lemma {:induction false} ResolvedIsValued(sheets: seq<PlanSheet>, cutoff: Option<Date>)
    requires ResolvedPlan(sheets, cutoff).PlanResolved?
    ensures var fs := ResolvedPlan(sheets, cutoff).fillings;
      |fs| == |sheets| && AllValued(fs)
  {
    if sheets != [] {
      ResolvedIsValued(sheets[..|sheets| - 1], cutoff);
    }
  }

  /** Every sheet filled on top of the ones before it, up to the first hard error. */
  function Chained<B>(book: B, sheets: seq<Filling>, fill: (B, nat, Filling) -> Option<B>, i: nat): B
    requires i <= |sheets|
    decreases |sheets| - i
  {
    if i == |sheets| then book
    else if sheets[i].values == map[] then Chained(book, sheets, fill, i + 1)
    else match fill(book, i, sheets[i])
         case None => book
         case Some(next) => Chained(next, sheets, fill, i + 1)
  }

  lemma {:induction false} LaterSheetsChain<B>(template: B, book: B, sheets: seq<Filling>,
                                               fill: (B, nat, Filling) -> Option<B>, i: nat)
    requires 1 <= i <= |sheets|
    ensures AppliedFrom(template, Some(book), sheets, fill, i).0 == Some(Chained(book, sheets, fill, i))
    decreases |sheets| - i
  {
    if i < |sheets| {
      if sheets[i].values == map[] {
        LaterSheetsChain(template, book, sheets, fill, i + 1);
      } else if fill(book, i, sheets[i]).Some? {
        LaterSheetsChain(template, fill(book, i, sheets[i]).value, sheets, fill, i + 1);
      }
    }
  }

  lemma {:induction false} ValuedLines<B>(template: B, output: Option<B>, sheets: seq<Filling>,
                                          fill: (B, nat, Filling) -> Option<B>, i: nat)
    requires i <= |sheets| && AllValued(sheets)
    ensures NoValues !in AppliedFrom(template, output, sheets, fill, i).1
    decreases |sheets| - i
  {
    if i < |sheets| {
      var src := if i == 0 then Some(template) else output;
      if src.Some? && fill(src.value, i, sheets[i]).Some? {
        ValuedLines(template, fill(src.value, i, sheets[i]), sheets, fill, i + 1);
      }
    }
  }

  /** Fillings whose first sheet has values build on the template. */
  lemma FirstSheetReadsTemplate<B>(template: B, stale: Option<B>, fs: seq<Filling>,
                                   fill: (B, nat, Filling) -> Option<B>)
    requires fs != [] && fs[0].values != map[]
    ensures fill(template, 0, fs[0]).Some? ==>
      AppliedFrom(template, stale, fs, fill, 0).0 == Some(Chained(template, fs, fill, 0))
    ensures fill(template, 0, fs[0]).None? ==> AppliedFrom(template, stale, fs, fill, 0) == (stale, [FillError])
  {
    var first := fill(template, 0, fs[0]);
    if first.Some? {
      LaterSheetsChain(template, first.value, fs, fill, 1);
    }
  }

  /** A plan with sources, and so every plan that was parsed, either raises or reports no sheet without
      values; its output is the chain of fills on the template, or the old file when the first fill fails. */
  lemma SourcesFillFromTemplate<B>(template: B, stale: Option<B>, sheets: seq<PlanSheet>, cutoff: Option<Date>,
                                   fill: (B, nat, Filling) -> Option<B>)
    requires HasSources(sheets)
    ensures var r := AppliedPlan(template, stale, sheets, cutoff, fill); var p := ResolvedPlan(sheets, cutoff);
      && (r.Raised? <==> p.PlanFailed?)
      && (r.Done? ==> NoValues !in r.lines)
      && (r.Done? ==> |p.fillings| == |sheets|)
      && (r.Done? && fill(template, 0, p.fillings[0]).Some? ==>
            r.output == Some(Chained(template, p.fillings, fill, 0)))
      && (r.Done? && fill(template, 0, p.fillings[0]).None? ==> r.output == stale)
  {
    var p := ResolvedPlan(sheets, cutoff);
    if p.PlanResolved? {
      ResolvedIsValued(sheets, cutoff);
      ValuedLines(template, stale, p.fillings, fill, 0);
      FirstSheetReadsTemplate(template, stale, p.fillings, fill);
    }
  }

  /** So no plan that was parsed can skip a sheet or its template. */
  lemma ParsedPlanFillsFromTemplate<B>(template: B, stale: Option<B>, sheets: seq<PlanSheet>, cutoff: Option<Date>,
                                       fill: (B, nat, Filling) -> Option<B>)
    requires ParsedPlan(sheets)
    ensures var r := AppliedPlan(template, stale, sheets, cutoff, fill); var p := ResolvedPlan(sheets, cutoff);
      && (r.Done? ==> p.PlanResolved? && |p.fillings| == |sheets| && NoValues !in r.lines)
      && (r.Done? && fill(template, 0, p.fillings[0]).Some? ==>
            r.output == Some(Chained(template, p.fillings, fill, 0)))
  {
    assert sheets[0].sheet.sources != [];
    SourcesFillFromTemplate(template, stale, sheets, cutoff, fill);
  }

  lemma {:induction false} LaterSheetsIgnoreTemplate<B>(t: B, u: B, output: Option<B>, sheets: seq<Filling>,
                                                        fill: (B, nat, Filling) -> Option<B>, i: nat)
    requires 1 <= i <= |sheets|
    ensures AppliedFrom(t, output, sheets, fill, i) == AppliedFrom(u, output, sheets, fill, i)
    decreases |sheets| - i
  {
    if i < |sheets| {
      if sheets[i].values == map[] {
        LaterSheetsIgnoreTemplate(t, u, output, sheets, fill, i + 1);
      } else if output.Some? && fill(output.value, i, sheets[i]).Some? {
        LaterSheetsIgnoreTemplate(t, u, fill(output.value, i, sheets[i]), sheets, fill, i + 1);
      }
    }
  }

  /** A plan without sources reads its template if its first sheet was built with values, and otherwise
      never does: its result is the same for every template. */
  lemma HandBuiltPlanCanIgnoreTemplate<B>(t: B, u: B, stale: Option<B>, sheets: seq<PlanSheet>,
                                          cutoff: Option<Date>, fill: (B, nat, Filling) -> Option<B>)
    requires sheets != [] && !HasSources(sheets)
    ensures sheets[0].given == map[] ==>
      AppliedPlan(t, stale, sheets, cutoff, fill) == AppliedPlan(u, stale, sheets, cutoff, fill)
    ensures sheets[0].given != map[] && fill(t, 0, Given(sheets)[0]).Some? ==>
      AppliedPlan(t, stale, sheets, cutoff, fill).output == Some(Chained(t, Given(sheets), fill, 0))
  {
    if sheets[0].given == map[] {
      LaterSheetsIgnoreTemplate(t, u, stale, Given(sheets), fill, 1);
    } else {
      FirstSheetReadsTemplate(t, stale, Given(sheets), fill);
    }
  }

  // ----- a plan in plain terms -----

  ghost predicate AllResolve(sheets: seq<PlanSheet>, cutoff: Option<Date>, fs: seq<Filling>) {
    && |fs| == |sheets|
    && forall i :: 0 <= i < |sheets| ==> ResolvedSheet(sheets[i].sheet, cutoff) == Resolved(fs[i].values, fs[i].period)
  }

  ghost predicate FirstFailure(sheets: seq<PlanSheet>, cutoff: Option<Date>, problem: Problem, i: int) {
    && 0 <= i < |sheets| && ResolvedSheet(sheets[i].sheet, cutoff) == Failed(problem)
    && forall j :: 0 <= j < i ==> ResolvedSheet(sheets[j].sheet, cutoff).Resolved?
  }

  lemma FirstFailureStays(sheets: seq<PlanSheet>, cutoff: Option<Date>, problem: Problem, i: int)
    requires sheets != [] && FirstFailure(sheets[..|sheets| - 1], cutoff, problem, i)
    ensures FirstFailure(sheets, cutoff, problem, i)
  {
    var front := sheets[..|sheets| - 1];
    assert forall j :: 0 <= j < |front| ==> front[j] == sheets[j];
  }

  lemma LastSheetDecides(sheets: seq<PlanSheet>, cutoff: Option<Date>, fs: seq<Filling>)
    requires sheets != [] && AllResolve(sheets[..|sheets| - 1], cutoff, fs)
    ensures match ResolvedSheet(sheets[|sheets| - 1].sheet, cutoff)
      case Resolved(values, period) => AllResolve(sheets, cutoff, fs + [Filling(values, period)])
      case Failed(problem) => FirstFailure(sheets, cutoff, problem, |sheets| - 1)
  {
    var front := sheets[..|sheets| - 1];
    assert forall j :: 0 <= j < |front| ==> front[j] == sheets[j];
  }

  /** A plan resolves when every sheet does, each to its own values and period; otherwise the first sheet that fails
      names the problem. */
  lemma {:induction false} PlanMeans(sheets: seq<PlanSheet>, cutoff: Option<Date>)
    ensures var r := ResolvedPlan(sheets, cutoff);
      && (r.PlanResolved? ==> AllResolve(sheets, cutoff, r.fillings))
      && (r.PlanFailed? ==> exists i :: FirstFailure(sheets, cutoff, r.problem, i))
  {
    if sheets != [] {
      var front := sheets[..|sheets| - 1];
      PlanMeans(front, cutoff);
      var before := ResolvedPlan(front, cutoff);
      if before.PlanFailed? {
        var i :| FirstFailure(front, cutoff, before.problem, i);
        FirstFailureStays(sheets, cutoff, before.problem, i);
      } else {
        LastSheetDecides(sheets, cutoff, before.fillings);
      }
    }
  }

  /** `books` is what the output path holds before and after each reported sheet: a sheet without values is passed
      over, any other is filled into the template (the first) or into the file so far, and an error ends the report. */
  ghost predicate Report<B>(template: B, books: seq<Option<B>>, fs: seq<Filling>,
                            fill: (B, nat, Filling) -> Option<B>, lines: seq<Line>)
  {
    && |lines| <= |fs| && |books| == |lines| + 1
    && (|lines| < |fs| ==> lines != [] && lines[|lines| - 1] == FillError)
    && forall i: nat :: i < |lines| ==> Reported(template, books, fs, fill, lines, i)
  }

  ghost predicate Reported<B>(template: B, books: seq<Option<B>>, fs: seq<Filling>,
                              fill: (B, nat, Filling) -> Option<B>, lines: seq<Line>, i: nat)
    requires i < |lines| <= |fs| && |books| == |lines| + 1
  {
    var source := if i == 0 then Some(template) else books[i];
    var filled := if source.None? then None else fill(source.value, i, fs[i]);
    if fs[i].values == map[] then lines[i] == NoValues && books[i + 1] == books[i]
    else if filled.Some? then lines[i] == Filled && books[i + 1] == filled
    else lines[i] == FillError && books[i + 1] == books[i] && i + 1 == |lines|
  }

  lemma ReportMore<B>(template: B, books: seq<Option<B>>, fs: seq<Filling>,
                      fill: (B, nat, Filling) -> Option<B>, lines: seq<Line>, book: Option<B>, line: Line)
    requires |lines| < |fs| && |books| == |lines| + 1
    requires forall i: nat :: i < |lines| ==> Reported(template, books, fs, fill, lines, i) && lines[i] != FillError
    requires Reported(template, books + [book], fs, fill, lines + [line], |lines|)
    ensures forall i: nat :: i <= |lines| ==> Reported(template, books + [book], fs, fill, lines + [line], i)
  {
    forall i: nat | i < |lines| ensures Reported(template, books + [book], fs, fill, lines + [line], i) {
      assert Reported(template, books, fs, fill, lines, i);
    }
  }

  lemma {:induction false} ApplyFromMeans<B>(template: B, books0: seq<Option<B>>, fs: seq<Filling>,
                                             fill: (B, nat, Filling) -> Option<B>, lines: seq<Line>, i: nat)
    returns (books: seq<Option<B>>)
    requires i == |lines| <= |fs| && |books0| == i + 1
    requires forall k: nat :: k < i ==> Reported(template, books0, fs, fill, lines, k) && lines[k] != FillError
    ensures var r := AppliedFrom(template, books0[i], fs, fill, i);
      Report(template, books, fs, fill, lines + r.1) && books0 <= books && books[|lines + r.1|] == r.0
    decreases |fs| - i
  {
    books := books0;
    var r := AppliedFrom(template, books0[i], fs, fill, i);
    if i == |fs| {
      assert lines + r.1 == lines;
    } else {
      var src := if i == 0 then Some(template) else books0[i];
      var book := if src.Some? then fill(src.value, i, fs[i]) else None;
      var skipped := fs[i].values == map[];
      var line := if skipped then NoValues else if book.Some? then Filled else FillError;
      var next := if !skipped && book.Some? then book else books0[i];
      ReportMore(template, books0, fs, fill, lines, next, line);
      books := books0 + [next];
      if line == FillError {
        assert r.1 == [line];
      } else {
        books := ApplyFromMeans(template, books0 + [next], fs, fill, lines + [line], i + 1);
        var rest := AppliedFrom(template, next, fs, fill, i + 1);
        assert lines + r.1 == lines + [line] + rest.1;
      }
    }
  }

  /** The report of applying a plan, step by step. */
  lemma ApplyMeans<B>(template: B, stale: Option<B>, fs: seq<Filling>, fill: (B, nat, Filling) -> Option<B>)
    returns (books: seq<Option<B>>)
    ensures var r := AppliedFrom(template, stale, fs, fill, 0);
      Report(template, books, fs, fill, r.1) && books[0] == stale && books[|r.1|] == r.0
  {
    books := ApplyFromMeans(template, [stale], fs, fill, [], 0);
    assert [] + AppliedFrom(template, stale, fs, fill, 0).1 == AppliedFrom(template, stale, fs, fill, 0).1;
  }
}
