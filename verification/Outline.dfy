/** Outline flattening (tasks/hr_task.py, build_hierarchy): a levelled preorder
    listing becomes one record per leaf, holding its root-to-leaf path. */
module Outline {
  import opened Values

  /** One spreadsheet row; a missing label is None. */
  datatype Row<M> = Row(level: int, title: Option<string>, metric: M)

  /** One output record: the level columns, the position, the metrics. */
  datatype Record<M> = Record(levels: seq<Option<string>>, position: Option<string>, metric: M)

  function MaxLevel<M>(rows: seq<Row<M>>): int
    requires rows != []
  {
    var l := rows[|rows| - 1].level;
    if |rows| == 1 then l
    else
      var m := MaxLevel(rows[..|rows| - 1]);
      if l > m then l else m
  }

  function Nones(n: int): (r: seq<Option<string>>)
    ensures |r| == if n <= 0 then 0 else n
  {
    if n <= 0 then [] else [None] + Nones(n - 1)
  }

  function NonNull(xs: seq<Option<string>>): seq<Option<string>> {
    if xs == [] then []
    else if xs[0].Some? then [xs[0]] + NonNull(xs[1..])
    else NonNull(xs[1..])
  }

  /** The chain after reading a row at a level in 1..max. */
  function Advance<M>(current: seq<Option<string>>, row: Row<M>, max: int): seq<Option<string>>
    requires 1 <= row.level <= max == |current|
  {
    current[..row.level - 1] + [row.title] + Nones(max - row.level)
  }

  function Emit<M>(current: seq<Option<string>>, row: Row<M>, next: int, max: int): seq<Record<M>> {
    var labels := NonNull(current);
    if next > row.level || labels == [] then []
    else [Record(labels[..|labels| - 1] + Nones(max - |labels|), labels[|labels| - 1], row.metric)]
  }

  ghost predicate LevelsWithin<M>(rows: seq<Row<M>>, max: int) {
    forall i | 0 <= i < |rows| :: 1 <= rows[i].level <= max
  }

  function Final<M>(rows: seq<Row<M>>, current: seq<Option<string>>, max: int): (c: seq<Option<string>>)
    requires |current| == max && LevelsWithin(rows, max)
    ensures |c| == max
  {
    if rows == [] then current
    else
      Final(rows[1..], Advance(current, rows[0], max), max)
  }

  /** The records of a listing read from `current`, when `after` is the level
      of whatever follows it. */
  function Scan<M>(rows: seq<Row<M>>, current: seq<Option<string>>, after: int, max: int): seq<Record<M>>
    requires |current| == max && LevelsWithin(rows, max)
  {
    if rows == [] then []
    else
      var c := Advance(current, rows[0], max);
      Emit(c, rows[0], if |rows| > 1 then rows[1].level else after, max) + Scan(rows[1..], c, after, max)
  }

  lemma {:induction false} ScanConcat<M>(a: seq<Row<M>>, b: seq<Row<M>>, current: seq<Option<string>>,
      after: int, max: int)
    requires |current| == max && LevelsWithin(a + b, max)
    ensures LevelsWithin(a, max) && LevelsWithin(b, max)
    ensures Scan(a + b, current, after, max)
         == Scan(a, current, if b == [] then after else b[0].level, max) + Scan(b, Final(a, current, max), after, max)
    ensures Final(a + b, current, max) == Final(b, Final(a, current, max), max)
  {
    assert LevelsWithin(a, max) by {
      forall i | 0 <= i < |a| ensures 1 <= a[i].level <= max { assert (a + b)[i] == a[i]; }
    }
    assert LevelsWithin(b, max) by {
      forall i | 0 <= i < |b| ensures 1 <= b[i].level <= max { assert (a + b)[|a| + i] == b[i]; }
    }
    if a == [] {
      assert a + b == b;
    } else {
      assert (a + b)[0] == a[0] && (a + b)[1..] == a[1..] + b;
      ScanConcat(a[1..], b, Advance(current, a[0], max), after, max);
    }
  }

  /** The loop's state after i rows: the chain above, and the records so far. */
  ghost predicate ReadTo<M>(rows: seq<Row<M>>, i: nat, current: seq<Option<string>>, records: seq<Record<M>>, max: int)
    requires i <= |rows| && max >= 0
  {
    && LevelsWithin(rows[..i], max) && |current| == max
    && current == Final(rows[..i], Nones(max), max)
    && records == Scan(rows[..i], Nones(max), if i < |rows| then rows[i].level else 0, max)
  }

  lemma ReadRow<M>(rows: seq<Row<M>>, i: nat, current: seq<Option<string>>, records: seq<Record<M>>, max: int)
    requires i < |rows| && max >= 0 && ReadTo(rows, i, current, records, max) && 1 <= rows[i].level <= max
    ensures var c := Advance(current, rows[i], max);
      ReadTo(rows, i + 1, c, records + Emit(c, rows[i], if i + 1 < |rows| then rows[i + 1].level else 0, max), max)
  {
    ScanExtend(rows, i, if i + 1 < |rows| then rows[i + 1].level else 0, max);
  }

  /** The code's loop computes the scan from an all-None chain. */
  method BuildHierarchy<M>(rows: seq<Row<M>>) returns (r: Result<seq<Record<M>>>)
    ensures rows == [] ==> r == Err
    ensures rows != [] && MaxLevel(rows) <= 0 ==>
      r == Ok(seq(|rows|, i requires 0 <= i < |rows| => Record([], rows[i].title, rows[i].metric)))
    ensures rows != [] && MaxLevel(rows) > 0 ==>
      && (r.Ok? <==> LevelsWithin(rows, MaxLevel(rows)))
      && (r.Ok? ==> r.value == Scan(rows, Nones(MaxLevel(rows)), 0, MaxLevel(rows)))
  {
    if rows == [] {
      return Err;
    }
    var max := MaxLevel(rows);
    if max <= 0 {
      return Ok(seq(|rows|, i requires 0 <= i < |rows| => Record([], rows[i].title, rows[i].metric)));
    }
    var current, records := Nones(max), [];
    var i := 0;
    while i < |rows|
      invariant 0 <= i <= |rows|
      invariant ReadTo(rows, i, current, records, max)
    {
      var row := rows[i];
      if row.level <= 0 || row.level > max {
        return Err;
      }
      var next := if i + 1 < |rows| then rows[i + 1].level else 0;
      ReadRow(rows, i, current, records, max);
      current := Advance(current, row, max);
      ghost var before := records;
      if next <= row.level {
        var labels := NonNull(current);
        if labels != [] {
          var levels := labels[..|labels| - 1] + Nones(max - |labels|);
          records := records + [Record(levels, labels[|labels| - 1], row.metric)];
        }
      }
      assert records == before + Emit(current, row, next, max);
      i := i + 1;
    }
    assert rows[..|rows|] == rows;
    return Ok(records);
  }

  lemma ScanExtend<M>(rows: seq<Row<M>>, i: nat, next: int, max: int)
    requires i < |rows| && max >= 0 && LevelsWithin(rows[..i], max) && 1 <= rows[i].level <= max
    ensures LevelsWithin(rows[..i + 1], max)
    ensures var current := Final(rows[..i], Nones(max), max);
      && Final(rows[..i + 1], Nones(max), max) == Advance(current, rows[i], max)
      && Scan(rows[..i + 1], Nones(max), next, max)
         == Scan(rows[..i], Nones(max), rows[i].level, max)
          + Emit(Advance(current, rows[i], max), rows[i], next, max)
  {
    assert rows[..i + 1] == rows[..i] + [rows[i]];
    assert LevelsWithin(rows[..i] + [rows[i]], max);
    ScanConcat(rows[..i], [rows[i]], Nones(max), next, max);
    ScanOne(rows[i], Final(rows[..i], Nones(max), max), next, max);
  }

  lemma ScanOne<M>(row: Row<M>, current: seq<Option<string>>, next: int, max: int)
    requires 1 <= row.level <= max == |current|
    ensures |Advance(current, row, max)| == max
    ensures LevelsWithin([row], max)
    ensures Scan([row], current, next, max) == Emit(Advance(current, row, max), row, next, max)
    ensures Final([row], current, max) == Advance(current, row, max)
  {
    assert [row][1..] == [];
  }

  // -- forests ---------------------------------------------------------------

  /** First-child / next-sibling form. */
  datatype Forest<M> = Empty | Tree(title: string, metric: M, children: Forest<M>, rest: Forest<M>)

  function Depth<M>(f: Forest<M>): nat {
    match f
    case Empty => 0
    case Tree(_, _, children, rest) =>
      var d, e := 1 + Depth(children), Depth(rest);
      if d > e then d else e
  }

  /** The preorder listing, each row at its depth. */
  function Listing<M>(f: Forest<M>, depth: nat): seq<Row<M>> {
    match f
    case Empty => []
    case Tree(title, metric, children, rest) =>
      [Row(depth, Some(title), metric)] + Listing(children, depth + 1) + Listing(rest, depth)
  }

  /** Root-to-leaf paths, left to right, with each leaf's metrics. */
  function Paths<M>(f: Forest<M>, above: seq<string>): seq<(seq<string>, M)> {
    match f
    case Empty => []
    case Tree(title, metric, children, rest) =>
      (if children.Empty? then [(above + [title], metric)] else Paths(children, above + [title]))
      + Paths(rest, above)
  }

  function Somes(path: seq<string>): (r: seq<Option<string>>)
    ensures |r| == |path|
    ensures forall i | 0 <= i < |path| :: r[i] == Some(path[i])
  {
    if path == [] then [] else [Some(path[0])] + Somes(path[1..])
  }

  /** The last element as position, the rest as level columns. */
  function Padded<M>(path: seq<string>, metric: M, width: int): Record<M> {
    if path == [] then Record(Nones(width), None, metric)
    else
      var n := |path| - 1;
      Record(Somes(path[..n]) + Nones(width - |path|), Some(path[n]), metric)
  }

  /** No path is empty, and none is longer than the forest is deep. */
  lemma {:induction false} PathsNonEmpty<M>(f: Forest<M>, above: seq<string>)
    ensures forall i | 0 <= i < |Paths(f, above)| ::
      0 < |Paths(f, above)[i].0| <= |above| + Depth(f)
  {
    if f.Tree? {
      PathsNonEmpty(f.children, above + [f.title]);
      PathsNonEmpty(f.rest, above);
    }
  }

  function Records<M>(paths: seq<(seq<string>, M)>, width: int): seq<Record<M>>
  {
    if paths == [] then []
    else [Padded(paths[0].0, paths[0].1, width)] + Records(paths[1..], width)
  }

  /** Records of non-empty paths have one width: level columns before the
      position, and the position is the path's last label. */
  lemma {:induction false} RecordsWidth<M>(paths: seq<(seq<string>, M)>, width: int)
    requires forall i | 0 <= i < |paths| :: 0 < |paths[i].0| <= width
    ensures |Records(paths, width)| == |paths|
    ensures forall i | 0 <= i < |paths| ::
      && |Records(paths, width)[i].levels| == width - 1
      && Records(paths, width)[i].position == Some(paths[i].0[|paths[i].0| - 1])
  {
    if paths != [] {
      RecordsWidth(paths[1..], width);
    }
  }

  lemma RecordsCons<M>(p: (seq<string>, M), rest: seq<(seq<string>, M)>, width: int)
    ensures Records([p] + rest, width) == [Padded(p.0, p.1, width)] + Records(rest, width)
  {
    assert ([p] + rest)[1..] == rest;
  }

  lemma {:induction false} RecordsConcat<M>(a: seq<(seq<string>, M)>, b: seq<(seq<string>, M)>, width: int)
    ensures Records(a + b, width) == Records(a, width) + Records(b, width)
  {
    if a == [] {
      assert a + b == b;
    } else {
      var rest := a[1..];
      RecordsConcat(rest, b, width);
      RecordsCons(a[0], rest + b, width);
      RecordsCons(a[0], rest, width);
      assert [a[0]] + (rest + b) == a + b && [a[0]] + rest == a;
    }
  }

  lemma {:induction false} NonNullPath(path: seq<string>, n: nat)
    ensures NonNull(Somes(path) + Nones(n)) == Somes(path)
  {
    if path == [] {
      NonNullNones(n);
      assert Somes(path) + Nones(n) == Nones(n);
    } else {
      NonNullPath(path[1..], n);
      assert (Somes(path) + Nones(n))[1..] == Somes(path[1..]) + Nones(n);
    }
  }

  lemma {:induction false} NonNullNones(n: nat)
    ensures NonNull(Nones(n)) == []
  {
    if n > 0 {
      NonNullNones(n - 1);
      assert Nones(n)[1..] == Nones(n - 1);
    }
  }

  lemma {:induction false} ListingLevels<M>(f: Forest<M>, depth: nat, max: int)
    requires depth >= 1 && depth - 1 + Depth(f) <= max
    ensures LevelsWithin(Listing(f, depth), max)
    ensures f.Tree? ==> Listing(f, depth) != [] && Listing(f, depth)[0].level == depth
  {
    if f.Tree? {
      ListingLevels(f.children, depth + 1, max);
      ListingLevels(f.rest, depth, max);
    }
  }

  /** One row followed by two listings, scanned in three parts. */
  lemma ScanTree<M>(row: Row<M>, below: seq<Row<M>>, siblings: seq<Row<M>>,
                    current: seq<Option<string>>, after: int, max: int)
    requires |current| == max && LevelsWithin([row] + below + siblings, max)
    ensures LevelsWithin(below, max) && LevelsWithin(siblings, max) && 1 <= row.level <= max
    ensures
      var afterTree := if siblings == [] then after else siblings[0].level;
      var next := if below == [] then afterTree else below[0].level;
      var c := Advance(current, row, max);
      && |c| == max
      && Scan([row] + below + siblings, current, after, max)
         == Emit(c, row, next, max) + Scan(below, c, afterTree, max) + Scan(siblings, Final(below, c, max), after, max)
      && Final([row] + below + siblings, current, max) == Final(siblings, Final(below, c, max), max)
  {
    assert [row] + below + siblings == [row] + (below + siblings);
    ScanConcat([row], below + siblings, current, after, max);
    assert 1 <= [row][0].level <= max;
    ScanOne(row, current, (if below + siblings == [] then after else (below + siblings)[0].level), max);
    ScanConcat(below, siblings, Advance(current, row, max), after, max);
  }

  lemma SomesFront(path: seq<string>)
    requires path != []
    ensures Somes(path)[..|path| - 1] == Somes(path[..|path| - 1])
  {
  }

  lemma EmitLabels<M>(chain: seq<Option<string>>, labels: seq<Option<string>>, row: Row<M>, next: int, max: int)
    requires NonNull(chain) == labels != [] && next <= row.level
    ensures Emit(chain, row, next, max)
         == [Record(labels[..|labels| - 1] + Nones(max - |labels|), labels[|labels| - 1], row.metric)]
  {
  }

  /** A leaf's chain is emitted as its padded path. */
  lemma EmitPath<M>(path: seq<string>, row: Row<M>, next: int, max: int)
    requires path != [] && |path| <= max && next <= row.level
    ensures Emit(Somes(path) + Nones(max - |path|), row, next, max) == Records([(path, row.metric)], max)
  {
    NonNullPath(path, max - |path|);
    SomesFront(path);
    RecordsCons((path, row.metric), [], max);
    assert [(path, row.metric)] + [] == [(path, row.metric)];
    EmitLabels(Somes(path) + Nones(max - |path|), Somes(path), row, next, max);
  }

  /** A tree's own records: its leaf path, or what its children give. */
  lemma OwnRecords<M>(f: Forest<M>, above: seq<string>, next: int, max: int)
    requires f.Tree? && |above| + 1 <= max
    requires f.children.Empty? ==> next <= |above| + 1
    requires f.children.Tree? ==> next > |above| + 1
    ensures
      var path := above + [f.title];
      var row := Row(|path|, Some(f.title), f.metric);
      Emit(Somes(path) + Nones(max - |path|), row, next, max)
        + Records(Paths(f.children, path), max) + Records(Paths(f.rest, above), max)
      == Records(Paths(f, above), max)
  {
    var path := above + [f.title];
    var row := Row(|path|, Some(f.title), f.metric);
    if f.children.Empty? {
      EmitPath(path, row, next, max);
      RecordsConcat([(path, f.metric)], Paths(f.rest, above), max);
    } else {
      RecordsConcat(Paths(f.children, path), Paths(f.rest, above), max);
    }
  }

  /** Below the chain `above`, a row at the next depth extends it. */
  lemma AdvanceBelow<M>(above: seq<string>, row: Row<M>, title: string, current: seq<Option<string>>, max: int)
    requires |above| < max == |current| && current[..|above|] == Somes(above)
    requires row.level == |above| + 1 && row.title == Some(title)
    ensures Advance(current, row, max) == Somes(above + [title]) + Nones(max - row.level)
    ensures Advance(current, row, max)[..|above| + 1] == Somes(above + [title])
  {
    assert Somes(above + [title]) == Somes(above) + [Some(title)];
  }

  /** Reading a forest leaves the chain above it as it was. */
  lemma {:induction false} ChainKept<M>(f: Forest<M>, above: seq<string>, current: seq<Option<string>>, max: int)
    requires |current| == max && |above| + Depth(f) <= max
    requires current[..|above|] == Somes(above)
    ensures LevelsWithin(Listing(f, |above| + 1), max)
    ensures Final(Listing(f, |above| + 1), current, max)[..|above|] == Somes(above)
  {
    var d := |above| + 1;
    ListingLevels(f, d, max);
    if f.Tree? {
      var row := Row(d, Some(f.title), f.metric);
      var below, siblings := Listing(f.children, d + 1), Listing(f.rest, d);
      ListingLevels(f.children, d + 1, max);
      ListingLevels(f.rest, d, max);
      ScanTree(row, below, siblings, current, 0, max);
      var c := Advance(current, row, max);
      AdvanceBelow(above, row, f.title, current, max);
      ChainKept(f.children, above + [f.title], c, max);
      var c' := Final(below, c, max);
      assert c'[..|above|] == c'[..d][..|above|] == Somes(above);
      ChainKept(f.rest, above, c', max);
    }
  }

  /** A tree's scan, given its children's and its siblings'. */
  lemma ScanParts<M>(f: Forest<M>, above: seq<string>, current: seq<Option<string>>, after: int, max: int)
    requires f.Tree? && |current| == max && |above| + Depth(f) <= max
    requires current[..|above|] == Somes(above) && after <= |above| + 1
    requires LevelsWithin(Listing(f, |above| + 1), max)
    requires LevelsWithin(Listing(f.children, |above| + 2), max) && LevelsWithin(Listing(f.rest, |above| + 1), max)
    requires
      var row := Row(|above| + 1, Some(f.title), f.metric);
      var c := Advance(current, row, max);
      var below, siblings := Listing(f.children, |above| + 2), Listing(f.rest, |above| + 1);
      && |c| == max
      && Scan(below, c, if siblings == [] then after else |above| + 1, max)
           == Records(Paths(f.children, above + [f.title]), max)
      && Scan(siblings, Final(below, c, max), after, max) == Records(Paths(f.rest, above), max)
    ensures Scan(Listing(f, |above| + 1), current, after, max) == Records(Paths(f, above), max)
  {
    var d := |above| + 1;
    var row := Row(d, Some(f.title), f.metric);
    var below, siblings := Listing(f.children, d + 1), Listing(f.rest, d);
    ListingLevels(f.children, d + 1, max);
    ListingLevels(f.rest, d, max);
    AdvanceBelow(above, row, f.title, current, max);
    ScanTree(row, below, siblings, current, after, max);
    OwnRecords(f, above, if below == [] then (if siblings == [] then after else d) else d + 1, max);
  }

  /** Reading a forest's listing below the chain `above` yields its paths. */
  lemma {:induction false} ScanForest<M>(f: Forest<M>, above: seq<string>, current: seq<Option<string>>,
      after: int, max: int)
    requires |current| == max && |above| + Depth(f) <= max
    requires current[..|above|] == Somes(above) && after <= |above| + 1
    ensures LevelsWithin(Listing(f, |above| + 1), max)
    ensures Scan(Listing(f, |above| + 1), current, after, max) == Records(Paths(f, above), max)
  {
    var d := |above| + 1;
    ListingLevels(f, d, max);
    if f.Tree? {
      var row := Row(d, Some(f.title), f.metric);
      var below, siblings := Listing(f.children, d + 1), Listing(f.rest, d);
      var path := above + [f.title];
      AdvanceBelow(above, row, f.title, current, max);
      var c := Advance(current, row, max);
      ScanForest(f.children, path, c, if siblings == [] then after else d, max);
      var c' := Final(below, c, max);
      ChainKept(f.children, path, c, max);
      assert c'[..|above|] == c'[..d][..|above|] == Somes(above);
      ScanForest(f.rest, above, c', after, max);
      ScanParts(f, above, current, after, max);
    }
  }

  lemma {:induction false} MaxLevelConcat<M>(a: seq<Row<M>>, b: seq<Row<M>>)
    requires a != [] && b != []
    ensures MaxLevel(a + b) == if MaxLevel(a) > MaxLevel(b) then MaxLevel(a) else MaxLevel(b)
    decreases |b|
  {
    var n := |b| - 1;
    if n == 0 {
      assert (a + b)[..|a + b| - 1] == a;
    } else {
      assert (a + b)[..|a + b| - 1] == a + b[..n];
      MaxLevelConcat(a, b[..n]);
    }
  }

  lemma {:induction false} ListingMaxLevel<M>(f: Forest<M>, depth: nat)
    requires f.Tree?
    ensures Listing(f, depth) != [] && MaxLevel(Listing(f, depth)) == depth - 1 + Depth(f)
  {
    var head := [Row(depth, Some(f.title), f.metric)];
    var below, siblings := Listing(f.children, depth + 1), Listing(f.rest, depth);
    if f.children.Tree? {
      ListingMaxLevel(f.children, depth + 1);
      MaxLevelConcat(head, below);
    } else {
      assert head + below == head;
    }
    if f.rest.Tree? {
      ListingMaxLevel(f.rest, depth);
      MaxLevelConcat(head + below, siblings);
    } else {
      assert head + below + siblings == head + below;
    }
  }

  /** Every record of a flattened forest has the level columns of the deepest
      path but its last, and a position. */
  lemma FlattenedWidth<M>(f: Forest<M>)
    ensures forall i | 0 <= i < |Records(Paths(f, []), Depth(f))| ::
      var r := Records(Paths(f, []), Depth(f))[i];
      |r.levels| == Depth(f) - 1 && r.position.Some?
  {
    PathsNonEmpty(f, []);
    RecordsWidth(Paths(f, []), Depth(f));
  }

  /** For every forest listed in preorder, the result is its root-to-leaf
      paths, left to right, padded to the deepest level. */
  method FlattenForest<M>(f: Forest<M>) returns (r: Result<seq<Record<M>>>)
    requires f.Tree?
    ensures r == Ok(Records(Paths(f, []), Depth(f)))
  {
    ListingMaxLevel(f, 1);
    ScanForest(f, [], Nones(Depth(f)), 0, Depth(f));
    r := BuildHierarchy(Listing(f, 1));
  }
}
