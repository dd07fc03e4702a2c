/** Column type inference: the per-column sample-then-verify path, the
    row-major path, and the one-pass stream state
    (task_core/db/values.py, lines 816-1262). */
module Inference {
  import opened Values
  import opened Families

  type Row = map<string, Value>

  function Cells(rows: seq<Row>, name: string): (r: seq<Value>)
    ensures |r| == |rows|
    ensures forall i | 0 <= i < |rows| :: r[i] == Get(rows[i], name)
  {
    seq(|rows|, i requires 0 <= i < |rows| => Get(rows[i], name))
  }

  /** rows[:size], with None for the whole list. */
  function Sampled<T>(rows: seq<T>, size: Option<nat>): seq<T> {
    if size.Some? && size.value < |rows| then rows[..size.value] else rows
  }

  predicate SampledShort<T>(rows: seq<T>, size: Option<nat>) {
    size.Some? && size.value < |rows|
  }

  /** Whether a later value leaves an inferred type's silent boundary alone:
      the checks exist for bigint, date and timestamp only. */
  predicate Consistent(v: Value, t: SqlType) {
    match t
    case BigIntT => v.Null? || v.Int?
    case DateT => v.Null? || v.Day?
    case TimestampT(zoned) => v.Null? || (v.Day? && !zoned) || (v.Stamp? && IsAware(v) == zoned)
    case _ => true
  }

  predicate Verified(t: SqlType) { t.BigIntT? || t.DateT? || t.TimestampT? }

  /** The type a column gets: the sample's answer, unless the sample saw nothing
      or a later value crosses a silent boundary, in which case every row is
      scanned. */
  ghost function Inferred(vs: seq<Value>, size: Option<nat>): Result<SqlType> {
    var families := EarlyStop(Sampled(vs, size), {});
    if SampledShort(vs, size) && families == {} then FullScan(vs)
    else
      var t :- Resolve(families);
      if SampledShort(vs, size) && exists v :: v in vs[size.value..] && !Consistent(v, t) then FullScan(vs)
      else Ok(t)
  }

  // -- the sample is exact where a mistake would be silent --------------------

  /** The families a verified type admits, and the one it needs. */
  function Admitted(t: SqlType): set<Family>
    requires Verified(t)
  {
    match t
    case BigIntT => {IntFamily}
    case DateT => {DateFamily}
    case TimestampT(zoned) => if zoned then {AwareFamily} else {DateFamily, NaiveFamily}
  }

  function Needed(t: SqlType): Family
    requires Verified(t)
  {
    match t
    case BigIntT => IntFamily
    case DateT => DateFamily
    case TimestampT(zoned) => if zoned then AwareFamily else NaiveFamily
  }

  lemma VerifiedMeaning(vs: seq<Value>, t: SqlType)
    requires Verified(t)
    ensures FullScan(vs) == Ok(t) <==> AllIn(vs, Admitted(t)) && Has(vs, Needed(t))
  {
    ScanByFamilies(vs);
    if HasValue(vs) && AllIn(vs, {Needed(t)}) {
      var v :| v in vs && !v.Null?;
      assert FamilyOf(v) == Needed(t);
    }
    if Has(vs, Needed(t)) {
      var v :| v in vs && !v.Null? && FamilyOf(v) == Needed(t);
    }
  }

  /** A verified answer that the remainder never contradicts is the full scan's. */
  lemma VerifiedIsFullScan(vs: seq<Value>, n: nat, t: SqlType)
    requires n <= |vs| && FullScan(vs[..n]) == Ok(t) && Verified(t)
    requires forall v | v in vs[n..] :: Consistent(v, t)
    ensures FullScan(vs) == Ok(t)
  {
    VerifiedMeaning(vs[..n], t);
    VerifiedMeaning(vs, t);
    assert vs == vs[..n] + vs[n..];
    forall v | v in vs && !v.Null?
      ensures FamilyOf(v) in Admitted(t)
    {
      assert v in vs[..n] || Consistent(v, t);
    }
    var v :| v in vs[..n] && !v.Null? && FamilyOf(v) == Needed(t);
    assert v in vs;
  }

  /** Sample-then-verify equals the full scan whenever the sample saw nothing
      or answered bigint, date or timestamp: the answers PostgreSQL would
      silently narrow a later value into. */
  lemma SampleExactWhereSilent(vs: seq<Value>, size: Option<nat>)
    requires var families := EarlyStop(Sampled(vs, size), {});
      families == {} || (Resolve(families).Ok? && Verified(Resolve(families).value))
    ensures Inferred(vs, size) == FullScan(vs)
  {
    if SampledShort(vs, size) {
      var r := Resolve(EarlyStop(vs[..size.value], {}));
      if r.Ok? && Verified(r.value) && forall v | v in vs[size.value..] :: Consistent(v, r.value) {
        VerifiedIsFullScan(vs, size.value, r.value);
      }
    }
  }

  /** The converse reading: an answer that differs from the full scan came from
      a sample that resolved to boolean, numeric, binary or an observed text, or
      that was refused outright. */
  lemma DifferenceIsLoud(vs: seq<Value>, size: Option<nat>)
    requires Inferred(vs, size) != FullScan(vs)
    ensures SampledShort(vs, size)
    ensures var sample := vs[..size.value];
      && HasValue(sample)
      && Inferred(vs, size) == FullScan(sample)
      && (FullScan(sample) == Err
          || FullScan(sample).value in {BooleanT, PLAIN_NUMERIC, BinaryT, PLAIN_TEXT})
  {
    var families := EarlyStop(Sampled(vs, size), {});
    if families == {} || (Resolve(families).Ok? && Verified(Resolve(families).value)) {
      SampleExactWhereSilent(vs, size);
    }
    SeenHasValue(Sampled(vs, size));
    LoudResolution(families);
  }

  /** The sample's answer stands, but for a sample that saw no value or answered
      bigint, date or timestamp: then every row decides. */
  lemma SampleDecides(vs: seq<Value>, size: Option<nat>)
    ensures Inferred(vs, size) ==
      if size.None? || size.value >= |vs| then FullScan(vs)
      else
        var sample := vs[..size.value];
        if (forall v | v in sample :: v.Null?)
          || FullScan(sample) in {Ok(BigIntT), Ok(DateT), Ok(TimestampT(false)), Ok(TimestampT(true))}
        then FullScan(vs) else FullScan(sample)
  {
    if SampledShort(vs, size) {
      var sample := vs[..size.value];
      var families := EarlyStop(sample, {});
      EarlyStopGathers(sample, {});
      FamiliesByQuantifier(sample, {}, IntFamily);
      SampleDecidesSilent(vs, size);
      assert families == {} <==> forall v | v in sample :: v.Null?;
    }
  }

  lemma SampleDecidesSilent(vs: seq<Value>, size: Option<nat>)
    requires SampledShort(vs, size)
    ensures var families := EarlyStop(vs[..size.value], {});
      Inferred(vs, size) ==
        if families == {} || (Resolve(families).Ok? && Verified(Resolve(families).value)) then FullScan(vs)
        else Resolve(families)
  {
    var families := EarlyStop(vs[..size.value], {});
    if families == {} || (Resolve(families).Ok? && Verified(Resolve(families).value)) {
      SampleExactWhereSilent(vs, size);
    }
  }

  lemma SeenHasValue(vs: seq<Value>)
    requires EarlyStop(vs, {}) != {}
    ensures HasValue(vs)
  {
    EarlyStopGathers(vs, {});
    FamiliesByQuantifier(vs, {}, IntFamily);
  }

  lemma LoudResolution(fs: set<Family>)
    requires !(Resolve(fs).Ok? && Verified(Resolve(fs).value))
    ensures Resolve(fs) == Err || Resolve(fs).value in {BooleanT, PLAIN_NUMERIC, BinaryT, PLAIN_TEXT}
  {
    if Resolve(fs).Ok? {
      ResolvedTypes(fs);
    }
  }

  // -- per column -------------------------------------------------------------

  ghost predicate ScannedTo(rows: seq<Row>, n: nat, name: string, families: set<Family>)
    requires n <= |rows|
  {
    families == EarlyStop(Cells(rows, name)[..n], {})
  }

  lemma ScannedStep(rows: seq<Row>, n: nat, name: string, before: set<Family>)
    requires n < |rows| && ScannedTo(rows, n, name, before)
    ensures var value := Get(rows[n], name);
      ScannedTo(rows, n + 1, name,
        if |before| > 2 || value.Null? then before else before + {FamilyOf(value)})
  {
    assert Cells(rows, name)[..n + 1] == Cells(rows, name)[..n] + [Get(rows[n], name)];
    EarlyStopAppend(Cells(rows, name)[..n], Get(rows[n], name), {});
  }

  lemma ScannedRest(rows: seq<Row>, n: nat, m: nat, name: string, families: set<Family>)
    requires n <= m <= |rows| && ScannedTo(rows, n, name, families) && |families| > 2
    ensures ScannedTo(rows, m, name, families)
  {
    var vs := Cells(rows, name);
    assert vs[..m] == vs[..n] + vs[n..m];
    EarlyStopConcat(vs[..n], vs[n..m], {});
  }

  lemma SampledCells(rows: seq<Row>, name: string, size: Option<nat>)
    ensures var m := |Sampled(rows, size)|;
      m <= |rows| && Cells(rows, name)[..m] == Sampled(Cells(rows, name), size)
    ensures forall i | 0 <= i < |Sampled(rows, size)| :: Sampled(rows, size)[i] == rows[i]
  {
  }

  method ScanFamilies(rows: seq<Row>, name: string, size: Option<nat>) returns (families: set<Family>)
    ensures families == EarlyStop(Sampled(Cells(rows, name), size), {})
  {
    families := {};
    var scanned := Sampled(rows, size);
    SampledCells(rows, name, size);
    var i := 0;
    while i < |scanned|
      invariant 0 <= i <= |scanned|
      invariant ScannedTo(rows, i, name, families) && |families| <= 2
    {
      var value := Get(scanned[i], name);
      ScannedStep(rows, i, name, families);
      i := i + 1;
      if !value.Null? {
        families := families + {FamilyOf(value)};
        if |families| > 2 {
          ScannedRest(rows, i, |scanned|, name, families);
          return;
        }
      }
    }
  }

  method InferColumnType(rows: seq<Row>, name: string, size: Option<nat>) returns (r: Result<SqlType>)
    ensures r == Inferred(Cells(rows, name), size)
  {
    ghost var vs := Cells(rows, name);
    var families := ScanFamilies(rows, name, size);
    if size.Some? && |rows| > size.value && families == {} {
      var all := ScanFamilies(rows, name, None);
      return Resolve(all);
    }
    var inferred := Resolve(families);
    if inferred.Err? || size.None? || |rows| <= size.value || !Verified(inferred.value) {
      return inferred;
    }
    var i := size.value;
    while i < |rows|
      invariant size.value <= i <= |rows|
      invariant forall k | size.value <= k < i :: Consistent(vs[k], inferred.value)
    {
      if !Consistent(Get(rows[i], name), inferred.value) {
        assert vs[i] in vs[size.value..] by { assert vs[size.value..][i - size.value] == vs[i]; }
        var all := ScanFamilies(rows, name, None);
        return Resolve(all);
      }
      i := i + 1;
    }
    return inferred;
  }

  // -- row major ----------------------------------------------------------------

  /** One walk over rows[..stop] for all names; a column retires at its third
      family. */
  method ScanFamiliesRowMajor(rows: seq<Row>, names: set<string>, stop: nat)
    returns (families: map<string, set<Family>>)
    requires stop <= |rows|
    ensures families.Keys == names
    ensures forall name | name in names :: ScannedTo(rows, stop, name, families[name])
  {
    families := map name | name in names :: {};
    var live := names;
    var i := 0;
    while i < stop && live != {}
      invariant 0 <= i <= stop && live <= names == families.Keys
      invariant forall name | name in names :: ScannedTo(rows, i, name, families[name])
      invariant forall name | name in names :: name in live <==> |families[name]| <= 2
      decreases stop - i
    {
      families, live := ScanRow(rows, i, names, families, live);
      i := i + 1;
    }
    forall name | name in names
      ensures ScannedTo(rows, stop, name, families[name])
    {
      if i < stop {
        ScannedRest(rows, i, stop, name, families[name]);
      }
    }
  }

  /** A column's set after a row of the walk, if the row was looked at. */
  function Visited(before: set<Family>, v: Value, looked: bool): set<Family> {
    if looked then Fed(before, v) else before
  }

  /** One row of the walk: only live columns are looked at. */
  method ScanRow(rows: seq<Row>, i: nat, names: set<string>, before: map<string, set<Family>>, live: set<string>)
    returns (families: map<string, set<Family>>, stillLive: set<string>)
    requires i < |rows| && live <= names == before.Keys
    requires forall name | name in names :: ScannedTo(rows, i, name, before[name])
    requires forall name | name in names :: name in live <==> |before[name]| <= 2
    ensures stillLive <= names == families.Keys
    ensures forall name | name in names :: ScannedTo(rows, i + 1, name, families[name])
    ensures forall name | name in names :: name in stillLive <==> |families[name]| <= 2
  {
    var retired;
    families, retired := VisitLive(rows[i], names, before, live);
    stillLive := live - retired;
    forall name | name in names
      ensures ScannedTo(rows, i + 1, name, families[name])
      ensures name in stillLive <==> |families[name]| <= 2
    {
      ScannedStep(rows, i, name, before[name]);
    }
  }

  method VisitLive(row: Row, names: set<string>, before: map<string, set<Family>>, live: set<string>)
    returns (families: map<string, set<Family>>, retired: set<string>)
    requires live <= names == before.Keys && forall name | name in live :: |before[name]| <= 2
    ensures families.Keys == names && retired <= live
    ensures forall name | name in names :: families[name] == Visited(before[name], Get(row, name), name in live)
    ensures forall name | name in live :: name in retired <==> |families[name]| > 2
  {
    families, retired := before, {};
    var pending := live;
    while pending != {}
      invariant pending <= live && retired <= live - pending && families.Keys == names
      invariant forall name | name in names ::
        families[name] == Visited(before[name], Get(row, name), name in live && name !in pending)
      invariant forall name | name in live && name !in pending :: name in retired <==> |families[name]| > 2
    {
      var name :| name in pending;
      pending := pending - {name};
      var value := Get(row, name);
      if !value.Null? {
        families := families[name := families[name] + {FamilyOf(value)}];
        if |families[name]| > 2 {
          retired := retired + {name};
        }
      }
    }
  }

  ghost predicate ConsistentTo(rows: seq<Row>, from: nat, to: nat, name: string, t: SqlType)
    requires from <= to <= |rows|
  {
    forall k | from <= k < to :: Consistent(Get(rows[k], name), t)
  }

  /** The verification walk over the unsampled rows. */
  method Contradicted(rows: seq<Row>, from: nat, checks: map<string, SqlType>) returns (failed: set<string>)
    requires from <= |rows|
    ensures failed <= checks.Keys
    ensures forall name | name in checks :: name in failed <==> !ConsistentTo(rows, from, |rows|, name, checks[name])
  {
    failed := {};
    var toVerify := checks.Keys;
    var i := from;
    while i < |rows| && toVerify != {}
      invariant from <= i <= |rows| && toVerify == checks.Keys - failed && failed <= checks.Keys
      invariant forall name | name in toVerify :: ConsistentTo(rows, from, i, name, checks[name])
      invariant forall name | name in failed :: !ConsistentTo(rows, from, |rows|, name, checks[name])
      decreases |rows| - i
    {
      var found := set name | name in toVerify && !Consistent(Get(rows[i], name), checks[name]);
      forall name | name in found
        ensures !ConsistentTo(rows, from, |rows|, name, checks[name])
      {
        assert !Consistent(Get(rows[i], name), checks[name]);
      }
      failed := failed + found;
      toVerify := toVerify - found;
      i := i + 1;
    }
  }

  /** Per-column answers for a set of names, or the refusal of one of them. */
  ghost predicate AllInferred(rows: seq<Row>, names: set<string>, size: Option<nat>, r: Result<map<string, SqlType>>) {
    && (r.Ok? <==> forall name | name in names :: Inferred(Cells(rows, name), size).Ok?)
    && (r.Ok? ==>
          && r.value.Keys == names
          && forall name | name in names :: Inferred(Cells(rows, name), size) == Ok(r.value[name]))
  }

  /** _resolve_families over several columns: the first refusal is everyone's. */
  function ResolveAll(families: map<string, set<Family>>): Result<map<string, SqlType>> {
    if forall name | name in families :: Resolve(families[name]).Ok?
    then Ok(map name | name in families :: Resolve(families[name]).value)
    else Err
  }

  lemma ContradictedColumn(rows: seq<Row>, name: string, size: nat, t: SqlType)
    requires size < |rows|
    ensures !ConsistentTo(rows, size, |rows|, name, t)
       <==> exists v :: v in Cells(rows, name)[size..] && !Consistent(v, t)
  {
    var vs := Cells(rows, name);
    if !ConsistentTo(rows, size, |rows|, name, t) {
      var k :| size <= k < |rows| && !Consistent(Get(rows[k], name), t);
      assert vs[size..][k - size] == vs[k];
    }
  }

  /** One column: rescanned when its sample saw nothing or is contradicted. */
  lemma AssembledOne(rows: seq<Row>, name: string, size: nat, seen: set<Family>, rescanned: Option<set<Family>>)
    requires size < |rows| && seen == EarlyStop(Cells(rows, name)[..size], {})
    requires seen != {} ==> Resolve(seen).Ok?
    requires rescanned.Some? <==>
      seen == {} || (Verified(Resolve(seen).value) && !ConsistentTo(rows, size, |rows|, name, Resolve(seen).value))
    requires rescanned.Some? ==> rescanned.value == EarlyStop(Cells(rows, name), {})
    ensures Inferred(Cells(rows, name), Some(size)) == Resolve(if rescanned.Some? then rescanned.value else seen)
  {
    if seen != {} {
      ContradictedColumn(rows, name, size, Resolve(seen).value);
    }
  }

  /** What the shared walks found, assembled column by column. */
  lemma Assembled(rows: seq<Row>, names: set<string>, size: nat,
                  families: map<string, set<Family>>, unseen: set<string>,
                  sampled: map<string, SqlType>, contradicted: set<string>,
                  full: map<string, set<Family>>)
    requires size < |rows| && families.Keys == names
    requires forall name | name in names :: families[name] == EarlyStop(Cells(rows, name)[..size], {})
    requires unseen == set name | name in names && families[name] == {}
    requires sampled.Keys == names - unseen
    requires forall name | name in sampled :: Resolve(families[name]) == Ok(sampled[name])
    requires contradicted <= sampled.Keys
    requires forall name | name in sampled ::
      name in contradicted <==> Verified(sampled[name]) && !ConsistentTo(rows, size, |rows|, name, sampled[name])
    requires full.Keys == unseen + contradicted
    requires forall name | name in full :: full[name] == EarlyStop(Cells(rows, name), {})
    ensures forall name | name in names ::
      Inferred(Cells(rows, name), Some(size)) == Answer(name, sampled, full)
  {
    forall name | name in names
      ensures Inferred(Cells(rows, name), Some(size)) == Answer(name, sampled, full)
    {
      AssembledOne(rows, name, size, families[name], if name in full then Some(full[name]) else None);
    }
  }

  function Answer(name: string, sampled: map<string, SqlType>, full: map<string, set<Family>>): Result<SqlType>
    requires name in sampled || name in full
  {
    if name in full then Resolve(full[name]) else Ok(sampled[name])
  }

  /** The sampled answers, overridden by the rescanned ones, are everyone's. */
  lemma Combined(rows: seq<Row>, names: set<string>, size: nat,
                 sampled: map<string, SqlType>, full: map<string, set<Family>>)
    requires names == sampled.Keys + full.Keys
    requires forall name | name in names ::
      Inferred(Cells(rows, name), Some(size)) == Answer(name, sampled, full)
    ensures var rescanned := ResolveAll(full);
      AllInferred(rows, names, Some(size), if rescanned.Err? then Err else Ok(sampled + rescanned.value))
  {
    if ResolveAll(full).Err? {
      var name :| name in full && Resolve(full[name]).Err?;
      assert name in names;
    }
  }

  /** Inferring every column in shared walks gives each column exactly what
      inferring it alone gives, and is refused exactly when one of them is. */
  method InferColumnTypesRowMajor(rows: seq<Row>, names: set<string>, size: Option<nat>)
    returns (r: Result<map<string, SqlType>>)
    ensures AllInferred(rows, names, size, r)
  {
    var short := size.Some? && |rows| > size.value;
    var stop := if short then size.value else |rows|;
    var families := ScanFamiliesRowMajor(rows, names, stop);
    forall name | name in names
      ensures families[name] == EarlyStop(Sampled(Cells(rows, name), size), {})
    {
      assert Cells(rows, name)[..stop] == Sampled(Cells(rows, name), size);
    }
    if !short {
      return ResolveAll(families);
    }
    r := VerifySampled(rows, names, size.value, families);
  }

  /** The second half of the row-major path: a sample shorter than the rows. */
  method VerifySampled(rows: seq<Row>, names: set<string>, size: nat, families: map<string, set<Family>>)
    returns (r: Result<map<string, SqlType>>)
    requires size < |rows| && families.Keys == names
    requires forall name | name in names :: families[name] == EarlyStop(Cells(rows, name)[..size], {})
    ensures AllInferred(rows, names, Some(size), r)
  {
    var needsFullScan := set name | name in names && families[name] == {};
    var seen := map name | name in names - needsFullScan :: families[name];
    var resolved := ResolveAll(seen);
    if resolved.Err? {
      var name :| name in seen && Resolve(seen[name]).Err?;
      assert name in names && Inferred(Cells(rows, name), Some(size)).Err?;
      return Err;
    }
    r := AnswerAll(rows, names, size, families, needsFullScan, resolved.value);
  }

  /** Verify what the sample resolved, then rescan what needs it. */
  method AnswerAll(rows: seq<Row>, names: set<string>, size: nat, families: map<string, set<Family>>,
                   needsFullScan: set<string>, sampled: map<string, SqlType>)
    returns (r: Result<map<string, SqlType>>)
    requires size < |rows| && families.Keys == names
    requires forall name | name in names :: families[name] == EarlyStop(Cells(rows, name)[..size], {})
    requires needsFullScan == set name | name in names && families[name] == {}
    requires sampled.Keys == names - needsFullScan
    requires forall name | name in sampled :: Resolve(families[name]) == Ok(sampled[name])
    ensures AllInferred(rows, names, Some(size), r)
  {
    var checks := map name | name in sampled && Verified(sampled[name]) :: sampled[name];
    var contradicted := Contradicted(rows, size, checks);
    var full := Rescan(rows, needsFullScan + contradicted);
    Assembled(rows, names, size, families, needsFullScan, sampled, contradicted, full);
    Combined(rows, names, size, sampled, full);
    var rescanned := ResolveAll(full);
    if rescanned.Err? {
      return Err;
    }
    return Ok(sampled + rescanned.value);
  }

  /** The shared walk over every row for the columns that need one. */
  method Rescan(rows: seq<Row>, names: set<string>) returns (full: map<string, set<Family>>)
    ensures full.Keys == names
    ensures forall name | name in names :: full[name] == EarlyStop(Cells(rows, name), {})
  {
    full := ScanFamiliesRowMajor(rows, names, |rows|);
    forall name | name in names
      ensures full[name] == EarlyStop(Cells(rows, name), {})
    {
      assert Cells(rows, name)[..|rows|] == Cells(rows, name);
    }
  }

  const ROW_MAJOR_MIN_COLUMNS := 30

  /** The dispatch on width changes cost only: at every width the answer is the
      per-column one. */
  method InferColumnTypes(rows: seq<Row>, names: seq<string>, size: Option<nat>)
    returns (r: Result<map<string, SqlType>>)
    ensures AllInferred(rows, (set name | name in names), size, r)
  {
    if |names| >= ROW_MAJOR_MIN_COLUMNS {
      r := InferColumnTypesRowMajor(rows, (set name | name in names), size);
      return;
    }
    var types: map<string, SqlType> := map[];
    var i := 0;
    while i < |names|
      invariant 0 <= i <= |names|
      invariant types.Keys == set name | name in names[..i]
      invariant forall name | name in types :: Inferred(Cells(rows, name), size) == Ok(types[name])
    {
      var t := InferColumnType(rows, names[i], size);
      if t.Err? {
        assert names[i] in set name | name in names;
        return Err;
      }
      types := types[names[i] := t.value];
      assert names[..i + 1] == names[..i] + [names[i]];
      i := i + 1;
    }
    assert names[..|names|] == names;
    return Ok(types);
  }

  // -- the one-pass stream state --------------------------------------------------

  function CellAt(row: seq<Value>, k: nat): Value {
    if k < |row| then row[k] else Null
  }

  function StreamColumn(rows: seq<seq<Value>>, k: nat): seq<Value> {
    if rows == [] then [] else StreamColumn(rows[..|rows| - 1], k) + [CellAt(rows[|rows| - 1], k)]
  }

  lemma {:induction false} StreamColumnAt(rows: seq<seq<Value>>, k: nat)
    ensures |StreamColumn(rows, k)| == |rows|
    ensures forall i | 0 <= i < |rows| :: StreamColumn(rows, k)[i] == CellAt(rows[i], k)
  {
    if rows != [] {
      StreamColumnAt(rows[..|rows| - 1], k);
    }
  }

  /** What resolving a fed stream means, column by column. */
  function StreamTypes(rows: seq<seq<Value>>, width: nat): Result<seq<SqlType>> {
    if forall k | 0 <= k < width :: FullScan(StreamColumn(rows, k)).Ok?
    then Ok(seq(width, k requires 0 <= k < width => FullScan(StreamColumn(rows, k)).value))
    else Err
  }

  /** One cell fed to one column's set. */
  function Fed(families: set<Family>, v: Value): set<Family> {
    if |families| > 2 || v.Null? then families else families + {FamilyOf(v)}
  }

  class StreamState {
    const width: nat
    var familySets: seq<set<Family>>
    ghost var fed: seq<seq<Value>>

    ghost predicate Valid()
      reads this
    {
      && |familySets| == width
      && (forall i | 0 <= i < |fed| :: |fed[i]| == width)
      && (forall k | 0 <= k < width :: familySets[k] == EarlyStop(StreamColumn(fed, k), {}))
    }

    constructor (columnCount: nat)
      requires columnCount >= 1
      ensures Valid() && width == columnCount && fed == []
    {
      width := columnCount;
      familySets := seq(columnCount, _ => {});
      fed := [];
    }

    /** False is the raised width mismatch; nothing has been recorded then. */
    method FeedRow(row: seq<Value>) returns (ok: bool)
      requires Valid()
      modifies this
      ensures Valid()
      ensures ok <==> |row| == width
      ensures fed == if ok then old(fed) + [row] else old(fed)
    {
      if |row| != width {
        return false;
      }
      ghost var before := familySets;
      var i := 0;
      while i < |row|
        invariant 0 <= i <= |row| && |familySets| == width
        invariant forall k | 0 <= k < i :: familySets[k] == Fed(before[k], row[k])
        invariant forall k | i <= k < width :: familySets[k] == before[k]
        invariant fed == old(fed)
      {
        if |familySets[i]| <= 2 && !row[i].Null? {
          familySets := familySets[i := familySets[i] + {FamilyOf(row[i])}];
        }
        i := i + 1;
      }
      fed := fed + [row];
      forall k | 0 <= k < width
        ensures familySets[k] == EarlyStop(StreamColumn(fed, k), {})
      {
        assert fed[..|fed| - 1] == old(fed);
        EarlyStopAppend(StreamColumn(old(fed), k), row[k], {});
      }
      return true;
    }

    method ResolveTypes() returns (r: Result<seq<SqlType>>)
      requires Valid()
      ensures r == StreamTypes(fed, width)
    {
      var types: seq<SqlType> := [];
      var k := 0;
      while k < width
        invariant 0 <= k <= width && |types| == k
        invariant forall j | 0 <= j < k :: FullScan(StreamColumn(fed, j)) == Ok(types[j])
      {
        var t := Resolve(familySets[k]);
        if t.Err? {
          return Err;
        }
        types := types + [t.value];
        k := k + 1;
      }
      ghost var expected := StreamTypes(fed, width);
      assert expected.Ok? && forall j | 0 <= j < width :: expected.value[j] == types[j];
      assert types == expected.value;
      return Ok(types);
    }
  }

  /** A mapping row holding a positional row under its column names. */
  predicate Names(rows: seq<Row>, fed: seq<seq<Value>>, names: seq<string>) {
    && |rows| == |fed|
    && forall i | 0 <= i < |rows| ::
         |fed[i]| == |names| && forall k | 0 <= k < |names| :: Get(rows[i], names[k]) == fed[i][k]
  }

  /** Feeding rows one by one answers, for every column, what the per-column
      path answers with no sample limit. */
  lemma StreamIsUnsampledScan(rows: seq<Row>, fed: seq<seq<Value>>, names: seq<string>, k: nat)
    requires Names(rows, fed, names) && k < |names|
    ensures FullScan(StreamColumn(fed, k)) == Inferred(Cells(rows, names[k]), None)
  {
    StreamColumnAt(fed, k);
    assert StreamColumn(fed, k) == Cells(rows, names[k]);
  }
}
