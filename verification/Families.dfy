/** The value families of type inference and what they resolve to
    (task_core/db/values.py, _value_family, _scan_families, _resolve_families). */
module Families {
  import opened Values

  datatype Family =
    BoolFamily | IntFamily | NumericFamily | TextFamily | BytesFamily
    | DateFamily | NaiveFamily | AwareFamily

  function FamilyOf(v: Value): Family
    requires !v.Null?
  {
    match v
    case Bool(_) => BoolFamily
    case Int(_) => IntFamily
    case Real(_) => NumericFamily
    case Dec(_) => NumericFamily
    case Str(_) => TextFamily
    case Bytes(_) => BytesFamily
    case Day(_) => DateFamily
    case Stamp(_, _, _) => if IsAware(v) then AwareFamily else NaiveFamily
    case Other(_) => TextFamily
  }

  const TEMPORAL := {DateFamily, NaiveFamily, AwareFamily}

  const PLAIN_TEXT := TextT(None)
  const PLAIN_NUMERIC := NumericT(None, None)

  /** Err is the refused mixture of aware with naive or date values. */
  function Resolve(families: set<Family>): Result<SqlType> {
    if families == {} then Ok(PLAIN_TEXT)
    else if families == {BoolFamily} then Ok(BooleanT)
    else if families == {IntFamily} then Ok(BigIntT)
    else if families <= {IntFamily, NumericFamily} then Ok(PLAIN_NUMERIC)
    else if families <= TEMPORAL then
      if families == {DateFamily} then Ok(DateT)
      else if AwareFamily in families then
        if families != {AwareFamily} then Err else Ok(TimestampT(true))
      else Ok(TimestampT(false))
    else if families == {TextFamily} then Ok(PLAIN_TEXT)
    else if families == {BytesFamily} then Ok(BinaryT)
    else Ok(PLAIN_TEXT)
  }

  /** The families gathered from `acc` on, reading no further once three are
      present. */
  function EarlyStop(vs: seq<Value>, acc: set<Family>): set<Family> {
    if vs == [] || |acc| > 2 then acc
    else if vs[0].Null? then EarlyStop(vs[1..], acc)
    else EarlyStop(vs[1..], acc + {FamilyOf(vs[0])})
  }

  /** Every family present. */
  function FamiliesOf(vs: seq<Value>): set<Family> {
    set v | v in vs && !v.Null? :: FamilyOf(v)
  }

  function FullScan(vs: seq<Value>): Result<SqlType> { Resolve(EarlyStop(vs, {})) }

  // -- early stop ------------------------------------------------------------

  lemma {:induction false} EarlyStopAppend(vs: seq<Value>, v: Value, acc: set<Family>)
    ensures EarlyStop(vs + [v], acc)
         == if |EarlyStop(vs, acc)| > 2 || v.Null? then EarlyStop(vs, acc)
            else EarlyStop(vs, acc) + {FamilyOf(v)}
  {
    if vs == [] {
      assert vs + [v] == [v];
      assert EarlyStop([v], acc) == if |acc| > 2 then acc
        else if v.Null? then EarlyStop([v][1..], acc) else EarlyStop([v][1..], acc + {FamilyOf(v)});
    } else if |acc| <= 2 {
      assert (vs + [v])[0] == vs[0] && (vs + [v])[1..] == vs[1..] + [v];
      EarlyStopAppend(vs[1..], v, if vs[0].Null? then acc else acc + {FamilyOf(vs[0])});
    }
  }

  lemma {:induction false} EarlyStopConcat(a: seq<Value>, b: seq<Value>, acc: set<Family>)
    ensures EarlyStop(a + b, acc) == EarlyStop(b, EarlyStop(a, acc))
  {
    if a == [] {
      assert a + b == b;
    } else if |acc| <= 2 {
      assert (a + b)[0] == a[0] && (a + b)[1..] == a[1..] + b;
      EarlyStopConcat(a[1..], b, if a[0].Null? then acc else acc + {FamilyOf(a[0])});
    }
  }

  lemma FamiliesCons(vs: seq<Value>)
    requires vs != []
    ensures FamiliesOf(vs) == (if vs[0].Null? then {} else {FamilyOf(vs[0])}) + FamiliesOf(vs[1..])
  {
    assert vs == [vs[0]] + vs[1..];
  }

  /** What early stop gathers: everything, or three of what there is. */
  lemma {:induction false} EarlyStopGathers(vs: seq<Value>, acc: set<Family>)
    requires |acc| <= 3
    ensures acc <= EarlyStop(vs, acc) <= acc + FamiliesOf(vs)
    ensures |EarlyStop(vs, acc)| <= 3
    ensures |EarlyStop(vs, acc)| <= 2 ==> EarlyStop(vs, acc) == acc + FamiliesOf(vs)
  {
    if vs != [] && |acc| <= 2 {
      FamiliesCons(vs);
      EarlyStopGathers(vs[1..], if vs[0].Null? then acc else acc + {FamilyOf(vs[0])});
    }
  }

  lemma SubsetCardinality<T>(a: set<T>, b: set<T>)
    requires a <= b
    ensures |a| <= |b| && (|a| == |b| ==> a == b)
  {
    assert b == a + (b - a);
  }

  /** Three families resolve to Text, except the three temporal ones. */
  lemma ResolveThree(families: set<Family>)
    requires |families| >= 3
    ensures Resolve(families) == if families == TEMPORAL then Err else Ok(PLAIN_TEXT)
  {
    if families <= {IntFamily, NumericFamily} {
      SubsetCardinality(families, {IntFamily, NumericFamily});
    }
    if families <= TEMPORAL {
      SubsetCardinality(families, TEMPORAL);
    }
  }

  /** At some point of the column exactly the three temporal families have
      appeared. */
  ghost predicate TemporalFirst(vs: seq<Value>) {
    exists n | 0 <= n <= |vs| :: FamiliesOf(vs[..n]) == TEMPORAL
  }

  /** What early stop gathers is what some prefix of the column holds. */
  lemma {:induction false} EarlyStopPrefix(vs: seq<Value>) returns (n: nat)
    ensures n <= |vs| && FamiliesOf(vs[..n]) == EarlyStop(vs, {})
  {
    if vs == [] {
      n := 0;
    } else {
      var k := |vs| - 1;
      var front, v := vs[..k], vs[k];
      assert vs == front + [v];
      EarlyStopAppend(front, v, {});
      EarlyStopGathers(front, {});
      n := EarlyStopPrefix(front);
      assert front[..n] == vs[..n];
      if |EarlyStop(front, {})| <= 2 {
        n := |vs|;
        assert vs[..n] == front + [v];
        assert FamiliesOf(front + [v]) == FamiliesOf(front) + if v.Null? then {} else {FamilyOf(v)};
      }
    }
  }

  lemma TemporalPrefixStops(front: seq<Value>, rest: seq<Value>)
    requires FamiliesOf(front) == TEMPORAL
    ensures EarlyStop(front + rest, {}) == TEMPORAL
  {
    EarlyStopGathers(front, {});
    SubsetCardinality(EarlyStop(front, {}), TEMPORAL);
    EarlyStopConcat(front, rest, {});
  }

  lemma TemporalFirstStops(vs: seq<Value>)
    ensures TemporalFirst(vs) <==> EarlyStop(vs, {}) == TEMPORAL
  {
    if TemporalFirst(vs) {
      var n :| 0 <= n <= |vs| && FamiliesOf(vs[..n]) == TEMPORAL;
      assert vs == vs[..n] + vs[n..];
      TemporalPrefixStops(vs[..n], vs[n..]);
    } else {
      var n := EarlyStopPrefix(vs);
    }
  }

  lemma StopAgainstAll(vs: seq<Value>)
    ensures FullScan(vs) == Resolve(FamiliesOf(vs))
       <==> !(EarlyStop(vs, {}) == TEMPORAL && FamiliesOf(vs) != TEMPORAL)
    ensures EarlyStop(vs, {}) == TEMPORAL && FamiliesOf(vs) != TEMPORAL ==>
      FullScan(vs) == Err && Resolve(FamiliesOf(vs)) == Ok(PLAIN_TEXT)
  {
    var e, f := EarlyStop(vs, {}), FamiliesOf(vs);
    EarlyStopGathers(vs, {});
    if |e| == 3 {
      SubsetCardinality(e, f);
      ResolveThree(e);
      ResolveThree(f);
      assert f == TEMPORAL ==> |f| == 3;
    }
  }

  /** Early stop answers as the complete family set does, except exactly when
      the first three families are the temporal ones and a fourth follows: then
      it refuses a column the complete set calls Text. */
  lemma EarlyStopExact(vs: seq<Value>)
    ensures FullScan(vs) == Resolve(FamiliesOf(vs)) <==> !(TemporalFirst(vs) && FamiliesOf(vs) != TEMPORAL)
    ensures TemporalFirst(vs) && FamiliesOf(vs) != TEMPORAL ==>
      FullScan(vs) == Err && Resolve(FamiliesOf(vs)) == Ok(PLAIN_TEXT)
  {
    TemporalFirstStops(vs);
    StopAgainstAll(vs);
  }

  /** Columns the early stop refuses though they are Text as a whole: the
      three temporal families first, anything else later. */
  lemma EarlyStopRefusesText(day: Date, time: Time, rest: seq<Value>, other: Value)
    requires other in rest && !other.Null? && !other.Day? && !other.Stamp?
    ensures var vs := [Day(day), Stamp(day, time, NoZone), Stamp(day, time, Offset(0))] + rest;
      FullScan(vs) == Err && Resolve(FamiliesOf(vs)) == Ok(PLAIN_TEXT)
  {
    var first := [Day(day), Stamp(day, time, NoZone), Stamp(day, time, Offset(0))];
    EarlyStopConcat(first, rest, {});
    TemporalsSeen(first[0], first[1], first[2]);
    assert other in first + rest && FamilyOf(other) in FamiliesOf(first + rest);
    StopAgainstAll(first + rest);
  }

  lemma TemporalsSeen(a: Value, b: Value, c: Value)
    requires a.Day? && b.Stamp? && c.Stamp? && !IsAware(b) && IsAware(c)
    ensures EarlyStop([a, b, c], {}) == TEMPORAL && |TEMPORAL| > 2
  {
    var vs := [a, b, c];
    assert a in vs && b in vs && c in vs;
    assert FamiliesOf(vs) == TEMPORAL;
    EarlyStopGathers(vs, {});
    SubsetCardinality(EarlyStop(vs, {}), TEMPORAL);
  }

  // -- what each resolved type says about the column --------------------------

  predicate HasValue(vs: seq<Value>) { exists v :: v in vs && !v.Null? }

  predicate AllIn(vs: seq<Value>, families: set<Family>) {
    forall v | v in vs && !v.Null? :: FamilyOf(v) in families
  }

  predicate Has(vs: seq<Value>, f: Family) {
    exists v :: v in vs && !v.Null? && FamilyOf(v) == f
  }

  lemma FamiliesByQuantifier(vs: seq<Value>, families: set<Family>, f: Family)
    ensures AllIn(vs, families) <==> FamiliesOf(vs) <= families
    ensures Has(vs, f) <==> f in FamiliesOf(vs)
    ensures HasValue(vs) <==> FamiliesOf(vs) != {}
  {
    if HasValue(vs) {
      var v :| v in vs && !v.Null?;
      assert FamilyOf(v) in FamiliesOf(vs);
    }
    forall v | v in vs && !v.Null?
      ensures FamilyOf(v) in FamiliesOf(vs)
    {
    }
  }

  lemma ResolvedTypes(fs: set<Family>)
    requires Resolve(fs).Ok?
    ensures Resolve(fs).value in
      {PLAIN_TEXT, BooleanT, BigIntT, PLAIN_NUMERIC, DateT, TimestampT(true), TimestampT(false), BinaryT}
  {
  }

  /** Which family sets resolve to which non-Text type, and which are refused. */
  lemma ResolveMeaning(fs: set<Family>)
    ensures Resolve(fs) == Ok(BooleanT) <==> fs == {BoolFamily}
    ensures Resolve(fs) == Ok(BigIntT) <==> fs == {IntFamily}
    ensures Resolve(fs) == Ok(PLAIN_NUMERIC) <==> fs <= {IntFamily, NumericFamily} && NumericFamily in fs
    ensures Resolve(fs) == Ok(BinaryT) <==> fs == {BytesFamily}
    ensures Resolve(fs) == Ok(DateT) <==> fs == {DateFamily}
    ensures Resolve(fs) == Ok(TimestampT(false)) <==> fs <= {DateFamily, NaiveFamily} && NaiveFamily in fs
    ensures Resolve(fs) == Ok(TimestampT(true)) <==> fs == {AwareFamily}
    ensures Resolve(fs) == Err <==>
      fs <= TEMPORAL && AwareFamily in fs && (NaiveFamily in fs || DateFamily in fs)
  {
    assert fs <= {IntFamily, NumericFamily} && NumericFamily !in fs ==> fs <= {IntFamily};
    assert fs <= TEMPORAL && AwareFamily !in fs ==> fs <= {DateFamily, NaiveFamily};
    assert fs <= {DateFamily, NaiveFamily} && NaiveFamily !in fs ==> fs <= {DateFamily};
    assert fs <= TEMPORAL && NaiveFamily !in fs && DateFamily !in fs ==> fs <= {AwareFamily};
  }

  /** Every answer but Text and the refusal is the complete set's answer. */
  lemma ScanAnswersComplete(vs: seq<Value>, t: SqlType)
    requires t != PLAIN_TEXT
    ensures FullScan(vs) == Ok(t) <==> Resolve(FamiliesOf(vs)) == Ok(t)
  {
    StopAgainstAll(vs);
  }

  lemma SingleFamily(vs: seq<Value>, f: Family)
    ensures FamiliesOf(vs) == {f} <==> HasValue(vs) && AllIn(vs, {f})
  {
    FamiliesByQuantifier(vs, {f}, f);
    if HasValue(vs) && AllIn(vs, {f}) {
      var v :| v in vs && !v.Null?;
      assert FamilyOf(v) in FamiliesOf(vs);
    }
  }

  lemma ScanByFamilies(vs: seq<Value>)
    ensures FullScan(vs) == Ok(BooleanT) <==> HasValue(vs) && AllIn(vs, {BoolFamily})
    ensures FullScan(vs) == Ok(BigIntT) <==> HasValue(vs) && AllIn(vs, {IntFamily})
    ensures FullScan(vs) == Ok(PLAIN_NUMERIC) <==>
      AllIn(vs, {IntFamily, NumericFamily}) && Has(vs, NumericFamily)
    ensures FullScan(vs) == Ok(BinaryT) <==> HasValue(vs) && AllIn(vs, {BytesFamily})
    ensures FullScan(vs) == Ok(DateT) <==> HasValue(vs) && AllIn(vs, {DateFamily})
    ensures FullScan(vs) == Ok(TimestampT(false)) <==>
      AllIn(vs, {DateFamily, NaiveFamily}) && Has(vs, NaiveFamily)
    ensures FullScan(vs) == Ok(TimestampT(true)) <==> HasValue(vs) && AllIn(vs, {AwareFamily})
  {
    ResolveMeaning(FamiliesOf(vs));
    forall t | t != PLAIN_TEXT ensures FullScan(vs) == Ok(t) <==> Resolve(FamiliesOf(vs)) == Ok(t) {
      ScanAnswersComplete(vs, t);
    }
    forall f ensures FamiliesOf(vs) == {f} <==> HasValue(vs) && AllIn(vs, {f}) {
      SingleFamily(vs, f);
    }
    FamiliesByQuantifier(vs, {IntFamily, NumericFamily}, NumericFamily);
    FamiliesByQuantifier(vs, {DateFamily, NaiveFamily}, NaiveFamily);
  }

  /** The scan answers a non-Text type exactly when the values call for it:
      nothing but NULLs and values of that kind, and at least one of them. */
  lemma FullScanMeaning(vs: seq<Value>)
    ensures FullScan(vs) == Ok(BooleanT) <==>
      (forall v | v in vs :: v.Null? || v.Bool?) && exists v :: v in vs && v.Bool?
    ensures FullScan(vs) == Ok(BigIntT) <==>
      (forall v | v in vs :: v.Null? || v.Int?) && exists v :: v in vs && v.Int?
    ensures FullScan(vs) == Ok(PLAIN_NUMERIC) <==>
      (forall v | v in vs :: v.Null? || v.Int? || v.Real? || v.Dec?) && exists v :: v in vs && (v.Real? || v.Dec?)
    ensures FullScan(vs) == Ok(BinaryT) <==>
      (forall v | v in vs :: v.Null? || v.Bytes?) && exists v :: v in vs && v.Bytes?
    ensures FullScan(vs) == Ok(DateT) <==>
      (forall v | v in vs :: v.Null? || v.Day?) && exists v :: v in vs && v.Day?
    ensures FullScan(vs) == Ok(TimestampT(false)) <==>
      && (forall v | v in vs :: v.Null? || v.Day? || (v.Stamp? && !v.zone.Offset?))
      && exists v :: v in vs && v.Stamp? && !v.zone.Offset?
    ensures FullScan(vs) == Ok(TimestampT(true)) <==>
      && (forall v | v in vs :: v.Null? || (v.Stamp? && v.zone.Offset?))
      && exists v :: v in vs && v.Stamp? && v.zone.Offset?
  {
    ScanByFamilies(vs);
    OnlyByKind(vs);
    FamiliesByKind(vs);
  }

  /** The families, by the kinds of values. */
  lemma FamiliesByKind(vs: seq<Value>)
    ensures AllIn(vs, TEMPORAL) <==> forall v | v in vs :: v.Null? || v.Day? || v.Stamp?
    ensures Has(vs, NumericFamily) <==> exists v :: v in vs && (v.Real? || v.Dec?)
    ensures Has(vs, DateFamily) <==> exists v :: v in vs && v.Day?
    ensures Has(vs, NaiveFamily) <==> exists v :: v in vs && v.Stamp? && !v.zone.Offset?
    ensures Has(vs, AwareFamily) <==> exists v :: v in vs && v.Stamp? && v.zone.Offset?
  {
  }

  lemma OnlyByKind(vs: seq<Value>)
    ensures AllIn(vs, {BoolFamily}) <==> forall v | v in vs :: v.Null? || v.Bool?
    ensures AllIn(vs, {IntFamily}) <==> forall v | v in vs :: v.Null? || v.Int?
    ensures AllIn(vs, {IntFamily, NumericFamily}) <==> forall v | v in vs :: v.Null? || v.Int? || v.Real? || v.Dec?
    ensures AllIn(vs, {BytesFamily}) <==> forall v | v in vs :: v.Null? || v.Bytes?
    ensures AllIn(vs, {DateFamily}) <==> forall v | v in vs :: v.Null? || v.Day?
    ensures AllIn(vs, {DateFamily, NaiveFamily})
       <==> forall v | v in vs :: v.Null? || v.Day? || (v.Stamp? && !v.zone.Offset?)
    ensures AllIn(vs, {AwareFamily}) <==> forall v | v in vs :: v.Null? || (v.Stamp? && v.zone.Offset?)
  {
  }

  /** Nothing but temporal values and NULLs; a timestamp with an offset, and one
      without or a date. */
  predicate MixedTemporal(vs: seq<Value>) {
    && (forall v | v in vs :: v.Null? || v.Day? || v.Stamp?)
    && (exists v :: v in vs && v.Stamp? && v.zone.Offset?)
    && (exists v :: v in vs && (v.Day? || (v.Stamp? && !v.zone.Offset?)))
  }

  /** Nothing but temporal values and NULLs, and all three kinds of them. */
  predicate AllTemporal(vs: seq<Value>) {
    && (forall v | v in vs :: v.Null? || v.Day? || v.Stamp?)
    && (exists v :: v in vs && v.Day?)
    && (exists v :: v in vs && v.Stamp? && !v.zone.Offset?)
    && (exists v :: v in vs && v.Stamp? && v.zone.Offset?)
  }

  lemma TemporalByKind(vs: seq<Value>)
    ensures FamiliesOf(vs) == TEMPORAL <==> AllTemporal(vs)
  {
    FamiliesByKind(vs);
    FamiliesByQuantifier(vs, TEMPORAL, DateFamily);
    FamiliesByQuantifier(vs, TEMPORAL, NaiveFamily);
    FamiliesByQuantifier(vs, TEMPORAL, AwareFamily);
  }

  /** The scan refuses exactly a column in which an aware timestamp meets a
      naive one or a date, when temporal values are all it holds, or all it holds
      up to the point where all three kinds have appeared. */
  lemma FullScanRefuses(vs: seq<Value>)
    ensures FullScan(vs) == Err <==>
      MixedTemporal(vs) || exists n | 0 <= n <= |vs| :: AllTemporal(vs[..n])
  {
    RefusedByFamilies(vs);
    FamiliesByKind(vs);
    forall n | 0 <= n <= |vs|
      ensures FamiliesOf(vs[..n]) == TEMPORAL <==> AllTemporal(vs[..n])
    {
      TemporalByKind(vs[..n]);
    }
  }

  lemma RefusedByFamilies(vs: seq<Value>)
    ensures FullScan(vs) == Err <==>
      || (AllIn(vs, TEMPORAL) && Has(vs, AwareFamily) && (Has(vs, NaiveFamily) || Has(vs, DateFamily)))
      || TemporalFirst(vs)
  {
    TemporalFirstStops(vs);
    StopAgainstAll(vs);
    ResolveMeaning(FamiliesOf(vs));
    FamiliesByQuantifier(vs, TEMPORAL, AwareFamily);
    FamiliesByQuantifier(vs, TEMPORAL, NaiveFamily);
    FamiliesByQuantifier(vs, TEMPORAL, DateFamily);
    if EarlyStop(vs, {}) == TEMPORAL {
      assert FullScan(vs) == Err;
    }
  }
}
