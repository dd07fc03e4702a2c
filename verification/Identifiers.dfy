/** Names and comments by which the publisher recognises what it created
    (task_core/db/identifiers.py; task_core/db/spool_format.py, 76-189). */
module Identifiers {
  import opened Values
  import Bytes
  import Utf8

  predicate IsHex(s: string) {
    forall i | 0 <= i < |s| :: '0' <= s[i] <= '9' || 'a' <= s[i] <= 'f'
  }

  // -- delimiter-joined hash material ------------------------------------------------

  const DELIMITER: char := '\U{1F}'

  function Join(parts: seq<string>): string
    requires parts != []
  {
    if |parts| == 1 then parts[0] else parts[0] + [DELIMITER] + Join(parts[1..])
  }

  predicate Undelimited(parts: seq<string>) {
    forall i | 0 <= i < |parts| :: DELIMITER !in parts[i]
  }

  lemma CutAtDelimiter(a: string, b: string, s: string, t: string)
    requires DELIMITER !in a && DELIMITER !in b && a + [DELIMITER] + s == b + [DELIMITER] + t
    ensures a == b && s == t
  {
    var whole := a + [DELIMITER] + s;
    assert whole[|a|] == DELIMITER && whole[|b|] == DELIMITER;
    assert forall k | 0 <= k < |a| :: whole[k] == a[k];
    assert forall k | 0 <= k < |b| :: whole[k] == b[k];
    assert whole[..|a|] == a && whole[..|b|] == b;
    assert whole[|a| + 1..] == s && whole[|b| + 1..] == t;
  }

  lemma {:induction false} JoinInjective(a: seq<string>, b: seq<string>)
    requires a != [] && |a| == |b| && Undelimited(a) && Undelimited(b) && Join(a) == Join(b)
    ensures a == b
  {
    if |a| > 1 {
      CutAtDelimiter(a[0], b[0], Join(a[1..]), Join(b[1..]));
      JoinInjective(a[1..], b[1..]);
      assert a == [a[0]] + a[1..] && b == [b[0]] + b[1..];
    }
  }

  lemma {:induction false} JoinSplit(parts: seq<string>, i: nat, p: string, q: string)
    requires i + 1 < |parts| && parts[i] == p + [DELIMITER] + q
    ensures Join(parts) == Join(parts[i := p][i + 1 := q + [DELIMITER] + parts[i + 1]])
  {
    var other := parts[i := p][i + 1 := q + [DELIMITER] + parts[i + 1]];
    if i > 0 {
      assert other[1..] == parts[1..][i - 1 := p][i := q + [DELIMITER] + parts[i + 1]];
      JoinSplit(parts[1..], i - 1, p, q);
    } else {
      JoinPair(parts);
      JoinPair(other);
      assert other[2..] == parts[2..];
      if |parts| == 2 {
        assert p + [DELIMITER] + q + [DELIMITER] + parts[1] == p + [DELIMITER] + (q + [DELIMITER] + parts[1]);
      } else {
        var t := [DELIMITER] + Join(parts[2..]);
        assert p + [DELIMITER] + q + [DELIMITER] + parts[1] + t == p + [DELIMITER] + (q + [DELIMITER] + parts[1]) + t;
      }
    }
  }

  lemma JoinPair(parts: seq<string>)
    requires |parts| >= 2
    ensures Join(parts) == parts[0] + [DELIMITER] + parts[1]
      + if |parts| == 2 then "" else [DELIMITER] + Join(parts[2..])
  {
    assert parts[1..][1..] == parts[2..];
  }

  lemma SplitDelimited(s: string) returns (p: string, q: string)
    requires DELIMITER in s
    ensures s == p + [DELIMITER] + q
  {
    var k :| 0 <= k < |s| && s[k] == DELIMITER;
    p, q := s[..k], s[k + 1..];
  }

  function Delimiters(s: string): nat {
    if s == "" then 0 else (if s[0] == DELIMITER then 1 else 0) + Delimiters(s[1..])
  }

  lemma {:induction false} DelimitersConcat(s: string, t: string)
    ensures Delimiters(s + t) == Delimiters(s) + Delimiters(t)
  {
    if s == "" {
      assert s + t == t;
    } else {
      assert (s + t)[1..] == s[1..] + t;
      DelimitersConcat(s[1..], t);
    }
  }

  function InnerDelimiters(parts: seq<string>): nat {
    if parts == [] then 0 else Delimiters(parts[0]) + InnerDelimiters(parts[1..])
  }

  lemma {:induction false} JoinCounts(parts: seq<string>)
    requires parts != []
    ensures Delimiters(Join(parts)) == InnerDelimiters(parts) + |parts| - 1
  {
    if |parts| > 1 {
      JoinCounts(parts[1..]);
      DelimitersConcat(parts[0], [DELIMITER]);
      DelimitersConcat(parts[0] + [DELIMITER], Join(parts[1..]));
      assert [DELIMITER][1..] == "";
    } else {
      assert parts[1..] == [];
    }
  }

  lemma {:induction false} NoDelimiters(s: string)
    ensures Delimiters(s) == 0 <==> DELIMITER !in s
  {
    if s != "" {
      NoDelimiters(s[1..]);
      assert s == [s[0]] + s[1..];
    }
  }

  lemma {:induction false} CountedUndelimited(parts: seq<string>)
    ensures InnerDelimiters(parts) == 0 <==> Undelimited(parts)
  {
    if parts != [] {
      NoDelimiters(parts[0]);
      CountedUndelimited(parts[1..]);
      assert parts == [parts[0]] + parts[1..];
    }
  }

  lemma JoinDetermines(parts: seq<string>, other: seq<string>)
    requires parts != [] && Undelimited(parts) && |other| == |parts| && Join(other) == Join(parts)
    ensures other == parts
  {
    JoinCounts(other);
    JoinCounts(parts);
    CountedUndelimited(parts);
    CountedUndelimited(other);
    JoinInjective(parts, other);
  }

  lemma JoinAmbiguous(parts: seq<string>) returns (other: seq<string>)
    requires |parts| >= 2 && !Undelimited(parts)
    ensures |other| == |parts| && Join(other) == Join(parts) && other != parts
  {
    var i :| 0 <= i < |parts| && DELIMITER in parts[i];
    var p, q := SplitDelimited(parts[i]);
    if i + 1 < |parts| {
      JoinSplit(parts, i, p, q);
      other := parts[i := p][i + 1 := q + [DELIMITER] + parts[i + 1]];
    } else {
      other := parts[i - 1 := parts[i - 1] + [DELIMITER] + p][i := q];
      JoinSplit(other, i - 1, parts[i - 1], p);
      assert other[i - 1 := parts[i - 1]][i := p + [DELIMITER] + q] == parts;
    }
    assert |other[i]| < |parts[i]|;
  }

  /** The material of a token determines its ingredients exactly when no
      ingredient contains the delimiter; nothing in the code checks that. */
  lemma MaterialIdentifies(parts: seq<string>)
    requires |parts| >= 2
    ensures Undelimited(parts) <==>
      forall other: seq<string> | |other| == |parts| && Join(other) == Join(parts) :: other == parts
  {
    if Undelimited(parts) {
      forall other: seq<string> | |other| == |parts| && Join(other) == Join(parts)
        ensures other == parts
      {
        JoinDetermines(parts, other);
      }
    } else {
      var other := JoinAmbiguous(parts);
    }
  }

  // -- staging names ---------------------------------------------------------------------

  const STAGING_KIND := "stg"
  const TOKEN_HEX := 8
  const INFIX := "__stg_"
  const SUFFIX_LENGTH := 23

  /** A blake2b hex digest of four bytes, uninterpreted. */
  datatype Digest = Digest(hex: string -> string)
  {
    ghost predicate Valid() { forall m :: |hex(m)| == TOKEN_HEX && IsHex(hex(m)) }
    ghost predicate Injective() { forall m, n :: hex(m) == hex(n) ==> m == n }
  }

  predicate RunToken(run: string) { |run| == TOKEN_HEX && IsHex(run) }

  function Material(schema: Option<string>, table: string): seq<string> {
    [if schema.Some? then schema.value else "", table, STAGING_KIND]
  }

  function TargetToken(digest: Digest, schema: Option<string>, table: string): string {
    digest.hex(Join(Material(schema, table)))
  }

  function Suffix(targetToken: string, run: string): string {
    INFIX + targetToken + "_" + run
  }

  /** A Python slice end: a negative one counts from the back. */
  function SliceEnd(length: nat, end: int): nat {
    if end >= 0 then (if end < length then end else length)
    else if length + end >= 0 then length + end
    else 0
  }

  function TruncateUtf8(text: string, maxBytes: int): string {
    var encoded := Utf8.Encode(text);
    if |encoded| <= maxBytes then text
    else Utf8.DecodeIgnoring(encoded[..SliceEnd(|encoded|, maxBytes)])
  }

  function StagingName(digest: Digest, schema: Option<string>, table: string, run: string, maxBytes: int): string {
    var suffix := Suffix(TargetToken(digest, schema, table), run);
    TruncateUtf8(table, maxBytes - |Utf8.Encode(suffix)|) + suffix
  }

  /** re.search of the anchored suffix pattern. */
  function OwnedTokens(name: string): Option<(string, string)> {
    if |name| < SUFFIX_LENGTH then None
    else
      var s := name[|name| - SUFFIX_LENGTH..];
      if s[..6] == INFIX && IsHex(s[6..14]) && s[14] == '_' && IsHex(s[15..]) then Some((s[6..14], s[15..]))
      else None
  }

  lemma {:induction false} AsciiWidth(s: string)
    requires forall i | 0 <= i < |s| :: s[i] < '\U{80}'
    ensures |Utf8.Encode(s)| == |s|
  {
    if s != "" {
      AsciiWidth(s[1..]);
    }
  }

  lemma SuffixShape(token: string, run: string)
    requires RunToken(token) && RunToken(run)
    ensures var s := Suffix(token, run);
      && |s| == SUFFIX_LENGTH && |Utf8.Encode(s)| == SUFFIX_LENGTH
      && s[..6] == INFIX && s[6..14] == token && s[14] == '_' && s[15..] == run
  {
    AsciiWidth(Suffix(token, run));
  }

  /** A budget of n bytes keeps the longest prefix of whole characters. */
  lemma TruncateLongest(text: string, n: nat)
    ensures TruncateUtf8(text, n) <= text
    ensures |Utf8.Encode(TruncateUtf8(text, n))| <= n
    ensures forall t: string | t <= text && |Utf8.Encode(t)| <= n :: |t| <= |TruncateUtf8(text, n)|
  {
    if |Utf8.Encode(text)| > n {
      Utf8.DecodeIgnoringCut(text, n);
      Utf8.PrefixWithinLongest(text, n);
    }
  }

  /** Every staging name is recognised, with the tokens it was built from. */
  lemma StagingNameOwned(digest: Digest, schema: Option<string>, table: string, run: string, maxBytes: int)
    requires digest.Valid() && RunToken(run)
    ensures OwnedTokens(StagingName(digest, schema, table, run, maxBytes))
         == Some((TargetToken(digest, schema, table), run))
  {
    var token := TargetToken(digest, schema, table);
    assert RunToken(token);
    SuffixShape(token, run);
    var name := StagingName(digest, schema, table, run, maxBytes);
    assert name[|name| - SUFFIX_LENGTH..] == Suffix(token, run);
  }

  /** It fits the server's limit exactly when the suffix does, and then keeps as
      much of the readable name as fits; a smaller limit is never met. */
  lemma StagingNameFits(digest: Digest, schema: Option<string>, table: string, run: string, maxBytes: int)
    requires digest.Valid() && RunToken(run)
    ensures var name := StagingName(digest, schema, table, run, maxBytes);
      && (|Utf8.Encode(name)| <= maxBytes <==> maxBytes >= SUFFIX_LENGTH)
      && (maxBytes >= SUFFIX_LENGTH ==>
           name[..|name| - SUFFIX_LENGTH] <= table
           && forall t: string | t <= table && |Utf8.Encode(t)| + SUFFIX_LENGTH <= maxBytes ::
                |t| <= |name| - SUFFIX_LENGTH)
  {
    var token := TargetToken(digest, schema, table);
    assert RunToken(token);
    SuffixShape(token, run);
    PrefixFits(table, Suffix(token, run), maxBytes);
  }

  lemma PrefixFits(table: string, suffix: string, maxBytes: int)
    requires |suffix| == |Utf8.Encode(suffix)| == SUFFIX_LENGTH
    ensures var prefix := TruncateUtf8(table, maxBytes - SUFFIX_LENGTH);
      var name := prefix + suffix;
      && |Utf8.Encode(name)| == |Utf8.Encode(prefix)| + SUFFIX_LENGTH
      && name[..|name| - SUFFIX_LENGTH] == prefix
      && (maxBytes >= SUFFIX_LENGTH ==>
           && prefix <= table && |Utf8.Encode(name)| <= maxBytes
           && forall t: string | t <= table && |Utf8.Encode(t)| + SUFFIX_LENGTH <= maxBytes :: |t| <= |prefix|)
  {
    var prefix := TruncateUtf8(table, maxBytes - SUFFIX_LENGTH);
    Utf8.EncodeConcat(prefix, suffix);
    assert (prefix + suffix)[..|prefix|] == prefix;
    if maxBytes >= SUFFIX_LENGTH {
      TruncateLongest(table, maxBytes - SUFFIX_LENGTH);
    }
  }

  predicate LowerHex(ch: char) { '0' <= ch <= '9' || 'a' <= ch <= 'f' }

  predicate EightHex(s: string) { |s| == 8 && forall i | 0 <= i < 8 :: LowerHex(s[i]) }

  lemma SuffixParts(name: string, target: string, run: string)
    requires |name| >= 23 && |target| == 8 && |run| == 8
    ensures name == name[..|name| - 23] + "__stg_" + target + "_" + run <==>
      var s := name[|name| - 23..]; s[..6] == "__stg_" && s[6..14] == target && s[14] == '_' && s[15..] == run
  {
    var s, whole := name[|name| - 23..], "__stg_" + target + "_" + run;
    assert name == name[..|name| - 23] + s;
    assert whole[..6] == "__stg_" && whole[6..14] == target && whole[14] == '_' && whole[15..] == run;
    if s[..6] == "__stg_" && s[6..14] == target && s[14] == '_' && s[15..] == run {
      assert s == s[..6] + s[6..14] + [s[14]] + s[15..];
      assert s == whole;
      assert name == name[..|name| - 23] + whole;
    }
    assert name[..|name| - 23] + "__stg_" + target + "_" + run == name[..|name| - 23] + whole;
  }

  /** A name is a staging name's exactly when it ends in the marker and two
      tokens of eight lower-case hexadecimal digits. */
  lemma StagingShapeIff(name: string, target: string, run: string)
    ensures OwnedTokens(name) == Some((target, run)) <==>
      && EightHex(target) && EightHex(run) && |name| >= 23
      && name == name[..|name| - 23] + "__stg_" + target + "_" + run
  {
    if |name| >= 23 {
      var s := name[|name| - 23..];
      if |target| == 8 && |run| == 8 {
        SuffixParts(name, target, run);
      }
      assert |s[6..14]| == 8 && |s[15..]| == 8;
    }
  }

  /** Two staging names coincide exactly for the same run and target token; with
      an injective digest and no delimiter in the names, for the same target. */
  lemma StagingNamesDistinct(digest: Digest, s1: Option<string>, t1: string, r1: string,
      s2: Option<string>, t2: string, r2: string, m1: int, m2: int)
    requires digest.Valid() && digest.Injective() && RunToken(r1) && RunToken(r2)
    requires Undelimited(Material(s1, t1))
    requires StagingName(digest, s1, t1, r1, m1) == StagingName(digest, s2, t2, r2, m2)
    ensures r1 == r2 && t1 == t2
    ensures s1 == s2 || (s1 in {None, Some("")} && s2 in {None, Some("")})
  {
    StagingNameOwned(digest, s1, t1, r1, m1);
    StagingNameOwned(digest, s2, t2, r2, m2);
    var a, b := Material(s1, t1), Material(s2, t2);
    JoinDetermines(a, b);
    assert a[0] == b[0] && a[1] == b[1];
  }

  // -- ownership comments ----------------------------------------------------------------

  datatype Json =
    | JsonNull
    | JsonBool(b: bool)
    | JsonInt(n: int)
    | JsonFloat(f: Float)
    | JsonString(s: string)
    | JsonArray(items: seq<Json>)
    | JsonObject(fields: map<string, Json>)

  /** A table's comment: absent or empty, not JSON, or what json.loads gives. */
  datatype Comment = NoComment | NotJson(text: string) | Parsed(json: Json)

  datatype Owner = Owner(task: string, run: string, schema: Option<string>, table: string, createdAt: string)

  const MARKER := JsonString("task_core")
  const VERSION := JsonInt(1)

  function StagingComment(o: Owner): Comment {
    Parsed(JsonObject(map[
      "marker" := MARKER,
      "v" := VERSION,
      "task" := JsonString(o.task),
      "run" := JsonString(o.run),
      "target_schema" := if o.schema.Some? then JsonString(o.schema.value) else JsonNull,
      "target_table" := JsonString(o.table),
      "created_at" := JsonString(o.createdAt)]))
  }

  function PublishedComment(task: string, run: string, rows: int, at: string): Comment {
    Parsed(JsonObject(map[
      "marker" := MARKER,
      "v" := VERSION,
      "published_by" := JsonString(task),
      "run" := JsonString(run),
      "rows" := JsonInt(rows),
      "published_at" := JsonString(at)]))
  }

  function Text(fields: map<string, Json>, key: string): Option<string> {
    if key in fields && fields[key].JsonString? && fields[key].s != "" then Some(fields[key].s) else None
  }

  function ParseStagingComment(c: Comment): Option<Owner> {
    if !c.Parsed? || !c.json.JsonObject? then None
    else
      var fields := c.json.fields;
      if !("marker" in fields && fields["marker"] == MARKER) then None
      else if !("v" in fields && fields["v"] == VERSION) then None
      else if Text(fields, "task").None? || Text(fields, "run").None?
           || Text(fields, "target_table").None? || Text(fields, "created_at").None? then None
      else if "target_schema" !in fields then None
      else if !fields["target_schema"].JsonNull? && Text(fields, "target_schema").None? then None
      else Some(Owner(
        Text(fields, "task").value,
        Text(fields, "run").value,
        Text(fields, "target_schema"),
        Text(fields, "target_table").value,
        Text(fields, "created_at").value))
  }

  predicate CompleteOwner(o: Owner) {
    o.task != "" && o.run != "" && o.schema != Some("") && o.table != "" && o.createdAt != ""
  }

  /** Parsing a written comment returns its owner; a comment missing any of its
      texts is not recognised as ours. */
  lemma StagingCommentRead(o: Owner)
    ensures ParseStagingComment(StagingComment(o)) == if CompleteOwner(o) then Some(o) else None
  {
    var fields := StagingComment(o).json.fields;
    assert Text(fields, "task") == if o.task == "" then None else Some(o.task);
    assert Text(fields, "run") == if o.run == "" then None else Some(o.run);
    assert Text(fields, "target_table") == if o.table == "" then None else Some(o.table);
    assert Text(fields, "created_at") == if o.createdAt == "" then None else Some(o.createdAt);
    assert o.schema.None? ==> fields["target_schema"] == JsonNull;
  }

  predicate Says(fields: map<string, Json>, key: string, what: Json) {
    key in fields && fields[key] == what
  }

  predicate HasText(fields: map<string, Json>, key: string) {
    key in fields && fields[key].JsonString? && fields[key].s != ""
  }

  /** A comment that names an owner, in the documented format of version 1:
      nothing less counts, and further fields do not matter. */
  predicate NamesOwner(c: Comment) {
    && c.Parsed? && c.json.JsonObject?
    && var f := c.json.fields;
      && Says(f, "marker", JsonString("task_core")) && Says(f, "v", JsonInt(1))
      && HasText(f, "task") && HasText(f, "run") && HasText(f, "target_table") && HasText(f, "created_at")
      && (Says(f, "target_schema", JsonNull) || HasText(f, "target_schema"))
  }

  /** The owner it names is this one. */
  predicate NamesThis(c: Comment, o: Owner) {
    && NamesOwner(c)
    && var f := c.json.fields;
      && Says(f, "task", JsonString(o.task)) && Says(f, "run", JsonString(o.run))
      && Says(f, "target_schema", if o.schema.Some? then JsonString(o.schema.value) else JsonNull)
      && Says(f, "target_table", JsonString(o.table)) && Says(f, "created_at", JsonString(o.createdAt))
  }

  /** Of all comments, whoever wrote them, exactly those naming an owner in that
      format are recognised, and as that owner's. */
  lemma ParsedIffNamed(c: Comment, o: Owner)
    ensures ParseStagingComment(c).Some? <==> NamesOwner(c)
    ensures ParseStagingComment(c) == Some(o) <==> NamesThis(c, o)
  {
  }

  /** They are the comments that hold everything a run of this version writes. */
  lemma ParsedIffWritten(c: Comment, o: Owner)
    ensures ParseStagingComment(c) == Some(o) <==>
      && CompleteOwner(o) && c.Parsed? && c.json.JsonObject?
      && var written := StagingComment(o).json.fields;
        forall key | key in written :: Says(c.json.fields, key, written[key])
  {
    var written := StagingComment(o).json.fields;
    ParsedIffNamed(c, o);
    if c.Parsed? && c.json.JsonObject? && forall key | key in written :: Says(c.json.fields, key, written[key]) {
      assert "marker" in written && "v" in written && "task" in written && "run" in written;
      assert "target_schema" in written && "target_table" in written && "created_at" in written;
    }
  }

  /** A published table never parses as anyone's staging table. */
  lemma PublishedNotStaging(task: string, run: string, rows: int, at: string)
    ensures ParseStagingComment(PublishedComment(task, run, rows, at)) == None
  {
    assert Text(PublishedComment(task, run, rows, at).json.fields, "task") == None;
  }

  // -- the advisory key --------------------------------------------------------------------

  const NAMESPACE := 0x7A5C

  /** The two-integer key of a task's four-byte digest. */
  function AdvisoryKey(digest: seq<byte>): (int, int)
    requires |digest| == 4
  {
    (NAMESPACE, Bytes.FromSigned(digest))
  }

  /** Four bytes, most significant first. */
  function Unsigned(b: seq<byte>): int
    requires |b| == 4
  {
    var b0: int, b1: int, b2: int, b3: int := b[0], b[1], b[2], b[3];
    0x100_0000 * b0 + 0x1_0000 * b1 + 0x100 * b2 + b3
  }

  lemma UnsignedIs(b: seq<byte>)
    requires |b| == 4
    ensures Bytes.FromBigEndian(b) == Unsigned(b)
  {
    var c := b[..3];
    assert c[..2] == b[..2] && c[2] == b[2] && b[..2][..1] == b[..1] && b[..1][..0] == [];
    assert Bytes.FromBigEndian([]) == 0 && Bytes.FromBigEndian(b[..1]) == b[0];
    assert Bytes.FromBigEndian(b[..2]) == 256 * Bytes.FromBigEndian(b[..1]) + b[1];
    assert Bytes.FromBigEndian(c) == 256 * Bytes.FromBigEndian(b[..2]) + b[2];
  }

  /** Both halves are int4, and only equal digests share a key. */
  lemma AdvisoryKeyExact(a: seq<byte>, b: seq<byte>)
    requires |a| == 4 && |b| == 4
    ensures AdvisoryKey(a).0 == 0x7A5C && -0x8000_0000 <= AdvisoryKey(a).1 < 0x8000_0000
    ensures AdvisoryKey(a).1 == Unsigned(a) - if a[0] >= 0x80 then 0x1_0000_0000 else 0
    ensures AdvisoryKey(a) == AdvisoryKey(b) <==> a == b
  {
    Bytes.SameNumberSameBytes(a, b);
    UnsignedIs(a);
    assert Bytes.Pow256(4) == 0x1_0000_0000 by {
      assert Bytes.Pow256(2) == 0x1_0000 && Bytes.Pow256(4) == 0x1_0000 * Bytes.Pow256(2);
    }
  }

  // -- spool file names ---------------------------------------------------------------------

  datatype Stage = Neutral | CopyTextStage

  function StageText(stage: Stage): string {
    if stage.Neutral? then "neutral" else "copytext"
  }

  const SPOOL_PREFIX := "task_core-copy-"
  const SPOOL_EXTENSION := ".spool"

  predicate SpoolToken(token: string) { |token| == 40 && IsHex(token) }

  function SpoolName(token: string, stage: Stage): string
    requires SpoolToken(token)
  {
    SPOOL_PREFIX + token + "-" + StageText(stage) + SPOOL_EXTENSION
  }

  /** The pattern without its end anchor's newline allowance. */
  function ParseExact(name: string): Option<(string, Stage)> {
    if |name| < 56 || name[..15] != SPOOL_PREFIX || !IsHex(name[15..55]) || name[55] != '-' then None
    else if name[56..] == "neutral.spool" then Some((name[15..55], Neutral))
    else if name[56..] == "copytext.spool" then Some((name[15..55], CopyTextStage))
    else None
  }

  /** re.match with a `$` anchor: it also holds before one trailing newline. */
  function ParseSpoolName(name: string): Option<(string, Stage)> {
    if name != "" && name[|name| - 1] == '\n' then ParseExact(name[..|name| - 1]) else ParseExact(name)
  }

  lemma ParsedIsName(name: string, token: string, stage: Stage)
    requires ParseExact(name) == Some((token, stage))
    ensures SpoolToken(token) && name == SpoolName(token, stage)
  {
    assert name == name[..15] + name[15..55] + [name[55]] + name[56..];
  }

  lemma NameSlices(token: string, stage: Stage)
    requires SpoolToken(token)
    ensures var name := SpoolName(token, stage);
      && |name| >= 56 && name[..15] == SPOOL_PREFIX && name[15..55] == token && name[55] == '-'
      && name[56..] == StageText(stage) + SPOOL_EXTENSION
  {
  }

  lemma NameIsParsed(token: string, stage: Stage)
    requires SpoolToken(token)
    ensures ParseExact(SpoolName(token, stage)) == Some((token, stage))
  {
    NameSlices(token, stage);
  }

  lemma ParseExactIff(name: string, token: string, stage: Stage)
    ensures ParseExact(name) == Some((token, stage)) <==> SpoolToken(token) && name == SpoolName(token, stage)
  {
    if ParseExact(name) == Some((token, stage)) {
      ParsedIsName(name, token, stage);
    } else if SpoolToken(token) {
      NameIsParsed(token, stage);
    }
  }

  /** The names recognised as a stage of a token: the composed name, and the
      composed name with one newline after it. */
  lemma SpoolNamesComposed(name: string, token: string, stage: Stage)
    ensures ParseSpoolName(name) == Some((token, stage)) <==>
      SpoolToken(token) && (name == SpoolName(token, stage) || name == SpoolName(token, stage) + "\n")
  {
    if name != "" && name[|name| - 1] == '\n' {
      var front := name[..|name| - 1];
      assert name == front + "\n";
      ParseExactIff(front, token, stage);
    } else {
      ParseExactIff(name, token, stage);
    }
  }

  lemma SpoolNameIs(token: string, stage: Stage)
    ensures SpoolToken(token) <==> |token| == 40 && forall i | 0 <= i < 40 :: LowerHex(token[i])
    ensures SpoolToken(token) ==>
      var ending := if stage.Neutral? then "-neutral.spool" else "-copytext.spool";
      SpoolName(token, stage) == "task_core-copy-" + token + ending
  {
  }

  /** Spelled out: a prefix, forty lower-case hexadecimal digits, the stage. */
  lemma SpoolNamesRecognised(name: string, token: string, stage: Stage)
    ensures ParseSpoolName(name) == Some((token, stage)) <==>
      && |token| == 40 && (forall i | 0 <= i < 40 :: LowerHex(token[i]))
      && var base := "task_core-copy-" + token + if stage.Neutral? then "-neutral.spool" else "-copytext.spool";
        name == base || name == base + "\n"
  {
    SpoolNamesComposed(name, token, stage);
    SpoolNameIs(token, stage);
  }
}
