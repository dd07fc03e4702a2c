# task_core publication: a verified model

This project models the database publication subsystem of `task_core` and the
run-level code that drives it, and proves the properties that code is written
for. `dafny verify dfyconfig.toml` checks everything.

It has four parts.

* **Values, inference and codecs.** Normalized Python scalars (`Values`), the
  type-inference kernel in its per-column, row-major and streaming forms
  (`Families`, `Inference`), the NUMERIC(p, s) test (`Numeric`), the neutral
  spool format with its layout (`Bytes`, `SpoolFormat`, `SpoolLayout`, `Spool`), PostgreSQL COPY text with a
  decoder for the COPY grammar (`CopyFormat`; PostgreSQL documentation, COPY,
  "File Formats", "Text Format"), the declared and inferred serializers and the
  compiled row writers (`PgText`, `CopyText`, `CopyWriters`), what a column of
  each type stores of a field's text (`ColumnInput`), the one- and two-pass COPY
  preparation (`CopyPrepare`), and the INSERT/COPY projection (`Projection`).
* **Publication.** Names and ownership comments (`Identifiers`), a database as a
  map from names to relations with the statements issued against it (`Catalog`,
  `Server`), what a publication does to it (`Publication`, `PublicationSteps`),
  and `DbPublisher` itself (`Publisher`), with its lock budgets and retries
  (`LockPolicy`), and one run from claim to close (`Lifecycle`). `Protocol`
  interleaves any number of runs of any tasks,
  statement by statement, with lost sessions, crashes and other applications;
  advisory locks are those of section 13.3.5 of the PostgreSQL documentation.
  `Visibility` says when others see part of a publication.
* **Runs.** Source fingerprints (`SourceState`), whole histories of one task
  built from what `Lifecycle` says a run commits (`History`), spool removal
  (`SpoolCleanup`), and cleanup at the end of a run (`Runner`).
* **Outline flattening** (`Outline`).

How things are represented:

* A float is its 64-bit image and a Decimal its digit tuple without signalling
  NaN. `repr(float)`, `str(Decimal)` and `Decimal(text)` are supplied by a
  `Renderings` value; results that need more of them ask for `Faithful`
  (`Decimal(str(d)) == d`) or `Plain` (printable ASCII, no backslash).
  Characters are Unicode scalar values.
* `bytes`, `bytearray` and `memoryview` are one kind of value; a datetime's zone
  is its UTC offset. Timestamps inside comments and clock readings are
  parameters or arbitrary.
* Every statement on a `Session` may fail, with the SQLSTATE classes the
  publisher distinguishes. A COMMIT may take effect without being acknowledged;
  interrupted, it may also not have reached the server, and then the transaction
  stays open. An interrupted statement leaves its transaction healthy, with or
  without its effect: the contracts of everything that can raise say what a
  COMMIT of the open transaction would then install. A session keeps a ghost trace of the statements issued and what
  each raised; contracts name failures by that trace. `Execute` requires a
  connection that is not invalidated, so that no method issues a statement on a
  connection known to be lost is part of what verifies; `Reconnect` is the one
  way around it.
* A ROLLBACK is issued when the server has a transaction open, and on no other
  occasion. It may meet the loss of the session, in which case the transaction
  is gone; interrupted, it may not have reached the server, and then the
  transaction stays open; any other error it raises comes after the transaction
  has ended.
* In `Protocol` a client does not know whether its session still exists. A
  statement on a session that is gone fails and invalidates the connection, and
  the driver opens a new session for whatever is issued next, unless the
  publisher's own check stops it.
* `Runner` records every call a run makes and what it raised in a ghost
  journal; contracts speak of that record.
* In `ColumnInput` a `Database` supplies what PostgreSQL does with a decimal
  that needs rounding to a float, which UTC offsets it takes, and the offset of
  its session zone. A float in a NUMERIC column is the decimal its `repr` writes.
* SHA-1, blake2b and the advisory key are function parameters; injectivity is
  assumed only where a lemma says so.
* Assumed of callers: run tokens are fresh, a published table's own name does
  not have the staging shape, and no other application writes a staging
  comment or uses the name of a known run's staging table.

Where the code does not do what its comments say, or what one would expect:

* `values.py:833-834` says three families can only resolve to Text. The set of
  the three temporal families is refused instead. `Families.EarlyStopExact`
  states exactly when stopping at three families answers as the whole column
  would, and `Families.EarlyStopRefusesText` exhibits the columns for which it
  does not.
* `rollback()` looks for a lost session once, before it rolls the open
  transaction back. When that ROLLBACK is what meets the loss, the drops that
  follow go out on a reconnected session that holds no lock
  (`publish.py:1719-1808`). `Publisher.DbPublisher.Rollback` says exactly when;
  `Protocol.OnlyRollbackReconnects` and `Protocol.RollbackMetLoss` that nothing
  else reconnects, `Protocol.LostRunIsSilent` that only the run's own staging
  tables are affected, and `Protocol.DropsWithoutLock` exhibits the drop while
  another run owns the task.
* The unlocking in `close()` ends with a COMMIT of whatever transaction is open
  (`publish.py:492`, `publish.py:1905-1917`). After a rollback interrupted
  between a DROP and its COMMIT that is one more drop of the run's own; after a
  rollback interrupted in its ROLLBACK it is what the abandoned transaction
  held: part of a cleanup, of one output's staging table, or of a publication,
  which other sessions then see in part. `Publisher.DbPublisher.Close` says
  exactly what is committed and when the connection is left open;
  `Lifecycle.Run` that this needs an interrupted ROLLBACK, and what part of
  which change it can be; `Lifecycle.SeenWhole` and `Visibility.PartShownIff`
  that nothing else shows part of a publication. `History.NextFaithful` gives
  the exact condition under which fingerprints and tables still agree
  afterwards, `History.PartHarmlessIff` what it comes to when everything the run
  makes is new, and `History.HalfPublished` the run after which one target is
  published, another is not, and the next run is skipped.
* A run of part of the pipelines stores the fingerprints of all the sources. The
  next run is then skipped although a target it was asked for was never
  published, or is stale. `History.SkipRightIff` gives the exact condition,
  `History.SkipIsRight` the one a caller can check, and
  `History.PartialRunMissed` the history.
* Sources that fingerprint one key with two signatures are never judged
  unchanged themselves, but hide a change from the next run:
  `History.SkipFollows` gives the exact condition, `History.DuplicateKeyHidesChange`
  the case.
* The widening serializer does not check a type's parameters, so under a type
  override PostgreSQL may round a number, drop an offset, cut blanks or refuse
  the load. `ColumnInput.CellReadBack` gives the exact condition on value and
  type; declared columns and columns typed by a full scan keep everything but a
  float in a single-precision column, a number beyond the digits a NUMERIC
  without a precision has room for, and an offset the server refuses
  (`ColumnInput.DeclaredKept`, `ColumnInput.FullScanKept`); the losses are
  `ColumnInput.OffsetDropped`, `LengthLost`, `DigitsLost`, `DigitsRefused` and
  `IntegerRounded`.
* An ownership token's material identifies its ingredients exactly when none of
  them contains the unit separator (`Identifiers.MaterialIdentifies`), which the
  code does not check.
* `SPOOL_FILENAME_RE` ends in `$`, so a recognised name may carry one trailing
  newline (`Identifiers.SpoolNamesRecognised`).
* A staging name fits the identifier limit exactly when the limit is at least
  the 23 bytes of its suffix (`Identifiers.StagingNameFits`).

## Model

| member | source | states |
|---|---|---|
| Families.EarlyStopGathers | task_core/db/values.py:816-837 | Stopping at the third family gathers a subset of the families present, and all of them when it gathered at most two. |
| Families.ResolveThree | task_core/db/values.py:854-887 | Three or more families resolve to Text, except exactly the three temporal ones, which are refused. |
| Families.EarlyStopExact | task_core/db/values.py:829-837 | The early-stopping scan answers as the complete family set does, except exactly when some prefix of the column holds just the three temporal families and a fourth follows; then it refuses a column the complete set calls Text. |
| Families.EarlyStopRefusesText | task_core/db/values.py:833-837 | A family of columns for which early stop and the complete set disagree. |
| Families.ResolveMeaning | task_core/db/values.py:854-887 | For every answer, and for the refusal, exactly the family sets that lead to it. |
| Families.FullScanMeaning | task_core/db/values.py:840-887 | For each non-Text type, both directions, in terms of the values themselves: nothing but NULLs and booleans, integers, numbers, bytes, dates, times without or with an offset, and one that calls for the type. |
| Families.FullScanRefuses | task_core/db/values.py:867-878 | Exactly the columns the full scan refuses: temporal values with and without an offset and nothing else, or a beginning of the column with all three kinds and nothing else. |
| Inference.SampleDecides | task_core/db/values.py:897-992 | Sample-then-verify answers what the sample does, but what all rows do when the sample saw no value or answered bigint, date or timestamp. |
| Inference.SampleExactWhereSilent | task_core/db/values.py:897-992 | Sample-then-verify equals the full scan whenever the sample saw no value or resolved to bigint, date or timestamp. |
| Inference.DifferenceIsLoud | task_core/db/values.py:84-113 | Any difference from the full scan came from a sample that resolved to boolean, numeric, binary or an observed Text, or was refused. |
| Inference.ScanFamilies | task_core/db/values.py:816-837 | The scan loop gathers what early stop gathers from the sampled cells. |
| Inference.InferColumnType | task_core/db/values.py:897-992 | The per-column path computes the sample-then-verify answer. |
| Inference.ScanFamiliesRowMajor | task_core/db/values.py:1012-1044 | One walk over all rows gives every column the families its own scan would, retiring columns at their third family. |
| Inference.Contradicted | task_core/db/values.py:1094-1124 | The shared verification walk finds exactly the sampled columns a later row contradicts. |
| Inference.InferColumnTypesRowMajor | task_core/db/values.py:1047-1143 | For every row list, column set and sample size: each column's type is the per-column one, and the call is refused exactly when some column alone is. |
| Inference.InferColumnTypes | task_core/db/values.py:1146-1157 | The dispatch at thirty columns changes nothing. |
| Inference.StreamState.FeedRow | task_core/db/values.py:1244-1259 | A row of the right width extends every column's scan by one cell; any other is refused and nothing is recorded. |
| Inference.StreamState.ResolveTypes | task_core/db/values.py:1261-1262 | Resolving gives, column by column, the full scan of the fed cells. |
| Inference.StreamIsUnsampledScan | task_core/db/values.py:1206-1233 | The streamed answer for a column is the per-column answer with no sample limit. |
| Numeric.ValidateNumeric | task_core/db/values.py:479-527 | Accepts a value exactly when it is a finite int or Decimal with v * 10^s whole and abs(v) < 10^(p-s); s is 0 when only p is given, and neither limits anything when p is absent. |
| Values.Normalize | task_core/db/values.py:236-278 | A missing value - NULL, a float or Decimal NaN - becomes NULL, and every other is kept. |
| Numeric.TrimmedDecides | task_core/db/values.py:500-527 | Counting integer and fractional digits of a tuple without trailing fractional zeroes decides that bound, for every coefficient and exponent. |
| Numeric.DropTrailingZero | task_core/db/values.py:508-512 | Dropping a trailing zero digit and raising the exponent leaves the number as it was. |
| Numeric.ShiftIsProduct | task_core/db/values.py:479-527 | The decimal shift used to state the bound is multiplication by a power of ten. |
| Bytes.MinSignedBytesExact | task_core/db/spool_format.py:493-500 | The integer width chosen is sufficient and minimal. |
| Bytes.SignedRoundTrip | task_core/db/spool_format.py:493-534 | Two's-complement bytes of that width read back as the number. |
| SpoolFormat.ValueRoundTrip | task_core/db/spool_format.py:503-662 | Every value the writer accepts is read back exactly, whatever follows it. |
| SpoolFormat.ValueCut | task_core/db/spool_format.py:484-490 | A value cut short anywhere makes the reader raise. |
| SpoolLayout.EncodesIff | task_core/db/spool_format.py:503-590 | The writer writes exactly integers of at most 255 bytes, texts, decimals and bytes of at most 512 MiB, offsets of whole seconds, and the other scalars. |
| SpoolLayout.EncodedIsWritten | task_core/db/spool_format.py:438-590 | What it writes is the documented layout, tag by tag and field by field. |
| SpoolLayout.DecodesIff | task_core/db/spool_format.py:593-662 | The reader gets a value, and stops, exactly where bytes laid out as that value end; on anything else it raises. |
| SpoolLayout.StreamIff | task_core/db/spool_format.py:669-750 | A stream is written exactly for columns that can be counted and named and rows of their width whose values can be written. |
| SpoolLayout.RowMarks | task_core/db/spool_format.py:764-789 | A row begins with 0xFE and the stream ends with 0xFF; any other mark raises. |
| Spool.StreamRoundTrip | task_core/db/spool_format.py:669-789 | Reading preamble and rows up to the terminator returns exactly the columns and rows written. |
| Spool.StreamCut | task_core/db/spool_format.py:694-789 | Every strict prefix of a written stream makes the reader raise; none reads as a shorter stream. |
| Spool.PreambleRoundTrip | task_core/db/spool_format.py:669-710 | The column names read back. |
| Spool.PreambleCut | task_core/db/spool_format.py:694-710 | A cut preamble raises. |
| Spool.WriteNeutralRow | task_core/db/spool_format.py:713-750 | A row reaches the stream whole, or is refused and the stream is untouched. |
| Spool.ReadNeutralRow | task_core/db/spool_format.py:764-789 | The reading loop returns what the format says of the bytes ahead, or raises. |
| Spool.WriteAll | task_core/db/spool_format.py:792-799 | Despite short writes every byte arrives in order, or a failure is raised after a prefix. |
| CopyFormat.SequentialIsOnePass | task_core/db/copytext.py:51-59 | Four whole-string replacements, backslash first, equal one per-character escape. |
| CopyFormat.EscapeTextBytes | task_core/db/copytext.py:51-59 | Escaping characters and encoding equals encoding and escaping bytes. |
| CopyFormat.FieldRoundTrip | task_core/db/copytext.py:30-59 | A nullable field decodes to itself. |
| CopyFormat.EscapedNeverNull | task_core/db/copytext.py:36-48 | No data field, the two characters backslash and N included, is the NULL marker or the end marker. |
| CopyFormat.NoEndMarker | task_core/db/copytext.py:643-722 | No written line is the end-of-data marker. |
| CopyFormat.FileRoundTrip | task_core/db/copy.py:71-99 | Decoding a written file by the COPY text grammar returns exactly the rows: every NULL, byte and boundary. |
| PgText.IntTextRead | task_core/db/copytext.py:72-93 | Decimal text of an integer reads back as it, with a sign exactly when it is negative and no leading zeros. |
| Utf8.DecodeStrict | task_core/db/spool_format.py:624-650 | Nothing but a text's encoding decodes to it: overlong forms, surrogates and stray bytes are refused. |
| PgText.DateTextRead | task_core/db/copytext.py:88-89 | ISO date text reads back as the date. |
| PgText.StampTextRead | task_core/db/copytext.py:90-91 | ISO timestamp text reads back as the date, the time to the microsecond and the UTC offset. |
| PgText.BytesTextRead | task_core/db/copytext.py:85-87 | Hexadecimal bytea text reads back as the bytes. |
| CopyText.ValidateDeclared | task_core/db/values.py:530-638 | Accepts exactly the values the declared type and nullability allow. |
| CopyText.DeclarableMeans | task_core/db/values.py:530-616 | Those are, type by type, values of its own kind, within the integer's bits, the number's precision and scale, the text's length, and NULL exactly when it is nullable. |
| CopyText.DeclaredIsInferred | task_core/db/copytext.py:72-231 | Where the strict kernel accepts, the widening one writes the same bytes. |
| CopyText.CheckType | task_core/db/values.py:369-457 | Accepts exactly the type parameters PostgreSQL preserves. |
| CopyText.TextSays | task_core/db/copytext.py:166-195 | The text an inferred TEXT column shows for a value of each kind. |
| CopyText.CellEscaped | task_core/db/copytext.py:72-231 | Every accepted cell, of any family, is the escaped UTF-8 of its text. |
| ColumnInput.CellReadBack | task_core/db/copytext.py:72-231 | An accepted cell, decoded by the COPY grammar and stored by its column, is the value that went in exactly when its type keeps it: within precision and scale, or the digits of an unconstrained NUMERIC, exact in binary, within the length, aware as the type is. |
| ColumnInput.ScaleKeeps | task_core/db/values.py:479-527 | Rounding to a scale keeps exactly the numbers whole at it. |
| ColumnInput.DeclaredKept | task_core/db/values.py:530-616 | A declared column keeps every value it accepts, but exactly for floats single precision cannot hold, numbers beyond the digits of an unconstrained NUMERIC and offsets the server refuses. |
| ColumnInput.FullScanKept | task_core/db/values.py:840-887 | A column typed by the full scan keeps every value in it, but exactly for numbers beyond the digits of an unconstrained NUMERIC and offsets the server refuses. |
| ColumnInput.OffsetDropped | task_core/db/copytext.py:215-226 | An aware timestamp overridden to a type without a zone is written, and loses its offset. |
| ColumnInput.LengthLost | task_core/db/copytext.py:167-195 | Text longer than an overridden VARCHAR is written; the server cuts it if only blanks are over, and refuses it otherwise. |
| ColumnInput.DigitsLost | task_core/db/copytext.py:145-154 | A number overridden to a narrower NUMERIC is written, and rounded or refused. |
| ColumnInput.DigitsRefused | task_core/db/values.py:840-887 | A number that a full scan types NUMERIC, the serializer writes, and the server refuses for its digits. |
| ColumnInput.IntegerRounded | task_core/db/copytext.py:156-165 | An integer, 2^53 + 1, that is written under FLOAT and not stored as itself. |
| CopyText.InferenceSound | task_core/db/copytext.py:102-231 | The type a full scan gives a column accepts every value of the column, except exactly integers outside int64 and bytes or NUL under TEXT. |
| CopyWriters.WriteField | task_core/db/copytext.py:276-609 | The compiled writer appends what normalizing, validating and serializing would produce, or rejects on the same values and appends nothing. |
| CopyWriters.WriteNumeric | task_core/db/copytext.py:368-405 | The native fast path of the numeric writer agrees with the generic kernel, NaN included. |
| CopyWriters.WriteText | task_core/db/copytext.py:443-485 | The same for text: NUL, length and escaping. |
| CopyWriters.WriteTimestamp | task_core/db/copytext.py:553-599 | The same for timestamps: awareness must match the type. |
| CopyWriters.Compile | task_core/db/copytext.py:276-294 | Every writer is paired with the source position of its column; a missing column fails. |
| CopyWriters.RowMapAt | task_core/db/copytext.py:289-294 | A source position holds what the row mapping holds under its name. |
| CopyWriters.WriteDeclaredRow | task_core/db/copytext.py:643-669 | In any column order a row yields the bytes of the generic serializer, or is rejected exactly when that rejects, and then nothing reaches the stream. |
| CopyWriters.WriteInferredRow | task_core/db/copytext.py:672-686 | The same for already normalized rows under inferred types. |
| CopyPrepare.PrepareDeclared | task_core/db/copy.py:209-269 | The one-pass body is the generic declared serialization in resolved-column order, with the row count. |
| CopyPrepare.WriteNeutral | task_core/db/copy.py:439-475 | Pass one leaves the encoding of the normalized rows and an inference state fed with exactly them. |
| CopyPrepare.Replay | task_core/db/copy.py:503-543 | Pass two writes the generic inferred serialization of the source rows. |
| CopyPrepare.PrepareInferred | task_core/db/copy.py:439-563 | Two passes equal the one-pass meaning: body, count, and failures; and each resolved column is the last framework column of its name, or else of the override's type, else of the full-scan type of its cells, and nullable unless it is marked. |
| CopyPrepare.PrepareCopySource | task_core/db/copy.py:274-563 | The entry: inadmissible requests refused, the rest as the mode's meaning; a declared schema comes back as given, and any other column is what pins, overrides, marks and its cells make it. |
| CopyPrepare.Validate | task_core/db/copy.py:318-424 | The input validation accepts exactly the admissible requests. |
| CopyPrepare.BodyReadsBack | task_core/db/copy.py:71-99 | A prepared body, read by the COPY grammar and stored by its columns, is the source cell by cell exactly when every cell is one its column keeps. |
| CopyPrepare.PreparedLoadsSource | task_core/db/copy.py:274-310 | Every prepared body has the source's columns and count, and loads the source exactly when every cell is one its column keeps. |
| CopyPrepare.DeclaredBodyKept | task_core/db/copy.py:209-269 | A declared body keeps every cell, but exactly for those the server decides on. |
| CopyPrepare.InferredBodyKept | task_core/db/copy.py:439-563 | So does an inferred body without pins and overrides, for digits and offsets. |
| CopyPrepare.InferredBodyAccepted | task_core/db/copytext.py:102-231 | Without pins, overrides or not-null columns, a body whose columns resolve is refused exactly for an integer outside int64 or bytes or NUL under TEXT. |
| Projection.ApplyContract | task_core/db/values.py:297-337 | Contract columns are applied to every mapping row, or refused exactly for a missing source or a repeated target. |
| Projection.ApplyDbUpdatedAt | task_core/export.py:52-95 | The framework column is appended to the columns and every row, or refused exactly when its name is taken. |
| Projection.BuildInsertPayload | task_core/db/payload.py:335-376 | The INSERT payload exists exactly for admissible configurations and rows of the right width, and is then what the row meaning says. |
| Projection.BuildProjection | task_core/db/payload.py:195-291 | A projection exists for exactly the same configurations; its positions and constants satisfy the projection's own invariant. |
| Projection.ProjectedRowSource.IterRows | task_core/db/payload.py:294-333 | One-shot; every row projected, or a failure at the first row of the wrong width. |
| Projection.RowParity | task_core/export.py:156-189 | The COPY tuple of a row, normalized under the output columns, is the INSERT mapping. |
| Projection.PathsAgree | task_core/export.py:110-189 | Both paths accept the same rows and pair the same columns with the same values, row by row. |
| Identifiers.MaterialIdentifies | task_core/db/spool_format.py:97-152 | Joined hash material determines its ingredients exactly when none contains the delimiter. |
| Identifiers.TruncateLongest | task_core/db/identifiers.py:311-325 | Truncation keeps the longest prefix of whole characters within the byte budget. |
| Identifiers.StagingNameOwned | task_core/db/identifiers.py:219-242 | Every staging name is recognised, with the tokens it was built from. |
| Identifiers.StagingNameFits | task_core/db/identifiers.py:351-362 | A staging name fits its limit exactly when the limit holds the 23-byte suffix, and then keeps as much readable prefix as fits. |
| Identifiers.StagingNamesDistinct | task_core/db/identifiers.py:328-362 | With an injective digest and undelimited names, equal staging names mean the same run and target. |
| Identifiers.StagingCommentRead | task_core/db/identifiers.py:176-294 | A written staging comment parses to its owner, or to nothing when one of its texts is empty. |
| Identifiers.ParsedIffNamed | task_core/db/identifiers.py:245-294 | Of all comments, exactly those are recognised that are JSON objects with the marker, the integer 1 as version and every documented text, and as naming that owner. |
| Identifiers.ParsedIffWritten | task_core/db/identifiers.py:176-294 | They are the comments that hold, field for field, everything a run of this version writes for that owner. |
| Identifiers.StagingShapeIff | task_core/db/identifiers.py:219-242 | A name is recognised exactly when it ends in the marker and two tokens of eight lower-case hexadecimal digits. |
| Identifiers.PublishedNotStaging | task_core/db/identifiers.py:192-213 | A published table's comment never parses as a staging comment. |
| Identifiers.AdvisoryKeyExact | task_core/db/identifiers.py:159-173 | The key is the namespace 0x7A5C and the digest's four bytes as a signed number, most significant first; both are int4, and only equal digests share a key. |
| Identifiers.SpoolNamesRecognised | task_core/db/spool_format.py:84-189 | The recognised names are task_core-copy-, forty lower-case hexadecimal digits and the stage's ending, and that with one newline after it. |
| LockPolicy.BudgetsAreLargestFit | task_core/db/policies.py:195-220 | The returned budgets fit n waits and the margin inside the statement timeout and the horizon, are the largest that do, and are absent exactly when none do. |
| LockPolicy.CheckPolicy | task_core/db/policies.py:156-193 | Admits exactly the valid policies. |
| LockPolicy.NoBudgetIff | task_core/db/policies.py:195-220 | No budget is left exactly when less than a millisecond a target and the margin of 50 is. |
| LockPolicy.FullBudgetIsConfigured | task_core/db/publish.py:1461-1492 | With a whole acquisition budget left, the configured timeouts apply unreduced. |
| LockPolicy.LockTimeoutFiresFirst | task_core/db/policies.py:112-152 | Over all sequential waits the per-target timeout fires before the statement timeout. |
| LockPolicy.RetryRunBounded | task_core/db/publish.py:1536-1631 | The retry loop ends by the attempt ceiling and by the horizon less one acquisition budget over the minimum delay. |
| LockPolicy.DelayLeavesBudget | task_core/db/publish.py:1577-1631 | A retry is due, and there is a range to draw its delay from, exactly while attempts are left and the least delay fits before a whole acquisition budget; the range holds exactly the delays between least and greatest that do. |
| Catalog.InsertSelectCopies | task_core/db/publish.py:1312-1324 | INSERT ... SELECT of all columns between equally shaped tables appends the rows as they are. |
| Publication.ReplaceEffect | task_core/db/publish.py:1688-1705 | Drop, rename and comment leave the staging relation itself, oid included, under the live name. |
| Publication.RefillEffect | task_core/db/publish.py:1396-1412 | Truncate and refill leave the old relation, oid included, with exactly the staging rows. |
| Publication.CreateEffect | task_core/db/publish.py:1301-1328 | An absent refill target becomes a new table with the resolved columns and exactly the staging rows. |
| Publication.PartlyStep | task_core/db/publish.py:1672-1705 | Publishing one more target keeps the description of all those done, and touches no other relation. |
| Publication.PublishedSays | task_core/db/identifiers.py:192-213 | A published table's comment names the task, the run and the time, and as many rows as the table holds, and is no staging comment. |
| Publication.ReplaceReached | task_core/db/publish.py:1688-1705 | Interrupted anywhere among the statements of a replacement, the target is as it was, dropped, renamed without its comment, or done, and all others are as they were. |
| Publication.RefillReached | task_core/db/publish.py:1396-1412 | Interrupted anywhere among those of a refill, it is as it was, emptied, filled, commented with its staging table still there, or done. |
| Publication.CreateReached | task_core/db/publish.py:1301-1328 | The same for a target created in the transaction. |
| Publication.EverythingIsAll | task_core/db/publish.py:1633-1705 | An attempt that got through the whole queue and every target has built the publication, whoever commits it. |
| Publication.SortedIsOrdered | task_core/db/publish.py:1672-1678 | Targets are taken in one global order. |
| Publication.StringOrder | task_core/db/publish.py:1672-1678 | The order of names is the order of strings: a prefix first, else by the first difference. |
| Publication.KeyOrder | task_core/db/publish.py:1672-1678 | Targets are ordered by schema, and within one by name. |
| Publication.NoWaitRing | task_core/db/publish.py:1414-1425 | Publishers that lock in that order never wait for one another in a ring, however their targets overlap. |
| Publication.SortedSame | task_core/db/publish.py:1672-1678 | Sorting neither loses, adds nor repeats a target. |
| PublicationSteps.PublicationPlan.Run | task_core/db/policies.py:36-39 | The queued steps apply in order, statement by statement, inside the open transaction, and touch only source state; a failure leaves exactly the first of their statements there. |
| PublicationSteps.LoadRows | task_core/db/insert.py:28-47 | Chunked insertion appends exactly the rows and counts them. |
| PublicationSteps.VerifyArtifacts | task_core/db/publish.py:1170-1219 | Passes only when every staging table is present, ordinary and owned by this run for this target; refuses only when one is not. |
| PublicationSteps.PrepareRefills | task_core/db/publish.py:1330-1394 | Absent refill targets are built and filled, existing ones checked and left alone; a failure leaves some of the absent ones built, one of them perhaps part way, and nothing else. |
| PublicationSteps.PublishTargets | task_core/db/publish.py:1669-1705 | After the loop every target is published and no staging table of the run remains; no existing target is dropped or truncated before it is locked; a failure leaves some targets published and at most one part way. |
| PublicationSteps.LockTargets | task_core/db/publish.py:1414-1516 | Every existing target not built in this transaction is an ordinary table; one LOCK TABLE statement, and no other, names all of them in ascending order; the budgets used fit; a refusal means one is in the way or no budget is left. |
| Server.Session.Execute | task_core/db/publish.py:343-379 | A statement takes effect in the open transaction or raises; it is never issued on a session known to be lost. |
| Server.Session.Commit | task_core/db/publish.py:1163-1168 | A commit takes effect, or raises with no effect, or raises unacknowledged; interrupted before it reached the server, it leaves the transaction open. |
| Publisher.StagingAbandonedIff | task_core/db/publish.py:1848-1879 | A staging table is recognised as abandoned exactly when another run of the same task prepared it. |
| Publisher.AbandonedIff | task_core/db/publish.py:1810-1887 | Cleanup takes a table for abandoned exactly when it is an ordinary table of the schema whose comment names, in the documented format, a run of this task other than this one, and whose name ends in the tokens of that run and of the target the comment names. |
| Publisher.UnknownNeverAbandoned | task_core/db/publish.py:1820-1824 | A table without a comment, with one that is no JSON object, or without the marker or the integer 1 for a version, or published, is never abandoned. |
| Publisher.DbPublisher.EnsureConnection | task_core/db/publish.py:343-379 | Never connected, connected or lost; a lost session is refused, not replaced. |
| Publisher.DbPublisher.NoteConnectionLoss | task_core/db/publish.py:385-409 | Reports and records a lost session. |
| Publisher.DbPublisher.TryAcquireTaskLock | task_core/db/publish.py:413-467 | Granted exactly when no other session holds the lock; a second acquisition is refused; success records this task, and the session holds its lock. |
| Publisher.DbPublisher.RequireTaskLock | task_core/db/publish.py:584-610 | Passes only for a publisher holding its own task's lock on a live session. |
| Publisher.DbPublisher.BeginRun | task_core/db/publish.py:527-559 | True exactly when no other session held the lock; then it is held, every abandoned staging table, and nothing else, is gone, what this run prepared is intact, and no transaction has anything pending. What it raises a statement raised, or connecting; a failure leaves at most some of the drops in the open transaction. |
| Publisher.DbPublisher.CleanupPredecessorArtifacts | task_core/db/publish.py:1810-1887 | Drops exactly the tables Publisher.AbandonedIff describes; refused without the lock. |
| Publisher.DbPublisher.Publish | task_core/db/publish.py:921-1065 | Adds one staging table as prepared and changes no live target; a failure commits nothing, or that table unacknowledged, leaves at most part of that table in the open transaction, queues nothing, and is a refusal with a named cause or what the last statement raised. |
| Publisher.DbPublisher.AttemptWork | task_core/db/publish.py:1633-1705 | Up to its COMMIT an attempt builds exactly the published state inside its transaction and changes nothing committed; a failure leaves there the first of the queued statements and some of the targets, at most one of them part way, and before the queue has run only targets it creates. |
| Publisher.DbPublisher.PublishOnce | task_core/db/publish.py:1633-1717 | One attempt: all targets and the queued state work at once, or no visible change, the queue intact, and at most part of the work in the open transaction. |
| Publisher.DbPublisher.Commit | task_core/db/publish.py:1518-1631 | Any number of failed attempts leave catalog, pending swaps and plan unchanged, so success after failures is one publication, visible in one version; an authorized commit makes an attempt, each but the last fails on an unavailable lock, each retry was due and its delay allowed, and what is raised is the cause the last one met, or, exactly when no retry is due, that every attempt allowed was made or too little of the horizon is left for the least delay and a whole acquisition budget. |
| Publisher.DbPublisher.Rollback | task_core/db/publish.py:1719-1794 | Drops only this run's staging tables, all of them unless a statement after the ROLLBACK fails; raises only an interruption; issues nothing on a connection known to be lost; and reconnects exactly when a transaction was open, its ROLLBACK met the loss, and there was something to drop. |
| Publisher.DbPublisher.DropOpenTransaction | task_core/db/publish.py:1796-1808 | One ROLLBACK exactly when a transaction is open; its failure is swallowed, but an interruption escapes, with the transaction still recorded. |
| Publisher.DbPublisher.ReleaseTaskLock | task_core/db/publish.py:469-494 | On a live session the unlock and, if that succeeds, its COMMIT, which installs whatever the open transaction holds. |
| Publisher.DbPublisher.Close | task_core/db/publish.py:1905-1932 | From any state a rollback leaves: no session and no lock remain unless the unlocking was interrupted, exactly then the session is left; the database changes only to what the open transaction held. |
| Lifecycle.PrepareAll | task_core/runner.py:574-671 | Every output staged and recorded, one committed change each, in order; or the first of them, at most one unacknowledged, at most the next begun, and the cause. |
| Lifecycle.PublishAll | task_core/runner.py:673-695 | Exactly the staged outputs and the queued step published in one change; or none of it, or all of it unacknowledged, at most part of it in the open transaction, and the cause. |
| Lifecycle.GiveUp | task_core/runner.py:714-732 | A rollback in the runner's place drops what the run recorded and leaves at most one more such drop to be committed; only when its ROLLBACK is interrupted does it drop nothing and leave the transaction. |
| Lifecycle.Shut | task_core/runner.py:734-736 | Closing commits at most what remains in the open transaction. |
| Lifecycle.Run | task_core/runner.py:504-736 | However a whole run ends, what it committed is exactly its trail: cleanup, these outputs in order and one publication of them with the step when it returns; nothing when the lock was held elsewhere; and otherwise the first of those changes, the publication only if unacknowledged, and drops of what it recorded, or, only if its ROLLBACK was interrupted, part of the next change. What it raises is traced to the statement that raised it or to the reason for refusing. |
| Lifecycle.ShapeOf | task_core/runner.py:504-736 | In whatever a run commits, only the publication of all its outputs, once they are staged, or as the very last change a part of that, concerns a target. |
| Lifecycle.SeenWhole | task_core/db/publish.py:1633-1717 | At every moment of a run, however it ends, other sessions see all its targets as they were or all of them published, unless the unlocking has committed part of the publication. |
| Lifecycle.TornShows | task_core/db/publish.py:469-494 | After such a part, the targets done are published and those not begun are as they were before the run. |
| Protocol.StepKeeps | task_core/db/publish.py:343-494 | Every statement, loss, crash and foreign change keeps the protocol invariant. |
| Protocol.Reachable | task_core/db/publish.py:527-610 | The invariant holds in every state of every interleaving. |
| Protocol.OneOwnerPerTask | task_core/db/publish.py:413-467 | At no time do two runs own one task. |
| Protocol.LiveStagingSafe | task_core/db/publish.py:1719-1887 | No step drops, renames or alters the staging table of a run that still owns its task, unless that run takes it. |
| Protocol.CleanupDropsOnlyDead | task_core/db/publish.py:1810-1887 | Everything a cleanup drops was prepared by another run of the same task that no longer owns it. |
| Protocol.UnknownNeverDropped | task_core/db/identifiers.py:245-294 | Tables whose comments lack the marker, the version or any documented field are in no cleanup's drops. |
| Protocol.LostRunIsSilent | task_core/db/publish.py:343-409 | A run whose session is gone changes no table and claims no lock, though its next statement would be on a new session, except by drops of its own tables in a rollback. |
| Protocol.OnlyRollbackReconnects | task_core/db/publish.py:1719-1794 | A lost session is replaced for nothing but a drop of a rollback whose connection was invalidated after its check. |
| Protocol.RollbackMetLoss | task_core/db/publish.py:1796-1808 | It was invalidated by the ROLLBACK of that rollback's open transaction. |
| Protocol.DropsWithoutLock | task_core/db/publish.py:1751-1756 | A behaviour in which that happens while another run owns the task. |
| Protocol.PendingIntact | task_core/db/publish.py:1170-1219 | What a live run has pending is in the database as it prepared it. |
| Visibility.PartShownIff | task_core/db/publish.py:469-494 | In every interleaving, other sessions come to see part of a run's publication exactly at a close that finds its transaction open with some targets moved and others not. |
| Visibility.PartIsShown | task_core/db/publish.py:1905-1917 | A behaviour in which that happens. |
| SourceState.UpsertState | task_core/source_state.py:245-312 | The delete and the upserts leave exactly the state the specification names, in the open transaction; a failure leaves exactly the first of them. |
| SourceState.WritesStore | task_core/source_state.py:245-312 | What the first of the statements have stored. |
| SourceState.SourcesUnchanged | task_core/source_state.py:185-243 | Answers whether the sources are those stored, ends the read phase, and changes nothing. |
| SourceState.Compare | task_core/source_state.py:207-222 | True exactly when the stored keys are the current ones and every signature matches. |
| SourceState.UnchangedIff | task_core/source_state.py:207-222 | Judged unchanged exactly when the fingerprints agree with themselves and with what is stored. |
| SourceState.UpsertRemembers | task_core/source_state.py:245-312 | After an upsert the stored signatures are those of the current sources, and no other task's rows change. |
| SourceState.UpsertStores | task_core/source_state.py:245-312 | After an upsert the task has a row for exactly its sources' keys, with the signature and the details of the last fingerprint of the key, and a snapshot exactly when the task and that source both allow one and there is one. |
| SourceState.ConflictNeverUnchanged | task_core/source_state.py:209-222 | Right after being stored, fingerprints are judged unchanged exactly when no key has two signatures. |
| History.PreparingAside | task_core/db/publish.py:921-1065 | Cleaning up, staging an output and dropping it, whole or in part, touch neither the targets nor the stored fingerprints of any task. |
| History.ElsewhereAside | task_core/source_state.py:245-312 | Another task's publication, or part of one, touches neither either. |
| History.RunPublishes | task_core/runner.py:673-695 | A run given what its task's pipelines make of the fingerprints, and their update, publishes exactly that, or part of it, however it ends: at that moment its staging tables hold those rows. |
| History.RunContinues | task_core/runner.py:504-736 | So whatever such a run committed, however it ended, continues a history. |
| History.NextFaithful | task_core/runner.py:673-695 | After every event stored fingerprints and tables agree with the history exactly when the event was not a harmful part of a publication: one that changed a stored signature or a target. A part that is all of it counts as the publication. |
| History.PartHarmlessIff | task_core/db/publish.py:1633-1705 | When everything a publication makes is new, a part of it is harmless exactly when no target has been begun and no stored signature changed. |
| History.AlwaysFaithful | task_core/source_state.py:174-312 | At every moment of every history without a harmful part of a publication, of complete, partial, failed and crashed runs of all tasks, the stored fingerprints are those of the last run to publish, and each target holds what it was last published with. |
| History.SkipFollows | task_core/runner.py:537-570 | A skipping run has the signatures of the last run to publish, and its very fingerprints exactly when that one fingerprinted no key twice differently. |
| History.SkipRightIff | task_core/runner.py:537-570 | A skip is right exactly when each requested target was last published with fingerprints that produce the same rows, or held those rows from the start. |
| History.SkipIsRight | task_core/runner.py:537-570 | It is right when the last run to publish published every requested target and fingerprinted no key twice differently. |
| History.SkipRightOnlyIf | task_core/runner.py:537-570 | When rows tell fingerprints apart and no target was there before, only when each requested target was last published with the same fingerprints. |
| History.PartialRunMissed | task_core/runner.py:254-265 | A history in which a run of one pipeline makes the next run skip another that was never published. |
| History.HalfPublished | task_core/db/publish.py:469-494 | A run of two outputs whose ROLLBACK was interrupted: one target is published and the other is not, the fingerprints are stored, and the next run, its sources unchanged, is skipped. |
| History.DuplicateKeyHidesChange | task_core/source_state.py:209-222 | The input for which a change of sources goes unseen. |
| SpoolCleanup.CleanupSpoolPaths | task_core/db/spool_io.py:478-520 | Each path is tried until it is gone or the limit of refusals is reached; exactly the paths given up on are reported, and they are what is left; nothing else is touched. |
| SpoolCleanup.CleanupPredecessorSpools | task_core/db/spool_io.py:523-618 | Deletes only positively owned spools, keeps every other entry, and raises exactly when an owned one remains. |
| SpoolCleanup.OwnedSpoolName | task_core/db/spool_format.py:176-189 | An owned spool has the name its header composes to, up to one trailing newline. |
| Runner.AttemptAllCleanup | task_core/cleanup.py:40-80 | Every item is closed once, in order, whatever the others do; what is raised is exactly what the closings raised. |
| Runner.TaskContext.GetResource | task_core/context.py:143-150 | A loader runs only for a name not yet cached, and its failure is what is raised; refused after closing and for unknown names. |
| Runner.TaskContext.Close | task_core/context.py:188-218 | Each distinct constructed object with a close method gets exactly one attempt, in caching order, and what they raised is raised; a second close does nothing. |
| Runner.Run.TryRollback | task_core/runner.py:463-478 | One rollback, on an existing publisher only and never a second; its failure is kept. |
| Runner.Run.Finish | task_core/runner.py:574-695 | Every pipeline runs once, every declared table is published once, both in order, and one commit comes last; or the work stops at its first failure. |
| Runner.Run.Execute | task_core/runner.py:480-761 | The calls made are the work, up to its first failure, then a rollback exactly when owed, the publisher's closing if there is one, and one closing of each closable resource; what is raised is the first failure of the work, else the failures of the cleanup; a returned result means no call failed. The database is used exactly when output to it was asked for and there are sources to check or a table to publish, and only a run that checks its sources, has some and is not forced is skipped for them. |
| Outline.BuildHierarchy | tasks/hr_task.py:1910-1953 | The loop computes the scan from an all-None chain, with its refusals and its flat case. |
| Outline.ScanForest | tasks/hr_task.py:1930-1950 | Reading a preorder listing below a chain yields the root-to-leaf paths below it. |
| Outline.ChainKept | tasks/hr_task.py:1939-1939 | Reading a subtree leaves the ancestor chain above it as it was. |
| Outline.FlattenedWidth | tasks/hr_task.py:1944-1952 | Every record has one level column fewer than the forest is deep, and a position. |
| Outline.FlattenForest | tasks/hr_task.py:1910-1953 | For every forest listed in preorder the result is its root-to-leaf paths, left to right, padded to one width with the leaf as position. |

## Left out

- PostgreSQL itself, SQLAlchemy, psycopg2, credentials and the branches for other databases: an abstract server, session and transaction stand for them.
- A publisher without a schema: the catalog lookup binds the schema name, so it would find no table; the model takes the schema as given.
- preflight, payload and pipeline declaration checks, portable-identifier patterns: single checks with nothing to prove beyond themselves.
- The lock-timeout diagnostic, logging and the wording of errors.
- AES-GCM, keys, spool headers and file descriptors: a spool body is a byte sequence, and a spool file an entry with or without a header.
- pandas, NumPy and petl internals: a source cell is a native scalar or a wrapper that unwraps to one.
- Strings with lone surrogates, which UTF-8 encoding refuses.
- Signalling NaN Decimals.
- The column checks and the creation of the source-state table; its descriptive columns are one text.
- History.AlwaysFaithful: takes every run of the task to check its sources, what the pipelines produce to be a function of the fingerprints, and two tasks to share no target; a harmful part of a publication is excluded, since by History.NextFaithful it always breaks the agreement.
- Lifecycle.Run: the reading of the source state between claim and preparation is not a step of it; SourceState.SourcesUnchanged shows that it commits nothing. What connecting raises is not recorded, so a run that never connected may raise any error but a refusal.
- Publisher.DbPublisher.Commit: no other session changes the catalog during one call; Protocol treats the interleaving.
- Server.Session.Execute: other sessions' commits between two statements of one call are not visible here; Protocol interleaves statement by statement.
- Runner.Run.Execute: pipeline bodies, validation and export are calls that may fail.
- The other members of tasks/, tools/, Excel and SMB access.
