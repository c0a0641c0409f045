# Bitemporal field mapper

A Dafny model of `BitemporalMapper`, the field mapper of the Stratio Cassandra
Lucene index that indexes a row carrying two time intervals. The valid-time
interval (`vt_from`..`vt_to`) says when a fact holds. The transaction-time
interval (`tt_from`..`tt_to`) says when it was recorded. The model covers:

- `BitemporalDateTime` (module `Temporal`): an epoch-millisecond instant.
  `Long.MAX_VALUE` is the `MAX` sentinel that stands for "now", and `MIN` is 0.
  It has the `Long` and `Date` constructors, `isNow`/`isMax`/`isMin`,
  `compareTo`, `equals` and `max`.
- The mapper (module `Mapping`, class `BitemporalMapper`):
  - The constructor checks the four column names in order and settles the now
    value.
  - The eight prefix-tree strategies index under the field names
    `<field>.t1_v` … `<field>.t4_t`; all eight share the one
    `DateRangePrefixTree` instance as their tree.
  - `getStrategy`/`getTree` look a strategy or tree up by case index and
    dimension.
  - `checkIfNow`, `parseBiTemporalDate` and `readBitemporalDate` turn raw column
    values into instants.
  - `addFields` reads a record, classifies it into one of the cases T1–T4, and
    appends its fields to a Lucene `Document` (class `Document`).
  - `sortField` always fails.
- Properties across members (module `MappingProperties`):
  - the field names are distinct;
  - records of different cases write to disjoint fields;
  - the case table;
  - exactly one discriminator field per record;
  - the order in which a record is rejected;
  - worked scenarios.

Modelling choices:

- Java `long` is the subset type `Temporal.Long`. Instants are only compared,
  never computed with, so no overflow arises.
- A thrown `IndexException` is a `Failure` (or `Fail`) carrying an
  `Errors.IndexError`. `null` is `None`.
- The date parser, configured by the mapper's pattern, is given as a function
  `RawValue -> ParseOutcome`. `ParseOutcome` is a date, `null`, or a parse
  exception. The record's columns are a map from column name to the first raw
  value under that name.
- The mapper's Java fields are all assigned once, so they are `const` fields.
  The eight strategies and the eight tree fields (each the one shared
  `DateRangePrefixTree` instance) are `const` initializers that compute the
  same values the Java constructor assigns.
- The Java constructor is split into three members:
  - `Mapping.Configure`: its checks and the resolved now value;
  - `Mapping.BitemporalMapper.New`: the failure path;
  - the Dafny constructor: the assignments.
- `addFields` is an imperative method on the `Document` object. It is proved
  equal to the pure function `Emitted`, and the properties are lemmas about
  `Emitted`. The `for` loops that add a strategy's fields are `Mapping.AddAll`.
- The case is found from `ttTo.isNow()` and `vtTo.isNow()`, which compare with
  `Long.MAX_VALUE`. With a configured now value, only a parsed value equal to it
  becomes `MAX`. Every accepted date is below the now value or is `MAX`.
- A time dimension whose stop is now is indexed as the point at its start,
  `[from, from]`. It is not indexed as a range that is unbounded on the right.
  The query side, which is not part of this model, has to account for that.

## Model

| member | source | states |
|---|---|---|
| `Temporal.FromTimestamp` | plugin/src/main/java/com/stratio/cassandra/lucene/schema/mapping/BitemporalMapper.java:380-383 | the `Long` constructor accepts exactly the non-negative timestamps and keeps them; a negative one fails; the result is `isMin` iff the timestamp is 0 |
| `Temporal.NowIsMax` | plugin/src/main/java/com/stratio/cassandra/lucene/schema/mapping/BitemporalMapper.java:365-395 | `isNow` and `isMax` always agree and hold exactly of `MAX`; `isMin` holds exactly of `MIN` |
| `Temporal.BitemporalDateTime.CompareTo` | plugin/src/main/java/com/stratio/cassandra/lucene/schema/mapping/BitemporalMapper.java:402-404 | `compareTo` is -1, 0 or 1 and its sign is the order of the two timestamps |
| `Temporal.BitemporalDateTime.Equals` | plugin/src/main/java/com/stratio/cassandra/lucene/schema/mapping/BitemporalMapper.java:422-428 | `equals` holds exactly of another `BitemporalDateTime` with the same timestamp; `null` and other classes are never equal |
| `Temporal.CompareToIsTotalOrder` | plugin/src/main/java/com/stratio/cassandra/lucene/schema/mapping/BitemporalMapper.java:402-428 | `compareTo` is antisymmetric and transitive, is 0 exactly when `equals` holds, and `equals` holds exactly of equal values |
| `Temporal.ValidBetweenMinAndMax` | plugin/src/main/java/com/stratio/cassandra/lucene/schema/mapping/BitemporalMapper.java:365-383 | every value the `Long` constructor accepts lies between `MIN` and `MAX`, strictly above `MIN` unless `isMin`, strictly below `MAX` unless `isMax` |
| `Temporal.Max` | plugin/src/main/java/com/stratio/cassandra/lucene/schema/mapping/BitemporalMapper.java:406-413 | `max` returns one of its arguments, not earlier than either, and the second one on a tie |
| `Temporal.FromDate` | plugin/src/main/java/com/stratio/cassandra/lucene/schema/mapping/BitemporalMapper.java:373-375 | the `Date` constructor keeps the epoch value, and its result is valid only for a non-negative one |
| `Temporal.FromDateGoesBelowMin` | plugin/src/main/java/com/stratio/cassandra/lucene/schema/mapping/BitemporalMapper.java:373-375 | a `Date` at epoch -1 yields a value below `MIN` that is not `isMin`, which the `Long` constructor refuses |
| `Temporal.FromDateChecked` | plugin/src/main/java/com/stratio/cassandra/lucene/schema/mapping/BitemporalMapper.java:373-383 | the `Date` constructor with the negativity check accepts exactly the non-negative values and agrees with the `Long` constructor |
| `Temporal.FromDateCheckedNeverBelowMin` | plugin/src/main/java/com/stratio/cassandra/lucene/schema/mapping/BitemporalMapper.java:373-383 | with the check, no constructed value compares below `MIN` |
| `Mapping.Configure` | plugin/src/main/java/com/stratio/cassandra/lucene/schema/mapping/BitemporalMapper.java:134-182 | blank column names fail in the order vt_from, vt_to, tt_from, tt_to; otherwise the now value is `Long.MAX_VALUE` when none is given, else the parsed date's epoch value, a now value the parser reads as no date fails with `NullNowValue`, one it cannot parse with `UnparsableDate` |
| `Mapping.BitemporalMapper.New` | plugin/src/main/java/com/stratio/cassandra/lucene/schema/mapping/BitemporalMapper.java:111-184 | the constructor throws exactly what `Configure` reports, else yields a fresh mapper holding the given names, parser and the resolved now value |
| `Mapping.BitemporalMapper.constructor` | plugin/src/main/java/com/stratio/cassandra/lucene/schema/mapping/BitemporalMapper.java:150-182 | once the checks pass, the mapper holds the given field, names and parser and the resolved now value |
| `Mapping.BitemporalMapper.GetStrategy` | plugin/src/main/java/com/stratio/cassandra/lucene/schema/mapping/BitemporalMapper.java:193-206 | defined exactly for indexes 0..3, failing otherwise; the strategy for (i, valid) indexes under `field + ".t<i+1>_v"`, for (i, transaction) under `field + ".t<i+1>_t"` |
| `Mapping.BitemporalMapper.GetTree` | plugin/src/main/java/com/stratio/cassandra/lucene/schema/mapping/BitemporalMapper.java:215-228 | defined exactly for indexes 0..3, failing otherwise; it is the tree of the strategy `getStrategy` gives for the same arguments |
| `MappingProperties.StrategyNamesDistinct` | plugin/src/main/java/com/stratio/cassandra/lucene/schema/mapping/BitemporalMapper.java:162-180 | the eight (index, dimension) pairs give eight distinct field names, none equal to the `.T1UT2` discriminator name |
| `MappingProperties.DiscriminatorName` | plugin/src/main/java/com/stratio/cassandra/lucene/schema/mapping/BitemporalMapper.java:230-233 | the discriminator field is named `field + ".T1UT2"`, under the mapper's field, and differs from each of the eight strategy names |
| `MappingProperties.LookupMatchesEmission` | plugin/src/main/java/com/stratio/cassandra/lucene/schema/mapping/BitemporalMapper.java:193-228 | `getStrategy`/`getTree` at a case's index give the strategy and tree `addFields` writes that case with |
| `Mapping.BitemporalMapper.MakeShape` | plugin/src/main/java/com/stratio/cassandra/lucene/schema/mapping/BitemporalMapper.java:243-247 | the shape spans exactly from `start` to `stop` |
| `Mapping.CreateIndexableFields` | plugin/src/main/java/com/stratio/cassandra/lucene/schema/mapping/BitemporalMapper.java:272 | a strategy's fields for a shape are non-empty and all carry that shape under the strategy's field name |
| `Mapping.AddAll` | plugin/src/main/java/com/stratio/cassandra/lucene/schema/mapping/BitemporalMapper.java:272 | the `for` loop appends a strategy's fields to the document, in order, and nothing else |
| `Mapping.BitemporalMapper.CheckIfNow` | plugin/src/main/java/com/stratio/cassandra/lucene/schema/mapping/BitemporalMapper.java:316-324 | a value above the now value fails; below it, a negative value fails and any other is kept; the now value itself becomes `MAX`; a result is now iff the input was the now value |
| `Mapping.BitemporalMapper.ParseBiTemporalDate` | plugin/src/main/java/com/stratio/cassandra/lucene/schema/mapping/BitemporalMapper.java:334-341 | no date gives `None`, a parse error fails; a parsed date gives exactly `checkIfNow`'s result or error, so a date in [0, now value) is kept unchanged, one above the now value fails as exceeding it and a negative one fails as negative; every accepted instant is valid and either below the now value or `MAX`, now exactly when the parsed value was the now value |
| `Mapping.BitemporalMapper.ReadBitemporalDate` | plugin/src/main/java/com/stratio/cassandra/lucene/schema/mapping/BitemporalMapper.java:308-314 | an absent column reads as `None`; a present one is parsed |
| `MappingProperties.WrittenDatesBelowNow` | plugin/src/main/java/com/stratio/cassandra/lucene/schema/mapping/BitemporalMapper.java:308-341 | every instant read from a column is valid and either below the configured now value or `MAX` |
| `Mapping.Classify` | plugin/src/main/java/com/stratio/cassandra/lucene/schema/mapping/BitemporalMapper.java:270-291 | each combination of (`ttTo` is now, `vtTo` is now) gives exactly one case, and the case gives both flags back |
| `Mapping.BitemporalMapper.AddFields` | plugin/src/main/java/com/stratio/cassandra/lucene/schema/mapping/BitemporalMapper.java:251-299 | on failure the document is unchanged and the error is `Emitted`'s; on success exactly `Emitted`'s fields are appended |
| `MappingProperties.NothingEmittedIffAllAbsent` | plugin/src/main/java/com/stratio/cassandra/lucene/schema/mapping/BitemporalMapper.java:258-259 | a record emits no fields, without error, exactly when all four columns read as absent |
| `MappingProperties.ReadErrorReportedFirst` | plugin/src/main/java/com/stratio/cassandra/lucene/schema/mapping/BitemporalMapper.java:253-256 | the first column, in the order vt_from, vt_to, tt_from, tt_to, whose read fails decides the error, before any check for missing columns |
| `MappingProperties.MissingColumnReported` | plugin/src/main/java/com/stratio/cassandra/lucene/schema/mapping/BitemporalMapper.java:258-268 | a record fails naming column c exactly when all reads succeed, some column is present, c is absent and every column before c is present |
| `MappingProperties.CompleteRecordWritten` | plugin/src/main/java/com/stratio/cassandra/lucene/schema/mapping/BitemporalMapper.java:253-298 | a record with all four columns emits its case's three fields |
| `MappingProperties.CaseTable` | plugin/src/main/java/com/stratio/cassandra/lucene/schema/mapping/BitemporalMapper.java:270-298 | T1 writes [vtFrom, vtFrom] and [ttFrom, ttFrom] with discriminator 1; T2 [vtFrom, vtTo] and [ttFrom, ttFrom] with 1; T3 [vtFrom, vtFrom] and [ttFrom, ttTo] with 0; T4 [vtFrom, vtTo] and [ttFrom, ttTo] with 0; each case is its combination of the two now flags |
| `MappingProperties.OneDiscriminator` | plugin/src/main/java/com/stratio/cassandra/lucene/schema/mapping/BitemporalMapper.java:273-294 | a written record carries exactly one `.T1UT2` int field, 1 iff `ttTo` is now (cases T1 and T2), else 0 |
| `MappingProperties.CasesUseDisjointFields` | plugin/src/main/java/com/stratio/cassandra/lucene/schema/mapping/BitemporalMapper.java:162-180 | two different cases never share a range-field name, in either dimension |
| `MappingProperties.FieldsUnderOwnCase` | plugin/src/main/java/com/stratio/cassandra/lucene/schema/mapping/BitemporalMapper.java:270-298 | every range field of a record is named after its own case's valid or transaction strategy and after no other case's |
| `MappingProperties.ScenarioClosedFact` | plugin/src/main/java/com/stratio/cassandra/lucene/schema/mapping/BitemporalMapper.java:291-296 | vt 1000..2000, tt 1500..2500 under the default now value is T4: `.t4_v` [1000, 2000], discriminator 0, `.t4_t` [1500, 2500] |
| `MappingProperties.ScenarioCurrentFact` | plugin/src/main/java/com/stratio/cassandra/lucene/schema/mapping/BitemporalMapper.java:270-275 | with now value 5000, starts 1000 and stops 5000 make T1: `.t1_v` [1000, 1000], discriminator 1, `.t1_t` [1000, 1000] |
| `MappingProperties.ScenarioOnlyValidStart` | plugin/src/main/java/com/stratio/cassandra/lucene/schema/mapping/BitemporalMapper.java:262-263 | a record with only its valid-time start fails with "vt_to column required" |
| `MappingProperties.ScenarioBeyondNow` | plugin/src/main/java/com/stratio/cassandra/lucene/schema/mapping/BitemporalMapper.java:317-318 | a value one above the now value fails with the exceeds-max error |
| `Mapping.BitemporalMapper.SortField` | plugin/src/main/java/com/stratio/cassandra/lucene/schema/mapping/BitemporalMapper.java:345-347 | sorting always fails, naming the requested field |

## Left out

- The `Mapper` superclass constructor (its list of supported column types and
  its own checks) is not part of this model.
- `DateParser` (pattern defaulting, string and number parsing) is not part of
  this model. It is the given function `dateParser`, so the `pattern` field and
  its default are not modelled.
- Column names are non-null strings. A `null` name counts as blank in the source.
  `IsBlank` follows `Character.isWhitespace` of Java 8.
- `Columns`/`Column` lookup is a map from name to the first raw value under that
  name. A column whose composed value is `null` is not modelled apart from what
  the parser makes of it.
- Mapping.CreateIndexableFields: collapses the prefix-tree cells that
  `NumberRangePrefixTreeStrategy.createIndexableFields` builds into one field
  carrying the interval, because the Lucene encoding is foreign code. Overlap
  soundness of the encoding is not stated.
- Mapping.BitemporalMapper.MakeShape: the shape is the pair (start, stop).
  `BitemporalDateTime.toDate`, which turns each end into the `Date` handed to
  the tree, and Lucene's `toUnitShape`/`toRangeShape` with any check they make
  on `start <= stop` are foreign to the model. The mapper itself never checks `from <= to`, and neither does
  the model. So if the shape library refuses a reversed interval, a T3 or T4
  record with `tt_from > tt_to` fails in the mapper after the valid-time
  fields and the discriminator were already added. The model writes that
  record without error, and `AddFields`' "document unchanged on failure"
  covers only the failures the mapper itself raises.
- The `STORE` flag of the discriminator `IntField` comes from the superclass and
  is not modelled.
- `toString` and `hashCode` are presentation only and are left out.
- Mapping.Configure: when the configured now value parses to no date, the
  mapper calls `getTime()` on `null` and throws a `NullPointerException`, not an
  `IndexException`. The model reports this as the error `NullNowValue`.
- Temporal.BitemporalDateTime.Equals: `null` and objects of another class are
  both `None`. The identity shortcut `this == o` agrees with timestamp equality,
  so it is not modelled separately.

## Findings

| source | as written | input that shows it | evidently intended | confidence | as-written member | corrected member |
|---|---|---|---|---|---|---|
| plugin/src/main/java/com/stratio/cassandra/lucene/schema/mapping/BitemporalMapper.java:373-375 | the `Date` constructor stores `date.getTime()` without the negativity check of the `Long` constructor (line 381) | `new BitemporalDateTime(new Date(-1))` compares below `MIN` and is not `isMin` (lemma `Temporal.FromDateGoesBelowMin`) | a negative epoch value is refused whichever constructor builds the value, so no value lies below `MIN` (lemma `Temporal.FromDateCheckedNeverBelowMin`) | medium, not executed | `Temporal.FromDate` | `Temporal.FromDateChecked` |
