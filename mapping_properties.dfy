/** What `BitemporalMapper` promises across its members: the field layout, the
    order in which a record is rejected, and the case table of `addFields`. */
module MappingProperties {
  import opened Wrappers
  import opened Errors
  import opened Temporal
  import opened Mapping

  /** Two strings that extend the same prefix with same-length, different
      suffixes differ. */
  lemma SuffixedDiffer(prefix: string, s: string, t: string)
    requires |s| == |t| && s != t
    ensures prefix + s != prefix + t
  {
    var k :| 0 <= k < |s| && s[k] != t[k];
    assert (prefix + s)[|prefix| + k] == s[k];
    assert (prefix + t)[|prefix| + k] == t[k];
  }

  /** The eight field names of `getStrategy` are pairwise distinct, and none
      of them is the discriminator's. */
  lemma StrategyNamesDistinct(m: BitemporalMapper, i: int, b: bool, j: int, c: bool)
    requires 0 <= i <= 3 && 0 <= j <= 3
    ensures (i, b) != (j, c) ==>
              m.GetStrategy(i, b).value.fieldName != m.GetStrategy(j, c).value.fieldName
    ensures m.GetStrategy(i, b).value.fieldName != m.T1UT2FieldName()
  {
    if (i, b) != (j, c) {
      var s, t := Suffix(i, b), Suffix(j, c);
      if i != j {
        assert s[2] != t[2];
      } else {
        assert s[4] != t[4];
      }
      SuffixedDiffer(m.field, s, t);
    }
    var s := Suffix(i, b);
    assert (m.field + s)[|m.field| + 1] == 't';
    assert m.T1UT2FieldName()[|m.field| + 1] == 'T';
  }

  /** `getT1UT2FieldName`: the discriminator is named under the mapper's
      field, apart from every one of the eight strategy names. */
  lemma DiscriminatorName(m: BitemporalMapper)
    ensures |m.T1UT2FieldName()| == |m.field| + 6
    ensures m.T1UT2FieldName()[..|m.field|] == m.field
    ensures forall i: int, b: bool :: 0 <= i <= 3 ==>
              m.GetStrategy(i, b).Success? && m.GetStrategy(i, b).value.fieldName != m.T1UT2FieldName()
  {
  }

  /** The strategy and tree the query side looks up for a case index are
      those `addFields` writes that case with. */
  lemma LookupMatchesEmission(m: BitemporalMapper, c: Case, isValid: bool)
    ensures m.GetStrategy(c.Index(), isValid) == Success(m.CaseStrategy(c, isValid))
    ensures m.GetTree(c.Index(), isValid) == Success(m.CaseStrategy(c, isValid).tree)
  {
  }

  /** Records of different cases never write under the same range-field name. */
  lemma CasesUseDisjointFields(m: BitemporalMapper, c: Case, b: bool, d: Case, e: bool)
    requires c != d
    ensures m.CaseStrategy(c, b).fieldName != m.CaseStrategy(d, e).fieldName
  {
    LookupMatchesEmission(m, c, b);
    LookupMatchesEmission(m, d, e);
    StrategyNamesDistinct(m, c.Index(), b, d.Index(), e);
  }

  /** A record's range fields go only to its own case's two names. */
  lemma FieldsUnderOwnCase(m: BitemporalMapper, record: Record, f: Field)
    requires f in m.CaseFields(record) && f.RangeField?
    ensures f.name == m.CaseStrategy(record.CaseOf(), true).fieldName
         || f.name == m.CaseStrategy(record.CaseOf(), false).fieldName
    ensures forall d: Case, e: bool :: d != record.CaseOf() ==> f.name != m.CaseStrategy(d, e).fieldName
  {
    forall d: Case, e: bool | d != record.CaseOf()
      ensures f.name != m.CaseStrategy(d, e).fieldName
    {
      CasesUseDisjointFields(m, record.CaseOf(), true, d, e);
      CasesUseDisjointFields(m, record.CaseOf(), false, d, e);
    }
  }

  /** The intervals of the four cases: the valid-time interval is the point at
      `vtFrom` exactly when `vtTo` is now (T1, T3), the transaction-time
      interval the point at `ttFrom` exactly when `ttTo` is now (T1, T2). */
  lemma CaseTable(m: BitemporalMapper, record: Record)
    ensures var fs, c := m.CaseFields(record), record.CaseOf();
            var vName, tName := m.CaseStrategy(c, true).fieldName, m.CaseStrategy(c, false).fieldName;
            && (c == T1 ==> fs == [RangeField(vName, RangeShape(record.vtFrom, record.vtFrom)),
                                    IntField(m.T1UT2FieldName(), 1),
                                    RangeField(tName, RangeShape(record.ttFrom, record.ttFrom))])
            && (c == T2 ==> fs == [RangeField(vName, RangeShape(record.vtFrom, record.vtTo)),
                                    IntField(m.T1UT2FieldName(), 1),
                                    RangeField(tName, RangeShape(record.ttFrom, record.ttFrom))])
            && (c == T3 ==> fs == [RangeField(vName, RangeShape(record.vtFrom, record.vtFrom)),
                                    IntField(m.T1UT2FieldName(), 0),
                                    RangeField(tName, RangeShape(record.ttFrom, record.ttTo))])
            && (c == T4 ==> fs == [RangeField(vName, RangeShape(record.vtFrom, record.vtTo)),
                                    IntField(m.T1UT2FieldName(), 0),
                                    RangeField(tName, RangeShape(record.ttFrom, record.ttTo))])
    ensures (record.CaseOf() == T1 <==> record.ttTo.IsNow() && record.vtTo.IsNow())
         && (record.CaseOf() == T2 <==> record.ttTo.IsNow() && !record.vtTo.IsNow())
         && (record.CaseOf() == T3 <==> !record.ttTo.IsNow() && record.vtTo.IsNow())
         && (record.CaseOf() == T4 <==> !record.ttTo.IsNow() && !record.vtTo.IsNow())
  {
  }

  /** A complete record carries exactly one discriminator, 1 when `ttTo` is
      now (T1, T2) and 0 otherwise (T3, T4). */
  lemma OneDiscriminator(m: BitemporalMapper, record: Record)
    ensures IntValues(m.CaseFields(record), m.T1UT2FieldName()) ==
              [if record.ttTo.IsNow() then 1 else 0]
    ensures record.ttTo.IsNow() <==> record.CaseOf() in {T1, T2}
  {
    var fs := m.CaseFields(record);
    var name := m.T1UT2FieldName();
    assert fs == [fs[0]] + [fs[1]] + [fs[2]];
    IntValuesAppend([fs[0]] + [fs[1]], [fs[2]], name);
    IntValuesAppend([fs[0]], [fs[1]], name);
    assert IntValues([fs[0]], name) == [] by {
      assert [fs[0]][1..] == [];
    }
    assert IntValues([fs[1]], name) == [fs[1].value] by {
      assert [fs[1]][1..] == [];
    }
    assert IntValues([fs[2]], name) == [] by {
      assert [fs[2]][1..] == [];
    }
  }

  /** A record with none of the four columns emits nothing, and it is the
      only successful record that does. */
  lemma NothingEmittedIffAllAbsent(m: BitemporalMapper, columns: Columns)
    ensures m.Emitted(columns) == Success([]) <==>
              forall col: TemporalColumn :: m.ColumnRead(columns, col) == Success(None)
  {
    if forall col: TemporalColumn :: m.ColumnRead(columns, col) == Success(None) {
      assert m.ColumnRead(columns, VtFrom) == Success(None);
      assert m.ColumnRead(columns, VtTo) == Success(None);
      assert m.ColumnRead(columns, TtFrom) == Success(None);
      assert m.ColumnRead(columns, TtTo) == Success(None);
    }
  }

  /** A read that throws is reported before any missing column, in column
      order: the first failing read decides the error. */
  lemma ReadErrorReportedFirst(m: BitemporalMapper, columns: Columns, col: TemporalColumn)
    requires m.ColumnRead(columns, col).Failure?
    requires forall k: TemporalColumn :: k.Order() < col.Order() ==> m.ColumnRead(columns, k).Success?
    ensures m.Emitted(columns) == Failure(m.ColumnRead(columns, col).error)
  {
    assert VtFrom.Order() < col.Order() ==> m.ColumnRead(columns, VtFrom).Success?;
    assert VtTo.Order() < col.Order() ==> m.ColumnRead(columns, VtTo).Success?;
    assert TtFrom.Order() < col.Order() ==> m.ColumnRead(columns, TtFrom).Success?;
  }

  /** A partial record is rejected naming its first missing column: the error
      names `col` exactly when every read succeeds, some column is present,
      `col` is absent and every column before `col` is present. */
  lemma MissingColumnReported(m: BitemporalMapper, columns: Columns, col: TemporalColumn)
    ensures m.Emitted(columns) == Failure(ColumnRequired(col)) <==>
              && (forall k: TemporalColumn :: m.ColumnRead(columns, k).Success?)
              && (exists k: TemporalColumn :: m.ColumnRead(columns, k).value.Some?)
              && m.ColumnRead(columns, col).value.None?
              && (forall k: TemporalColumn :: k.Order() < col.Order() ==> m.ColumnRead(columns, k).value.Some?)
  {
    var vf, vt := m.ColumnRead(columns, VtFrom), m.ColumnRead(columns, VtTo);
    var tf, tt := m.ColumnRead(columns, TtFrom), m.ColumnRead(columns, TtTo);
    if m.Emitted(columns) == Failure(ColumnRequired(col)) {
      // A read error would have been reported instead.
      assert vf.Success? && vt.Success? && tf.Success? && tt.Success?;
      forall k: TemporalColumn ensures m.ColumnRead(columns, k).Success? {
        match k
        case VtFrom =>
        case VtTo =>
        case TtFrom =>
        case TtTo =>
      }
      var present :| present in {VtFrom, VtTo, TtFrom, TtTo} && m.ColumnRead(columns, present).value.Some?;
      forall k: TemporalColumn | k.Order() < col.Order()
        ensures m.ColumnRead(columns, k).value.Some?
      {
        match k
        case VtFrom =>
        case VtTo =>
        case TtFrom =>
        case TtTo =>
      }
    }
    if && (forall k: TemporalColumn :: m.ColumnRead(columns, k).Success?)
       && (exists k: TemporalColumn :: m.ColumnRead(columns, k).value.Some?)
       && m.ColumnRead(columns, col).value.None?
       && (forall k: TemporalColumn :: k.Order() < col.Order() ==> m.ColumnRead(columns, k).value.Some?)
    {
      assert vf.Success? && vt.Success? && tf.Success? && tt.Success?;
      var k :| m.ColumnRead(columns, k).value.Some?;
      assert !(vf.value.None? && vt.value.None? && tf.value.None? && tt.value.None?) by {
        match k
        case VtFrom =>
        case VtTo =>
        case TtFrom =>
        case TtTo =>
      }
      assert VtFrom.Order() < col.Order() ==> vf.value.Some?;
      assert VtTo.Order() < col.Order() ==> vt.value.Some?;
      assert TtFrom.Order() < col.Order() ==> tf.value.Some?;
    }
  }

  /** A record with all four columns is classified and written in full. */
  lemma CompleteRecordWritten(m: BitemporalMapper, columns: Columns, record: Record)
    requires m.ColumnRead(columns, VtFrom) == Success(Some(record.vtFrom))
    requires m.ColumnRead(columns, VtTo) == Success(Some(record.vtTo))
    requires m.ColumnRead(columns, TtFrom) == Success(Some(record.ttFrom))
    requires m.ColumnRead(columns, TtTo) == Success(Some(record.ttTo))
    ensures m.Emitted(columns) == Success(m.CaseFields(record))
    ensures |m.Emitted(columns).value| == 3
  {
  }

  /** Every date a record is written with is valid and, unless it is the now
      sentinel, below the configured now value. */
  lemma WrittenDatesBelowNow(m: BitemporalMapper, columns: Columns, col: TemporalColumn)
    requires m.ColumnRead(columns, col).Success? && m.ColumnRead(columns, col).value.Some?
    ensures var d := m.ColumnRead(columns, col).value.value;
            d.Valid() && (d.timestamp < m.nowValue || d == MAX)
  {
  }

  /** A fully closed historical fact (T4) under the default now value. */
  lemma ScenarioClosedFact(m: BitemporalMapper, columns: Columns)
    requires m.nowValue == LONG_MAX
    requires m.vtFrom in columns && m.dateParser(columns[m.vtFrom]) == ParsedDate(1000)
    requires m.vtTo in columns && m.dateParser(columns[m.vtTo]) == ParsedDate(2000)
    requires m.ttFrom in columns && m.dateParser(columns[m.ttFrom]) == ParsedDate(1500)
    requires m.ttTo in columns && m.dateParser(columns[m.ttTo]) == ParsedDate(2500)
    ensures m.Emitted(columns) ==
              Success([RangeField(m.field + ".t4_v", RangeShape(BitemporalDateTime(1000), BitemporalDateTime(2000))),
                       IntField(m.field + ".T1UT2", 0),
                       RangeField(m.field + ".t4_t", RangeShape(BitemporalDateTime(1500), BitemporalDateTime(2500)))])
  {
    var record := Record(BitemporalDateTime(1000), BitemporalDateTime(2000),
                         BitemporalDateTime(1500), BitemporalDateTime(2500));
    CompleteRecordWritten(m, columns, record);
    assert record.CaseOf() == T4;
    CaseTable(m, record);
  }

  /** A current fact (T1) under a configured now value: both stops equal the
      now value and become the `MAX` sentinel; both dimensions are points. */
  lemma ScenarioCurrentFact(m: BitemporalMapper, columns: Columns)
    requires m.nowValue == 5000
    requires m.vtFrom in columns && m.dateParser(columns[m.vtFrom]) == ParsedDate(1000)
    requires m.vtTo in columns && m.dateParser(columns[m.vtTo]) == ParsedDate(5000)
    requires m.ttFrom in columns && m.dateParser(columns[m.ttFrom]) == ParsedDate(1000)
    requires m.ttTo in columns && m.dateParser(columns[m.ttTo]) == ParsedDate(5000)
    ensures m.Emitted(columns) ==
              Success([RangeField(m.field + ".t1_v", RangeShape(BitemporalDateTime(1000), BitemporalDateTime(1000))),
                       IntField(m.field + ".T1UT2", 1),
                       RangeField(m.field + ".t1_t", RangeShape(BitemporalDateTime(1000), BitemporalDateTime(1000)))])
  {
    var record := Record(BitemporalDateTime(1000), MAX, BitemporalDateTime(1000), MAX);
    CompleteRecordWritten(m, columns, record);
    assert record.CaseOf() == T1;
    CaseTable(m, record);
  }

  /** A record holding only its valid-time start is rejected for its valid-time stop. */
  lemma ScenarioOnlyValidStart(m: BitemporalMapper, columns: Columns)
    requires m.nowValue > 1000
    requires m.vtFrom in columns && m.dateParser(columns[m.vtFrom]) == ParsedDate(1000)
    requires m.vtTo !in columns && m.ttFrom !in columns && m.ttTo !in columns
    ensures m.Emitted(columns) == Failure(ColumnRequired(VtTo))
    ensures m.Emitted(columns).error.column.Label() + " column required" == "vt_to column required"
  {
  }

  /** A value one above the now value, held in the first column read, is rejected. */
  lemma ScenarioBeyondNow(m: BitemporalMapper, columns: Columns)
    requires m.nowValue < LONG_MAX
    requires m.vtFrom in columns && m.dateParser(columns[m.vtFrom]) == ParsedDate(m.nowValue + 1)
    ensures m.Emitted(columns) == Failure(ExceedsMaxValue(m.nowValue + 1, m.nowValue))
  {
  }
}
