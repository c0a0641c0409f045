/** `BitemporalMapper`: classifies a record's valid-time and transaction-time
    intervals into one of four cases and writes them, under case-specific field
    names, into the record's index document. */
module Mapping {
  import opened Wrappers
  import opened Errors
  import opened Temporal

  /** A raw column value as the date parser receives it. */
  datatype RawValue = LongValue(n: int) | TextValue(text: string)

  /** What the date parser makes of a raw value: a date (as its epoch value),
      `null`, or an exception. */
  datatype ParseOutcome = ParsedDate(millis: Long) | NoDate | Unparsable

  /** The date parser, configured with the mapper's pattern; it is not part of
      this model, so it is taken as given. */
  type DateParser = RawValue -> ParseOutcome

  /** The columns of one record: the first column under each name. */
  type Columns = map<string, RawValue>

  /** `Character.isWhitespace` (Unicode 6.2, as in Java 8). */
  predicate IsJavaWhitespace(c: char) {
    var n := c as int;
    || n == 0x20 || 0x09 <= n <= 0x0D || 0x1C <= n <= 0x1F
    || n == 0x1680 || n == 0x180E
    || (0x2000 <= n <= 0x200A && n != 0x2007)
    || n == 0x2028 || n == 0x2029 || n == 0x205F || n == 0x3000
  }

  /** `StringUtils.isBlank` on a non-null string. */
  predicate IsBlank(s: string) {
    forall i :: 0 <= i < |s| ==> IsJavaWhitespace(s[i])
  }

  /** The checks the constructor makes, in its order, and the now value it
      settles on: `Long.MAX_VALUE` when none is configured, else the epoch
      value the date parser gives for it. */
  function Configure(vtFrom: string, vtTo: string, ttFrom: string, ttTo: string,
                     nowValue: Option<RawValue>, dateParser: DateParser): (r: Result<Long, IndexError>)
    ensures IsBlank(vtFrom) ==> r == Failure(ColumnNameRequired(VtFrom))
    ensures !IsBlank(vtFrom) && IsBlank(vtTo) ==> r == Failure(ColumnNameRequired(VtTo))
    ensures !IsBlank(vtFrom) && !IsBlank(vtTo) && IsBlank(ttFrom) ==> r == Failure(ColumnNameRequired(TtFrom))
    ensures !IsBlank(vtFrom) && !IsBlank(vtTo) && !IsBlank(ttFrom) && IsBlank(ttTo) ==>
              r == Failure(ColumnNameRequired(TtTo))
    ensures (&& !IsBlank(vtFrom) && !IsBlank(vtTo) && !IsBlank(ttFrom) && !IsBlank(ttTo)
             && nowValue.Some? && dateParser(nowValue.value).NoDate?)
            ==> r == Failure(NullNowValue)
    ensures (&& !IsBlank(vtFrom) && !IsBlank(vtTo) && !IsBlank(ttFrom) && !IsBlank(ttTo)
             && nowValue.Some? && dateParser(nowValue.value).Unparsable?)
            ==> r == Failure(UnparsableDate)
    ensures r.Success? <==>
              && !IsBlank(vtFrom) && !IsBlank(vtTo) && !IsBlank(ttFrom) && !IsBlank(ttTo)
              && (nowValue.Some? ==> dateParser(nowValue.value).ParsedDate?)
    ensures r.Success? && nowValue.None? ==> r.value == LONG_MAX
    ensures r.Success? && nowValue.Some? ==> r.value == dateParser(nowValue.value).millis
  {
    if IsBlank(vtFrom) then Failure(ColumnNameRequired(VtFrom))
    else if IsBlank(vtTo) then Failure(ColumnNameRequired(VtTo))
    else if IsBlank(ttFrom) then Failure(ColumnNameRequired(TtFrom))
    else if IsBlank(ttTo) then Failure(ColumnNameRequired(TtTo))
    else if nowValue.None? then Success(LONG_MAX)
    else match dateParser(nowValue.value)
      case ParsedDate(millis) => Success(millis)
      case NoDate => Failure(NullNowValue)
      case Unparsable => Failure(UnparsableDate)
  }

  /** The four topological cases of a bitemporal record. */
  datatype Case = T1 | T2 | T3 | T4 {

    /** The index `getStrategy` and `getTree` know the case by. */
    function Index(): (i: nat)
      ensures i <= 3
    {
      match this
      case T1 => 0
      case T2 => 1
      case T3 => 2
      case T4 => 3
    }

    /** The transaction-time stop is now. */
    predicate TransactionOpen() {
      this == T1 || this == T2
    }

    /** The valid-time stop is now. */
    predicate ValidOpen() {
      this == T1 || this == T3
    }
  }

  /** The case chain of `addFields`: exactly one case per combination of the
      two "is now" flags, and each case tells both flags back. */
  function Classify(ttToIsNow: bool, vtToIsNow: bool): (c: Case)
    ensures c.TransactionOpen() == ttToIsNow && c.ValidOpen() == vtToIsNow
  {
    if ttToIsNow && vtToIsNow then T1
    else if ttToIsNow && !vtToIsNow then T2
    else if !ttToIsNow && vtToIsNow then T3
    else T4
  }

  /** A record whose four temporal columns are all present. */
  datatype Record = Record(vtFrom: BitemporalDateTime, vtTo: BitemporalDateTime,
                           ttFrom: BitemporalDateTime, ttTo: BitemporalDateTime) {
    function CaseOf(): Case {
      Classify(ttTo.IsNow(), vtTo.IsNow())
    }
  }

  /** `DateRangePrefixTree.INSTANCE`, the one tree all eight strategies share. */
  datatype Tree = DateRangePrefixTree

  /** A prefix-tree strategy, known by its tree and the field name it indexes under. */
  datatype Strategy = Strategy(tree: Tree, fieldName: string)

  /** A range shape: the closed interval from `start` to `stop`. */
  datatype Shape = RangeShape(start: BitemporalDateTime, stop: BitemporalDateTime)

  /** An index field: the cells of a range shape, or a stored int. */
  datatype Field = RangeField(name: string, shape: Shape) | IntField(name: string, value: int)

  /** The sort field `sortField` would build; it never does. */
  datatype SortSpec = SortSpec(name: string, reverse: bool)

  /** The field-name suffix of case index `i` and one of its dimensions. */
  function Suffix(i: int, isValid: bool): (s: string)
    requires 0 <= i <= 3
    ensures |s| == 5
  {
    ['.', 't', "1234"[i], '_', if isValid then 'v' else 't']
  }

  /** The prefix-tree encoding of a shape, abstracted to one field named after
      the strategy and carrying the shape. */
  function CreateIndexableFields(strategy: Strategy, shape: Shape): (fs: seq<Field>)
    ensures |fs| > 0
    ensures forall f <- fs :: f == RangeField(strategy.fieldName, shape)
  {
    [RangeField(strategy.fieldName, shape)]
  }

  /** The values of the int fields named `name`, in document order. */
  function IntValues(fs: seq<Field>, name: string): seq<int> {
    if fs == [] then []
    else (if fs[0].IntField? && fs[0].name == name then [fs[0].value] else []) + IntValues(fs[1..], name)
  }

  lemma {:induction false} IntValuesAppend(a: seq<Field>, b: seq<Field>, name: string)
    ensures IntValues(a + b, name) == IntValues(a, name) + IntValues(b, name)
  {
    if a == [] {
      assert a + b == b;
    } else {
      assert (a + b)[1..] == a[1..] + b;
      IntValuesAppend(a[1..], b, name);
    }
  }

  /** A Lucene document under construction: the fields added so far, in order. */
  class Document {
    var fields: seq<Field>

    constructor ()
      ensures fields == []
    {
      fields := [];
    }

    method Add(field: Field)
      modifies this
      ensures fields == old(fields) + [field]
    {
      fields := fields + [field];
    }
  }

  /** The `for` loop that adds each field a strategy created to the document. */
  method AddAll(document: Document, fs: seq<Field>)
    modifies document
    ensures document.fields == old(document.fields) + fs
  {
    for i := 0 to |fs|
      invariant document.fields == old(document.fields) + fs[..i]
    {
      document.Add(fs[i]);
      assert fs[..i + 1] == fs[..i] + [fs[i]];
    }
  }

  class BitemporalMapper {
    const field: string
    const vtFrom: string
    const vtTo: string
    const ttFrom: string
    const ttTo: string
    const dateParser: DateParser
    const nowValue: Long

    const treeT1V: Tree := DateRangePrefixTree
    const strategyT1V: Strategy := Strategy(treeT1V, field + ".t1_v")
    const treeT1T: Tree := DateRangePrefixTree
    const strategyT1T: Strategy := Strategy(treeT1T, field + ".t1_t")

    const treeT2V: Tree := DateRangePrefixTree
    const strategyT2V: Strategy := Strategy(treeT2V, field + ".t2_v")
    const treeT2T: Tree := DateRangePrefixTree
    const strategyT2T: Strategy := Strategy(treeT2T, field + ".t2_t")

    const treeT3V: Tree := DateRangePrefixTree
    const strategyT3V: Strategy := Strategy(treeT3V, field + ".t3_v")
    const treeT3T: Tree := DateRangePrefixTree
    const strategyT3T: Strategy := Strategy(treeT3T, field + ".t3_t")

    const treeT4V: Tree := DateRangePrefixTree
    const strategyT4V: Strategy := Strategy(treeT4V, field + ".t4_v")
    const treeT4T: Tree := DateRangePrefixTree
    const strategyT4T: Strategy := Strategy(treeT4T, field + ".t4_t")

    /** The assignments of the Java constructor, once its checks have passed;
        `New` is the constructor with its failure path. */
    constructor (field: string, vtFrom: string, vtTo: string, ttFrom: string, ttTo: string,
                 nowValue: Option<RawValue>, dateParser: DateParser)
      requires Configure(vtFrom, vtTo, ttFrom, ttTo, nowValue, dateParser).Success?
      ensures this.field == field && this.dateParser == dateParser
      ensures this.vtFrom == vtFrom && this.vtTo == vtTo && this.ttFrom == ttFrom && this.ttTo == ttTo
      ensures this.nowValue == Configure(vtFrom, vtTo, ttFrom, ttTo, nowValue, dateParser).value
    {
      this.field := field;
      this.dateParser := dateParser;
      this.vtFrom := vtFrom;
      this.vtTo := vtTo;
      this.ttFrom := ttFrom;
      this.ttTo := ttTo;
      this.nowValue := Configure(vtFrom, vtTo, ttFrom, ttTo, nowValue, dateParser).value;
    }

    /** The Java constructor: it throws what `Configure` reports, else builds the mapper. */
    static method New(field: string, vtFrom: string, vtTo: string, ttFrom: string, ttTo: string,
                      nowValue: Option<RawValue>, dateParser: DateParser)
      returns (r: Result<BitemporalMapper, IndexError>)
      ensures Configure(vtFrom, vtTo, ttFrom, ttTo, nowValue, dateParser).Failure? ==>
                r == Failure(Configure(vtFrom, vtTo, ttFrom, ttTo, nowValue, dateParser).error)
      ensures Configure(vtFrom, vtTo, ttFrom, ttTo, nowValue, dateParser).Success? ==>
                && r.Success? && fresh(r.value)
                && r.value.field == field && r.value.dateParser == dateParser
                && r.value.vtFrom == vtFrom && r.value.vtTo == vtTo
                && r.value.ttFrom == ttFrom && r.value.ttTo == ttTo
                && r.value.nowValue == Configure(vtFrom, vtTo, ttFrom, ttTo, nowValue, dateParser).value
    {
      var config := Configure(vtFrom, vtTo, ttFrom, ttTo, nowValue, dateParser);
      if config.Failure? {
        return Failure(config.error);
      }
      var mapper := new BitemporalMapper(field, vtFrom, vtTo, ttFrom, ttTo, nowValue, dateParser);
      return Success(mapper);
    }

    /** `getStrategy`: the strategy of case index `i`, valid time if
        `isValidOrTransaction` else transaction time. */
    function GetStrategy(i: int, isValidOrTransaction: bool): (r: Result<Strategy, IndexError>)
      ensures r.Success? <==> 0 <= i <= 3
      ensures r.Failure? ==> r.error == NoValidStrategy
      ensures r.Success? ==> r.value.fieldName == field + Suffix(i, isValidOrTransaction)
    {
      match i
      case 0 => Success(if isValidOrTransaction then strategyT1V else strategyT1T)
      case 1 => Success(if isValidOrTransaction then strategyT2V else strategyT2T)
      case 2 => Success(if isValidOrTransaction then strategyT3V else strategyT3T)
      case 3 => Success(if isValidOrTransaction then strategyT4V else strategyT4T)
      case _ => Failure(NoValidStrategy)
    }

    /** `getTree`: the tree of case index `i` and one of its dimensions. */
    function GetTree(i: int, isValidOrTransaction: bool): (r: Result<Tree, IndexError>)
      ensures r.Success? <==> 0 <= i <= 3
      ensures r.Failure? ==> r.error == NoValidTree
      ensures r.Success? ==> r.value == GetStrategy(i, isValidOrTransaction).value.tree
    {
      match i
      case 0 => Success(if isValidOrTransaction then treeT1V else treeT1T)
      case 1 => Success(if isValidOrTransaction then treeT2V else treeT2T)
      case 2 => Success(if isValidOrTransaction then treeT3V else treeT3T)
      case 3 => Success(if isValidOrTransaction then treeT4V else treeT4T)
      case _ => Failure(NoValidTree)
    }

    /** The strategy `addFields` writes a case's dimension with. */
    function CaseStrategy(c: Case, isValid: bool): Strategy {
      match c
      case T1 => if isValid then strategyT1V else strategyT1T
      case T2 => if isValid then strategyT2V else strategyT2T
      case T3 => if isValid then strategyT3V else strategyT3T
      case T4 => if isValid then strategyT4V else strategyT4T
    }

    function T1UT2FieldName(): string {
      field + ".T1UT2"
    }

    /** `makeShape`: the range shape from `start` to `stop` on `tree`. */
    function MakeShape(tree: Tree, start: BitemporalDateTime, stop: BitemporalDateTime): (s: Shape)
      ensures s.start == start && s.stop == stop
    {
      RangeShape(start, stop)
    }

    /** `checkIfNow`: a value above the now value is an error, the now value
        itself becomes the `MAX` sentinel, and a smaller value is kept. */
    function CheckIfNow(value: Long): (r: Result<BitemporalDateTime, IndexError>)
      ensures value > nowValue ==> r == Failure(ExceedsMaxValue(value, nowValue))
      ensures value < nowValue && value < 0 ==> r == Failure(NegativeUnixTime)
      ensures r.Success? <==> value == nowValue || 0 <= value < nowValue
      ensures r.Success? ==> r.value.Valid() && (r.value.IsNow() <==> value == nowValue)
      ensures r.Success? && value < nowValue ==> r.value.timestamp == value
    {
      if value > nowValue then Failure(ExceedsMaxValue(value, nowValue))
      else if value < nowValue then FromTimestamp(value)
      else FromTimestamp(LONG_MAX)
    }

    /** `parseBiTemporalDate`: `None` when the parser yields no date; every
        value it accepts is valid and either below the now value or `MAX`. */
    function ParseBiTemporalDate(value: RawValue): (r: Result<Option<BitemporalDateTime>, IndexError>)
      ensures dateParser(value).NoDate? ==> r == Success(None)
      ensures dateParser(value).Unparsable? ==> r == Failure(UnparsableDate)
      ensures dateParser(value).ParsedDate? && CheckIfNow(dateParser(value).millis).Success? ==>
                r == Success(Some(CheckIfNow(dateParser(value).millis).value))
      ensures dateParser(value).ParsedDate? && CheckIfNow(dateParser(value).millis).Failure? ==>
                r == Failure(CheckIfNow(dateParser(value).millis).error)
      ensures dateParser(value).ParsedDate? && 0 <= dateParser(value).millis < nowValue ==>
                r == Success(Some(BitemporalDateTime(dateParser(value).millis)))
      ensures r.Success? && r.value.Some? ==>
                && r.value.value.Valid()
                && (r.value.value.timestamp < nowValue || r.value.value.IsMax())
                && (r.value.value.IsNow() <==> dateParser(value).millis == nowValue)
    {
      match dateParser(value)
      case NoDate => Success(None)
      case Unparsable => Failure(UnparsableDate)
      case ParsedDate(millis) =>
        var d :- CheckIfNow(millis);
        Success(Some(d))
    }

    /** `readBitemporalDate`: `None` for an absent column. */
    function ReadBitemporalDate(columns: Columns, fieldName: string): (r: Result<Option<BitemporalDateTime>, IndexError>)
      ensures fieldName !in columns ==> r == Success(None)
      ensures fieldName in columns ==> r == ParseBiTemporalDate(columns[fieldName])
    {
      if fieldName !in columns then Success(None)
      else ParseBiTemporalDate(columns[fieldName])
    }

    /** The configured name of a temporal column. */
    function ColumnName(column: TemporalColumn): string {
      match column
      case VtFrom => vtFrom
      case VtTo => vtTo
      case TtFrom => ttFrom
      case TtTo => ttTo
    }

    function ColumnRead(columns: Columns, column: TemporalColumn): Result<Option<BitemporalDateTime>, IndexError> {
      ReadBitemporalDate(columns, ColumnName(column))
    }

    /** The first half of `addFields`: read the four columns in order, then
        require all four or none of them. */
    function ReadRecord(columns: Columns): Result<Option<Record>, IndexError> {
      var vf :- ReadBitemporalDate(columns, vtFrom);
      var vt :- ReadBitemporalDate(columns, vtTo);
      var tf :- ReadBitemporalDate(columns, ttFrom);
      var tt :- ReadBitemporalDate(columns, ttTo);
      if vf.None? && vt.None? && tf.None? && tt.None? then Success(None)
      else if vf.None? then Failure(ColumnRequired(VtFrom))
      else if vt.None? then Failure(ColumnRequired(VtTo))
      else if tf.None? then Failure(ColumnRequired(TtFrom))
      else if tt.None? then Failure(ColumnRequired(TtTo))
      else Success(Some(Record(vf.value, vt.value, tf.value, tt.value)))
    }

    /** The fields a complete record contributes: its valid-time interval, the
        discriminator, its transaction-time interval. A dimension whose stop
        is now is indexed as the point at its start. */
    function CaseFields(record: Record): seq<Field> {
      var c := record.CaseOf();
      var validStop := if c.ValidOpen() then record.vtFrom else record.vtTo;
      var transactionStop := if c.TransactionOpen() then record.ttFrom else record.ttTo;
      var sv := CaseStrategy(c, true);
      var st := CaseStrategy(c, false);
      CreateIndexableFields(sv, MakeShape(sv.tree, record.vtFrom, validStop))
      + [IntField(T1UT2FieldName(), if c.TransactionOpen() then 1 else 0)]
      + CreateIndexableFields(st, MakeShape(st.tree, record.ttFrom, transactionStop))
    }

    /** What `addFields` appends to the document, or the error it throws. */
    function Emitted(columns: Columns): Result<seq<Field>, IndexError> {
      var record :- ReadRecord(columns);
      match record
      case None => Success([])
      case Some(rec) => Success(CaseFields(rec))
    }

    /** `addFields`: appends the record's fields to the document, or fails
        before anything is added. The mapper's own failures all arise while
        reading the record, before the first `add`; no check of the shape
        library is modelled (see `MakeShape`). */
    method AddFields(document: Document, columns: Columns) returns (outcome: Outcome<IndexError>)
      modifies document
      ensures Emitted(columns).Failure? ==>
                outcome == Fail(Emitted(columns).error) && document.fields == old(document.fields)
      ensures Emitted(columns).Success? ==>
                outcome == Pass && document.fields == old(document.fields) + Emitted(columns).value
    {
      var vtFromRead := ReadBitemporalDate(columns, this.vtFrom);
      if vtFromRead.Failure? { return Fail(vtFromRead.error); }
      var vtToRead := ReadBitemporalDate(columns, this.vtTo);
      if vtToRead.Failure? { return Fail(vtToRead.error); }
      var ttFromRead := ReadBitemporalDate(columns, this.ttFrom);
      if ttFromRead.Failure? { return Fail(ttFromRead.error); }
      var ttToRead := ReadBitemporalDate(columns, this.ttTo);
      if ttToRead.Failure? { return Fail(ttToRead.error); }

      var vtFrom, vtTo, ttFrom, ttTo := vtFromRead.value, vtToRead.value, ttFromRead.value, ttToRead.value;
      if vtFrom.None? && vtTo.None? && ttFrom.None? && ttTo.None? {
        return Pass;
      } else if vtFrom.None? {
        return Fail(ColumnRequired(VtFrom));
      } else if vtTo.None? {
        return Fail(ColumnRequired(VtTo));
      } else if ttFrom.None? {
        return Fail(ColumnRequired(TtFrom));
      } else if ttTo.None? {
        return Fail(ColumnRequired(TtTo));
      }
      var vf, vt, tf, tt := vtFrom.value, vtTo.value, ttFrom.value, ttTo.value;
      ghost var record := Record(vf, vt, tf, tt);
      assert ReadRecord(columns) == Success(Some(record));

      if tt.IsNow() && vt.IsNow() { // T1
        var shapeV := MakeShape(treeT1V, vf, vf);
        AddAll(document, CreateIndexableFields(strategyT1V, shapeV));
        document.Add(IntField(T1UT2FieldName(), 1));
        var shapeT := MakeShape(treeT1T, tf, tf);
        AddAll(document, CreateIndexableFields(strategyT1T, shapeT));
      } else if tt.IsNow() && !vt.IsNow() { // T2
        var shapeV := MakeShape(treeT2V, vf, vt);
        AddAll(document, CreateIndexableFields(strategyT2V, shapeV));
        document.Add(IntField(T1UT2FieldName(), 1));
        var shapeT := MakeShape(treeT2T, tf, tf);
        AddAll(document, CreateIndexableFields(strategyT2T, shapeT));
      } else if !tt.IsNow() && vt.IsNow() { // T3
        var shapeV := MakeShape(treeT3V, vf, vf);
        AddAll(document, CreateIndexableFields(strategyT3V, shapeV));
        document.Add(IntField(T1UT2FieldName(), 0));
        var shapeT := MakeShape(treeT3T, tf, tt);
        AddAll(document, CreateIndexableFields(strategyT3T, shapeT));
      } else { // T4
        var shapeV := MakeShape(treeT4V, vf, vt);
        AddAll(document, CreateIndexableFields(strategyT4V, shapeV));
        document.Add(IntField(T1UT2FieldName(), 0));
        var shapeT := MakeShape(treeT4T, tf, tt);
        AddAll(document, CreateIndexableFields(strategyT4T, shapeT));
      }
      return Pass;
    }

    /** `sortField`: sorting on a bitemporal field is never supported. */
    function SortField(name: string, reverse: bool): (r: Result<SortSpec, IndexError>)
      ensures r == Failure(SortingUnsupported(name))
    {
      Failure(SortingUnsupported(name))
    }
  }
}
