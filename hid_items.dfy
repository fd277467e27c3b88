/** HID report-descriptor items and the way a host reads them, after the
    HID 1.11 Device Class Definition: global items (section 6.2.2.7) set
    state that persists until changed, local items (section 6.2.2.8)
    describe only the next main item, and each Input, Output or Feature
    main item (section 6.2.2.5) appends Report Count fields of Report Size
    bits to the report its Report ID selects. Collection and End Collection
    (section 6.2.2.6) open and close nested groups.

    Items are kept at the level of the `HID_RI_*` macros: each carries the
    data size in bits given as the macro's first argument and its value.
    Their byte encodings are not modelled. */
module HidItems {
  import opened Bytes

  /** The main-item data bits used by the tables, after the `HID_IOF_*`
      names: CONSTANT (else DATA), VARIABLE (else ARRAY), RELATIVE (else
      ABSOLUTE), NULLSTATE (else NO_NULL_POSITION). The other bits (wrap,
      non-linear, no preferred state, volatile) are never set by the
      tables: where the tables name them at all they name the zero option
      (NO_WRAP, LINEAR, PREFERRED_STATE, and NON_VOLATILE, which is bit 7
      clear), so these four fields determine the whole data byte. */
  datatype DataFlags = DataFlags(constant: bool, variable: bool, relative: bool, nullState: bool)

  datatype Item =
    | UsagePage(bits: nat, page: nat)
    | Usage(bits: nat, usage: nat)
    | UsageMinimum(bits: nat, usage: nat)
    | UsageMaximum(bits: nat, usage: nat)
    | LogicalMinimum(bits: nat, value: int)
    | LogicalMaximum(bits: nat, value: int)
    | PhysicalMinimum(bits: nat, value: int)
    | PhysicalMaximum(bits: nat, value: int)
    | Unit(bits: nat, unit: nat)
    | ReportSize(bits: nat, n: nat)
    | ReportCount(bits: nat, n: nat)
    | ReportId(bits: nat, n: nat)
    | Input(bits: nat, flags: DataFlags)
    | Output(bits: nat, flags: DataFlags)
    | Feature(bits: nat, flags: DataFlags)
    | Collection(bits: nat, kind: nat)
    | EndCollection(bits: nat)

  // Collection types (section 6.2.2.6)
  const COLLECTION_PHYSICAL: nat := 0x00
  const COLLECTION_APPLICATION: nat := 0x01

  function Pow2(n: nat): (p: nat)
    ensures p >= 1
  {
    if n == 0 then 1 else 2 * Pow2(n - 1)
  }

  /** The powers of two that bound one- and two-byte item data. */
  lemma Pow2Facts()
    ensures Pow2(7) == 128 && Pow2(8) == 256 && Pow2(15) == 32768 && Pow2(16) == 65536
  {
    assert Pow2(4) == 16;
    assert Pow2(8) == 256;
    assert Pow2(12) == 4096;
  }

  predicate FitsUnsigned(v: int, bits: nat)
  {
    0 <= v < Pow2(bits)
  }

  /** Two's complement in `bits` bits. */
  predicate FitsSigned(v: int, bits: nat)
  {
    bits > 0 && -(Pow2(bits - 1) as int) <= v < Pow2(bits - 1)
  }

  /** The sizes a short item's data may have: 0, 1, 2 or 4 bytes. */
  predicate DataSize(bits: nat)
  {
    bits == 0 || bits == 8 || bits == 16 || bits == 32
  }

  /** How many values `bits` bits of item data hold, for each allowed size. */
  function DataRange(bits: nat): (n: nat)
  {
    if bits == 0 then 1
    else if bits == 8 then 0x100
    else if bits == 16 then 0x1_0000
    else 0x1_0000_0000
  }

  /** For the allowed sizes the table above is 2^bits, so item data fits
      exactly as a field of that many bits would. */
  lemma DataRangeIsPow2(bits: nat)
    requires DataSize(bits)
    ensures DataRange(bits) == Pow2(bits)
  {
    Pow2Facts();
    if bits == 32 {
      assert Pow2(24) == 0x100_0000;
      assert Pow2(32) == 0x1_0000_0000;
    }
  }

  predicate DataUnsigned(v: int, bits: nat)
  {
    0 <= v < DataRange(bits)
  }

  predicate DataSigned(v: int, bits: nat)
  {
    bits > 0 && -(DataRange(bits) / 2) <= v < DataRange(bits) / 2
  }

  /** A short item's data is 0, 1, 2 or 4 bytes; minimum and maximum
      values are signed (section 6.2.2.7), all other data unsigned. */
  predicate DataFits(it: Item)
  {
    && DataSize(it.bits)
    && match it
       case UsagePage(b, v) => DataUnsigned(v, b)
       case Usage(b, v) => DataUnsigned(v, b)
       case UsageMinimum(b, v) => DataUnsigned(v, b)
       case UsageMaximum(b, v) => DataUnsigned(v, b)
       case LogicalMinimum(b, v) => DataSigned(v, b)
       case LogicalMaximum(b, v) => DataSigned(v, b)
       case PhysicalMinimum(b, v) => DataSigned(v, b)
       case PhysicalMaximum(b, v) => DataSigned(v, b)
       case Unit(b, v) => DataUnsigned(v, b)
       case ReportSize(b, v) => DataUnsigned(v, b)
       case ReportCount(b, v) => DataUnsigned(v, b)
       case ReportId(b, v) => DataUnsigned(v, b)
       case Input(b, _) => b == 8
       case Output(b, _) => b == 8
       case Feature(b, _) => b == 8
       case Collection(b, v) => DataUnsigned(v, b)
       case EndCollection(b) => b == 0
  }

  // ---------------------------------------------------------------------
  // Parser state

  datatype ReportKind = InputReport | OutputReport | FeatureReport

  /** One report: its direction and its Report ID (0 when none is set). */
  datatype ReportKey = ReportKey(kind: ReportKind, id: nat)

  datatype Globals = Globals(
    usagePage: nat,
    logicalMin: int, logicalMax: int,
    physicalMin: int, physicalMax: int,
    unit: nat,
    reportSize: nat, reportId: nat, reportCount: nat)

  datatype Locals = Locals(usages: seq<nat>, usageMin: Option<nat>, usageMax: Option<nat>)

  const NoLocals: Locals := Locals([], None, None)

  /** A collection that is open: its type, and the usage page and usage
      (the first local usage, if any) that tag it. */
  datatype OpenCollection = OpenCollection(kind: nat, usagePage: nat, usage: Option<nat>)

  /** What one Input, Output or Feature item adds to its report: `count`
      values of `size` bits from bit `offset` on, described by the global
      and local state at that item and nested in the collections `path`
      (outermost first). */
  datatype Field = Field(
    key: ReportKey, offset: nat, size: nat, count: nat, flags: DataFlags,
    globals: Globals, locals: Locals, path: seq<OpenCollection>)

  function FieldBits(f: Field): nat
  {
    f.size * f.count
  }

  datatype Parser = Parser(
    globals: Globals, locals: Locals, open: seq<OpenCollection>,
    fields: seq<Field>, totals: map<ReportKey, nat>, unbalanced: bool)

  const Start: Parser := Parser(Globals(0, 0, 0, 0, 0, 0, 0, 0, 0), NoLocals, [], [], map[], false)

  /** Bits the report `key` holds so far. */
  function TotalOf(totals: map<ReportKey, nat>, key: ReportKey): nat
  {
    if key in totals then totals[key] else 0
  }

  function FirstUsage(l: Locals): Option<nat>
  {
    if |l.usages| == 0 then None else Some(l.usages[0])
  }

  /** An Input, Output or Feature item: a field placed right after the bits
      its report already holds. Local state is consumed. */
  function AddField(p: Parser, kind: ReportKind, flags: DataFlags): Parser
  {
    var key := ReportKey(kind, p.globals.reportId);
    var f := Field(key, TotalOf(p.totals, key), p.globals.reportSize, p.globals.reportCount,
                   flags, p.globals, p.locals, p.open);
    p.(fields := p.fields + [f], totals := p.totals[key := f.offset + FieldBits(f)], locals := NoLocals)
  }

  function Step(p: Parser, it: Item): Parser
  {
    match it
    case UsagePage(_, v) => p.(globals := p.globals.(usagePage := v))
    case LogicalMinimum(_, v) => p.(globals := p.globals.(logicalMin := v))
    case LogicalMaximum(_, v) => p.(globals := p.globals.(logicalMax := v))
    case PhysicalMinimum(_, v) => p.(globals := p.globals.(physicalMin := v))
    case PhysicalMaximum(_, v) => p.(globals := p.globals.(physicalMax := v))
    case Unit(_, v) => p.(globals := p.globals.(unit := v))
    case ReportSize(_, v) => p.(globals := p.globals.(reportSize := v))
    case ReportCount(_, v) => p.(globals := p.globals.(reportCount := v))
    case ReportId(_, v) => p.(globals := p.globals.(reportId := v))
    case Usage(_, v) => p.(locals := p.locals.(usages := p.locals.usages + [v]))
    case UsageMinimum(_, v) => p.(locals := p.locals.(usageMin := Some(v)))
    case UsageMaximum(_, v) => p.(locals := p.locals.(usageMax := Some(v)))
    case Input(_, f) => AddField(p, InputReport, f)
    case Output(_, f) => AddField(p, OutputReport, f)
    case Feature(_, f) => AddField(p, FeatureReport, f)
    case Collection(_, k) =>
      p.(open := p.open + [OpenCollection(k, p.globals.usagePage, FirstUsage(p.locals))], locals := NoLocals)
    case EndCollection(_) =>
      if |p.open| == 0 then p.(unbalanced := true, locals := NoLocals)
      else p.(open := p.open[..|p.open| - 1], locals := NoLocals)
  }

  function Run(items: seq<Item>, p: Parser): Parser
    decreases |items|
  {
    if |items| == 0 then p else Run(items[1..], Step(p, items[0]))
  }

  /** The reports a descriptor defines: every field, and each report's
      length in bits (not counting a Report ID prefix byte). */
  datatype Layout = Layout(fields: seq<Field>, totals: map<ReportKey, nat>)

  /** None when an End Collection has nothing to close or a collection is
      left open. */
  function Parse(items: seq<Item>): Option<Layout>
  {
    var p := Run(items, Start);
    if p.unbalanced || |p.open| > 0 then None else Some(Layout(p.fields, p.totals))
  }

  function ReportBits(l: Layout, kind: ReportKind, id: nat): nat
  {
    TotalOf(l.totals, ReportKey(kind, id))
  }

  // ---------------------------------------------------------------------
  // Reading a descriptor piece by piece

  /** Reading `a + b` is reading `a`, then reading `b` from where `a` left
      the parser. */
  lemma {:induction false} RunAppend(a: seq<Item>, b: seq<Item>, p: Parser)
    ensures Run(a + b, p) == Run(b, Run(a, p))
    decreases |a|
  {
    if |a| == 0 {
      assert a + b == b;
    } else {
      assert (a + b)[1..] == a[1..] + b;
      RunAppend(a[1..], b, Step(p, a[0]));
    }
  }

  /** Reading one item more is one more step. */
  lemma RunCons(a: Item, rest: seq<Item>, p: Parser)
    ensures Run([a] + rest, p) == Run(rest, Step(p, a))
  {
    assert ([a] + rest)[1..] == rest;
  }

  // Short descriptors whose items are not all literal values, read step by step

  lemma Run1(a: Item, p: Parser)
    ensures Run([a], p) == Step(p, a)
  {
    RunCons(a, [], p);
  }

  lemma Run2(a: Item, b: Item, p: Parser)
    ensures Run([a, b], p) == Step(Step(p, a), b)
  {
    assert [a, b] == [a] + [b];
    RunCons(a, [b], p);
    Run1(b, Step(p, a));
  }

  lemma Run3(a: Item, b: Item, c: Item, p: Parser)
    ensures Run([a, b, c], p) == Step(Step(Step(p, a), b), c)
  {
    assert [a, b, c] == [a] + [b, c];
    RunCons(a, [b, c], p);
    Run2(b, c, Step(p, a));
  }

  lemma Run4(a: Item, b: Item, c: Item, d: Item, p: Parser)
    ensures Run([a, b, c, d], p) == Step(Step(Step(Step(p, a), b), c), d)
  {
    assert [a, b, c, d] == [a] + [b, c, d];
    RunCons(a, [b, c, d], p);
    Run3(b, c, d, Step(p, a));
  }

  lemma Run5(a: Item, b: Item, c: Item, d: Item, e: Item, p: Parser)
    ensures Run([a, b, c, d, e], p) == Step(Step(Step(Step(Step(p, a), b), c), d), e)
  {
    assert [a, b, c, d, e] == [a] + [b, c, d, e];
    RunCons(a, [b, c, d, e], p);
    Run4(b, c, d, e, Step(p, a));
  }

  lemma Run6(a: Item, b: Item, c: Item, d: Item, e: Item, f: Item, p: Parser)
    ensures Run([a, b, c, d, e, f], p) == Step(Step(Step(Step(Step(Step(p, a), b), c), d), e), f)
  {
    assert [a, b, c, d, e, f] == [a] + [b, c, d, e, f];
    RunCons(a, [b, c, d, e, f], p);
    Run5(b, c, d, e, f, Step(p, a));
  }

  lemma Run7(a: Item, b: Item, c: Item, d: Item, e: Item, f: Item, g: Item, p: Parser)
    ensures Run([a, b, c, d, e, f, g], p) == Step(Step(Step(Step(Step(Step(Step(p, a), b), c), d), e), f), g)
  {
    assert [a, b, c, d, e, f, g] == [a] + [b, c, d, e, f, g];
    RunCons(a, [b, c, d, e, f, g], p);
    Run6(b, c, d, e, f, g, Step(p, a));
  }

  /** Global state persists: items that include no Report Size item leave
      the report size as it was. */
  lemma {:induction false} ReportSizePersists(items: seq<Item>, p: Parser)
    requires NoReportSize(items)
    ensures Run(items, p).globals.reportSize == p.globals.reportSize
    decreases |items|
  {
    if |items| > 0 {
      assert items[0] in items;
      assert forall it | it in items[1..] :: it in items;
      ReportSizePersists(items[1..], Step(p, items[0]));
    }
  }

  /** Items are only ever appended: reading more never changes the fields
      already read. */
  lemma {:induction false} RunExtendsFields(items: seq<Item>, p: Parser)
    ensures |p.fields| <= |Run(items, p).fields|
    ensures Run(items, p).fields[..|p.fields|] == p.fields
    decreases |items|
  {
    if |items| > 0 {
      var q := Step(p, items[0]);
      assert |p.fields| <= |q.fields| && q.fields[..|p.fields|] == p.fields;
      RunExtendsFields(items[1..], q);
    }
  }

  /** Reading more items never changes a field already read. */
  lemma RunKeepsField(items: seq<Item>, p: Parser, i: nat)
    requires i < |p.fields|
    ensures i < |Run(items, p).fields| && Run(items, p).fields[i] == p.fields[i]
  {
    RunExtendsFields(items, p);
    assert Run(items, p).fields[..|p.fields|][i] == Run(items, p).fields[i];
  }

  // ---------------------------------------------------------------------
  // Properties of every item of a descriptor

  predicate AllDataFits(items: seq<Item>)
  {
    forall it | it in items :: DataFits(it)
  }

  predicate NoReportSize(items: seq<Item>)
  {
    forall it | it in items :: !it.ReportSize?
  }

  lemma AllDataFitsAppend(a: seq<Item>, b: seq<Item>)
    requires AllDataFits(a) && AllDataFits(b)
    ensures AllDataFits(a + b)
  {
  }

  lemma AllDataFitsParts(a: seq<Item>, b: seq<Item>)
    requires AllDataFits(a + b)
    ensures AllDataFits(a) && AllDataFits(b)
  {
  }

  lemma NoReportSizeAppend(a: seq<Item>, b: seq<Item>)
    requires NoReportSize(a) && NoReportSize(b)
    ensures NoReportSize(a + b)
  {
  }

  // ---------------------------------------------------------------------
  // Fields of one report are laid out one after another

  /** Bits that the fields of report `key` among `fields` take up. */
  function KeyBits(fields: seq<Field>, key: ReportKey): nat
    decreases |fields|
  {
    if |fields| == 0 then 0
    else
      var last := fields[|fields| - 1];
      KeyBits(fields[..|fields| - 1], key) + (if last.key == key then FieldBits(last) else 0)
  }

  /** Each report's length is the sum of its fields' bits, and each field
      starts where the earlier fields of its report end. */
  ghost predicate Contiguous(fields: seq<Field>, totals: map<ReportKey, nat>)
  {
    && (forall key :: TotalOf(totals, key) == KeyBits(fields, key))
    && (forall i | 0 <= i < |fields| :: fields[i].offset == KeyBits(fields[..i], fields[i].key))
  }

  /** An Input, Output or Feature item keeps the layout contiguous: its
      field starts where its report ended. */
  lemma AddFieldContiguous(p: Parser, kind: ReportKind, flags: DataFlags)
    requires Contiguous(p.fields, p.totals)
    ensures Contiguous(AddField(p, kind, flags).fields, AddField(p, kind, flags).totals)
  {
    var q := AddField(p, kind, flags);
    assert q.fields[..|q.fields| - 1] == p.fields;
    forall key ensures TotalOf(q.totals, key) == KeyBits(q.fields, key) {
    }
    forall i | 0 <= i < |q.fields| ensures q.fields[i].offset == KeyBits(q.fields[..i], q.fields[i].key) {
      if i < |p.fields| {
        assert q.fields[..i] == p.fields[..i];
      }
    }
  }

  lemma StepContiguous(p: Parser, it: Item)
    requires Contiguous(p.fields, p.totals)
    ensures Contiguous(Step(p, it).fields, Step(p, it).totals)
  {
    match it
    case Input(_, f) => AddFieldContiguous(p, InputReport, f);
    case Output(_, f) => AddFieldContiguous(p, OutputReport, f);
    case Feature(_, f) => AddFieldContiguous(p, FeatureReport, f);
    case _ =>
      assert Step(p, it).fields == p.fields && Step(p, it).totals == p.totals;
  }

  lemma {:induction false} RunContiguous(items: seq<Item>, p: Parser)
    requires Contiguous(p.fields, p.totals)
    ensures Contiguous(Run(items, p).fields, Run(items, p).totals)
    decreases |items|
  {
    if |items| > 0 {
      StepContiguous(p, items[0]);
      RunContiguous(items[1..], Step(p, items[0]));
    }
  }

  lemma {:induction false} KeyBitsMonotone(fields: seq<Field>, key: ReportKey, i: nat, j: nat)
    requires i <= j <= |fields|
    ensures KeyBits(fields[..i], key) <= KeyBits(fields[..j], key)
    decreases j - i
  {
    if i < j {
      KeyBitsMonotone(fields, key, i, j - 1);
      assert fields[..j][..j - 1] == fields[..j - 1];
    }
  }

  /** A field placed where the earlier fields of its report end finishes
      no later than the fields of that report among the first `j`. */
  lemma FieldEndsBy(fs: seq<Field>, i: nat, j: nat)
    requires i < j <= |fs|
    requires fs[i].offset == KeyBits(fs[..i], fs[i].key)
    ensures fs[i].offset + FieldBits(fs[i]) <= KeyBits(fs[..j], fs[i].key)
  {
    KeyBitsMonotone(fs, fs[i].key, i + 1, j);
    assert fs[..i + 1][..i] == fs[..i];
  }

  /** In every layout a descriptor yields, two fields of the same report
      never overlap, and every field ends within its report's length. */
  lemma FieldsDisjoint(items: seq<Item>, l: Layout)
    requires Parse(items) == Some(l)
    ensures forall i, j | 0 <= i < j < |l.fields| && l.fields[i].key == l.fields[j].key ::
      l.fields[i].offset + FieldBits(l.fields[i]) <= l.fields[j].offset
    ensures forall i | 0 <= i < |l.fields| ::
      l.fields[i].offset + FieldBits(l.fields[i]) <= TotalOf(l.totals, l.fields[i].key)
  {
    RunContiguous(items, Start);
    var fs := l.fields;
    assert Contiguous(fs, l.totals);
    forall i, j | 0 <= i < j < |fs| && fs[i].key == fs[j].key
      ensures fs[i].offset + FieldBits(fs[i]) <= fs[j].offset
    {
      FieldEndsBy(fs, i, j);
    }
    assert fs[..|fs|] == fs;
    forall i | 0 <= i < |fs|
      ensures fs[i].offset + FieldBits(fs[i]) <= TotalOf(l.totals, fs[i].key)
    {
      FieldEndsBy(fs, i, |fs|);
    }
  }

  // ---------------------------------------------------------------------
  // Properties of a field

  /** The field starts on a byte boundary. */
  predicate ByteAligned(f: Field)
  {
    f.offset % 8 == 0
  }

  /** The logical range fits the field's size: unsigned when the minimum
      is not negative, two's complement otherwise. */
  predicate RangeFits(f: Field)
  {
    f.globals.logicalMin <= f.globals.logicalMax
    && if f.globals.logicalMin >= 0
       then FitsUnsigned(f.globals.logicalMax, f.size)
       else FitsSigned(f.globals.logicalMin, f.size) && FitsSigned(f.globals.logicalMax, f.size)
  }

  /** The field has a usage range with one usage per value. */
  predicate UsageRangeCovers(f: Field)
  {
    f.locals.usageMin.Some? && f.locals.usageMax.Some?
    && f.count == f.locals.usageMax.value - f.locals.usageMin.value + 1
  }
}
