/** The two HID report descriptors of src/lib/report_descriptors.c: the
    PS3-style gamepad, and the keyboard and mouse pair. Each table is
    written as the concatenation of the groups of items the source lists
    together, so that the reports each group adds can be read off one
    group at a time.

    `REPORT_ID_KBD`, `REPORT_ID_MOUSE`, `SIMULTANEOUS_KEYS`, `Buttons` and
    `AbsoluteCoords` are defined outside this file; here they are the
    parameters of the keyboard and mouse table. */
module ReportDescriptors {
  import opened Bytes
  import opened HidItems

  // Usages, usage pages and units as the file's enums name them
  const USAGE_POINTER: nat := 0x01
  const USAGE_MOUSE: nat := 0x02
  const USAGE_GAMEPAD: nat := 0x05
  const USAGE_KEYBOARD: nat := 0x06
  const USAGE_HAT_SWITCH: nat := 0x39
  const USAGE_X: nat := 0x30
  const USAGE_Y: nat := 0x31
  const USAGE_Z: nat := 0x32
  const USAGE_RZ: nat := 0x35
  const USAGE_WHEEL: nat := 0x38
  const PAGE_GENERIC_DESKTOP: nat := 0x01
  const PAGE_KEYBOARD: nat := 0x07
  const PAGE_BUTTON: nat := 0x09
  const PAGE_VENDOR: nat := 0xFF00
  const UNIT_NONE: nat := 0x00
  const UNIT_DEGREES: nat := 0x14

  // Main-item data flags as the tables combine them
  const DataVariableAbsolute := DataFlags(false, true, false, false)
  const DataVariableAbsoluteNull := DataFlags(false, true, false, true)
  const DataVariableRelative := DataFlags(false, true, true, false)
  const DataArrayAbsolute := DataFlags(false, false, false, false)
  const ConstantArrayAbsolute := DataFlags(true, false, false, false)
  const ConstantVariableAbsolute := DataFlags(true, true, false, false)

  /** What a layout says of one field: all of it but its usages. */
  datatype Slot = Slot(key: ReportKey, offset: nat, size: nat, count: nat, flags: DataFlags,
                       globals: Globals, path: seq<OpenCollection>)

  function SlotOf(f: Field): Slot
  {
    Slot(f.key, f.offset, f.size, f.count, f.flags, f.globals, f.path)
  }

  function Slots(fields: seq<Field>): (s: seq<Slot>)
    ensures |s| == |fields|
    ensures forall i | 0 <= i < |fields| :: s[i] == SlotOf(fields[i])
  {
    seq(|fields|, i requires 0 <= i < |fields| => SlotOf(fields[i]))
  }

  /** The slot a main item of `kind` gets when the global state is `g`,
      the reports so far hold `totals` and `path` is open: it continues its
      report. */
  function NextSlot(g: Globals, totals: map<ReportKey, nat>, path: seq<OpenCollection>,
                    kind: ReportKind, flags: DataFlags): Slot
  {
    var key := ReportKey(kind, g.reportId);
    Slot(key, TotalOf(totals, key), g.reportSize, g.reportCount, flags, g, path)
  }

  /** From `p` to `q` no field was added and no collection opened or closed. */
  predicate SameReports(p: Parser, q: Parser)
  {
    q.fields == p.fields && q.totals == p.totals && q.open == p.open && q.unbalanced == p.unbalanced
  }

  /** Usage items change only local state. */
  lemma {:induction false} LocalItemsKeep(items: seq<Item>, p: Parser)
    requires forall it | it in items :: it.Usage?
    ensures Run(items, p).globals == p.globals && SameReports(p, Run(items, p))
    decreases |items|
  {
    if |items| > 0 {
      assert items[0] in items;
      assert forall it | it in items[1..] :: it in items;
      LocalItemsKeep(items[1..], Step(p, items[0]));
    }
  }

  /** From `p` to `q` exactly one field was added, described by `s`; no
      collection was opened or closed, and local state is consumed. */
  predicate AddsField(p: Parser, q: Parser, s: Slot)
  {
    && |q.fields| == |p.fields| + 1
    && q.fields[..|p.fields|] == p.fields
    && SlotOf(q.fields[|p.fields|]) == s
    && q.totals == p.totals[s.key := s.offset + s.size * s.count]
    && q.open == p.open && q.unbalanced == p.unbalanced
    && q.locals == NoLocals
  }

  /** A stage that adds one field extends the layout's slots by one. */
  lemma AddsFieldSlots(p: Parser, q: Parser, s: Slot)
    requires AddsField(p, q, s)
    ensures Slots(q.fields) == Slots(p.fields) + [s]
  {
  }

  function KindOf(it: Item): ReportKind
    requires it.Input? || it.Output? || it.Feature?
  {
    if it.Input? then InputReport else if it.Output? then OutputReport else FeatureReport
  }

  /** An Input, Output or Feature item adds the field NextSlot describes
      and changes no global state. */
  lemma MainItemAdds(p: Parser, it: Item)
    requires it.Input? || it.Output? || it.Feature?
    ensures Step(p, it).globals == p.globals
    ensures AddsField(p, Step(p, it), NextSlot(p.globals, p.totals, p.open, KindOf(it), it.flags))
    ensures Step(p, it).fields[|p.fields|].locals == p.locals
  {
  }

  /** A group of items whose last is an Input, Output or Feature item and
      whose others only set global and local state adds one field. */
  lemma GroupAdds(items: seq<Item>, p: Parser, r: Parser, it: Item)
    requires it.Input? || it.Output? || it.Feature?
    requires Run(items, p) == Step(r, it)
    requires r.fields == p.fields && r.totals == p.totals && r.open == p.open && r.unbalanced == p.unbalanced
    ensures var q := Run(items, p);
      && q.globals == r.globals
      && AddsField(p, q, NextSlot(r.globals, p.totals, p.open, KindOf(it), it.flags))
      && q.fields[|p.fields|].locals == r.locals
  {
    MainItemAdds(r, it);
  }

  /** A logical range that fits the slot's size (see HidItems.RangeFits). */
  predicate SlotRangeFits(s: Slot)
  {
    var g := s.globals;
    g.logicalMin <= g.logicalMax
    && if g.logicalMin >= 0
       then FitsUnsigned(g.logicalMax, s.size)
       else FitsSigned(g.logicalMin, s.size) && FitsSigned(g.logicalMax, s.size)
  }

  // =====================================================================
  // ps3_report_descriptor, lines 40-127

  /** Lines 42-44: a Generic Desktop gamepad application collection. */
  function Ps3Open(): seq<Item>
  {
    [UsagePage(8, PAGE_GENERIC_DESKTOP), Usage(8, USAGE_GAMEPAD), Collection(8, COLLECTION_APPLICATION)]
  }

  /** Lines 45-50: ranges 0..1, one bit, thirteen times. */
  function Ps3ButtonGlobals(): seq<Item>
  {
    [LogicalMinimum(8, 0), LogicalMaximum(8, 1), PhysicalMinimum(8, 0), PhysicalMaximum(8, 1),
     ReportSize(8, 1), ReportCount(8, 13)]
  }

  /** Lines 51-56: buttons 1..13. */
  function Ps3Buttons(): seq<Item>
  {
    [UsagePage(8, PAGE_BUTTON), UsageMinimum(8, 0x01), UsageMaximum(8, 0x0D), Input(8, DataVariableAbsolute)]
  }

  /** Lines 57-60: padding after the buttons. */
  function Ps3ButtonPadding(): seq<Item>
  {
    [ReportCount(8, 0x03), Input(8, ConstantArrayAbsolute)]
  }

  /** Lines 61-65: range 0..7 over 0..315, four bits, once. */
  function Ps3HatGlobals(): seq<Item>
  {
    [UsagePage(8, PAGE_GENERIC_DESKTOP), LogicalMaximum(8, 7), PhysicalMaximum(16, 315),
     ReportSize(8, 4), ReportCount(8, 0x01)]
  }

  /** Lines 66-70: the hat switch, in degrees, with a null state. */
  function Ps3Hat(): seq<Item>
  {
    [Unit(8, UNIT_DEGREES), Usage(8, USAGE_HAT_SWITCH), Input(8, DataVariableAbsoluteNull)]
  }

  /** Lines 71-75: padding after the hat. */
  function Ps3HatPadding(): seq<Item>
  {
    [Unit(8, UNIT_NONE), ReportCount(8, 0x01), Input(8, ConstantArrayAbsolute)]
  }

  /** Lines 76-82: ranges 0..255, the stick usages, eight bits. */
  function Ps3StickGlobals(): seq<Item>
  {
    [LogicalMaximum(16, 255), PhysicalMaximum(16, 255),
     Usage(8, USAGE_X), Usage(8, USAGE_Y), Usage(8, USAGE_Z), Usage(8, USAGE_RZ),
     ReportSize(8, 8)]
  }

  /** Lines 83-86: the four stick bytes. */
  function Ps3Sticks(): seq<Item>
  {
    [ReportCount(8, 4), Input(8, DataVariableAbsolute)]
  }

  /** Lines 87-92: a vendor-defined page and its usages 0x20..0x24. */
  function Ps3PressureUsagesLow(): seq<Item>
  {
    [UsagePage(16, PAGE_VENDOR), Usage(8, 0x20), Usage(8, 0x21), Usage(8, 0x22), Usage(8, 0x23), Usage(8, 0x24)]
  }

  /** Lines 93-98: usages 0x25..0x2A. */
  function Ps3PressureUsagesHigh(): seq<Item>
  {
    [Usage(8, 0x25), Usage(8, 0x26), Usage(8, 0x27), Usage(8, 0x28), Usage(8, 0x29), Usage(8, 0x2A)]
  }

  /** Lines 99-103: usage 0x2B and the twelve pressure bytes. */
  function Ps3Pressure(): seq<Item>
  {
    [Usage(8, 0x2B), ReportCount(8, 12), Input(8, DataVariableAbsolute)]
  }

  /** Lines 104-108: a Feature report of 32 bytes. */
  function Ps3Feature(): seq<Item>
  {
    [Usage(16, 0x2621), ReportCount(8, 32), Feature(8, DataVariableAbsolute)]
  }

  /** Lines 109-113: an Output report of 32 bytes. */
  function Ps3Output(): seq<Item>
  {
    [Usage(16, 0x2621), Output(8, DataVariableAbsolute)]
  }

  /** Lines 114-119: ranges 0..1023 and four usages. */
  function Ps3AxisGlobals(): seq<Item>
  {
    [LogicalMaximum(16, 1023), PhysicalMaximum(16, 1023),
     Usage(8, 0x2C), Usage(8, 0x2D), Usage(8, 0x2E), Usage(8, 0x2F)]
  }

  /** Lines 120-125: four 16-bit axes. */
  function Ps3Axes(): seq<Item>
  {
    [ReportSize(8, 16), ReportCount(8, 4), Input(8, DataVariableAbsolute)]
  }

  /** Line 126. */
  function Ps3Close(): seq<Item>
  {
    [EndCollection(0)]
  }

  /** Lines 83-119: the items between the Report Size 8 of line 82 and the
      Report Size 16 of line 120. */
  function Ps3SizeEightSpan(): seq<Item>
  {
    Ps3Sticks() + Ps3PressureUsagesLow() + Ps3PressureUsagesHigh() + Ps3Pressure()
    + Ps3Feature() + Ps3Output() + Ps3AxisGlobals()
  }

  /** `ps3_report_descriptor` */
  function Ps3ReportDescriptor(): seq<Item>
  {
    Ps3Open() + Ps3ButtonGlobals() + Ps3Buttons() + Ps3ButtonPadding()
    + Ps3HatGlobals() + Ps3Hat() + Ps3HatPadding() + Ps3StickGlobals()
    + Ps3SizeEightSpan() + Ps3Axes() + Ps3Close()
  }

  // What each group of items does to the parser state

  lemma Ps3OpenReads(p: Parser)
    requires p.locals.usages == []
    ensures var q := Run(Ps3Open(), p);
      && q.globals == p.globals.(usagePage := PAGE_GENERIC_DESKTOP)
      && q.open == p.open + [OpenCollection(COLLECTION_APPLICATION, PAGE_GENERIC_DESKTOP, Some(USAGE_GAMEPAD))]
      && q.fields == p.fields && q.totals == p.totals && q.unbalanced == p.unbalanced
      && q.locals == NoLocals
  {
  }

  lemma Ps3ButtonGlobalsReads(p: Parser)
    ensures var q := Run(Ps3ButtonGlobals(), p);
      && q.globals == p.globals.(logicalMin := 0, logicalMax := 1, physicalMin := 0, physicalMax := 1,
                                 reportSize := 1, reportCount := 13)
      && SameReports(p, q)
  {
    var r := p.(globals := p.globals.(logicalMin := 0, logicalMax := 1, physicalMin := 0,
                                      physicalMax := 1, reportSize := 1, reportCount := 13));
    var m := p.(globals := p.globals.(logicalMin := 0, logicalMax := 1, physicalMin := 0));
    Run6(LogicalMinimum(8, 0), LogicalMaximum(8, 1), PhysicalMinimum(8, 0), PhysicalMaximum(8, 1),
         ReportSize(8, 1), ReportCount(8, 13), p);
    assert Step(Step(Step(p, LogicalMinimum(8, 0)), LogicalMaximum(8, 1)), PhysicalMinimum(8, 0)) == m;
    assert Step(Step(Step(m, PhysicalMaximum(8, 1)), ReportSize(8, 1)), ReportCount(8, 13)) == r;
  }

  lemma Ps3ButtonsReads(p: Parser)
    ensures var q := Run(Ps3Buttons(), p);
      && q.globals == p.globals.(usagePage := PAGE_BUTTON)
      && AddsField(p, q, NextSlot(q.globals, p.totals, p.open, InputReport, DataVariableAbsolute))
  {
    var r := p.(globals := p.globals.(usagePage := PAGE_BUTTON),
             locals := p.locals.(usageMin := Some(0x01), usageMax := Some(0x0D)));
    Run4(UsagePage(8, PAGE_BUTTON), UsageMinimum(8, 0x01), UsageMaximum(8, 0x0D),
         Input(8, DataVariableAbsolute), p);
    assert Step(Step(Step(p, UsagePage(8, PAGE_BUTTON)), UsageMinimum(8, 0x01)), UsageMaximum(8, 0x0D)) == r;
    GroupAdds(Ps3Buttons(), p, r, Input(8, DataVariableAbsolute));
  }

  lemma Ps3ButtonPaddingReads(p: Parser)
    ensures var q := Run(Ps3ButtonPadding(), p);
      && q.globals == p.globals.(reportCount := 3)
      && AddsField(p, q, NextSlot(q.globals, p.totals, p.open, InputReport, ConstantArrayAbsolute))
  {
    var r := p.(globals := p.globals.(reportCount := 0x03));
    Run2(ReportCount(8, 0x03), Input(8, ConstantArrayAbsolute), p);
    assert Step(p, ReportCount(8, 0x03)) == r;
    GroupAdds(Ps3ButtonPadding(), p, r, Input(8, ConstantArrayAbsolute));
  }

  lemma Ps3HatGlobalsReads(p: Parser)
    ensures var q := Run(Ps3HatGlobals(), p);
      && q.globals == p.globals.(usagePage := PAGE_GENERIC_DESKTOP, logicalMax := 7, physicalMax := 315,
                                 reportSize := 4, reportCount := 1)
      && SameReports(p, q)
  {
    var r := p.(globals := p.globals.(usagePage := PAGE_GENERIC_DESKTOP, logicalMax := 7,
                                      physicalMax := 315, reportSize := 4, reportCount := 0x01));
    Run5(UsagePage(8, PAGE_GENERIC_DESKTOP), LogicalMaximum(8, 7), PhysicalMaximum(16, 315), ReportSize(8, 4),
         ReportCount(8, 0x01), p);
    assert Step(Step(Step(Step(Step(p, UsagePage(8, PAGE_GENERIC_DESKTOP)), LogicalMaximum(8, 7)),
           PhysicalMaximum(16, 315)), ReportSize(8, 4)), ReportCount(8, 0x01)) == r;
  }

  lemma Ps3HatReads(p: Parser)
    ensures var q := Run(Ps3Hat(), p);
      && q.globals == p.globals.(unit := UNIT_DEGREES)
      && AddsField(p, q, NextSlot(q.globals, p.totals, p.open, InputReport, DataVariableAbsoluteNull))
  {
    var r := p.(globals := p.globals.(unit := UNIT_DEGREES),
             locals := p.locals.(usages := p.locals.usages + [USAGE_HAT_SWITCH]));
    Run3(Unit(8, UNIT_DEGREES), Usage(8, USAGE_HAT_SWITCH), Input(8, DataVariableAbsoluteNull), p);
    assert Step(Step(p, Unit(8, UNIT_DEGREES)), Usage(8, USAGE_HAT_SWITCH)) == r;
    GroupAdds(Ps3Hat(), p, r, Input(8, DataVariableAbsoluteNull));
  }

  lemma Ps3HatPaddingReads(p: Parser)
    ensures var q := Run(Ps3HatPadding(), p);
      && q.globals == p.globals.(unit := UNIT_NONE, reportCount := 1)
      && AddsField(p, q, NextSlot(q.globals, p.totals, p.open, InputReport, ConstantArrayAbsolute))
  {
    var r := p.(globals := p.globals.(unit := UNIT_NONE, reportCount := 0x01));
    Run3(Unit(8, UNIT_NONE), ReportCount(8, 0x01), Input(8, ConstantArrayAbsolute), p);
    assert Step(Step(p, Unit(8, UNIT_NONE)), ReportCount(8, 0x01)) == r;
    GroupAdds(Ps3HatPadding(), p, r, Input(8, ConstantArrayAbsolute));
  }

  lemma Ps3StickGlobalsReads(p: Parser)
    ensures var q := Run(Ps3StickGlobals(), p);
      && q.globals == p.globals.(logicalMax := 255, physicalMax := 255, reportSize := 8)
      && SameReports(p, q)
  {
    var r := p.(globals := p.globals.(logicalMax := 255, physicalMax := 255, reportSize := 8),
             locals := p.locals.(usages := p.locals.usages + [USAGE_X, USAGE_Y, USAGE_Z, USAGE_RZ]));
    Run7(LogicalMaximum(16, 255), PhysicalMaximum(16, 255), Usage(8, USAGE_X), Usage(8, USAGE_Y),
         Usage(8, USAGE_Z), Usage(8, USAGE_RZ), ReportSize(8, 8), p);
    var m := p.(globals := p.globals.(logicalMax := 255, physicalMax := 255));
    assert Step(Step(p, LogicalMaximum(16, 255)), PhysicalMaximum(16, 255)) == m;
    assert Step(Step(Step(Step(Step(m, Usage(8, USAGE_X)), Usage(8, USAGE_Y)), Usage(8, USAGE_Z)),
           Usage(8, USAGE_RZ)), ReportSize(8, 8)) == r;
  }

  lemma Ps3SticksReads(p: Parser)
    ensures var q := Run(Ps3Sticks(), p);
      && q.globals == p.globals.(reportCount := 4)
      && AddsField(p, q, NextSlot(q.globals, p.totals, p.open, InputReport, DataVariableAbsolute))
  {
    var r := p.(globals := p.globals.(reportCount := 4));
    Run2(ReportCount(8, 4), Input(8, DataVariableAbsolute), p);
    assert Step(p, ReportCount(8, 4)) == r;
    GroupAdds(Ps3Sticks(), p, r, Input(8, DataVariableAbsolute));
  }

  lemma Ps3PressureUsagesLowReads(p: Parser)
    ensures var q := Run(Ps3PressureUsagesLow(), p);
      && q.globals == p.globals.(usagePage := PAGE_VENDOR) && SameReports(p, q)
  {
    var usages := [Usage(8, 0x20), Usage(8, 0x21), Usage(8, 0x22), Usage(8, 0x23), Usage(8, 0x24)];
    assert Ps3PressureUsagesLow() == [UsagePage(16, PAGE_VENDOR)] + usages;
    RunAppend([UsagePage(16, PAGE_VENDOR)], usages, p);
    Run1(UsagePage(16, PAGE_VENDOR), p);
    LocalItemsKeep(usages, Step(p, UsagePage(16, PAGE_VENDOR)));
  }

  lemma Ps3PressureUsagesHighReads(p: Parser)
    ensures var q := Run(Ps3PressureUsagesHigh(), p);
      && q.globals == p.globals && SameReports(p, q)
  {
    LocalItemsKeep(Ps3PressureUsagesHigh(), p);
  }

  lemma Ps3PressureReads(p: Parser)
    ensures var q := Run(Ps3Pressure(), p);
      && q.globals == p.globals.(reportCount := 12)
      && AddsField(p, q, NextSlot(q.globals, p.totals, p.open, InputReport, DataVariableAbsolute))
  {
    var r := p.(globals := p.globals.(reportCount := 12),
             locals := p.locals.(usages := p.locals.usages + [0x2B]));
    Run3(Usage(8, 0x2B), ReportCount(8, 12), Input(8, DataVariableAbsolute), p);
    assert Step(Step(p, Usage(8, 0x2B)), ReportCount(8, 12)) == r;
    GroupAdds(Ps3Pressure(), p, r, Input(8, DataVariableAbsolute));
  }

  lemma Ps3FeatureReads(p: Parser)
    ensures var q := Run(Ps3Feature(), p);
      && q.globals == p.globals.(reportCount := 32)
      && AddsField(p, q, NextSlot(q.globals, p.totals, p.open, FeatureReport, DataVariableAbsolute))
  {
    var r := p.(globals := p.globals.(reportCount := 32),
             locals := p.locals.(usages := p.locals.usages + [0x2621]));
    Run3(Usage(16, 0x2621), ReportCount(8, 32), Feature(8, DataVariableAbsolute), p);
    assert Step(Step(p, Usage(16, 0x2621)), ReportCount(8, 32)) == r;
    GroupAdds(Ps3Feature(), p, r, Feature(8, DataVariableAbsolute));
  }

  lemma Ps3OutputReads(p: Parser)
    ensures var q := Run(Ps3Output(), p);
      && q.globals == p.globals
      && AddsField(p, q, NextSlot(q.globals, p.totals, p.open, OutputReport, DataVariableAbsolute))
  {
    var r := p.(locals := p.locals.(usages := p.locals.usages + [0x2621]));
    Run2(Usage(16, 0x2621), Output(8, DataVariableAbsolute), p);
    assert Step(p, Usage(16, 0x2621)) == r;
    GroupAdds(Ps3Output(), p, r, Output(8, DataVariableAbsolute));
  }

  lemma Ps3AxisGlobalsReads(p: Parser)
    ensures var q := Run(Ps3AxisGlobals(), p);
      && q.globals == p.globals.(logicalMax := 1023, physicalMax := 1023)
      && SameReports(p, q)
  {
    var r := p.(globals := p.globals.(logicalMax := 1023, physicalMax := 1023),
             locals := p.locals.(usages := p.locals.usages + [0x2C, 0x2D, 0x2E, 0x2F]));
    var m := p.(globals := p.globals.(logicalMax := 1023, physicalMax := 1023));
    Run6(LogicalMaximum(16, 1023), PhysicalMaximum(16, 1023), Usage(8, 0x2C), Usage(8, 0x2D), Usage(8, 0x2E),
         Usage(8, 0x2F), p);
    assert Step(Step(p, LogicalMaximum(16, 1023)), PhysicalMaximum(16, 1023)) == m;
    assert Step(Step(Step(Step(m, Usage(8, 0x2C)), Usage(8, 0x2D)), Usage(8, 0x2E)), Usage(8, 0x2F)) == r;
  }

  lemma Ps3AxesReads(p: Parser)
    ensures var q := Run(Ps3Axes(), p);
      && q.globals == p.globals.(reportSize := 16, reportCount := 4)
      && AddsField(p, q, NextSlot(q.globals, p.totals, p.open, InputReport, DataVariableAbsolute))
  {
    var r := p.(globals := p.globals.(reportSize := 16, reportCount := 4));
    Run3(ReportSize(8, 16), ReportCount(8, 4), Input(8, DataVariableAbsolute), p);
    assert Step(Step(p, ReportSize(8, 16)), ReportCount(8, 4)) == r;
    GroupAdds(Ps3Axes(), p, r, Input(8, DataVariableAbsolute));
  }

  lemma Ps3CloseReads(p: Parser)
    requires |p.open| > 0
    ensures var q := Run(Ps3Close(), p);
      && q.globals == p.globals && q.open == p.open[..|p.open| - 1]
      && q.fields == p.fields && q.totals == p.totals && q.unbalanced == p.unbalanced
  {
  }

  /** Reading the Report Size 8 span is reading its groups one by one. */
  lemma Ps3SizeEightSpanRun(p: Parser)
    ensures Run(Ps3SizeEightSpan(), p)
         == Run(Ps3AxisGlobals(), Run(Ps3Output(), Run(Ps3Feature(), Run(Ps3Pressure(),
              Run(Ps3PressureUsagesHigh(), Run(Ps3PressureUsagesLow(), Run(Ps3Sticks(), p)))))))
  {
    var a := Ps3Sticks();
    var b := a + Ps3PressureUsagesLow();
    var c := b + Ps3PressureUsagesHigh();
    var d := c + Ps3Pressure();
    var e := d + Ps3Feature();
    var f := e + Ps3Output();
    RunAppend(f, Ps3AxisGlobals(), p);
    RunAppend(e, Ps3Output(), p);
    RunAppend(d, Ps3Feature(), p);
    RunAppend(c, Ps3Pressure(), p);
    RunAppend(b, Ps3PressureUsagesHigh(), p);
    RunAppend(a, Ps3PressureUsagesLow(), p);
  }

  /** Reading the whole descriptor is reading its groups one by one. */
  lemma Ps3Run()
    ensures Run(Ps3ReportDescriptor(), Start)
         == Run(Ps3Close(), Run(Ps3Axes(), Run(Ps3SizeEightSpan(), Run(Ps3StickGlobals(),
              Run(Ps3HatPadding(), Run(Ps3Hat(), Run(Ps3HatGlobals(), Run(Ps3ButtonPadding(),
              Run(Ps3Buttons(), Run(Ps3ButtonGlobals(), Run(Ps3Open(), Start)))))))))))
  {
    var a := Ps3Open();
    var b := a + Ps3ButtonGlobals();
    var c := b + Ps3Buttons();
    var d := c + Ps3ButtonPadding();
    var e := d + Ps3HatGlobals();
    var f := e + Ps3Hat();
    var g := f + Ps3HatPadding();
    var h := g + Ps3StickGlobals();
    var i := h + Ps3SizeEightSpan();
    var j := i + Ps3Axes();
    RunAppend(j, Ps3Close(), Start);
    RunAppend(i, Ps3Axes(), Start);
    RunAppend(h, Ps3SizeEightSpan(), Start);
    RunAppend(g, Ps3StickGlobals(), Start);
    RunAppend(f, Ps3HatPadding(), Start);
    RunAppend(e, Ps3Hat(), Start);
    RunAppend(d, Ps3HatGlobals(), Start);
    RunAppend(c, Ps3ButtonPadding(), Start);
    RunAppend(b, Ps3Buttons(), Start);
    RunAppend(a, Ps3ButtonGlobals(), Start);
  }

  /** The PS3 reports as documented: input bits 0-12 buttons, 13-15
      padding, 16-19 hat, 20-23 padding, then 4 stick bytes, 12 pressure
      bytes and four 16-bit axes; a 32-byte Feature and a 32-byte Output
      report. No Report ID is set, so all three use ID 0. */
  function Ps3Slots(): seq<Slot>
  {
    var buttons := Globals(PAGE_BUTTON, 0, 1, 0, 1, UNIT_NONE, 1, 0, 13);
    var hat := Globals(PAGE_GENERIC_DESKTOP, 0, 7, 0, 315, UNIT_DEGREES, 4, 0, 1);
    var bytes := Globals(PAGE_GENERIC_DESKTOP, 0, 255, 0, 255, UNIT_NONE, 8, 0, 4);
    var vendor := bytes.(usagePage := PAGE_VENDOR, reportCount := 12);
    var words := Globals(PAGE_VENDOR, 0, 1023, 0, 1023, UNIT_NONE, 16, 0, 4);
    [Slot(Ps3InputKey, 0, 1, 13, DataVariableAbsolute, buttons, [Gamepad]),
     Slot(Ps3InputKey, 13, 1, 3, ConstantArrayAbsolute, buttons.(reportCount := 3), [Gamepad]),
     Slot(Ps3InputKey, 16, 4, 1, DataVariableAbsoluteNull, hat, [Gamepad]),
     Slot(Ps3InputKey, 20, 4, 1, ConstantArrayAbsolute, hat.(unit := UNIT_NONE), [Gamepad]),
     Slot(Ps3InputKey, 24, 8, 4, DataVariableAbsolute, bytes, [Gamepad]),
     Slot(Ps3InputKey, 56, 8, 12, DataVariableAbsolute, vendor, [Gamepad]),
     Slot(Ps3FeatureKey, 0, 8, 32, DataVariableAbsolute, vendor.(reportCount := 32), [Gamepad]),
     Slot(Ps3OutputKey, 0, 8, 32, DataVariableAbsolute, vendor.(reportCount := 32), [Gamepad]),
     Slot(Ps3InputKey, 152, 16, 4, DataVariableAbsolute, words, [Gamepad])]
  }

  lemma Ps3SlotCount()
    ensures |Ps3Slots()| == 9 && Ps3Slots()[..9] == Ps3Slots()
  {
  }

  /** A parser state given by its parts: global state, open collections,
      the slots of the fields so far, and the bits of each report. */
  ghost predicate At(q: Parser, g: Globals, open: seq<OpenCollection>, slots: seq<Slot>, totals: map<ReportKey, nat>)
  {
    q.globals == g && q.open == open && !q.unbalanced && Slots(q.fields) == slots && q.totals == totals
  }

  const Ps3InputKey := ReportKey(InputReport, 0)
  const Ps3FeatureKey := ReportKey(FeatureReport, 0)
  const Ps3OutputKey := ReportKey(OutputReport, 0)
  const Gamepad := OpenCollection(COLLECTION_APPLICATION, PAGE_GENERIC_DESKTOP, Some(USAGE_GAMEPAD))

  lemma Ps3Stage1()
    ensures At(Run(Ps3Buttons(), Run(Ps3ButtonGlobals(), Run(Ps3Open(), Start))),
               Globals(PAGE_BUTTON, 0, 1, 0, 1, UNIT_NONE, 1, 0, 13), [Gamepad], Ps3Slots()[..1], map[Ps3InputKey := 13])
  {
    var p1 := Run(Ps3Open(), Start);          Ps3OpenReads(Start);
    var p2 := Run(Ps3ButtonGlobals(), p1);    Ps3ButtonGlobalsReads(p1);
    var p3 := Run(Ps3Buttons(), p2);          Ps3ButtonsReads(p2);
    AddsFieldSlots(p2, p3, Ps3Slots()[0]);
    assert Ps3Slots()[..1] == [Ps3Slots()[0]];
  }

  lemma Ps3Stage2(p: Parser)
    requires At(p, Globals(PAGE_BUTTON, 0, 1, 0, 1, UNIT_NONE, 1, 0, 13), [Gamepad], Ps3Slots()[..1], map[Ps3InputKey := 13])
    ensures At(Run(Ps3ButtonPadding(), p),
               Globals(PAGE_BUTTON, 0, 1, 0, 1, UNIT_NONE, 1, 0, 3), [Gamepad], Ps3Slots()[..2], map[Ps3InputKey := 16])
  {
    var q0 := Run(Ps3ButtonPadding(), p);  Ps3ButtonPaddingReads(p);
    AddsFieldSlots(p, q0, Ps3Slots()[1]);
    assert Ps3Slots()[..2] == Ps3Slots()[..1] + [Ps3Slots()[1]];
  }

  lemma Ps3Stage3(p: Parser)
    requires At(p, Globals(PAGE_BUTTON, 0, 1, 0, 1, UNIT_NONE, 1, 0, 3), [Gamepad], Ps3Slots()[..2], map[Ps3InputKey := 16])
    ensures At(Run(Ps3Hat(), Run(Ps3HatGlobals(), p)),
               Globals(PAGE_GENERIC_DESKTOP, 0, 7, 0, 315, UNIT_DEGREES, 4, 0, 1), [Gamepad], Ps3Slots()[..3], map[Ps3InputKey := 20])
  {
    var q0 := Run(Ps3HatGlobals(), p);  Ps3HatGlobalsReads(p);
    var q1 := Run(Ps3Hat(), q0);  Ps3HatReads(q0);
    AddsFieldSlots(q0, q1, Ps3Slots()[2]);
    assert Ps3Slots()[..3] == Ps3Slots()[..2] + [Ps3Slots()[2]];
  }

  lemma Ps3Stage4(p: Parser)
    requires At(p, Globals(PAGE_GENERIC_DESKTOP, 0, 7, 0, 315, UNIT_DEGREES, 4, 0, 1), [Gamepad], Ps3Slots()[..3], map[Ps3InputKey := 20])
    ensures At(Run(Ps3StickGlobals(), Run(Ps3HatPadding(), p)),
               Globals(PAGE_GENERIC_DESKTOP, 0, 255, 0, 255, UNIT_NONE, 8, 0, 1), [Gamepad], Ps3Slots()[..4], map[Ps3InputKey := 24])
  {
    var q0 := Run(Ps3HatPadding(), p);  Ps3HatPaddingReads(p);
    AddsFieldSlots(p, q0, Ps3Slots()[3]);
    var q1 := Run(Ps3StickGlobals(), q0);  Ps3StickGlobalsReads(q0);
    assert Ps3Slots()[..4] == Ps3Slots()[..3] + [Ps3Slots()[3]];
  }

  lemma Ps3Stage5(p: Parser)
    requires At(p, Globals(PAGE_GENERIC_DESKTOP, 0, 255, 0, 255, UNIT_NONE, 8, 0, 1), [Gamepad], Ps3Slots()[..4], map[Ps3InputKey := 24])
    ensures At(Run(Ps3Sticks(), p),
               Globals(PAGE_GENERIC_DESKTOP, 0, 255, 0, 255, UNIT_NONE, 8, 0, 4), [Gamepad], Ps3Slots()[..5], map[Ps3InputKey := 56])
  {
    var q0 := Run(Ps3Sticks(), p);  Ps3SticksReads(p);
    AddsFieldSlots(p, q0, Ps3Slots()[4]);
    assert Ps3Slots()[..5] == Ps3Slots()[..4] + [Ps3Slots()[4]];
  }

  lemma Ps3Stage6(p: Parser)
    requires At(p, Globals(PAGE_GENERIC_DESKTOP, 0, 255, 0, 255, UNIT_NONE, 8, 0, 4), [Gamepad], Ps3Slots()[..5], map[Ps3InputKey := 56])
    ensures At(Run(Ps3Pressure(), Run(Ps3PressureUsagesHigh(), Run(Ps3PressureUsagesLow(), p))),
               Globals(PAGE_VENDOR, 0, 255, 0, 255, UNIT_NONE, 8, 0, 12), [Gamepad], Ps3Slots()[..6], map[Ps3InputKey := 152])
  {
    var q0 := Run(Ps3PressureUsagesLow(), p);  Ps3PressureUsagesLowReads(p);
    var q1 := Run(Ps3PressureUsagesHigh(), q0);  Ps3PressureUsagesHighReads(q0);
    var q2 := Run(Ps3Pressure(), q1);  Ps3PressureReads(q1);
    AddsFieldSlots(q1, q2, Ps3Slots()[5]);
    assert Ps3Slots()[..6] == Ps3Slots()[..5] + [Ps3Slots()[5]];
  }

  lemma Ps3Stage7(p: Parser)
    requires At(p, Globals(PAGE_VENDOR, 0, 255, 0, 255, UNIT_NONE, 8, 0, 12), [Gamepad], Ps3Slots()[..6], map[Ps3InputKey := 152])
    ensures At(Run(Ps3Feature(), p),
               Globals(PAGE_VENDOR, 0, 255, 0, 255, UNIT_NONE, 8, 0, 32), [Gamepad], Ps3Slots()[..7], map[Ps3InputKey := 152, Ps3FeatureKey := 256])
  {
    var q0 := Run(Ps3Feature(), p);  Ps3FeatureReads(p);
    AddsFieldSlots(p, q0, Ps3Slots()[6]);
    assert Ps3Slots()[..7] == Ps3Slots()[..6] + [Ps3Slots()[6]];
  }

  lemma Ps3Stage8(p: Parser)
    requires At(p, Globals(PAGE_VENDOR, 0, 255, 0, 255, UNIT_NONE, 8, 0, 32), [Gamepad], Ps3Slots()[..7], map[Ps3InputKey := 152, Ps3FeatureKey := 256])
    ensures At(Run(Ps3AxisGlobals(), Run(Ps3Output(), p)),
               Globals(PAGE_VENDOR, 0, 1023, 0, 1023, UNIT_NONE, 8, 0, 32), [Gamepad], Ps3Slots()[..8], map[Ps3InputKey := 152, Ps3FeatureKey := 256, Ps3OutputKey := 256])
  {
    var q0 := Run(Ps3Output(), p);  Ps3OutputReads(p);
    AddsFieldSlots(p, q0, Ps3Slots()[7]);
    var q1 := Run(Ps3AxisGlobals(), q0);  Ps3AxisGlobalsReads(q0);
    assert Ps3Slots()[..8] == Ps3Slots()[..7] + [Ps3Slots()[7]];
  }

  lemma Ps3Stage9(p: Parser)
    requires At(p, Globals(PAGE_VENDOR, 0, 1023, 0, 1023, UNIT_NONE, 8, 0, 32), [Gamepad], Ps3Slots()[..8], map[Ps3InputKey := 152, Ps3FeatureKey := 256, Ps3OutputKey := 256])
    ensures At(Run(Ps3Axes(), p),
               Globals(PAGE_VENDOR, 0, 1023, 0, 1023, UNIT_NONE, 16, 0, 4), [Gamepad], Ps3Slots()[..9], map[Ps3InputKey := 216, Ps3FeatureKey := 256, Ps3OutputKey := 256])
  {
    var q0 := Run(Ps3Axes(), p);  Ps3AxesReads(p);
    AddsFieldSlots(p, q0, Ps3Slots()[8]);
    assert Ps3Slots()[..9] == Ps3Slots()[..8] + [Ps3Slots()[8]];
  }

  lemma Ps3Stage10(p: Parser)
    requires At(p, Globals(PAGE_VENDOR, 0, 1023, 0, 1023, UNIT_NONE, 16, 0, 4), [Gamepad], Ps3Slots()[..9], map[Ps3InputKey := 216, Ps3FeatureKey := 256, Ps3OutputKey := 256])
    ensures At(Run(Ps3Close(), p),
               Globals(PAGE_VENDOR, 0, 1023, 0, 1023, UNIT_NONE, 16, 0, 4), [], Ps3Slots()[..9], map[Ps3InputKey := 216, Ps3FeatureKey := 256, Ps3OutputKey := 256])
  {
    var q0 := Run(Ps3Close(), p);  Ps3CloseReads(p);
  }

  /** The state the PS3 descriptor leaves the parser in. */
  lemma Ps3Final()
    ensures At(Run(Ps3ReportDescriptor(), Start),
               Globals(PAGE_VENDOR, 0, 1023, 0, 1023, UNIT_NONE, 16, 0, 4), [], Ps3Slots(), map[Ps3InputKey := 216, Ps3FeatureKey := 256, Ps3OutputKey := 256])
  {
    Ps3Run();
    Ps3Stage1();
    var a := Run(Ps3Buttons(), Run(Ps3ButtonGlobals(), Run(Ps3Open(), Start)));
    Ps3Stage2(a);
    var b := Run(Ps3ButtonPadding(), a);
    Ps3Stage3(b);
    var c := Run(Ps3Hat(), Run(Ps3HatGlobals(), b));
    Ps3Stage4(c);
    var d := Run(Ps3StickGlobals(), Run(Ps3HatPadding(), c));
    Ps3ThroughSizeEight(d);
    var e := Run(Ps3SizeEightSpan(), d);
    Ps3Stage9(e);
    Ps3Stage10(Run(Ps3Axes(), e));
    Ps3SlotCount();
  }

  lemma Ps3ThroughSizeEight(p: Parser)
    requires At(p, Globals(PAGE_GENERIC_DESKTOP, 0, 255, 0, 255, UNIT_NONE, 8, 0, 1), [Gamepad], Ps3Slots()[..4], map[Ps3InputKey := 24])
    ensures At(Run(Ps3SizeEightSpan(), p), Globals(PAGE_VENDOR, 0, 1023, 0, 1023, UNIT_NONE, 8, 0, 32), [Gamepad], Ps3Slots()[..8], map[Ps3InputKey := 152, Ps3FeatureKey := 256, Ps3OutputKey := 256])
  {
    Ps3SizeEightSpanRun(p);
    Ps3Stage5(p);
    var a := Run(Ps3Sticks(), p);
    Ps3Stage6(a);
    var b := Run(Ps3Pressure(), Run(Ps3PressureUsagesHigh(), Run(Ps3PressureUsagesLow(), a)));
    Ps3Stage7(b);
    Ps3Stage8(Run(Ps3Feature(), b));
  }

  /** The PS3 descriptor reads as the documented layout: collections
      balance, the fields are those of Ps3Slots, the input report is 216
      bits (27 bytes) and the Feature and Output reports are 256 bits (32
      bytes) each. */
  lemma Ps3Layout()
    ensures Parse(Ps3ReportDescriptor()).Some?
    ensures var l := Parse(Ps3ReportDescriptor()).value;
      && Slots(l.fields) == Ps3Slots()
      && ReportBits(l, InputReport, 0) == 216
      && ReportBits(l, FeatureReport, 0) == 256
      && ReportBits(l, OutputReport, 0) == 256
  {
    Ps3Final();
  }

  /** What any field list with the PS3 slots satisfies. */
  lemma Ps3SlotsFacts(fs: seq<Field>)
    requires Slots(fs) == Ps3Slots()
    ensures forall i | 0 <= i < |fs| && !fs[i].flags.constant :: ByteAligned(fs[i])
    ensures forall i | 0 <= i < |fs| && fs[i].flags.constant :: (fs[i].offset + FieldBits(fs[i])) % 8 == 0
    ensures forall i | 0 <= i < |fs| :: RangeFits(fs[i])
  {
    forall i | 0 <= i < |fs|
      ensures !fs[i].flags.constant ==> ByteAligned(fs[i])
      ensures fs[i].flags.constant ==> (fs[i].offset + FieldBits(fs[i])) % 8 == 0
      ensures RangeFits(fs[i])
    {
      assert SlotOf(fs[i]) == Ps3Slots()[i];
    }
  }

  /** Each constant padding block completes a byte, so every data field of
      the PS3 reports starts on a byte boundary. */
  lemma Ps3ByteAligned(l: Layout)
    requires Parse(Ps3ReportDescriptor()) == Some(l)
    ensures forall i | 0 <= i < |l.fields| && !l.fields[i].flags.constant :: ByteAligned(l.fields[i])
    ensures forall i | 0 <= i < |l.fields| && l.fields[i].flags.constant ::
      (l.fields[i].offset + FieldBits(l.fields[i])) % 8 == 0
  {
    Ps3Layout();
    Ps3SlotsFacts(l.fields);
  }

  /** Every PS3 field's logical range fits its report size: 0..1 in one
      bit, 0..7 in four, 0..255 in eight and 0..1023 in sixteen. */
  lemma Ps3RangesFit(l: Layout)
    requires Parse(Ps3ReportDescriptor()) == Some(l)
    ensures forall i | 0 <= i < |l.fields| :: RangeFits(l.fields[i])
  {
    Ps3Layout();
    Ps3SlotsFacts(l.fields);
  }

  /** The hat switch field of any field list with the PS3 slots. */
  lemma Ps3HatSlot(fs: seq<Field>)
    requires Slots(fs) == Ps3Slots()
    ensures var hat := fs[2];
      && hat.key == ReportKey(InputReport, 0) && hat.offset == 16 && hat.size == 4 && hat.count == 1
      && hat.globals.logicalMin == 0 && hat.globals.logicalMax == 7
      && hat.globals.physicalMin == 0 && hat.globals.physicalMax == 315
      && (hat.globals.physicalMax - hat.globals.physicalMin)
         == 45 * (hat.globals.logicalMax - hat.globals.logicalMin)
      && hat.globals.unit == UNIT_DEGREES
      && hat.flags.nullState && !hat.flags.constant
      && hat.globals.logicalMax + 1 < Pow2(hat.size)
  {
    assert SlotOf(fs[2]) == Ps3Slots()[2];
    assert Pow2(4) == 16;
  }

  /** The hat switch: logical 0..7 spans physical 0..315 degrees, 45 degrees
      a step, with the null state flag set; its four bits leave the codes
      8..15 outside the logical range, as the null state. */
  lemma Ps3HatSwitch(l: Layout)
    requires Parse(Ps3ReportDescriptor()) == Some(l)
    ensures |l.fields| == 9
    ensures var hat := l.fields[2];
      && hat.key == ReportKey(InputReport, 0) && hat.offset == 16 && hat.size == 4 && hat.count == 1
      && hat.globals.logicalMin == 0 && hat.globals.logicalMax == 7
      && hat.globals.physicalMin == 0 && hat.globals.physicalMax == 315
      && (hat.globals.physicalMax - hat.globals.physicalMin)
         == 45 * (hat.globals.logicalMax - hat.globals.logicalMin)
      && hat.globals.unit == UNIT_DEGREES
      && hat.flags.nullState && !hat.flags.constant
      && hat.globals.logicalMax + 1 < Pow2(hat.size)
  {
    Ps3Layout();
    Ps3HatSlot(l.fields);
  }

  /** Lines 83-119 hold no Report Size item, so the size 8 set at line 82
      is the size of the stick, pressure, Feature and Output fields. */
  lemma Ps3SizeEightPersists(p: Parser)
    ensures NoReportSize(Ps3SizeEightSpan())
    ensures Run(Ps3SizeEightSpan(), p).globals.reportSize == p.globals.reportSize
  {
    NoReportSizeAppend(Ps3Sticks(), Ps3PressureUsagesLow());
    NoReportSizeAppend(Ps3Sticks() + Ps3PressureUsagesLow(), Ps3PressureUsagesHigh());
    NoReportSizeAppend(Ps3Sticks() + Ps3PressureUsagesLow() + Ps3PressureUsagesHigh(), Ps3Pressure());
    NoReportSizeAppend(Ps3Sticks() + Ps3PressureUsagesLow() + Ps3PressureUsagesHigh() + Ps3Pressure(), Ps3Feature());
    NoReportSizeAppend(Ps3Sticks() + Ps3PressureUsagesLow() + Ps3PressureUsagesHigh() + Ps3Pressure()
                       + Ps3Feature(), Ps3Output());
    NoReportSizeAppend(Ps3Sticks() + Ps3PressureUsagesLow() + Ps3PressureUsagesHigh() + Ps3Pressure()
                       + Ps3Feature() + Ps3Output(), Ps3AxisGlobals());
    ReportSizePersists(Ps3SizeEightSpan(), p);
  }

  // The data of each group fits its declared size

  lemma Ps3OpenFits() ensures AllDataFits(Ps3Open()) { }
  lemma Ps3ButtonGlobalsFits() ensures AllDataFits(Ps3ButtonGlobals()) { }
  lemma Ps3ButtonsFits() ensures AllDataFits(Ps3Buttons()) { }
  lemma Ps3ButtonPaddingFits() ensures AllDataFits(Ps3ButtonPadding()) { }
  lemma Ps3HatGlobalsFits() ensures AllDataFits(Ps3HatGlobals()) { }
  lemma Ps3HatFits() ensures AllDataFits(Ps3Hat()) { }
  lemma Ps3HatPaddingFits() ensures AllDataFits(Ps3HatPadding()) { }
  lemma Ps3StickGlobalsFits() ensures AllDataFits(Ps3StickGlobals())
  {
    assert DataFits(LogicalMaximum(16, 255)) && DataFits(PhysicalMaximum(16, 255));
  }
  lemma Ps3SticksFits() ensures AllDataFits(Ps3Sticks()) { }
  lemma Ps3PressureUsagesLowFits() ensures AllDataFits(Ps3PressureUsagesLow()) { }
  lemma Ps3PressureUsagesHighFits() ensures AllDataFits(Ps3PressureUsagesHigh()) { }
  lemma Ps3PressureFits() ensures AllDataFits(Ps3Pressure()) { }
  lemma Ps3FeatureFits() ensures AllDataFits(Ps3Feature()) { }
  lemma Ps3OutputFits() ensures AllDataFits(Ps3Output()) { }
  lemma Ps3AxisGlobalsFits() ensures AllDataFits(Ps3AxisGlobals())
  {
    assert DataFits(LogicalMaximum(16, 1023)) && DataFits(PhysicalMaximum(16, 1023));
  }
  lemma Ps3AxesFits() ensures AllDataFits(Ps3Axes()) { }
  lemma Ps3CloseFits() ensures AllDataFits(Ps3Close()) { }

  lemma Ps3SpanFits()
    ensures AllDataFits(Ps3SizeEightSpan())
  {
    Ps3SticksFits(); Ps3PressureUsagesLowFits(); Ps3PressureUsagesHighFits(); Ps3PressureFits();
    Ps3FeatureFits(); Ps3OutputFits(); Ps3AxisGlobalsFits();
    var s1 := Ps3Sticks() + Ps3PressureUsagesLow();      AllDataFitsAppend(Ps3Sticks(), Ps3PressureUsagesLow());
    var s2 := s1 + Ps3PressureUsagesHigh();   AllDataFitsAppend(s1, Ps3PressureUsagesHigh());
    var s3 := s2 + Ps3Pressure();             AllDataFitsAppend(s2, Ps3Pressure());
    var s4 := s3 + Ps3Feature();              AllDataFitsAppend(s3, Ps3Feature());
    var s5 := s4 + Ps3Output();               AllDataFitsAppend(s4, Ps3Output());
    AllDataFitsAppend(s5, Ps3AxisGlobals());
  }

  /** Every item's data fits the size its macro declares. */
  lemma Ps3DataFits()
    ensures AllDataFits(Ps3ReportDescriptor())
  {
    Ps3OpenFits(); Ps3ButtonGlobalsFits(); Ps3ButtonsFits(); Ps3ButtonPaddingFits(); Ps3HatGlobalsFits();
    Ps3HatFits(); Ps3HatPaddingFits(); Ps3StickGlobalsFits(); Ps3SpanFits(); Ps3AxesFits(); Ps3CloseFits();
    var a := Ps3Open();
    var b := a + Ps3ButtonGlobals();          AllDataFitsAppend(a, Ps3ButtonGlobals());
    var c := b + Ps3Buttons();                AllDataFitsAppend(b, Ps3Buttons());
    var d := c + Ps3ButtonPadding();          AllDataFitsAppend(c, Ps3ButtonPadding());
    var e := d + Ps3HatGlobals();             AllDataFitsAppend(d, Ps3HatGlobals());
    var f := e + Ps3Hat();                    AllDataFitsAppend(e, Ps3Hat());
    var g := f + Ps3HatPadding();             AllDataFitsAppend(f, Ps3HatPadding());
    var h := g + Ps3StickGlobals();           AllDataFitsAppend(g, Ps3StickGlobals());
    var i := h + Ps3SizeEightSpan();          AllDataFitsAppend(h, Ps3SizeEightSpan());
    var j := i + Ps3Axes();                   AllDataFitsAppend(i, Ps3Axes());
    AllDataFitsAppend(j, Ps3Close());
  }

  // ---------------------------------------------------------------------
  // kbd_report_descriptor, lines 129-200

  /** The values the keyboard and mouse table takes from outside the file:
      `REPORT_ID_KBD`, `REPORT_ID_MOUSE`, `SIMULTANEOUS_KEYS`, `Buttons` and
      `AbsoluteCoords`. */
  datatype KbdMouseConfig = KbdMouseConfig(
    kbdId: nat, mouseId: nat, simultaneousKeys: nat, buttons: nat, absoluteCoords: bool)

  /** The bits of constant padding after the mouse buttons, `8 - (Buttons % 8)`
      (line 178). */
  function ButtonPadding(c: KbdMouseConfig): nat
  {
    8 - c.buttons % 8
  }

  /** The mouse X, Y and wheel flags of lines 189-190. */
  function AxisFlags(c: KbdMouseConfig): DataFlags
  {
    DataFlags(false, true, !c.absoluteCoords, false)
  }

  /** Lines 130-133: a Generic Desktop keyboard collection and its report ID. */
  function KbdOpen(c: KbdMouseConfig): seq<Item>
  {
    [UsagePage(8, PAGE_GENERIC_DESKTOP), Usage(8, USAGE_KEYBOARD), Collection(8, COLLECTION_PHYSICAL),
     ReportId(8, c.kbdId)]
  }

  /** Lines 134-136: the modifier usages 0xE0..0xE7 (usage page written as 0). */
  function KbdModifierUsages(): seq<Item>
  {
    [UsagePage(8, 0), UsageMinimum(8, 0xE0), UsageMaximum(8, 0xE7)]
  }

  /** Lines 137-141: eight one-bit modifier variables, 0..1 each. */
  function KbdModifiers(): seq<Item>
  {
    [LogicalMinimum(8, 0), LogicalMaximum(8, 1), ReportSize(8, 0x01), ReportCount(8, 0x08),
     Input(8, DataVariableAbsolute)]
  }

  /** Lines 142-144: one reserved byte. */
  function KbdReserved(): seq<Item>
  {
    [ReportCount(8, 0x01), ReportSize(8, 0x08), Input(8, ConstantArrayAbsolute)]
  }

  /** Lines 145-151: five one-bit LED outputs, usages 1..5. NON_VOLATILE at
      line 151 is the zero option (bit 7 clear), so DataVariableAbsolute is
      the whole data byte. */
  function KbdLeds(): seq<Item>
  {
    [UsagePage(8, 0), UsageMinimum(8, 0x01), UsageMaximum(8, 0x05), ReportCount(8, 0x05),
     ReportSize(8, 0x01), Output(8, DataVariableAbsolute)]
  }

  /** Lines 152-154: three bits of output padding. */
  function KbdLedPadding(): seq<Item>
  {
    [ReportCount(8, 0x01), ReportSize(8, 0x03), Output(8, ConstantArrayAbsolute)]
  }

  /** Lines 155-159: key codes 0..255 of the keyboard usage page. */
  function KbdKeyGlobals(): seq<Item>
  {
    [LogicalMinimum(8, 0), LogicalMaximum(16, 0xFF), UsagePage(8, PAGE_KEYBOARD), UsageMinimum(8, 0x00),
     UsageMaximum(8, 0xFF)]
  }

  /** Lines 160-162: an array of `SIMULTANEOUS_KEYS` key-code bytes. */
  function KbdKeys(c: KbdMouseConfig): seq<Item>
  {
    [ReportCount(8, c.simultaneousKeys), ReportSize(8, 0x08), Input(8, DataArrayAbsolute)]
  }

  /** Line 163. */
  function KbdClose(): seq<Item>
  {
    [EndCollection(0)]
  }

  /** Lines 164-169: a mouse collection with its report ID, and a pointing-device
      collection inside it. */
  function MouseOpen(c: KbdMouseConfig): seq<Item>
  {
    [UsagePage(8, PAGE_GENERIC_DESKTOP), Usage(8, USAGE_MOUSE), Collection(8, COLLECTION_PHYSICAL),
     ReportId(8, c.mouseId), Usage(8, USAGE_POINTER), Collection(8, COLLECTION_PHYSICAL)]
  }

  /** Lines 170-172: button usages 1..Buttons (usage page written as 0). */
  function MouseButtonUsages(c: KbdMouseConfig): seq<Item>
  {
    [UsagePage(8, 0), UsageMinimum(8, 0x01), UsageMaximum(8, c.buttons)]
  }

  /** Lines 173-177: one bit per button. */
  function MouseButtons(c: KbdMouseConfig): seq<Item>
  {
    [LogicalMinimum(8, 0), LogicalMaximum(8, 1), ReportCount(8, c.buttons), ReportSize(8, 0x01),
     Input(8, DataVariableAbsolute)]
  }

  /** Lines 178-180: padding up to the next byte. */
  function MouseButtonPadding(c: KbdMouseConfig): seq<Item>
  {
    [ReportSize(8, ButtonPadding(c)), ReportCount(8, 0x01), Input(8, ConstantVariableAbsolute)]
  }

  /** Lines 181-184: X, Y and wheel usages. */
  function MouseAxisUsages(): seq<Item>
  {
    [UsagePage(8, PAGE_GENERIC_DESKTOP), Usage(8, USAGE_X), Usage(8, USAGE_Y), Usage(8, USAGE_WHEEL)]
  }

  /** Lines 185-190: three signed bytes, -127..127, absolute or relative as
      `AbsoluteCoords` says. */
  function MouseAxes(c: KbdMouseConfig): seq<Item>
  {
    [LogicalMinimum(8, -127), LogicalMaximum(8, 127), ReportCount(8, 0x03), ReportSize(8, 8),
     Input(8, AxisFlags(c))]
  }

  /** Lines 191-194: the horizontal pan usage (written as page 0, usage 0). */
  function MousePanGlobals(): seq<Item>
  {
    [UsagePage(8, 0), Usage(16, 0), LogicalMinimum(16, -127), LogicalMaximum(16, 127)]
  }

  /** Lines 195-197: one relative signed byte. */
  function MousePan(): seq<Item>
  {
    [ReportCount(8, 0x01), ReportSize(8, 8), Input(8, DataVariableRelative)]
  }

  /** Lines 198-199: closes the pointing-device and the mouse collections. */
  function MouseClose(): seq<Item>
  {
    [EndCollection(0), EndCollection(0)]
  }

  /** Lines 130-163, the keyboard. */
  function KbdPart(c: KbdMouseConfig): seq<Item>
  {
    KbdOpen(c) + KbdModifierUsages() + KbdModifiers() + KbdReserved() + KbdLeds() + KbdLedPadding()
    + KbdKeyGlobals() + KbdKeys(c) + KbdClose()
  }

  /** Lines 164-199, the mouse. */
  function MousePart(c: KbdMouseConfig): seq<Item>
  {
    MouseOpen(c) + MouseButtonUsages(c) + MouseButtons(c) + MouseButtonPadding(c)
    + MouseAxisUsages() + MouseAxes(c) + MousePanGlobals() + MousePan() + MouseClose()
  }

  /** `kbd_report_descriptor` */
  function KbdReportDescriptor(c: KbdMouseConfig): seq<Item>
  {
    KbdPart(c) + MousePart(c)
  }

  // What each group of items does to the parser state

  lemma KbdOpenReads(p: Parser, c: KbdMouseConfig)
    requires p.locals.usages == []
    ensures var q := Run(KbdOpen(c), p);
      && q.globals == p.globals.(usagePage := PAGE_GENERIC_DESKTOP, reportId := c.kbdId)
      && q.open == p.open + [Keyboard]
      && SameReports(p, q.(open := p.open))
      && q.locals == NoLocals
  {
    Run4(UsagePage(8, PAGE_GENERIC_DESKTOP), Usage(8, USAGE_KEYBOARD), Collection(8, COLLECTION_PHYSICAL),
         ReportId(8, c.kbdId), p);
  }

  lemma KbdModifierUsagesReads(p: Parser)
    ensures var q := Run(KbdModifierUsages(), p);
      && q.globals == p.globals.(usagePage := 0)
      && SameReports(p, q)
      && q.locals == p.locals.(usageMin := Some(0xE0), usageMax := Some(0xE7))
  {
    var r := p.(globals := p.globals.(usagePage := 0),
             locals := p.locals.(usageMin := Some(0xE0), usageMax := Some(0xE7)));
    Run3(UsagePage(8, 0), UsageMinimum(8, 0xE0), UsageMaximum(8, 0xE7), p);
    assert Step(Step(Step(p, UsagePage(8, 0)), UsageMinimum(8, 0xE0)), UsageMaximum(8, 0xE7)) == r;
  }

  lemma KbdModifiersReads(p: Parser)
    ensures var q := Run(KbdModifiers(), p);
      && q.globals == p.globals.(logicalMin := 0, logicalMax := 1, reportSize := 1, reportCount := 8)
      && AddsField(p, q, NextSlot(q.globals, p.totals, p.open, InputReport, DataVariableAbsolute))
      && q.fields[|p.fields|].locals == p.locals
  {
    var r := p.(globals := p.globals.(logicalMin := 0, logicalMax := 1, reportSize := 0x01,
                                      reportCount := 0x08));
    Run5(LogicalMinimum(8, 0), LogicalMaximum(8, 1), ReportSize(8, 0x01), ReportCount(8, 0x08),
         Input(8, DataVariableAbsolute), p);
    assert Step(Step(Step(Step(p, LogicalMinimum(8, 0)), LogicalMaximum(8, 1)), ReportSize(8, 0x01)),
           ReportCount(8, 0x08)) == r;
    GroupAdds(KbdModifiers(), p, r, Input(8, DataVariableAbsolute));
  }

  lemma KbdReservedReads(p: Parser)
    ensures var q := Run(KbdReserved(), p);
      && q.globals == p.globals.(reportCount := 1, reportSize := 8)
      && AddsField(p, q, NextSlot(q.globals, p.totals, p.open, InputReport, ConstantArrayAbsolute))
  {
    var r := p.(globals := p.globals.(reportCount := 0x01, reportSize := 0x08));
    Run3(ReportCount(8, 0x01), ReportSize(8, 0x08), Input(8, ConstantArrayAbsolute), p);
    assert Step(Step(p, ReportCount(8, 0x01)), ReportSize(8, 0x08)) == r;
    GroupAdds(KbdReserved(), p, r, Input(8, ConstantArrayAbsolute));
  }

  lemma KbdLedsReads(p: Parser)
    ensures var q := Run(KbdLeds(), p);
      && q.globals == p.globals.(usagePage := 0, reportCount := 5, reportSize := 1)
      && AddsField(p, q, NextSlot(q.globals, p.totals, p.open, OutputReport, DataVariableAbsolute))
      && q.fields[|p.fields|].locals == p.locals.(usageMin := Some(0x01), usageMax := Some(0x05))
  {
    var r := p.(globals := p.globals.(usagePage := 0, reportCount := 0x05, reportSize := 0x01),
             locals := p.locals.(usageMin := Some(0x01), usageMax := Some(0x05)));
    Run6(UsagePage(8, 0), UsageMinimum(8, 0x01), UsageMaximum(8, 0x05), ReportCount(8, 0x05),
         ReportSize(8, 0x01), Output(8, DataVariableAbsolute), p);
    assert Step(Step(Step(Step(Step(p, UsagePage(8, 0)), UsageMinimum(8, 0x01)), UsageMaximum(8, 0x05)),
           ReportCount(8, 0x05)), ReportSize(8, 0x01)) == r;
    GroupAdds(KbdLeds(), p, r, Output(8, DataVariableAbsolute));
  }

  lemma KbdLedPaddingReads(p: Parser)
    ensures var q := Run(KbdLedPadding(), p);
      && q.globals == p.globals.(reportCount := 1, reportSize := 3)
      && AddsField(p, q, NextSlot(q.globals, p.totals, p.open, OutputReport, ConstantArrayAbsolute))
  {
    var r := p.(globals := p.globals.(reportCount := 0x01, reportSize := 0x03));
    Run3(ReportCount(8, 0x01), ReportSize(8, 0x03), Output(8, ConstantArrayAbsolute), p);
    assert Step(Step(p, ReportCount(8, 0x01)), ReportSize(8, 0x03)) == r;
    GroupAdds(KbdLedPadding(), p, r, Output(8, ConstantArrayAbsolute));
  }

  lemma KbdKeyGlobalsReads(p: Parser)
    ensures var q := Run(KbdKeyGlobals(), p);
      && q.globals == p.globals.(logicalMin := 0, logicalMax := 0xFF, usagePage := PAGE_KEYBOARD)
      && SameReports(p, q)
  {
    var r := p.(globals := p.globals.(logicalMin := 0, logicalMax := 0xFF, usagePage := PAGE_KEYBOARD),
             locals := p.locals.(usageMin := Some(0x00), usageMax := Some(0xFF)));
    Run5(LogicalMinimum(8, 0), LogicalMaximum(16, 0xFF), UsagePage(8, PAGE_KEYBOARD), UsageMinimum(8, 0x00),
         UsageMaximum(8, 0xFF), p);
    assert Step(Step(Step(Step(Step(p, LogicalMinimum(8, 0)), LogicalMaximum(16, 0xFF)),
           UsagePage(8, PAGE_KEYBOARD)), UsageMinimum(8, 0x00)), UsageMaximum(8, 0xFF)) == r;
  }

  lemma KbdKeysReads(p: Parser, c: KbdMouseConfig)
    ensures var q := Run(KbdKeys(c), p);
      && q.globals == p.globals.(reportCount := c.simultaneousKeys, reportSize := 8)
      && AddsField(p, q, NextSlot(q.globals, p.totals, p.open, InputReport, DataArrayAbsolute))
  {
    var r := p.(globals := p.globals.(reportCount := c.simultaneousKeys, reportSize := 0x08));
    Run3(ReportCount(8, c.simultaneousKeys), ReportSize(8, 0x08), Input(8, DataArrayAbsolute), p);
    assert Step(Step(p, ReportCount(8, c.simultaneousKeys)), ReportSize(8, 0x08)) == r;
    GroupAdds(KbdKeys(c), p, r, Input(8, DataArrayAbsolute));
  }

  lemma KbdCloseReads(p: Parser)
    requires |p.open| > 0
    ensures var q := Run(KbdClose(), p);
      && q.globals == p.globals && q.open == p.open[..|p.open| - 1]
      && q.fields == p.fields && q.totals == p.totals && q.unbalanced == p.unbalanced
      && q.locals == NoLocals
  {
  }

  lemma MouseOpenReads(p: Parser, c: KbdMouseConfig)
    requires p.locals.usages == []
    ensures var q := Run(MouseOpen(c), p);
      && q.globals == p.globals.(usagePage := PAGE_GENERIC_DESKTOP, reportId := c.mouseId)
      && q.open == p.open + [Mouse, Pointer]
      && SameReports(p, q.(open := p.open))
      && q.locals == NoLocals
  {
    Run6(UsagePage(8, PAGE_GENERIC_DESKTOP), Usage(8, USAGE_MOUSE), Collection(8, COLLECTION_PHYSICAL),
         ReportId(8, c.mouseId), Usage(8, USAGE_POINTER), Collection(8, COLLECTION_PHYSICAL), p);
  }

  lemma MouseButtonUsagesReads(p: Parser, c: KbdMouseConfig)
    ensures var q := Run(MouseButtonUsages(c), p);
      && q.globals == p.globals.(usagePage := 0)
      && SameReports(p, q)
      && q.locals == p.locals.(usageMin := Some(0x01), usageMax := Some(c.buttons))
  {
    var r := p.(globals := p.globals.(usagePage := 0),
             locals := p.locals.(usageMin := Some(0x01), usageMax := Some(c.buttons)));
    Run3(UsagePage(8, 0), UsageMinimum(8, 0x01), UsageMaximum(8, c.buttons), p);
    assert Step(Step(Step(p, UsagePage(8, 0)), UsageMinimum(8, 0x01)), UsageMaximum(8, c.buttons)) == r;
  }

  lemma MouseButtonsReads(p: Parser, c: KbdMouseConfig)
    ensures var q := Run(MouseButtons(c), p);
      && q.globals == p.globals.(logicalMin := 0, logicalMax := 1, reportCount := c.buttons, reportSize := 1)
      && AddsField(p, q, NextSlot(q.globals, p.totals, p.open, InputReport, DataVariableAbsolute))
      && q.fields[|p.fields|].locals == p.locals
  {
    var r := p.(globals := p.globals.(logicalMin := 0, logicalMax := 1, reportCount := c.buttons,
                                      reportSize := 0x01));
    Run5(LogicalMinimum(8, 0), LogicalMaximum(8, 1), ReportCount(8, c.buttons), ReportSize(8, 0x01),
         Input(8, DataVariableAbsolute), p);
    assert Step(Step(Step(Step(p, LogicalMinimum(8, 0)), LogicalMaximum(8, 1)), ReportCount(8, c.buttons)),
           ReportSize(8, 0x01)) == r;
    GroupAdds(MouseButtons(c), p, r, Input(8, DataVariableAbsolute));
  }

  lemma MouseButtonPaddingReads(p: Parser, c: KbdMouseConfig)
    ensures var q := Run(MouseButtonPadding(c), p);
      && q.globals == p.globals.(reportSize := ButtonPadding(c), reportCount := 1)
      && AddsField(p, q, NextSlot(q.globals, p.totals, p.open, InputReport, ConstantVariableAbsolute))
  {
    var r := p.(globals := p.globals.(reportSize := ButtonPadding(c), reportCount := 0x01));
    Run3(ReportSize(8, ButtonPadding(c)), ReportCount(8, 0x01), Input(8, ConstantVariableAbsolute), p);
    assert Step(Step(p, ReportSize(8, ButtonPadding(c))), ReportCount(8, 0x01)) == r;
    GroupAdds(MouseButtonPadding(c), p, r, Input(8, ConstantVariableAbsolute));
  }

  lemma MouseAxisUsagesReads(p: Parser)
    ensures var q := Run(MouseAxisUsages(), p);
      && q.globals == p.globals.(usagePage := PAGE_GENERIC_DESKTOP)
      && SameReports(p, q)
  {
    var r := p.(globals := p.globals.(usagePage := PAGE_GENERIC_DESKTOP),
             locals := p.locals.(usages := p.locals.usages + [USAGE_X, USAGE_Y, USAGE_WHEEL]));
    Run4(UsagePage(8, PAGE_GENERIC_DESKTOP), Usage(8, USAGE_X), Usage(8, USAGE_Y), Usage(8, USAGE_WHEEL), p);
    assert Step(Step(Step(Step(p, UsagePage(8, PAGE_GENERIC_DESKTOP)), Usage(8, USAGE_X)), Usage(8, USAGE_Y)),
           Usage(8, USAGE_WHEEL)) == r;
  }

  lemma MouseAxesReads(p: Parser, c: KbdMouseConfig)
    ensures var q := Run(MouseAxes(c), p);
      && q.globals == p.globals.(logicalMin := -127, logicalMax := 127, reportCount := 3, reportSize := 8)
      && AddsField(p, q, NextSlot(q.globals, p.totals, p.open, InputReport, AxisFlags(c)))
  {
    var r := p.(globals := p.globals.(logicalMin := -127, logicalMax := 127, reportCount := 0x03,
                                      reportSize := 8));
    Run5(LogicalMinimum(8, -127), LogicalMaximum(8, 127), ReportCount(8, 0x03), ReportSize(8, 8),
         Input(8, AxisFlags(c)), p);
    assert Step(Step(Step(Step(p, LogicalMinimum(8, -127)), LogicalMaximum(8, 127)), ReportCount(8, 0x03)),
           ReportSize(8, 8)) == r;
    GroupAdds(MouseAxes(c), p, r, Input(8, AxisFlags(c)));
  }

  lemma MousePanGlobalsReads(p: Parser)
    ensures var q := Run(MousePanGlobals(), p);
      && q.globals == p.globals.(usagePage := 0, logicalMin := -127, logicalMax := 127)
      && SameReports(p, q)
  {
    var r := p.(globals := p.globals.(usagePage := 0, logicalMin := -127, logicalMax := 127),
             locals := p.locals.(usages := p.locals.usages + [0]));
    Run4(UsagePage(8, 0), Usage(16, 0), LogicalMinimum(16, -127), LogicalMaximum(16, 127), p);
    assert Step(Step(Step(Step(p, UsagePage(8, 0)), Usage(16, 0)), LogicalMinimum(16, -127)),
           LogicalMaximum(16, 127)) == r;
  }

  lemma MousePanReads(p: Parser)
    ensures var q := Run(MousePan(), p);
      && q.globals == p.globals.(reportCount := 1, reportSize := 8)
      && AddsField(p, q, NextSlot(q.globals, p.totals, p.open, InputReport, DataVariableRelative))
  {
    var r := p.(globals := p.globals.(reportCount := 0x01, reportSize := 8));
    Run3(ReportCount(8, 0x01), ReportSize(8, 8), Input(8, DataVariableRelative), p);
    assert Step(Step(p, ReportCount(8, 0x01)), ReportSize(8, 8)) == r;
    GroupAdds(MousePan(), p, r, Input(8, DataVariableRelative));
  }

  lemma MouseCloseReads(p: Parser)
    requires |p.open| > 1
    ensures var q := Run(MouseClose(), p);
      && q.globals == p.globals && q.open == p.open[..|p.open| - 2]
      && q.fields == p.fields && q.totals == p.totals && q.unbalanced == p.unbalanced
  {
    assert p.open[..|p.open| - 1][..|p.open| - 2] == p.open[..|p.open| - 2];
  }

  const Keyboard := OpenCollection(COLLECTION_PHYSICAL, PAGE_GENERIC_DESKTOP, Some(USAGE_KEYBOARD))
  const Mouse := OpenCollection(COLLECTION_PHYSICAL, PAGE_GENERIC_DESKTOP, Some(USAGE_MOUSE))
  const Pointer := OpenCollection(COLLECTION_PHYSICAL, PAGE_GENERIC_DESKTOP, Some(USAGE_POINTER))

  function KbdInputKey(c: KbdMouseConfig): ReportKey { ReportKey(InputReport, c.kbdId) }
  function KbdOutputKey(c: KbdMouseConfig): ReportKey { ReportKey(OutputReport, c.kbdId) }
  function MouseInputKey(c: KbdMouseConfig): ReportKey { ReportKey(InputReport, c.mouseId) }

  /** The keyboard and mouse reports as laid out: keyboard input is a
      modifier byte, a reserved byte and `SIMULTANEOUS_KEYS` key codes;
      keyboard output is five LED bits and three bits of padding; mouse
      input is one bit per button padded to a byte, X, Y and wheel bytes,
      and a pan byte. */
  function KbdSlots(c: KbdMouseConfig): seq<Slot>
  {
    var modifiers := Globals(0, 0, 1, 0, 0, UNIT_NONE, 1, c.kbdId, 8);
    var keys := Globals(PAGE_KEYBOARD, 0, 0xFF, 0, 0, UNIT_NONE, 8, c.kbdId, c.simultaneousKeys);
    var buttons := Globals(0, 0, 1, 0, 0, UNIT_NONE, 1, c.mouseId, c.buttons);
    var axes := Globals(PAGE_GENERIC_DESKTOP, -127, 127, 0, 0, UNIT_NONE, 8, c.mouseId, 3);
    var pad := ButtonPadding(c);
    [Slot(KbdInputKey(c), 0, 1, 8, DataVariableAbsolute, modifiers, [Keyboard]),
     Slot(KbdInputKey(c), 8, 8, 1, ConstantArrayAbsolute, modifiers.(reportSize := 8, reportCount := 1), [Keyboard]),
     Slot(KbdOutputKey(c), 0, 1, 5, DataVariableAbsolute, modifiers.(reportCount := 5), [Keyboard]),
     Slot(KbdOutputKey(c), 5, 3, 1, ConstantArrayAbsolute, modifiers.(reportSize := 3, reportCount := 1), [Keyboard]),
     Slot(KbdInputKey(c), 16, 8, c.simultaneousKeys, DataArrayAbsolute, keys, [Keyboard]),
     Slot(MouseInputKey(c), 0, 1, c.buttons, DataVariableAbsolute, buttons, [Mouse, Pointer]),
     Slot(MouseInputKey(c), c.buttons, pad, 1, ConstantVariableAbsolute,
          buttons.(reportSize := pad, reportCount := 1), [Mouse, Pointer]),
     Slot(MouseInputKey(c), c.buttons + pad, 8, 3, AxisFlags(c), axes, [Mouse, Pointer]),
     Slot(MouseInputKey(c), c.buttons + pad + 24, 8, 1, DataVariableRelative,
          axes.(usagePage := 0, reportCount := 1), [Mouse, Pointer])]
  }

  /** Bits of the keyboard input report. */
  function KbdInputBits(c: KbdMouseConfig): nat { 16 + 8 * c.simultaneousKeys }

  /** Bits of the mouse input report. */
  function MouseInputBits(c: KbdMouseConfig): nat { c.buttons + ButtonPadding(c) + 32 }

  lemma KbdStage1(c: KbdMouseConfig)
    ensures At(Run(KbdModifiers(), Run(KbdModifierUsages(), Run(KbdOpen(c), Start))),
               Globals(0, 0, 1, 0, 0, UNIT_NONE, 1, c.kbdId, 8), [Keyboard], KbdSlots(c)[..1],
               map[KbdInputKey(c) := 8])
  {
    var p1 := Run(KbdOpen(c), Start);            KbdOpenReads(Start, c);
    var p2 := Run(KbdModifierUsages(), p1);      KbdModifierUsagesReads(p1);
    var p3 := Run(KbdModifiers(), p2);           KbdModifiersReads(p2);
    AddsFieldSlots(p2, p3, KbdSlots(c)[0]);
  }

  lemma KbdStage2(c: KbdMouseConfig, p: Parser)
    requires At(p, Globals(0, 0, 1, 0, 0, UNIT_NONE, 1, c.kbdId, 8), [Keyboard], KbdSlots(c)[..1],
                map[KbdInputKey(c) := 8])
    ensures At(Run(KbdReserved(), p), Globals(0, 0, 1, 0, 0, UNIT_NONE, 8, c.kbdId, 1), [Keyboard],
               KbdSlots(c)[..2], map[KbdInputKey(c) := 16])
  {
    var p4 := Run(KbdReserved(), p);             KbdReservedReads(p);
    AddsFieldSlots(p, p4, KbdSlots(c)[1]);
  }

  lemma KbdStage3(c: KbdMouseConfig, p: Parser)
    requires At(p, Globals(0, 0, 1, 0, 0, UNIT_NONE, 8, c.kbdId, 1), [Keyboard], KbdSlots(c)[..2],
                map[KbdInputKey(c) := 16])
    ensures At(Run(KbdLedPadding(), Run(KbdLeds(), p)),
               Globals(0, 0, 1, 0, 0, UNIT_NONE, 3, c.kbdId, 1), [Keyboard], KbdSlots(c)[..4],
               map[KbdInputKey(c) := 16, KbdOutputKey(c) := 8])
  {
    var p5 := Run(KbdLeds(), p);                 KbdLedsReads(p);
    assert KbdOutputKey(c) !in p.totals;
    AddsFieldSlots(p, p5, KbdSlots(c)[2]);
    var p6 := Run(KbdLedPadding(), p5);          KbdLedPaddingReads(p5);
    AddsFieldSlots(p5, p6, KbdSlots(c)[3]);
  }

  lemma KbdStage4(c: KbdMouseConfig, p: Parser)
    requires At(p, Globals(0, 0, 1, 0, 0, UNIT_NONE, 3, c.kbdId, 1), [Keyboard], KbdSlots(c)[..4],
                map[KbdInputKey(c) := 16, KbdOutputKey(c) := 8])
    ensures var q := Run(KbdClose(), Run(KbdKeys(c), Run(KbdKeyGlobals(), p)));
      && At(q, Globals(PAGE_KEYBOARD, 0, 0xFF, 0, 0, UNIT_NONE, 8, c.kbdId, c.simultaneousKeys), [],
            KbdSlots(c)[..5], map[KbdInputKey(c) := KbdInputBits(c), KbdOutputKey(c) := 8])
      && q.locals == NoLocals
  {
    var p7 := Run(KbdKeyGlobals(), p);           KbdKeyGlobalsReads(p);
    var p8 := Run(KbdKeys(c), p7);               KbdKeysReads(p7, c);
    AddsFieldSlots(p7, p8, KbdSlots(c)[4]);
    var p9 := Run(KbdClose(), p8);               KbdCloseReads(p8);
  }

  /** The state the keyboard collection leaves the parser in. */
  function KbdDone(c: KbdMouseConfig): Globals
  {
    Globals(PAGE_KEYBOARD, 0, 0xFF, 0, 0, UNIT_NONE, 8, c.kbdId, c.simultaneousKeys)
  }

  /** Report totals once the mouse input report holds `mouseBits`. */
  function MouseTotals(c: KbdMouseConfig, mouseBits: nat): map<ReportKey, nat>
  {
    map[KbdInputKey(c) := KbdInputBits(c), KbdOutputKey(c) := 8, MouseInputKey(c) := mouseBits]
  }

  lemma MouseStage1(c: KbdMouseConfig, p: Parser)
    requires c.kbdId != c.mouseId
    requires At(p, KbdDone(c), [], KbdSlots(c)[..5], map[KbdInputKey(c) := KbdInputBits(c), KbdOutputKey(c) := 8])
    requires p.locals == NoLocals
    ensures At(Run(MouseButtons(c), Run(MouseButtonUsages(c), Run(MouseOpen(c), p))),
               Globals(0, 0, 1, 0, 0, UNIT_NONE, 1, c.mouseId, c.buttons), [Mouse, Pointer], KbdSlots(c)[..6],
               MouseTotals(c, c.buttons))
  {
    var p10 := Run(MouseOpen(c), p);             MouseOpenReads(p, c);
    var p11 := Run(MouseButtonUsages(c), p10);   MouseButtonUsagesReads(p10, c);
    var p12 := Run(MouseButtons(c), p11);        MouseButtonsReads(p11, c);
    assert MouseInputKey(c) !in p.totals;
    AddsFieldSlots(p11, p12, KbdSlots(c)[5]);
  }

  lemma MouseStage2(c: KbdMouseConfig, p: Parser)
    requires At(p, Globals(0, 0, 1, 0, 0, UNIT_NONE, 1, c.mouseId, c.buttons), [Mouse, Pointer], KbdSlots(c)[..6],
                MouseTotals(c, c.buttons))
    ensures At(Run(MouseButtonPadding(c), p),
               Globals(0, 0, 1, 0, 0, UNIT_NONE, ButtonPadding(c), c.mouseId, 1), [Mouse, Pointer], KbdSlots(c)[..7],
               MouseTotals(c, c.buttons + ButtonPadding(c)))
  {
    var p13 := Run(MouseButtonPadding(c), p);    MouseButtonPaddingReads(p, c);
    AddsFieldSlots(p, p13, KbdSlots(c)[6]);
  }

  lemma MouseStage3(c: KbdMouseConfig, p: Parser)
    requires At(p, Globals(0, 0, 1, 0, 0, UNIT_NONE, ButtonPadding(c), c.mouseId, 1), [Mouse, Pointer],
                KbdSlots(c)[..7], MouseTotals(c, c.buttons + ButtonPadding(c)))
    ensures At(Run(MouseAxes(c), Run(MouseAxisUsages(), p)),
               Globals(PAGE_GENERIC_DESKTOP, -127, 127, 0, 0, UNIT_NONE, 8, c.mouseId, 3), [Mouse, Pointer],
               KbdSlots(c)[..8], MouseTotals(c, c.buttons + ButtonPadding(c) + 24))
  {
    var p14 := Run(MouseAxisUsages(), p);        MouseAxisUsagesReads(p);
    var p15 := Run(MouseAxes(c), p14);           MouseAxesReads(p14, c);
    AddsFieldSlots(p14, p15, KbdSlots(c)[7]);
  }

  lemma MouseStage4(c: KbdMouseConfig, p: Parser)
    requires At(p, Globals(PAGE_GENERIC_DESKTOP, -127, 127, 0, 0, UNIT_NONE, 8, c.mouseId, 3), [Mouse, Pointer],
                KbdSlots(c)[..8], MouseTotals(c, c.buttons + ButtonPadding(c) + 24))
    ensures At(Run(MouseClose(), Run(MousePan(), Run(MousePanGlobals(), p))),
               Globals(0, -127, 127, 0, 0, UNIT_NONE, 8, c.mouseId, 1), [], KbdSlots(c),
               MouseTotals(c, MouseInputBits(c)))
  {
    var p16 := Run(MousePanGlobals(), p);        MousePanGlobalsReads(p);
    var p17 := Run(MousePan(), p16);             MousePanReads(p16);
    AddsFieldSlots(p16, p17, KbdSlots(c)[8]);
    var p18 := Run(MouseClose(), p17);           MouseCloseReads(p17);
  }

  /** Reading the keyboard part is reading its groups one by one. */
  lemma KbdPartRun(c: KbdMouseConfig, p: Parser)
    ensures Run(KbdPart(c), p)
         == Run(KbdClose(), Run(KbdKeys(c), Run(KbdKeyGlobals(), Run(KbdLedPadding(), Run(KbdLeds(),
              Run(KbdReserved(), Run(KbdModifiers(), Run(KbdModifierUsages(), Run(KbdOpen(c), p)))))))))
  {
    var a := KbdOpen(c);
    var b := a + KbdModifierUsages();
    var d := b + KbdModifiers();
    var e := d + KbdReserved();
    var f := e + KbdLeds();
    var g := f + KbdLedPadding();
    var h := g + KbdKeyGlobals();
    var i := h + KbdKeys(c);
    RunAppend(i, KbdClose(), p);
    RunAppend(h, KbdKeys(c), p);
    RunAppend(g, KbdKeyGlobals(), p);
    RunAppend(f, KbdLedPadding(), p);
    RunAppend(e, KbdLeds(), p);
    RunAppend(d, KbdReserved(), p);
    RunAppend(b, KbdModifiers(), p);
    RunAppend(a, KbdModifierUsages(), p);
  }

  /** Reading the mouse part is reading its groups one by one. */
  lemma MousePartRun(c: KbdMouseConfig, p: Parser)
    ensures Run(MousePart(c), p)
         == Run(MouseClose(), Run(MousePan(), Run(MousePanGlobals(), Run(MouseAxes(c), Run(MouseAxisUsages(),
              Run(MouseButtonPadding(c), Run(MouseButtons(c), Run(MouseButtonUsages(c), Run(MouseOpen(c), p)))))))))
  {
    var a := MouseOpen(c);
    var b := a + MouseButtonUsages(c);
    var d := b + MouseButtons(c);
    var e := d + MouseButtonPadding(c);
    var f := e + MouseAxisUsages();
    var g := f + MouseAxes(c);
    var h := g + MousePanGlobals();
    var i := h + MousePan();
    RunAppend(i, MouseClose(), p);
    RunAppend(h, MousePan(), p);
    RunAppend(g, MousePanGlobals(), p);
    RunAppend(f, MouseAxes(c), p);
    RunAppend(e, MouseAxisUsages(), p);
    RunAppend(d, MouseButtonPadding(c), p);
    RunAppend(b, MouseButtons(c), p);
    RunAppend(a, MouseButtonUsages(c), p);
  }

  /** The state the keyboard part leaves the parser in. */
  lemma KbdPartFinal(c: KbdMouseConfig)
    ensures var q := Run(KbdPart(c), Start);
      && At(q, KbdDone(c), [], KbdSlots(c)[..5], map[KbdInputKey(c) := KbdInputBits(c), KbdOutputKey(c) := 8])
      && q.locals == NoLocals
  {
    KbdPartRun(c, Start);
    KbdStage1(c);
    var p3 := Run(KbdModifiers(), Run(KbdModifierUsages(), Run(KbdOpen(c), Start)));
    KbdStage2(c, p3);
    var p4 := Run(KbdReserved(), p3);
    KbdStage3(c, p4);
    KbdStage4(c, Run(KbdLedPadding(), Run(KbdLeds(), p4)));
  }

  /** The state the mouse part leaves the parser in, after the keyboard. */
  lemma MousePartFinal(c: KbdMouseConfig, p: Parser)
    requires c.kbdId != c.mouseId
    requires At(p, KbdDone(c), [], KbdSlots(c)[..5], map[KbdInputKey(c) := KbdInputBits(c), KbdOutputKey(c) := 8])
    requires p.locals == NoLocals
    ensures At(Run(MousePart(c), p), Globals(0, -127, 127, 0, 0, UNIT_NONE, 8, c.mouseId, 1), [], KbdSlots(c),
               MouseTotals(c, MouseInputBits(c)))
  {
    MousePartRun(c, p);
    MouseStage1(c, p);
    var p12 := Run(MouseButtons(c), Run(MouseButtonUsages(c), Run(MouseOpen(c), p)));
    MouseStage2(c, p12);
    var p13 := Run(MouseButtonPadding(c), p12);
    MouseStage3(c, p13);
    MouseStage4(c, Run(MouseAxes(c), Run(MouseAxisUsages(), p13)));
  }

  /** With distinct keyboard and mouse report IDs the descriptor reads as
      documented: collections balance, the fields are those of KbdSlots, and
      exactly three reports exist, a keyboard input report of 2 +
      `SIMULTANEOUS_KEYS` bytes, a one-byte keyboard output report and the
      mouse input report. */
  lemma KbdMouseLayout(c: KbdMouseConfig)
    requires c.kbdId != c.mouseId
    ensures Parse(KbdReportDescriptor(c)).Some?
    ensures var l := Parse(KbdReportDescriptor(c)).value;
      && Slots(l.fields) == KbdSlots(c)
      && l.totals == map[KbdInputKey(c) := KbdInputBits(c), KbdOutputKey(c) := 8,
                         MouseInputKey(c) := MouseInputBits(c)]
      && ReportBits(l, InputReport, c.kbdId) == 8 * (2 + c.simultaneousKeys)
      && ReportBits(l, OutputReport, c.kbdId) == 8
      && ReportBits(l, InputReport, c.mouseId) == MouseInputBits(c)
  {
    RunAppend(KbdPart(c), MousePart(c), Start);
    KbdPartFinal(c);
    MousePartFinal(c, Run(KbdPart(c), Start));
  }

  /** `8 - (Buttons % 8)` bits complete the last button byte; when the
      buttons already fill whole bytes it adds a whole byte of padding. */
  lemma ButtonPaddingCompletesByte(c: KbdMouseConfig)
    ensures 1 <= ButtonPadding(c) <= 8
    ensures (c.buttons + ButtonPadding(c)) % 8 == 0
    ensures ButtonPadding(c) == 8 <==> c.buttons % 8 == 0
    ensures MouseInputBits(c) % 8 == 0
  {
  }

  /** Alignment in any field list with the keyboard and mouse slots. */
  lemma KbdSlotsAligned(c: KbdMouseConfig, fs: seq<Field>)
    requires Slots(fs) == KbdSlots(c)
    ensures forall i | 0 <= i < |fs| && !fs[i].flags.constant :: ByteAligned(fs[i])
    ensures forall i | 0 <= i < |fs| && fs[i].flags.constant :: (fs[i].offset + FieldBits(fs[i])) % 8 == 0
  {
    ButtonPaddingCompletesByte(c);
    forall i | 0 <= i < |fs|
      ensures !fs[i].flags.constant ==> ByteAligned(fs[i])
      ensures fs[i].flags.constant ==> (fs[i].offset + FieldBits(fs[i])) % 8 == 0
    {
      assert SlotOf(fs[i]) == KbdSlots(c)[i];
    }
  }

  /** Logical ranges in any field list with the keyboard and mouse slots. */
  lemma KbdSlotsRanges(c: KbdMouseConfig, fs: seq<Field>)
    requires Slots(fs) == KbdSlots(c)
    ensures forall i | 0 <= i < |fs| :: RangeFits(fs[i])
  {
    assert Pow2(7) == 128;
    assert Pow2(ButtonPadding(c)) >= 2;
    forall i | 0 <= i < |fs| ensures RangeFits(fs[i]) {
      assert SlotOf(fs[i]) == KbdSlots(c)[i];
    }
  }

  /** Every data field of the keyboard and mouse reports starts on a byte
      boundary, each padding block completes a byte, and each report is a
      whole number of bytes, whatever the number of buttons. */
  lemma KbdByteAligned(c: KbdMouseConfig, l: Layout)
    requires c.kbdId != c.mouseId
    requires Parse(KbdReportDescriptor(c)) == Some(l)
    ensures forall i | 0 <= i < |l.fields| && !l.fields[i].flags.constant :: ByteAligned(l.fields[i])
    ensures forall i | 0 <= i < |l.fields| && l.fields[i].flags.constant ::
      (l.fields[i].offset + FieldBits(l.fields[i])) % 8 == 0
    ensures forall k | k in l.totals :: l.totals[k] % 8 == 0
  {
    KbdMouseLayout(c);
    KbdSlotsAligned(c, l.fields);
    ButtonPaddingCompletesByte(c);
  }

  /** Every keyboard and mouse field's logical range fits its size. */
  lemma KbdRangesFit(c: KbdMouseConfig, l: Layout)
    requires c.kbdId != c.mouseId
    requires Parse(KbdReportDescriptor(c)) == Some(l)
    ensures forall i | 0 <= i < |l.fields| :: RangeFits(l.fields[i])
  {
    KbdMouseLayout(c);
    KbdSlotsRanges(c, l.fields);
  }

  lemma KbdSlotsNesting(c: KbdMouseConfig, fs: seq<Field>)
    requires Slots(fs) == KbdSlots(c)
    ensures |fs| == 9
    ensures forall i | 0 <= i < 5 :: fs[i].path == [Keyboard] && fs[i].key.id == c.kbdId
    ensures forall i | 5 <= i < 9 :: fs[i].path == [Mouse, Pointer] && fs[i].key == MouseInputKey(c)
  {
    forall i | 0 <= i < 9 ensures SlotOf(fs[i]) == KbdSlots(c)[i] {
    }
  }

  /** The first five fields belong to the keyboard collection and the keyboard
      report ID; the last four to the pointing-device collection nested inside the
      mouse collection and to the mouse input report. */
  lemma KbdNesting(c: KbdMouseConfig, l: Layout)
    requires c.kbdId != c.mouseId
    requires Parse(KbdReportDescriptor(c)) == Some(l)
    ensures |l.fields| == 9
    ensures forall i | 0 <= i < 5 :: l.fields[i].path == [Keyboard] && l.fields[i].key.id == c.kbdId
    ensures forall i | 5 <= i < 9 :: l.fields[i].path == [Mouse, Pointer] && l.fields[i].key == MouseInputKey(c)
  {
    KbdMouseLayout(c);
    KbdSlotsNesting(c, l.fields);
  }

  lemma KbdSlotsMotion(c: KbdMouseConfig, fs: seq<Field>)
    requires Slots(fs) == KbdSlots(c)
    ensures |fs| == 9
    ensures var m := fs[4];
      && m.key == KbdInputKey(c) && !m.flags.variable && !m.flags.constant
      && m.size == 8 && m.count == c.simultaneousKeys
      && m.globals.usagePage == PAGE_KEYBOARD && m.globals.logicalMin == 0 && m.globals.logicalMax == 0xFF
    ensures var xyw := fs[7];
      && xyw.size == 8 && xyw.count == 3 && xyw.flags.variable && !xyw.flags.constant
      && (xyw.flags.relative <==> !c.absoluteCoords)
      && xyw.globals.logicalMin == -127 && xyw.globals.logicalMax == 127
    ensures var pan := fs[8];
      && pan.size == 8 && pan.count == 1 && pan.flags.variable && pan.flags.relative
      && pan.globals.logicalMin == -127 && pan.globals.logicalMax == 127
  {
    assert SlotOf(fs[4]) == KbdSlots(c)[4];
    assert SlotOf(fs[7]) == KbdSlots(c)[7];
    assert SlotOf(fs[8]) == KbdSlots(c)[8];
  }

  /** The key codes are an array of `SIMULTANEOUS_KEYS` bytes, 0..255 on the
      keyboard page. X, Y and wheel are three signed bytes, relative exactly
      when `AbsoluteCoords` is off; pan is one signed byte and always
      relative. */
  lemma KbdKeysAndMotion(c: KbdMouseConfig, l: Layout)
    requires c.kbdId != c.mouseId
    requires Parse(KbdReportDescriptor(c)) == Some(l)
    ensures |l.fields| == 9
    ensures var m := l.fields[4];
      && m.key == KbdInputKey(c) && !m.flags.variable && !m.flags.constant
      && m.size == 8 && m.count == c.simultaneousKeys
      && m.globals.usagePage == PAGE_KEYBOARD && m.globals.logicalMin == 0 && m.globals.logicalMax == 0xFF
    ensures var xyw := l.fields[7];
      && xyw.size == 8 && xyw.count == 3 && xyw.flags.variable && !xyw.flags.constant
      && (xyw.flags.relative <==> !c.absoluteCoords)
      && xyw.globals.logicalMin == -127 && xyw.globals.logicalMax == 127
    ensures var pan := l.fields[8];
      && pan.size == 8 && pan.count == 1 && pan.flags.variable && pan.flags.relative
      && pan.globals.logicalMin == -127 && pan.globals.logicalMax == 127
  {
    KbdMouseLayout(c);
    KbdSlotsMotion(c, l.fields);
  }

  /** The byte-sized configuration values of the table. */
  predicate ConfigFitsBytes(c: KbdMouseConfig)
  {
    c.kbdId < 256 && c.mouseId < 256 && c.simultaneousKeys < 256 && c.buttons < 256
  }

  // The data of each group fits its declared size

  lemma KbdOpenFits(c: KbdMouseConfig)
    requires ConfigFitsBytes(c)
    ensures AllDataFits(KbdOpen(c))
  {
  }

  lemma KbdModifierUsagesFits() ensures AllDataFits(KbdModifierUsages()) { }
  lemma KbdModifiersFits() ensures AllDataFits(KbdModifiers()) { }
  lemma KbdReservedFits() ensures AllDataFits(KbdReserved()) { }
  lemma KbdLedsFits() ensures AllDataFits(KbdLeds()) { }
  lemma KbdLedPaddingFits() ensures AllDataFits(KbdLedPadding()) { }
  lemma KbdKeyGlobalsFits() ensures AllDataFits(KbdKeyGlobals()) { }
  lemma KbdKeysFits(c: KbdMouseConfig)
    requires ConfigFitsBytes(c)
    ensures AllDataFits(KbdKeys(c))
  {
  }

  lemma KbdCloseFits() ensures AllDataFits(KbdClose()) { }
  lemma MouseOpenFits(c: KbdMouseConfig)
    requires ConfigFitsBytes(c)
    ensures AllDataFits(MouseOpen(c))
  {
  }

  lemma MouseButtonUsagesFits(c: KbdMouseConfig)
    requires ConfigFitsBytes(c)
    ensures AllDataFits(MouseButtonUsages(c))
  {
  }

  lemma MouseButtonsFits(c: KbdMouseConfig)
    requires ConfigFitsBytes(c)
    ensures AllDataFits(MouseButtons(c))
  {
  }

  lemma MouseButtonPaddingFits(c: KbdMouseConfig) ensures AllDataFits(MouseButtonPadding(c)) { }
  lemma MouseAxisUsagesFits() ensures AllDataFits(MouseAxisUsages()) { }
  lemma MouseAxesFits(c: KbdMouseConfig) ensures AllDataFits(MouseAxes(c)) { }
  lemma MousePanGlobalsFits() ensures AllDataFits(MousePanGlobals()) { }
  lemma MousePanFits() ensures AllDataFits(MousePan()) { }
  lemma MouseCloseFits() ensures AllDataFits(MouseClose()) { }

  lemma KbdPartFits(c: KbdMouseConfig)
    requires ConfigFitsBytes(c)
    ensures AllDataFits(KbdPart(c))
  {
    KbdOpenFits(c); KbdModifierUsagesFits(); KbdModifiersFits(); KbdReservedFits(); KbdLedsFits();
    KbdLedPaddingFits(); KbdKeyGlobalsFits(); KbdKeysFits(c); KbdCloseFits();
    var a := KbdOpen(c);
    var b := a + KbdModifierUsages();         AllDataFitsAppend(a, KbdModifierUsages());
    var d := b + KbdModifiers();              AllDataFitsAppend(b, KbdModifiers());
    var e := d + KbdReserved();               AllDataFitsAppend(d, KbdReserved());
    var f := e + KbdLeds();                   AllDataFitsAppend(e, KbdLeds());
    var g := f + KbdLedPadding();             AllDataFitsAppend(f, KbdLedPadding());
    var h := g + KbdKeyGlobals();             AllDataFitsAppend(g, KbdKeyGlobals());
    var i := h + KbdKeys(c);                  AllDataFitsAppend(h, KbdKeys(c));
    AllDataFitsAppend(i, KbdClose());
  }

  lemma MousePartFits(c: KbdMouseConfig)
    requires ConfigFitsBytes(c)
    ensures AllDataFits(MousePart(c))
  {
    MouseOpenFits(c); MouseButtonUsagesFits(c); MouseButtonsFits(c); MouseButtonPaddingFits(c);
    MouseAxisUsagesFits(); MouseAxesFits(c); MousePanGlobalsFits(); MousePanFits(); MouseCloseFits();
    var a := MouseOpen(c);
    var b := a + MouseButtonUsages(c);        AllDataFitsAppend(a, MouseButtonUsages(c));
    var d := b + MouseButtons(c);             AllDataFitsAppend(b, MouseButtons(c));
    var e := d + MouseButtonPadding(c);       AllDataFitsAppend(d, MouseButtonPadding(c));
    var f := e + MouseAxisUsages();           AllDataFitsAppend(e, MouseAxisUsages());
    var g := f + MouseAxes(c);                AllDataFitsAppend(f, MouseAxes(c));
    var h := g + MousePanGlobals();           AllDataFitsAppend(g, MousePanGlobals());
    var i := h + MousePan();                  AllDataFitsAppend(h, MousePan());
    AllDataFitsAppend(i, MouseClose());
  }

  /** Each configuration value appears as the data of a one-byte item. */
  lemma KbdDataFitsBounds(c: KbdMouseConfig)
    requires AllDataFits(KbdReportDescriptor(c))
    ensures ConfigFitsBytes(c)
  {
    var d := KbdReportDescriptor(c);
    assert ReportId(8, c.kbdId) in KbdOpen(c);
    assert DataFits(ReportId(8, c.kbdId)) by { assert ReportId(8, c.kbdId) in d; }
    assert ReportCount(8, c.simultaneousKeys) in KbdKeys(c);
    assert DataFits(ReportCount(8, c.simultaneousKeys)) by { assert ReportCount(8, c.simultaneousKeys) in d; }
    assert ReportId(8, c.mouseId) in MouseOpen(c);
    assert DataFits(ReportId(8, c.mouseId)) by { assert ReportId(8, c.mouseId) in d; }
    assert UsageMaximum(8, c.buttons) in MouseButtonUsages(c);
    assert DataFits(UsageMaximum(8, c.buttons)) by { assert UsageMaximum(8, c.buttons) in d; }
  }

  /** Every item fits the data size its macro declares exactly when the
      report IDs, `SIMULTANEOUS_KEYS` and `Buttons` fit a byte each. */
  lemma KbdDataFits(c: KbdMouseConfig)
    ensures AllDataFits(KbdReportDescriptor(c)) <==> ConfigFitsBytes(c)
  {
    if ConfigFitsBytes(c) {
      KbdPartFits(c);
      MousePartFits(c);
      AllDataFitsAppend(KbdPart(c), MousePart(c));
    }
    if AllDataFits(KbdReportDescriptor(c)) {
      KbdDataFitsBounds(c);
    }
  }

  /** The parser after the LED field (line 151). */
  function KbdThroughLeds(c: KbdMouseConfig): Parser
  {
    Run(KbdLeds(), Run(KbdReserved(), Run(KbdModifiers(), Run(KbdModifierUsages(), Run(KbdOpen(c), Start)))))
  }

  /** The modifier and LED fields as read: each with its usage range and
      one bit per usage. */
  lemma KbdThroughLedsFields(c: KbdMouseConfig)
    ensures var q := KbdThroughLeds(c);
      && |q.fields| == 3
      && q.fields[0].locals == Locals([], Some(0xE0), Some(0xE7)) && q.fields[0].count == 8
      && q.fields[2].locals == Locals([], Some(0x01), Some(0x05)) && q.fields[2].count == 5
  {
    var p1 := Run(KbdOpen(c), Start);            KbdOpenReads(Start, c);
    var p2 := Run(KbdModifierUsages(), p1);      KbdModifierUsagesReads(p1);
    var p3 := Run(KbdModifiers(), p2);           KbdModifiersReads(p2);
    var p4 := Run(KbdReserved(), p3);            KbdReservedReads(p3);
    var p5 := Run(KbdLeds(), p4);                KbdLedsReads(p4);
    assert p5.fields[0] == p5.fields[..2][0] == p4.fields[0] == p4.fields[..1][0];
  }

  /** A field read by line 151 is the field at the same position of the
      whole layout. */
  lemma KbdThroughLedsKept(c: KbdMouseConfig, l: Layout, i: nat)
    requires Parse(KbdReportDescriptor(c)) == Some(l)
    requires i < |KbdThroughLeds(c).fields|
    ensures i < |l.fields| && l.fields[i] == KbdThroughLeds(c).fields[i]
  {
    KbdPartRun(c, Start);
    var p5 := KbdThroughLeds(c);
    var p6 := Run(KbdLedPadding(), p5);          RunKeepsField(KbdLedPadding(), p5, i);
    var p7 := Run(KbdKeyGlobals(), p6);          RunKeepsField(KbdKeyGlobals(), p6, i);
    var p8 := Run(KbdKeys(c), p7);               RunKeepsField(KbdKeys(c), p7, i);
    var p9 := Run(KbdClose(), p8);               RunKeepsField(KbdClose(), p8, i);
    RunAppend(KbdPart(c), MousePart(c), Start);
    RunKeepsField(MousePart(c), p9, i);
  }

  /** The modifier field carries the usages 0xE0..0xE7, one per bit. */
  lemma KbdModifierUsageRange(c: KbdMouseConfig, l: Layout)
    requires Parse(KbdReportDescriptor(c)) == Some(l)
    ensures |l.fields| > 0
    ensures l.fields[0].locals.usageMin == Some(0xE0) && l.fields[0].locals.usageMax == Some(0xE7)
    ensures UsageRangeCovers(l.fields[0])
  {
    KbdThroughLedsFields(c);
    KbdThroughLedsKept(c, l, 0);
  }

  /** The LED field carries the usages 1..5, one per bit. */
  lemma KbdLedUsageRange(c: KbdMouseConfig, l: Layout)
    requires Parse(KbdReportDescriptor(c)) == Some(l)
    ensures |l.fields| > 2
    ensures l.fields[2].locals.usageMin == Some(0x01) && l.fields[2].locals.usageMax == Some(0x05)
    ensures UsageRangeCovers(l.fields[2])
  {
    KbdThroughLedsFields(c);
    KbdThroughLedsKept(c, l, 2);
  }

  /** The parser after the mouse button field (line 177). */
  function MouseThroughButtons(c: KbdMouseConfig): Parser
  {
    Run(MouseButtons(c), Run(MouseButtonUsages(c), Run(MouseOpen(c), Run(KbdPart(c), Start))))
  }

  /** The button field as read: usages 1..Buttons, one bit per button. */
  lemma MouseThroughButtonsFields(c: KbdMouseConfig)
    ensures var q := MouseThroughButtons(c);
      && |q.fields| == 6
      && q.fields[5].locals == Locals([], Some(0x01), Some(c.buttons)) && q.fields[5].count == c.buttons
  {
    KbdPartFinal(c);
    var p9 := Run(KbdPart(c), Start);
    assert |p9.fields| == |Slots(p9.fields)| == 5;
    var p10 := Run(MouseOpen(c), p9);            MouseOpenReads(p9, c);
    var p11 := Run(MouseButtonUsages(c), p10);   MouseButtonUsagesReads(p10, c);
    MouseButtonsReads(p11, c);
  }

  /** A field read by line 177 is the field at the same position of the
      whole layout. */
  lemma MouseThroughButtonsKept(c: KbdMouseConfig, l: Layout, i: nat)
    requires Parse(KbdReportDescriptor(c)) == Some(l)
    requires i < |MouseThroughButtons(c).fields|
    ensures i < |l.fields| && l.fields[i] == MouseThroughButtons(c).fields[i]
  {
    var p9 := Run(KbdPart(c), Start);
    MousePartRun(c, p9);
    var p12 := MouseThroughButtons(c);
    var p13 := Run(MouseButtonPadding(c), p12);  RunKeepsField(MouseButtonPadding(c), p12, i);
    var p14 := Run(MouseAxisUsages(), p13);      RunKeepsField(MouseAxisUsages(), p13, i);
    var p15 := Run(MouseAxes(c), p14);           RunKeepsField(MouseAxes(c), p14, i);
    var p16 := Run(MousePanGlobals(), p15);      RunKeepsField(MousePanGlobals(), p15, i);
    var p17 := Run(MousePan(), p16);             RunKeepsField(MousePan(), p16, i);
    RunKeepsField(MouseClose(), p17, i);
    RunAppend(KbdPart(c), MousePart(c), Start);
  }

  /** The button field carries the usages 1..Buttons, one per bit. */
  lemma MouseButtonUsageRange(c: KbdMouseConfig, l: Layout)
    requires Parse(KbdReportDescriptor(c)) == Some(l)
    ensures |l.fields| > 5
    ensures l.fields[5].locals.usageMin == Some(0x01) && l.fields[5].locals.usageMax == Some(c.buttons)
    ensures UsageRangeCovers(l.fields[5])
  {
    MouseThroughButtonsFields(c);
    MouseThroughButtonsKept(c, l, 5);
  }
}
