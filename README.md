# Santroller descriptor layouts in Dafny

This project models the layout and arithmetic core of the Santroller firmware's
USB and HID descriptors and LED buffers. All three source files are pure
declarations: macros, packed structs and constant tables. The model is therefore
datatypes, functions and lemmas, with no state.

- **USB standard descriptors** (`src/lib/usb/std_descriptors.h`), module
  `StdDescriptors`:
  - the unit and encoding macros `TUSB_CONFIG_POWER_MA`, `TUSB_STRING_LEN` and
    `TVERSION_BCD`;
  - the configuration and endpoint attribute masks;
  - the packed descriptor structs as byte serialisers and parsers: header,
    device, device qualifier, configuration header, interface, interface
    association, endpoint and string. Each comes with its round trip, its exact
    wire length, and agreement with its standard-named twin struct;
  - the two string-descriptor initialiser macros.

  Module `Bytes` holds the shared byte vocabulary: `uint8_t`/`uint16_t` ranges
  and little-endian 16-bit words.
- **HID report descriptors** (`src/lib/report_descriptors.c`):
  - Module `HidItems` models a report descriptor as a sequence of short items,
    as described in section 6.2.2 of the HID 1.11 Device Class Definition. It
    reads them with a fold (`Run`) that carries the global-item state (section
    6.2.2.7) and the local usages, opens and closes collections (section
    6.2.2.6), and places each Input, Output or Feature main item (section
    6.2.2.5) right after the bits its report already holds.
  - Module `ReportDescriptors` writes `ps3_report_descriptor` and
    `kbd_report_descriptor` as concatenations of the item groups the source
    lists. It proves what the fold reads from each: exact report lengths,
    alignment, value ranges, collection nesting, data sizes and usage ranges.
- **Shared LED state** (`include/shared_main.h`), module `SharedMain`:
  - `ROUND_UP` and the STP bitmap sizes it determines;
  - the `Led_t` and `Led_WS2812_t` records;
  - the buffers each LED technology declares.

Values the shown files take from elsewhere are parameters of the model:
`REPORT_ID_KBD`, `REPORT_ID_MOUSE`, `SIMULTANEOUS_KEYS`, `Buttons`,
`AbsoluteCoords` (collected in `ReportDescriptors.KbdMouseConfig`), the LED
counts and the LED technology.

## Model

| member | source | states |
|---|---|---|
| Bytes.Le16 | src/lib/usb/std_descriptors.h:241 | defines the little-endian image of a 16-bit field, low byte first; properties in Bytes.Le16RoundTrip |
| Bytes.FromLe16 | src/lib/usb/std_descriptors.h:241 | defines the reading of two bytes as a little-endian word; properties in Bytes.FromLe16RoundTrip |
| Bytes.Le16RoundTrip | src/lib/usb/std_descriptors.h:241 | a 16-bit field takes two bytes, low byte first, and reads back as the same value |
| Bytes.FromLe16RoundTrip | src/lib/usb/std_descriptors.h:241 | two bytes read as a little-endian word and written back are the same two bytes |
| Bytes.Le16s | src/lib/usb/std_descriptors.h:687-702 | UTF-16LE code units take exactly two bytes each |
| Bytes.FromLe16s | src/lib/usb/std_descriptors.h:687-702 | reading n words yields n code units |
| Bytes.Le16sAppend | src/lib/usb/std_descriptors.h:687-702 | writing two runs of code units is writing their concatenation |
| Bytes.Le16sRoundTrip | src/lib/usb/std_descriptors.h:687-702 | code units written little-endian read back unchanged, whatever bytes follow |
| Bytes.FromLe16sRoundTrip | src/lib/usb/std_descriptors.h:687-702 | bytes read as words and written back are the bytes read |
| StdDescriptors.ConfigPowerMA | src/lib/usb/std_descriptors.h:19 | `mA >> 1` is the number of whole 2 mA units: 2·units ≤ mA < 2·units + 2 |
| StdDescriptors.ConfigPowerFitsByte | src/lib/usb/std_descriptors.h:19 | the value fits the 8-bit MaxPowerConsumption field, and the field stores it unchanged, exactly when mA ≤ 511 |
| StdDescriptors.StringLen | src/lib/usb/std_descriptors.h:26 | TUSB_STRING_LEN(n) is even, at least the header length, and the header plus two bytes per character |
| StdDescriptors.StringLenFitsByte | src/lib/usb/std_descriptors.h:26 | TUSB_STRING_LEN(n) fits the 8-bit Size field exactly when n ≤ 126 |
| StdDescriptors.VersionBcd | src/lib/usb/std_descriptors.h:58-61 | defines TVERSION_BCD as written; properties in VersionBcdFields, VersionBcdInjective, VersionBcdOfMasked and the finding VersionBcdMajorNotDecimal |
| StdDescriptors.VersionBcdFields | src/lib/usb/std_descriptors.h:58-61 | the version word is below 0x10000, and masking recovers Major & 0xFF from bits 15..8, Minor & 0xF from bits 7..4 and Revision & 0xF from bits 3..0 |
| StdDescriptors.VersionBcdInjective | src/lib/usb/std_descriptors.h:58-61 | two version words are equal exactly when the masked inputs are equal |
| StdDescriptors.VersionBcdOfMasked | src/lib/usb/std_descriptors.h:58-61 | only the masked bits of each argument matter |
| StdDescriptors.VersionBcdMajorNotDecimal | src/lib/usb/std_descriptors.h:58-61 | as written, version 10.0.0 encodes to 0x0A00, which is not BCD; the decimal encoding gives 0x1000 |
| StdDescriptors.VersionBcdDecimal | src/lib/usb/std_descriptors.h:48-61 | the BCD encoding the macro's comment promises: every nibble is a decimal digit, and the digits give back major, minor and revision |
| StdDescriptors.VersionBcdAgreesBelowTen | src/lib/usb/std_descriptors.h:58-61 | for a major below 10 and one-digit minor and revision, the macro and the decimal encoding agree |
| StdDescriptors.ConfigAttributes | src/lib/usb/std_descriptors.h:73-93 | an attribute byte built with RESERVED always has bit 7 set; its SELFPOWERED and REMOTEWAKEUP bits are set exactly when requested; bits 0-4 are clear |
| StdDescriptors.ConfigMasksDisjoint | src/lib/usb/std_descriptors.h:73-93 | RESERVED, SELFPOWERED and REMOTEWAKEUP are distinct single bits, and OR-ing RESERVED sets bit 7 |
| StdDescriptors.EndpointAttributes | src/lib/usb/std_descriptors.h:103-171 | the transfer type sits in bits 0-1, the synchronisation type in bits 2-3 and the usage type in bits 4-5 |
| StdDescriptors.EndpointAttributesRoundTrip | src/lib/usb/std_descriptors.h:103-171 | masking an attribute byte built from one type, sync and usage recovers each of the three |
| StdDescriptors.EndpointAttributesInjective | src/lib/usb/std_descriptors.h:103-171 | different (type, sync, usage) triples give different attribute bytes |
| StdDescriptors.SerializeHeader | src/lib/usb/std_descriptors.h:243-249 | defines the wire image of TUSB_Descriptor_Header_t, Size then Type; properties in ParseHeader and HeaderRoundTrip |
| StdDescriptors.ParseHeader | src/lib/usb/std_descriptors.h:243-249 | a header is read from any buffer of at least 2 bytes, and it re-serialises to those bytes |
| StdDescriptors.HeaderRoundTrip | src/lib/usb/std_descriptors.h:243-249 | a header is 2 bytes and reads back unchanged |
| StdDescriptors.ToStdHeader | src/lib/usb/std_descriptors.h:250-266 | defines the field-by-field correspondence with TUSB_StdDescriptor_Header_t; properties in HeaderTwinsAgree |
| StdDescriptors.SerializeStdHeader | src/lib/usb/std_descriptors.h:250-266 | defines the wire image of TUSB_StdDescriptor_Header_t; properties in HeaderTwinsAgree |
| StdDescriptors.HeaderTwinsAgree | src/lib/usb/std_descriptors.h:243-266 | the LUFA-named and standard-named headers serialise identically |
| StdDescriptors.SerializeDevice | src/lib/usb/std_descriptors.h:277-322 | defines the 18-byte packed image of TUSB_Descriptor_Device_t in field order; properties in ParseDevice and DeviceRoundTrip |
| StdDescriptors.ParseDevice | src/lib/usb/std_descriptors.h:277-322 | a device descriptor is read from any buffer of at least 18 bytes, and it re-serialises to those bytes |
| StdDescriptors.DeviceRoundTrip | src/lib/usb/std_descriptors.h:277-322 | a device descriptor is 18 bytes and reads back unchanged; USBSpecification, VendorID, ProductID and ReleaseNumber are written low byte first; a valid header's Size is the serialised length |
| StdDescriptors.ToStdDevice | src/lib/usb/std_descriptors.h:323-378 | defines the field-by-field correspondence with TUSB_StdDescriptor_Device_t; properties in DeviceTwinsAgree |
| StdDescriptors.SerializeStdDevice | src/lib/usb/std_descriptors.h:323-378 | defines the wire image of TUSB_StdDescriptor_Device_t; properties in DeviceTwinsAgree |
| StdDescriptors.DeviceTwinsAgree | src/lib/usb/std_descriptors.h:277-378 | the LUFA-named and standard-named device structs serialise identically |
| StdDescriptors.SerializeDeviceQualifier | src/lib/usb/std_descriptors.h:387-404 | defines the 10-byte packed image of TUSB_Descriptor_DeviceQualifier_t; properties in ParseDeviceQualifier and DeviceQualifierRoundTrip |
| StdDescriptors.ParseDeviceQualifier | src/lib/usb/std_descriptors.h:387-404 | a qualifier is read from any buffer of at least 10 bytes, and it re-serialises to those bytes |
| StdDescriptors.DeviceQualifierRoundTrip | src/lib/usb/std_descriptors.h:387-404 | a device qualifier is 10 bytes and reads back unchanged, with USBSpecification written low byte first |
| StdDescriptors.ToStdDeviceQualifier | src/lib/usb/std_descriptors.h:405-431 | defines the field-by-field correspondence with TUSB_StdDescriptor_DeviceQualifier_t; properties in DeviceQualifierTwinsAgree |
| StdDescriptors.SerializeStdDeviceQualifier | src/lib/usb/std_descriptors.h:405-431 | defines the wire image of TUSB_StdDescriptor_DeviceQualifier_t; properties in DeviceQualifierTwinsAgree |
| StdDescriptors.DeviceQualifierTwinsAgree | src/lib/usb/std_descriptors.h:387-431 | the two qualifier structs serialise identically |
| StdDescriptors.SerializeConfigurationHeader | src/lib/usb/std_descriptors.h:442-462 | defines the 9-byte packed image of TUSB_Descriptor_Configuration_Header_t; properties in ParseConfigurationHeader, ConfigurationHeaderRoundTrip and ConfigurationFieldsOnWire |
| StdDescriptors.ParseConfigurationHeader | src/lib/usb/std_descriptors.h:442-462 | a configuration header is read from any buffer of at least 9 bytes, and it re-serialises to those bytes |
| StdDescriptors.ConfigurationHeaderRoundTrip | src/lib/usb/std_descriptors.h:442-462 | a configuration header is 9 bytes and reads back unchanged, with TotalConfigurationSize written low byte first |
| StdDescriptors.ConfigurationFieldsOnWire | src/lib/usb/std_descriptors.h:454-461 | for a header whose attributes come from the masks and whose power comes from TUSB_CONFIG_POWER_MA with mA ≤ 511: byte 7 on the wire has the RESERVED bit set, and byte 8 is the current in whole 2 mA units |
| StdDescriptors.ToStdConfigurationHeader | src/lib/usb/std_descriptors.h:463-492 | defines the field-by-field correspondence with TUSB_StdDescriptor_Configuration_Header_t; properties in ConfigurationHeaderTwinsAgree |
| StdDescriptors.SerializeStdConfigurationHeader | src/lib/usb/std_descriptors.h:463-492 | defines the wire image of TUSB_StdDescriptor_Configuration_Header_t; properties in ConfigurationHeaderTwinsAgree |
| StdDescriptors.ConfigurationHeaderTwinsAgree | src/lib/usb/std_descriptors.h:442-492 | the two configuration header structs serialise identically |
| StdDescriptors.SerializeInterface | src/lib/usb/std_descriptors.h:503-520 | defines the 9-byte packed image of TUSB_Descriptor_Interface_t; properties in ParseInterface and InterfaceRoundTrip |
| StdDescriptors.ParseInterface | src/lib/usb/std_descriptors.h:503-520 | an interface descriptor is read from any buffer of at least 9 bytes, and it re-serialises to those bytes |
| StdDescriptors.InterfaceRoundTrip | src/lib/usb/std_descriptors.h:503-520 | an interface descriptor is 9 bytes and reads back unchanged |
| StdDescriptors.ToStdInterface | src/lib/usb/std_descriptors.h:521-550 | defines the field-by-field correspondence with TUSB_StdDescriptor_Interface_t; properties in InterfaceTwinsAgree |
| StdDescriptors.SerializeStdInterface | src/lib/usb/std_descriptors.h:521-550 | defines the wire image of TUSB_StdDescriptor_Interface_t; properties in InterfaceTwinsAgree |
| StdDescriptors.InterfaceTwinsAgree | src/lib/usb/std_descriptors.h:503-550 | the two interface structs serialise identically |
| StdDescriptors.SerializeInterfaceAssociation | src/lib/usb/std_descriptors.h:567-581 | defines the 8-byte packed image of TUSB_Descriptor_Interface_Association_t; properties in ParseInterfaceAssociation and InterfaceAssociationRoundTrip |
| StdDescriptors.ParseInterfaceAssociation | src/lib/usb/std_descriptors.h:567-581 | an interface association is read from any buffer of at least 8 bytes, and it re-serialises to those bytes |
| StdDescriptors.InterfaceAssociationRoundTrip | src/lib/usb/std_descriptors.h:567-581 | an interface association descriptor is 8 bytes and reads back unchanged |
| StdDescriptors.ToStdInterfaceAssociation | src/lib/usb/std_descriptors.h:582-613 | defines the field-by-field correspondence with TUSB_StdDescriptor_Interface_Association_t; properties in InterfaceAssociationTwinsAgree |
| StdDescriptors.SerializeStdInterfaceAssociation | src/lib/usb/std_descriptors.h:582-613 | defines the wire image of TUSB_StdDescriptor_Interface_Association_t; properties in InterfaceAssociationTwinsAgree |
| StdDescriptors.InterfaceAssociationTwinsAgree | src/lib/usb/std_descriptors.h:567-613 | the two interface association structs serialise identically |
| StdDescriptors.SerializeEndpoint | src/lib/usb/std_descriptors.h:624-640 | defines the 7-byte packed image of TUSB_Descriptor_Endpoint_t; properties in ParseEndpoint, EndpointRoundTrip and EndpointAttributesOnWire |
| StdDescriptors.ParseEndpoint | src/lib/usb/std_descriptors.h:624-640 | an endpoint descriptor is read from any buffer of at least 7 bytes, and it re-serialises to those bytes |
| StdDescriptors.EndpointRoundTrip | src/lib/usb/std_descriptors.h:624-640 | an endpoint descriptor is 7 bytes and reads back unchanged, with EndpointSize written low byte first |
| StdDescriptors.EndpointAttributesOnWire | src/lib/usb/std_descriptors.h:624-640 | the Attributes byte of a serialised endpoint decodes to the type, sync and usage it was built from |
| StdDescriptors.ToStdEndpoint | src/lib/usb/std_descriptors.h:641-670 | defines the field-by-field correspondence with TUSB_StdDescriptor_Endpoint_t; properties in EndpointTwinsAgree |
| StdDescriptors.SerializeStdEndpoint | src/lib/usb/std_descriptors.h:641-670 | defines the wire image of TUSB_StdDescriptor_Endpoint_t; properties in EndpointTwinsAgree |
| StdDescriptors.EndpointTwinsAgree | src/lib/usb/std_descriptors.h:624-670 | the two endpoint structs serialise identically |
| StdDescriptors.SerializeString | src/lib/usb/std_descriptors.h:687-702 | a string descriptor is TUSB_STRING_LEN(characters) bytes long |
| StdDescriptors.ParseString | src/lib/usb/std_descriptors.h:687-702 | a parsed string descriptor re-serialises to the bytes it was read from |
| StdDescriptors.StringRoundTrip | src/lib/usb/std_descriptors.h:26-37 | a string descriptor whose Size is TUSB_STRING_LEN of its length reads back unchanged, and its first byte is its length |
| StdDescriptors.StringDescriptorFromLiteral | src/lib/usb/std_descriptors.h:34-37 | defines TUSB_STRING_DESCRIPTOR: Size is the header plus the literal's bytes less the 2-byte terminator, and the stored array is the whole literal, NUL unit included; properties in StringMacrosAgree |
| StdDescriptors.StringDescriptorFromArray | src/lib/usb/std_descriptors.h:43-46 | defines TUSB_STRING_DESCRIPTOR_ARRAY: Size is the header plus two bytes per listed unit, and the stored array is exactly those units; properties in StringMacrosAgree |
| StdDescriptors.StringMacrosAgree | src/lib/usb/std_descriptors.h:34-46 | for the same code units, TUSB_STRING_DESCRIPTOR and TUSB_STRING_DESCRIPTOR_ARRAY give the same header; the literal form also stores the NUL unit, so its bytes are the array form's plus two zero bytes past Size; Size is TUSB_STRING_LEN exactly when there are at most 126 units, and then both images, followed by any bytes, parse to the array form's descriptor |
| StdDescriptors.ToStdString | src/lib/usb/std_descriptors.h:703-735 | defines the field-by-field correspondence with TUSB_StdDescriptor_String_t; properties in StringTwinsAgree |
| StdDescriptors.SerializeStdString | src/lib/usb/std_descriptors.h:703-735 | defines the wire image of TUSB_StdDescriptor_String_t; properties in StringTwinsAgree |
| StdDescriptors.StringTwinsAgree | src/lib/usb/std_descriptors.h:687-735 | the two string structs serialise identically |
| SharedMain.RoundUp | include/shared_main.h:46 | defines ROUND_UP(N, S) for S > 0 (the macro divides by S), with C's truncating division, which is floor division on these non-negative operands; properties in RoundUpBounds, RoundUpFixedPoints and RoundUpIdempotent |
| SharedMain.RoundUpBounds | include/shared_main.h:46 | for S > 0, ROUND_UP(N, S) is a multiple of S with N ≤ ROUND_UP(N, S) < N + S |
| SharedMain.RoundUpFixedPoints | include/shared_main.h:46 | ROUND_UP leaves N unchanged exactly when N is a multiple of S |
| SharedMain.RoundUpIdempotent | include/shared_main.h:46 | rounding twice is rounding once |
| SharedMain.StpBitmapBytes | include/shared_main.h:52-54 | defines the STP bitmap length ROUND_UP(n, 8) / 8; properties in StpBitmapIsCeiling and StpBitInBitmap |
| SharedMain.StpBitmapIsCeiling | include/shared_main.h:52-54 | ROUND_UP(n, 8) / 8 is ceil(n / 8): enough bytes for one bit per LED, at most 7 bits spare, and one byte fewer would not do |
| SharedMain.StpBitInBitmap | include/shared_main.h:52-54 | the byte holding LED i's bit lies inside the bitmap for every i < n |
| SharedMain.SerializeLed | include/shared_main.h:28-35 | defines the 5-byte image of `Led_t` in field order; properties in ParseLed and LedRoundTrip |
| SharedMain.ParseLed | include/shared_main.h:28-35 | a `Led_t` is read from any buffer of at least 5 bytes, and it re-serialises to those bytes |
| SharedMain.LedRoundTrip | include/shared_main.h:28-35 | `Led_t` is 5 bytes with `select` first, and reads back unchanged |
| SharedMain.SerializeLedWs2812 | include/shared_main.h:37-43 | defines the packed 13-byte image of `Led_WS2812_t`; properties in ParseLedWs2812 and LedWs2812RoundTrip |
| SharedMain.ParseLedWs2812 | include/shared_main.h:37-43 | a packed `Led_WS2812_t` is read from any buffer of at least 13 bytes, and it re-serialises to those bytes |
| SharedMain.LedWs2812RoundTrip | include/shared_main.h:37-43 | packed `Led_WS2812_t` is 1 + 3·4 = 13 bytes with `select` first, and reads back unchanged |
| SharedMain.DeclareBuffers | include/shared_main.h:48-75 | a domain declares `Led_WS2812_t` buffers exactly when its technology is WS2812, byte bitmaps exactly when it is STP, and `Led_t` buffers exactly when it is neither; each current, select and last-sent buffer has the length its declaration gives for the LED count (one record per LED, or ROUND_UP(n, 8) / 8 bytes), and the STP bitmaps start with every bit clear |
| SharedMain.IndexValidInAllBuffers | include/shared_main.h:48-75 | within a domain, an LED index below the count addresses a slot present in every buffer of that domain |
| HidItems.AddField | src/lib/report_descriptors.c:40-200 | defines what a main item does to the reports: one field at the end of its report, sized Report Size × Report Count, with the current usages and collection path; properties in MainItemAdds |
| HidItems.Step | src/lib/report_descriptors.c:40-200 | defines the effect of one item on the global, local and collection state; properties in MainItemAdds, ReportSizePersists and the per-group Reads lemmas |
| HidItems.Run | src/lib/report_descriptors.c:40-200 | defines reading a sequence of items from a parser state; properties in RunAppend, RunExtendsFields, RunKeepsField and RunContiguous |
| HidItems.Parse | src/lib/report_descriptors.c:40-200 | defines reading a whole descriptor from the start state, failing when a collection is left open or closed too often; properties in Ps3Layout, KbdMouseLayout and FieldsDisjoint |
| HidItems.RunAppend | src/lib/report_descriptors.c:40-127 | reading a descriptor in two pieces is reading it whole |
| HidItems.ReportSizePersists | src/lib/report_descriptors.c:82-121 | items without a Report Size item leave the global report size unchanged |
| HidItems.RunExtendsFields | src/lib/report_descriptors.c:40-200 | reading more items never changes the fields already read |
| HidItems.RunKeepsField | src/lib/report_descriptors.c:40-200 | reading more items leaves every field already read at its position, unchanged |
| HidItems.RunContiguous | src/lib/report_descriptors.c:40-200 | reading keeps every report's total equal to the sum of its fields' bits, with each field starting where the report's earlier fields end |
| HidItems.KeyBitsMonotone | src/lib/report_descriptors.c:40-200 | the bits a report holds never decrease as more fields are read |
| HidItems.FieldsDisjoint | src/lib/report_descriptors.c:40-200 | in any well-formed descriptor, no two fields of one report overlap, and every field ends within its report's total |
| ReportDescriptors.MainItemAdds | src/lib/report_descriptors.c:40-200 | an Input, Output or Feature item keeps the global state, consumes the local state, and adds one field at the end of its report, sized by Report Size × Report Count |
| ReportDescriptors.Ps3ReportDescriptor | src/lib/report_descriptors.c:40-127 | defines the gamepad descriptor as its seventeen item groups in order; properties in Ps3Layout, Ps3ByteAligned, Ps3RangesFit, Ps3HatSwitch and Ps3DataFits |
| ReportDescriptors.Ps3Slots | src/lib/report_descriptors.c:40-127 | defines the nine fields the gamepad descriptor should declare, with report, offset, size, count, usages and flags; properties in Ps3Layout |
| ReportDescriptors.Ps3Open | src/lib/report_descriptors.c:42-44 | defines the items of lines 42-44; properties in Ps3OpenReads |
| ReportDescriptors.Ps3ButtonGlobals | src/lib/report_descriptors.c:45-50 | defines the items of lines 45-50; properties in Ps3ButtonGlobalsReads |
| ReportDescriptors.Ps3Buttons | src/lib/report_descriptors.c:51-56 | defines the items of lines 51-56; properties in Ps3ButtonsReads |
| ReportDescriptors.Ps3ButtonPadding | src/lib/report_descriptors.c:57-60 | defines the items of lines 57-60; properties in Ps3ButtonPaddingReads |
| ReportDescriptors.Ps3HatGlobals | src/lib/report_descriptors.c:61-65 | defines the items of lines 61-65; properties in Ps3HatGlobalsReads |
| ReportDescriptors.Ps3Hat | src/lib/report_descriptors.c:66-70 | defines the items of lines 66-70; properties in Ps3HatReads |
| ReportDescriptors.Ps3HatPadding | src/lib/report_descriptors.c:71-75 | defines the items of lines 71-75; properties in Ps3HatPaddingReads |
| ReportDescriptors.Ps3StickGlobals | src/lib/report_descriptors.c:76-82 | defines the items of lines 76-82; properties in Ps3StickGlobalsReads |
| ReportDescriptors.Ps3Sticks | src/lib/report_descriptors.c:83-86 | defines the items of lines 83-86; properties in Ps3SticksReads |
| ReportDescriptors.Ps3PressureUsagesLow | src/lib/report_descriptors.c:87-92 | defines the items of lines 87-92; properties in Ps3PressureUsagesLowReads |
| ReportDescriptors.Ps3PressureUsagesHigh | src/lib/report_descriptors.c:93-98 | defines the items of lines 93-98; properties in Ps3PressureUsagesHighReads |
| ReportDescriptors.Ps3Pressure | src/lib/report_descriptors.c:99-103 | defines the items of lines 99-103; properties in Ps3PressureReads |
| ReportDescriptors.Ps3Feature | src/lib/report_descriptors.c:104-108 | defines the items of lines 104-108; properties in Ps3FeatureReads |
| ReportDescriptors.Ps3Output | src/lib/report_descriptors.c:109-113 | defines the items of lines 109-113; properties in Ps3OutputReads |
| ReportDescriptors.Ps3AxisGlobals | src/lib/report_descriptors.c:114-119 | defines the items of lines 114-119; properties in Ps3AxisGlobalsReads |
| ReportDescriptors.Ps3Axes | src/lib/report_descriptors.c:120-125 | defines the items of lines 120-125; properties in Ps3AxesReads |
| ReportDescriptors.Ps3Close | src/lib/report_descriptors.c:126 | defines the items of lines 126; properties in Ps3CloseReads |
| ReportDescriptors.Ps3OpenReads | src/lib/report_descriptors.c:42-44 | opens a Generic Desktop gamepad application collection |
| ReportDescriptors.Ps3ButtonGlobalsReads | src/lib/report_descriptors.c:45-50 | sets logical and physical range 0..1, size 1, count 13 |
| ReportDescriptors.Ps3ButtonsReads | src/lib/report_descriptors.c:51-56 | adds the 13 one-bit button input field on the Button page |
| ReportDescriptors.Ps3ButtonPaddingReads | src/lib/report_descriptors.c:57-60 | adds 3 constant bits |
| ReportDescriptors.Ps3HatGlobalsReads | src/lib/report_descriptors.c:61-65 | sets logical 0..7, physical 0..315, size 4, count 1 |
| ReportDescriptors.Ps3HatReads | src/lib/report_descriptors.c:66-70 | adds the 4-bit hat field in degrees, with the null-state flag |
| ReportDescriptors.Ps3HatPaddingReads | src/lib/report_descriptors.c:71-75 | adds 4 constant bits with no unit |
| ReportDescriptors.Ps3StickGlobalsReads | src/lib/report_descriptors.c:76-82 | sets range 0..255 and size 8 |
| ReportDescriptors.Ps3SticksReads | src/lib/report_descriptors.c:83-86 | adds 4 stick values at the current Report Size, which is 8 bits by Ps3SizeEightPersists |
| ReportDescriptors.Ps3PressureUsagesLowReads | src/lib/report_descriptors.c:87-92 | selects the vendor page; its usages add no field and change no other global state |
| ReportDescriptors.Ps3PressureUsagesHighReads | src/lib/report_descriptors.c:93-98 | usages alone change neither the global state nor the reports |
| ReportDescriptors.Ps3PressureReads | src/lib/report_descriptors.c:99-103 | adds 12 pressure values at the current Report Size, which is 8 bits by Ps3SizeEightPersists |
| ReportDescriptors.Ps3FeatureReads | src/lib/report_descriptors.c:104-108 | adds a Feature field of 32 values at the current Report Size, which is 8 bits by Ps3SizeEightPersists |
| ReportDescriptors.Ps3OutputReads | src/lib/report_descriptors.c:109-113 | adds an Output field of 32 values at the current Report Size, which is 8 bits by Ps3SizeEightPersists |
| ReportDescriptors.Ps3AxisGlobalsReads | src/lib/report_descriptors.c:114-119 | sets the logical and physical maximum to 1023 and adds no field |
| ReportDescriptors.Ps3AxesReads | src/lib/report_descriptors.c:120-125 | adds four 16-bit axes |
| ReportDescriptors.Ps3CloseReads | src/lib/report_descriptors.c:126 | closes the innermost collection |
| ReportDescriptors.Ps3Layout | src/lib/report_descriptors.c:40-127 | the gamepad descriptor is balanced; its fields are those of Ps3Slots; the input report is 216 bits (27 bytes) and the Feature and Output reports are 256 bits (32 bytes) each |
| ReportDescriptors.Ps3ByteAligned | src/lib/report_descriptors.c:49-125 | every PS3 data field starts on a byte boundary, and each constant padding block completes a byte |
| ReportDescriptors.Ps3RangesFit | src/lib/report_descriptors.c:45-122 | every PS3 field's logical range fits its size: 0..1 in 1 bit, 0..7 in 4, 0..255 in 8, 0..1023 in 16 |
| ReportDescriptors.Ps3HatSwitch | src/lib/report_descriptors.c:61-70 | the hat is input bits 16-19; logical 0..7 spans physical 0..315 degrees at 45 per step; the null-state flag is set and codes 8..15 lie outside the logical range |
| ReportDescriptors.Ps3SizeEightPersists | src/lib/report_descriptors.c:82-121 | lines 83-119 hold no Report Size item, so the size 8 set at line 82 still holds after them |
| ReportDescriptors.Ps3DataFits | src/lib/report_descriptors.c:40-127 | every PS3 item's value fits the data size its macro declares |
| ReportDescriptors.KbdReportDescriptor | src/lib/report_descriptors.c:129-200 | defines the keyboard and mouse descriptor as the keyboard part followed by the mouse part; properties in KbdMouseLayout, KbdByteAligned, KbdRangesFit, KbdNesting, KbdKeysAndMotion and KbdDataFits |
| ReportDescriptors.KbdPart | src/lib/report_descriptors.c:130-163 | defines the keyboard collection as its nine item groups; properties in KbdMouseLayout |
| ReportDescriptors.MousePart | src/lib/report_descriptors.c:164-199 | defines the mouse collection as its nine item groups; properties in KbdMouseLayout |
| ReportDescriptors.KbdSlots | src/lib/report_descriptors.c:129-200 | defines the nine fields the keyboard and mouse descriptor should declare for a configuration; properties in KbdMouseLayout |
| ReportDescriptors.ButtonPadding | src/lib/report_descriptors.c:178-180 | defines the padding 8 - Buttons % 8; properties in ButtonPaddingCompletesByte |
| ReportDescriptors.AxisFlags | src/lib/report_descriptors.c:185-190 | defines the axes' flags, relative exactly when AbsoluteCoords is off; properties in KbdKeysAndMotion |
| ReportDescriptors.KbdOpen | src/lib/report_descriptors.c:130-133 | defines the items of lines 130-133; properties in KbdOpenReads |
| ReportDescriptors.KbdModifierUsages | src/lib/report_descriptors.c:134-136 | defines the items of lines 134-136; properties in KbdModifierUsagesReads |
| ReportDescriptors.KbdModifiers | src/lib/report_descriptors.c:137-141 | defines the items of lines 137-141; properties in KbdModifiersReads |
| ReportDescriptors.KbdReserved | src/lib/report_descriptors.c:142-144 | defines the items of lines 142-144; properties in KbdReservedReads |
| ReportDescriptors.KbdLeds | src/lib/report_descriptors.c:145-151 | defines the items of lines 145-151; properties in KbdLedsReads |
| ReportDescriptors.KbdLedPadding | src/lib/report_descriptors.c:152-154 | defines the items of lines 152-154; properties in KbdLedPaddingReads |
| ReportDescriptors.KbdKeyGlobals | src/lib/report_descriptors.c:155-159 | defines the items of lines 155-159; properties in KbdKeyGlobalsReads |
| ReportDescriptors.KbdKeys | src/lib/report_descriptors.c:160-162 | defines the items of lines 160-162; properties in KbdKeysReads |
| ReportDescriptors.KbdClose | src/lib/report_descriptors.c:163 | defines the items of lines 163; properties in KbdCloseReads |
| ReportDescriptors.MouseOpen | src/lib/report_descriptors.c:164-169 | defines the items of lines 164-169; properties in MouseOpenReads |
| ReportDescriptors.MouseButtonUsages | src/lib/report_descriptors.c:170-172 | defines the items of lines 170-172; properties in MouseButtonUsagesReads |
| ReportDescriptors.MouseButtons | src/lib/report_descriptors.c:173-177 | defines the items of lines 173-177; properties in MouseButtonsReads |
| ReportDescriptors.MouseButtonPadding | src/lib/report_descriptors.c:178-180 | defines the items of lines 178-180; properties in MouseButtonPaddingReads |
| ReportDescriptors.MouseAxisUsages | src/lib/report_descriptors.c:181-184 | defines the items of lines 181-184; properties in MouseAxisUsagesReads |
| ReportDescriptors.MouseAxes | src/lib/report_descriptors.c:185-190 | defines the items of lines 185-190; properties in MouseAxesReads |
| ReportDescriptors.MousePanGlobals | src/lib/report_descriptors.c:191-194 | defines the items of lines 191-194; properties in MousePanGlobalsReads |
| ReportDescriptors.MousePan | src/lib/report_descriptors.c:195-197 | defines the items of lines 195-197; properties in MousePanReads |
| ReportDescriptors.MouseClose | src/lib/report_descriptors.c:198-199 | defines the items of lines 198-199; properties in MouseCloseReads |
| ReportDescriptors.KbdOpenReads | src/lib/report_descriptors.c:130-133 | opens the keyboard collection and selects REPORT_ID_KBD |
| ReportDescriptors.KbdModifierUsagesReads | src/lib/report_descriptors.c:134-136 | sets the usage range 0xE0..0xE7 |
| ReportDescriptors.KbdModifiersReads | src/lib/report_descriptors.c:137-141 | adds eight one-bit modifier inputs carrying those usages |
| ReportDescriptors.KbdReservedReads | src/lib/report_descriptors.c:142-144 | adds one constant input byte |
| ReportDescriptors.KbdLedsReads | src/lib/report_descriptors.c:145-151 | adds five one-bit LED outputs with usages 1..5 |
| ReportDescriptors.KbdLedPaddingReads | src/lib/report_descriptors.c:152-154 | adds 3 constant output bits |
| ReportDescriptors.KbdKeyGlobalsReads | src/lib/report_descriptors.c:155-159 | sets range 0..255 on the keyboard page |
| ReportDescriptors.KbdKeysReads | src/lib/report_descriptors.c:160-162 | adds an array of SIMULTANEOUS_KEYS key-code bytes |
| ReportDescriptors.KbdCloseReads | src/lib/report_descriptors.c:163 | closes the keyboard collection |
| ReportDescriptors.MouseOpenReads | src/lib/report_descriptors.c:164-169 | opens the mouse collection, selects REPORT_ID_MOUSE, and opens the pointing-device collection inside it |
| ReportDescriptors.MouseButtonUsagesReads | src/lib/report_descriptors.c:170-172 | sets the usage range 1..Buttons |
| ReportDescriptors.MouseButtonsReads | src/lib/report_descriptors.c:173-177 | adds Buttons one-bit inputs carrying those usages |
| ReportDescriptors.MouseButtonPaddingReads | src/lib/report_descriptors.c:178-180 | adds one constant field of 8 - Buttons % 8 bits |
| ReportDescriptors.MouseAxisUsagesReads | src/lib/report_descriptors.c:181-184 | the X, Y and wheel usages change only the usage page |
| ReportDescriptors.MouseAxesReads | src/lib/report_descriptors.c:185-190 | adds three signed bytes, -127..127, relative unless AbsoluteCoords |
| ReportDescriptors.MousePanGlobalsReads | src/lib/report_descriptors.c:191-194 | sets the pan's range -127..127 |
| ReportDescriptors.MousePanReads | src/lib/report_descriptors.c:195-197 | adds one relative byte |
| ReportDescriptors.MouseCloseReads | src/lib/report_descriptors.c:198-199 | closes the pointing-device and mouse collections |
| ReportDescriptors.KbdMouseLayout | src/lib/report_descriptors.c:129-200 | with distinct report IDs the descriptor is balanced; its fields are those of KbdSlots; exactly three reports exist: keyboard input of 8·(2 + SIMULTANEOUS_KEYS) bits, keyboard output of 8 bits (5 LEDs + 3 padding), and mouse input of Buttons + (8 - Buttons % 8) + 32 bits |
| ReportDescriptors.ButtonPaddingCompletesByte | src/lib/report_descriptors.c:172-180 | the padding is 1..8 bits; buttons plus padding is a multiple of 8; the padding is a whole byte exactly when Buttons % 8 == 0; the mouse report is whole bytes |
| ReportDescriptors.KbdByteAligned | src/lib/report_descriptors.c:129-200 | every keyboard and mouse data field starts on a byte boundary, each padding block completes a byte, and every report is whole bytes |
| ReportDescriptors.KbdRangesFit | src/lib/report_descriptors.c:137-197 | every keyboard and mouse field's logical range fits its size, including -127..127 in 8 signed bits |
| ReportDescriptors.KbdNesting | src/lib/report_descriptors.c:130-199 | the five keyboard fields lie in the keyboard collection under REPORT_ID_KBD; the four mouse fields lie in the pointing-device collection nested in the mouse collection, in the mouse input report |
| ReportDescriptors.KbdKeysAndMotion | src/lib/report_descriptors.c:155-197 | the keys are an array of SIMULTANEOUS_KEYS bytes 0..255 on the keyboard page; X, Y and wheel are three signed bytes, relative exactly when AbsoluteCoords is off; pan is one signed byte and always relative |
| ReportDescriptors.KbdDataFits | src/lib/report_descriptors.c:129-200 | every item's value fits its declared data size exactly when both report IDs, SIMULTANEOUS_KEYS and Buttons are below 256 |
| ReportDescriptors.KbdModifierUsageRange | src/lib/report_descriptors.c:134-141 | the modifier field carries usages 0xE0..0xE7, one per bit |
| ReportDescriptors.KbdLedUsageRange | src/lib/report_descriptors.c:145-151 | the LED field carries usages 1..5, one per bit |
| ReportDescriptors.MouseButtonUsageRange | src/lib/report_descriptors.c:170-177 | the button field carries usages 1..Buttons, one per bit |

## Left out

- The runtime engine: the tick loop, input handling, controller connection, device-type lookup, authentication and report sending. These are only declared at include/shared_main.h:5-26 and include/shared_main.h:83-84; their bodies are not part of this model.
- The extern LED state arrays. They are modelled only as buffer lengths (`SharedMain.DeclareBuffers`), because code not shown is what writes them. The MPR121 single-byte LED state (include/shared_main.h:60-64) has no size to compute and is left out.
- The host-stack device records of include/shared_main.h:76-104. They are plain records with nothing to compute.
- The request-code and class-code enums (src/lib/usb/std_descriptors.h:186-231). They are bare constants.
- USB control transfers, the host stack and Bluetooth. These are I/O.
- The byte encodings of `HID_RI_*` items and `HID_IOF_*` flags. The header defining them is not part of this model, so the tables are modelled at item level. An item keeps its declared data size (0, 8, 16 or 32 bits) and its value.
- Item flags other than data/constant, array/variable, absolute/relative and null state are not fields of `DataFlags`. The tables only ever name their zero options: NO_WRAP, LINEAR, PREFERRED_STATE, and NON_VOLATILE (bit 7 clear), which the PS3 Feature, Output and axis items (lines 104-113 and 122-125) and the keyboard LEDs (line 151) write. So no bit of any data byte is lost.
- The preprocessor choice of LED technology and the LED counts, and `REPORT_ID_*`, `SIMULTANEOUS_KEYS`, `Buttons` and `AbsoluteCoords`. These become parameters.
- `ReportDescriptors.KbdMouseLayout`, `KbdByteAligned`, `KbdRangesFit`, `KbdNesting` and `KbdKeysAndMotion` assume REPORT_ID_KBD ≠ REPORT_ID_MOUSE. If the two were equal, the mouse fields would continue the keyboard input report. The fold models that case too, but these lemmas do not describe it.
- Usage pages written as 0 at src/lib/report_descriptors.c:134, 145, 170 and 191, and the pan usage written as page 0, usage 0 (line 192), are kept exactly as written. They are not replaced by the Keyboard, LED, Button and Consumer pages.
- Parsing a packed struct reinterprets the first bytes, as overlaying the struct on memory does. Nothing in the bytes is validated; a parse fails only when the buffer is too short.
- `StdDescriptors.StringMacrosAgree` assumes a 2-byte `wchar_t` and NUL-terminated wide literals; `sizeof` on other platforms is not modelled.
- Short-item data sizes are checked against the item's own declared size only. Which size a compiler would choose for a given value is not modelled.

## Findings

| source | as written | input that shows it | evidently intended | confidence | as-written member | corrected member |
|---|---|---|---|---|---|---|
| src/lib/usb/std_descriptors.h:58-61 | `TVERSION_BCD` places `Major & 0xFF` in the high byte in binary, although the macro is documented to encode in Binary Coded Decimal | Major 10, Minor 0, Revision 0 gives 0x0A00, whose high nibbles are not decimal digits | 0x1000: the major version as two BCD digits | low, not executed | StdDescriptors.VersionBcdMajorNotDecimal | StdDescriptors.VersionBcdDecimal |
