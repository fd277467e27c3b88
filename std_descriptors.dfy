/** The standard USB descriptors of src/lib/usb/std_descriptors.h: the helper
    macros that compute descriptor field values, the attribute bit masks, and
    the packed little-endian records of sections 9.6.1 to 9.6.7 of the USB 2.0
    specification (plus the Interface Association descriptor of the USB IAD
    ECN), each in its LUFA-named form and its USB-IF-named twin.

    A packed struct on the wire is its fields in declaration order, one byte
    per `uint8_t` and two bytes, low byte first, per `uint16_t`. Reading a
    descriptor back means overlaying the struct on the first bytes of a
    buffer: nothing is validated, only the length must suffice. */
module StdDescriptors {
  import opened Bytes

  // ---------------------------------------------------------------------
  // Descriptor type codes (enum TUSB_DescriptorTypes_t)

  const DTYPE_Device: byte := 0x01
  const DTYPE_Configuration: byte := 0x02
  const DTYPE_String: byte := 0x03
  const DTYPE_Interface: byte := 0x04
  const DTYPE_Endpoint: byte := 0x05
  const DTYPE_DeviceQualifier: byte := 0x06
  const DTYPE_Other: byte := 0x07
  const DTYPE_InterfacePower: byte := 0x08
  const DTYPE_InterfaceAssociation: byte := 0x0B

  // Serialised sizes of the fixed-size records
  const HeaderLength: nat := 2
  const DeviceLength: nat := 18
  const DeviceQualifierLength: nat := 10
  const ConfigurationHeaderLength: nat := 9
  const InterfaceLength: nat := 9
  const InterfaceAssociationLength: nat := 8
  const EndpointLength: nat := 7

  // ---------------------------------------------------------------------
  // TUSB_CONFIG_POWER_MA

  /** bMaxPower is expressed in 2 mA units: the macro halves the current,
      rounding down (`mA >> 1` on a non-negative value). */
  function ConfigPowerMA(mA: nat): (units: nat)
    ensures 2 * units <= mA < 2 * units + 2
  {
    mA / 2
  }

  /** The value stored in the `uint8_t` MaxPowerConsumption field: the
      macro's result, truncated to 8 bits by the assignment. */
  function MaxPowerField(mA: nat): (b: byte)
  {
    ConfigPowerMA(mA) % 0x100
  }

  /** The macro's result fits the byte-wide field exactly up to 511 mA; from
      512 mA on the stored field no longer equals the macro's value. */
  lemma ConfigPowerFitsByte(mA: nat)
    ensures ConfigPowerMA(mA) < 0x100 <==> mA <= 511
    ensures MaxPowerField(mA) == ConfigPowerMA(mA) <==> mA <= 511
  {
  }

  // ---------------------------------------------------------------------
  // TUSB_STRING_LEN, TUSB_STRING_DESCRIPTOR, TUSB_STRING_DESCRIPTOR_ARRAY

  /** Byte length of a string descriptor holding `unicodeChars` UTF-16 code
      units: the header plus two bytes per unit. */
  function StringLen(unicodeChars: nat): (n: nat)
    ensures n % 2 == 0 && n >= HeaderLength
    ensures (n - HeaderLength) / 2 == unicodeChars
  {
    HeaderLength + unicodeChars * 2
  }

  /** The length fits the 8-bit Size field exactly for at most 126 units. */
  lemma StringLenFitsByte(unicodeChars: nat)
    ensures StringLen(unicodeChars) < 0x100 <==> unicodeChars <= 126
  {
  }

  // ---------------------------------------------------------------------
  // TVERSION_BCD

  /** The version word as the macro computes it on C `int` operands (their
      32-bit two's-complement patterns): Major's low byte in bits 15..8,
      Minor's low nibble in bits 7..4, Revision's low nibble in bits 3..0. */
  function VersionBcd(major: bv32, minor: bv32, revision: bv32): (v: bv32)
  {
    ((major & 0xFF) << 8) | ((minor & 0x0F) << 4) | (revision & 0x0F)
  }

  /** The word fits 16 bits, and masking recovers each masked operand. */
  lemma VersionBcdFields(major: bv32, minor: bv32, revision: bv32)
    ensures VersionBcd(major, minor, revision) < 0x1_0000
    ensures VersionBcd(major, minor, revision) >> 8 == major & 0xFF
    ensures (VersionBcd(major, minor, revision) >> 4) & 0x0F == minor & 0x0F
    ensures VersionBcd(major, minor, revision) & 0x0F == revision & 0x0F
  {
  }

  /** Two version words are equal exactly when the masked operands are. */
  lemma VersionBcdInjective(a: bv32, b: bv32, c: bv32, x: bv32, y: bv32, z: bv32)
    ensures VersionBcd(a, b, c) == VersionBcd(x, y, z)
        <==> (a & 0xFF == x & 0xFF && b & 0x0F == y & 0x0F && c & 0x0F == z & 0x0F)
  {
    if VersionBcd(a, b, c) == VersionBcd(x, y, z) {
      VersionBcdFields(a, b, c);
      VersionBcdFields(x, y, z);
    }
    if a & 0xFF == x & 0xFF && b & 0x0F == y & 0x0F && c & 0x0F == z & 0x0F {
      VersionBcdOfMasked(a, b, c);
      VersionBcdOfMasked(x, y, z);
    }
  }

  /** The word depends on the operands only through their masked bits. */
  lemma VersionBcdOfMasked(major: bv32, minor: bv32, revision: bv32)
    ensures VersionBcd(major, minor, revision) == VersionBcd(major & 0xFF, minor & 0x0F, revision & 0x0F)
  {
  }

  /** Every nibble of the low 16 bits is a decimal digit. */
  predicate IsBcd16(v: bv32)
  {
    && v < 0x1_0000
    && (v >> 12) & 0xF <= 9 && (v >> 8) & 0xF <= 9
    && (v >> 4) & 0xF <= 9 && v & 0xF <= 9
  }

  /** As written, Major is masked but not converted to decimal digits, so a
      two-digit major version does not come out in BCD. */
  lemma VersionBcdMajorNotDecimal()
    ensures VersionBcd(10, 0, 0) == 0x0A00
    ensures !IsBcd16(VersionBcd(10, 0, 0))
    ensures VersionBcdDecimal(10, 0, 0) == 0x1000
  {
  }

  /** The encoding the macro's documentation describes: Major as two decimal
      digits in the high byte, Minor and Revision as one digit each. */
  function VersionBcdDecimal(major: bv32, minor: bv32, revision: bv32): (v: bv32)
    requires major < 100 && minor < 10 && revision < 10
    ensures IsBcd16(v)
    ensures 10 * ((v >> 12) & 0xF) + ((v >> 8) & 0xF) == major
    ensures (v >> 4) & 0xF == minor && v & 0xF == revision
  {
    ((major / 10) << 12) | ((major % 10) << 8) | (minor << 4) | revision
  }

  /** For one-digit versions the macro already yields the BCD word. */
  lemma VersionBcdAgreesBelowTen(major: bv32, minor: bv32, revision: bv32)
    requires major < 10 && minor < 10 && revision < 10
    ensures VersionBcd(major, minor, revision) == VersionBcdDecimal(major, minor, revision)
  {
  }

  // ---------------------------------------------------------------------
  // Configuration attribute masks (TUSB_CONFIG_TATTR_*)

  const CONFIG_ATTR_RESERVED: bv8 := 0x80
  const CONFIG_ATTR_SELFPOWERED: bv8 := 0x40
  const CONFIG_ATTR_REMOTEWAKEUP: bv8 := 0x20

  predicate SingleBit(m: bv8)
  {
    m != 0 && m & (m - 1) == 0
  }

  /** An attributes byte as descriptors build it: the reserved bit OR-ed with
      the optional self-powered and remote-wakeup masks. */
  function ConfigAttributes(selfPowered: bool, remoteWakeup: bool): (a: bv8)
    ensures a & CONFIG_ATTR_RESERVED != 0
    ensures (a & CONFIG_ATTR_SELFPOWERED != 0) == selfPowered
    ensures (a & CONFIG_ATTR_REMOTEWAKEUP != 0) == remoteWakeup
    ensures a & 0x1F == 0
  {
    CONFIG_ATTR_RESERVED
      | (if selfPowered then CONFIG_ATTR_SELFPOWERED else 0)
      | (if remoteWakeup then CONFIG_ATTR_REMOTEWAKEUP else 0)
  }

  /** The three masks are distinct single bits, and any byte OR-ed with the
      reserved mask has bit 7 set. */
  lemma ConfigMasksDisjoint(a: bv8)
    ensures SingleBit(CONFIG_ATTR_RESERVED) && SingleBit(CONFIG_ATTR_SELFPOWERED)
    ensures SingleBit(CONFIG_ATTR_REMOTEWAKEUP)
    ensures CONFIG_ATTR_RESERVED & CONFIG_ATTR_SELFPOWERED == 0
    ensures CONFIG_ATTR_RESERVED & CONFIG_ATTR_REMOTEWAKEUP == 0
    ensures CONFIG_ATTR_SELFPOWERED & CONFIG_ATTR_REMOTEWAKEUP == 0
    ensures (a | CONFIG_ATTR_RESERVED) >> 7 == 1
  {
  }

  // ---------------------------------------------------------------------
  // Endpoint attribute masks (EP_TYPE_*, ENDPOINT_TATTR_*, ENDPOINT_USAGE_*)

  datatype EndpointType = Control | Isochronous | Bulk | Interrupt
  datatype SyncType = NoSync | Async | Adaptive | Sync
  datatype UsageType = DataEndpoint | Feedback | ImplicitFeedback

  /** EP_TYPE_*: bits 1..0 */
  function TypeMask(t: EndpointType): bv8
  {
    match t
    case Control => 0x00
    case Isochronous => 0x01
    case Bulk => 0x02
    case Interrupt => 0x03
  }

  /** ENDPOINT_TATTR_*: bits 3..2 */
  function SyncMask(s: SyncType): bv8
  {
    match s
    case NoSync => 0 << 2
    case Async => 1 << 2
    case Adaptive => 2 << 2
    case Sync => 3 << 2
  }

  /** ENDPOINT_USAGE_*: bits 5..4 */
  function UsageMask(u: UsageType): bv8
  {
    match u
    case DataEndpoint => 0 << 4
    case Feedback => 1 << 4
    case ImplicitFeedback => 2 << 4
  }

  /** An endpoint's bmAttributes: one mask of each kind OR-ed together. */
  function EndpointAttributes(t: EndpointType, s: SyncType, u: UsageType): (a: bv8)
    ensures a & 0x03 == TypeMask(t)
    ensures a & 0x0C == SyncMask(s)
    ensures a & 0x30 == UsageMask(u)
    ensures a & 0xC0 == 0
  {
    TypeMask(t) | SyncMask(s) | UsageMask(u)
  }

  /** Splits bmAttributes back into its three parts by masking; None for the
      reserved usage code 3 and for set bits 7..6. */
  function DecodeEndpointAttributes(a: bv8): (r: Option<(EndpointType, SyncType, UsageType)>)
  {
    if a & 0xC0 != 0 || a & 0x30 == 0x30 then None
    else
      var t := match a & 0x03
        case 0 => Control case 1 => Isochronous case 2 => Bulk case _ => Interrupt;
      var s := match a & 0x0C
        case 0 => NoSync case 4 => Async case 8 => Adaptive case _ => Sync;
      var u := if a & 0x30 == 0 then DataEndpoint else if a & 0x30 == 0x10 then Feedback else ImplicitFeedback;
      Some((t, s, u))
  }

  /** Every part is recovered from the combined byte, so combining is
      injective; and every byte that decodes is the combination of its
      parts. */
  lemma EndpointAttributesRoundTrip(t: EndpointType, s: SyncType, u: UsageType, a: bv8)
    ensures DecodeEndpointAttributes(EndpointAttributes(t, s, u)) == Some((t, s, u))
    ensures DecodeEndpointAttributes(a).Some? ==>
      var (t', s', u') := DecodeEndpointAttributes(a).value; EndpointAttributes(t', s', u') == a
  {
  }

  /** Corollary: distinct (type, sync, usage) triples give distinct bytes. */
  lemma EndpointAttributesInjective(t: EndpointType, s: SyncType, u: UsageType,
                                    t': EndpointType, s': SyncType, u': UsageType)
    requires EndpointAttributes(t, s, u) == EndpointAttributes(t', s', u')
    ensures t == t' && s == s' && u == u'
  {
    EndpointAttributesRoundTrip(t, s, u, 0);
    EndpointAttributesRoundTrip(t', s', u', 0);
  }

  // ---------------------------------------------------------------------
  // Descriptor header (TUSB_Descriptor_Header_t / TUSB_StdDescriptor_Header_t)

  datatype Header = Header(Size: byte, Type: byte)
  datatype StdHeader = StdHeader(bLength: byte, bDescriptorType: byte)

  function SerializeHeader(h: Header): seq<byte>
  {
    [h.Size, h.Type]
  }

  function ParseHeader(bs: seq<byte>): (r: Option<Header>)
    ensures r.Some? <==> |bs| >= HeaderLength
    ensures r.Some? ==> SerializeHeader(r.value) == bs[..HeaderLength]
  {
    if |bs| < HeaderLength then None else Some(Header(bs[0], bs[1]))
  }

  lemma HeaderRoundTrip(h: Header, rest: seq<byte>)
    ensures |SerializeHeader(h)| == HeaderLength
    ensures ParseHeader(SerializeHeader(h) + rest) == Some(h)
  {
  }

  function ToStdHeader(h: Header): StdHeader
  {
    StdHeader(h.Size, h.Type)
  }

  function SerializeStdHeader(h: StdHeader): seq<byte>
  {
    [h.bLength, h.bDescriptorType]
  }

  lemma HeaderTwinsAgree(h: Header)
    ensures SerializeStdHeader(ToStdHeader(h)) == SerializeHeader(h)
  {
  }

  // ---------------------------------------------------------------------
  // Device descriptor (section 9.6.1)

  datatype Device = Device(
    Header: Header,
    USBSpecification: u16,
    Class: byte, SubClass: byte, Protocol: byte,
    Endpoint0Size: byte,
    VendorID: u16, ProductID: u16, ReleaseNumber: u16,
    ManufacturerStrIndex: byte, ProductStrIndex: byte, SerialNumStrIndex: byte,
    NumberOfConfigurations: byte)

  datatype StdDevice = StdDevice(
    bLength: byte, bDescriptorType: byte,
    bcdUSB: u16,
    bDeviceClass: byte, bDeviceSubClass: byte, bDeviceProtocol: byte,
    bMaxPacketSize0: byte,
    idVendor: u16, idProduct: u16, bcdDevice: u16,
    iManufacturer: byte, iProduct: byte, iSerialNumber: byte,
    bNumConfigurations: byte)

  function SerializeDevice(d: Device): seq<byte>
  {
    SerializeHeader(d.Header) + Le16(d.USBSpecification)
      + [d.Class, d.SubClass, d.Protocol, d.Endpoint0Size]
      + Le16(d.VendorID) + Le16(d.ProductID) + Le16(d.ReleaseNumber)
      + [d.ManufacturerStrIndex, d.ProductStrIndex, d.SerialNumStrIndex, d.NumberOfConfigurations]
  }

  function ParseDevice(bs: seq<byte>): (r: Option<Device>)
    ensures r.Some? <==> |bs| >= DeviceLength
    ensures r.Some? ==> SerializeDevice(r.value) == bs[..DeviceLength]
  {
    if |bs| < DeviceLength then None
    else
      FromLe16RoundTrip(bs[2], bs[3]);
      FromLe16RoundTrip(bs[8], bs[9]);
      FromLe16RoundTrip(bs[10], bs[11]);
      FromLe16RoundTrip(bs[12], bs[13]);
      Some(Device(Header(bs[0], bs[1]), FromLe16(bs[2], bs[3]),
                     bs[4], bs[5], bs[6], bs[7],
                     FromLe16(bs[8], bs[9]), FromLe16(bs[10], bs[11]), FromLe16(bs[12], bs[13]),
                     bs[14], bs[15], bs[16], bs[17]))
  }

  /** Headers a host accepts: bLength is the record's size and
      bDescriptorType names the record. */
  predicate DeviceHeaderValid(d: Device)
  {
    d.Header == Header(DeviceLength as byte, DTYPE_Device)
  }

  /** 18 bytes, 16-bit words low byte first, read back unchanged; with a
      valid header the first byte is the serialised length. */
  lemma DeviceRoundTrip(d: Device, rest: seq<byte>)
    ensures |SerializeDevice(d)| == DeviceLength
    ensures ParseDevice(SerializeDevice(d) + rest) == Some(d)
    ensures SerializeDevice(d)[2] == d.USBSpecification % 0x100 && SerializeDevice(d)[3] == d.USBSpecification / 0x100
    ensures SerializeDevice(d)[8] == d.VendorID % 0x100 && SerializeDevice(d)[9] == d.VendorID / 0x100
    ensures SerializeDevice(d)[10] == d.ProductID % 0x100 && SerializeDevice(d)[11] == d.ProductID / 0x100
    ensures SerializeDevice(d)[12] == d.ReleaseNumber % 0x100 && SerializeDevice(d)[13] == d.ReleaseNumber / 0x100
    ensures DeviceHeaderValid(d) ==> SerializeDevice(d)[0] == |SerializeDevice(d)|
  {
  }

  function ToStdDevice(d: Device): StdDevice
  {
    StdDevice(d.Header.Size, d.Header.Type, d.USBSpecification,
              d.Class, d.SubClass, d.Protocol, d.Endpoint0Size,
              d.VendorID, d.ProductID, d.ReleaseNumber,
              d.ManufacturerStrIndex, d.ProductStrIndex, d.SerialNumStrIndex,
              d.NumberOfConfigurations)
  }

  function SerializeStdDevice(d: StdDevice): seq<byte>
  {
    [d.bLength, d.bDescriptorType] + Le16(d.bcdUSB)
      + [d.bDeviceClass, d.bDeviceSubClass, d.bDeviceProtocol, d.bMaxPacketSize0]
      + Le16(d.idVendor) + Le16(d.idProduct) + Le16(d.bcdDevice)
      + [d.iManufacturer, d.iProduct, d.iSerialNumber, d.bNumConfigurations]
  }

  lemma DeviceTwinsAgree(d: Device)
    ensures SerializeStdDevice(ToStdDevice(d)) == SerializeDevice(d)
  {
  }

  // ---------------------------------------------------------------------
  // Device qualifier descriptor (section 9.6.2)

  datatype DeviceQualifier = DeviceQualifier(
    Header: Header,
    USBSpecification: u16,
    Class: byte, SubClass: byte, Protocol: byte,
    Endpoint0Size: byte, NumberOfConfigurations: byte, Reserved: byte)

  datatype StdDeviceQualifier = StdDeviceQualifier(
    bLength: byte, bDescriptorType: byte,
    bcdUSB: u16,
    bDeviceClass: byte, bDeviceSubClass: byte, bDeviceProtocol: byte,
    bMaxPacketSize0: byte, bNumConfigurations: byte, bReserved: byte)

  function SerializeDeviceQualifier(q: DeviceQualifier): seq<byte>
  {
    SerializeHeader(q.Header) + Le16(q.USBSpecification)
      + [q.Class, q.SubClass, q.Protocol, q.Endpoint0Size, q.NumberOfConfigurations, q.Reserved]
  }

  function ParseDeviceQualifier(bs: seq<byte>): (r: Option<DeviceQualifier>)
    ensures r.Some? <==> |bs| >= DeviceQualifierLength
    ensures r.Some? ==> SerializeDeviceQualifier(r.value) == bs[..DeviceQualifierLength]
  {
    if |bs| < DeviceQualifierLength then None
    else
      FromLe16RoundTrip(bs[2], bs[3]);
      Some(DeviceQualifier(Header(bs[0], bs[1]), FromLe16(bs[2], bs[3]),
                              bs[4], bs[5], bs[6], bs[7], bs[8], bs[9]))
  }

  lemma DeviceQualifierRoundTrip(q: DeviceQualifier, rest: seq<byte>)
    ensures |SerializeDeviceQualifier(q)| == DeviceQualifierLength
    ensures ParseDeviceQualifier(SerializeDeviceQualifier(q) + rest) == Some(q)
    ensures SerializeDeviceQualifier(q)[2] == q.USBSpecification % 0x100
    ensures SerializeDeviceQualifier(q)[3] == q.USBSpecification / 0x100
    ensures q.Header == Header(DeviceQualifierLength as byte, DTYPE_DeviceQualifier) ==>
      SerializeDeviceQualifier(q)[0] == |SerializeDeviceQualifier(q)|
  {
  }

  function ToStdDeviceQualifier(q: DeviceQualifier): StdDeviceQualifier
  {
    StdDeviceQualifier(q.Header.Size, q.Header.Type, q.USBSpecification,
                       q.Class, q.SubClass, q.Protocol, q.Endpoint0Size,
                       q.NumberOfConfigurations, q.Reserved)
  }

  function SerializeStdDeviceQualifier(q: StdDeviceQualifier): seq<byte>
  {
    [q.bLength, q.bDescriptorType] + Le16(q.bcdUSB)
      + [q.bDeviceClass, q.bDeviceSubClass, q.bDeviceProtocol, q.bMaxPacketSize0,
         q.bNumConfigurations, q.bReserved]
  }

  lemma DeviceQualifierTwinsAgree(q: DeviceQualifier)
    ensures SerializeStdDeviceQualifier(ToStdDeviceQualifier(q)) == SerializeDeviceQualifier(q)
  {
  }

  // ---------------------------------------------------------------------
  // Configuration descriptor header (section 9.6.3)

  datatype ConfigurationHeader = ConfigurationHeader(
    Header: Header,
    TotalConfigurationSize: u16,
    TotalInterfaces: byte, ConfigurationNumber: byte, ConfigurationStrIndex: byte,
    ConfigAttributes: byte, MaxPowerConsumption: byte)

  datatype StdConfigurationHeader = StdConfigurationHeader(
    bLength: byte, bDescriptorType: byte,
    wTotalLength: u16,
    bNumInterfaces: byte, bConfigurationValue: byte, iConfiguration: byte,
    bmAttributes: byte, bMaxPower: byte)

  function SerializeConfigurationHeader(c: ConfigurationHeader): seq<byte>
  {
    SerializeHeader(c.Header) + Le16(c.TotalConfigurationSize)
      + [c.TotalInterfaces, c.ConfigurationNumber, c.ConfigurationStrIndex,
         c.ConfigAttributes, c.MaxPowerConsumption]
  }

  function ParseConfigurationHeader(bs: seq<byte>): (r: Option<ConfigurationHeader>)
    ensures r.Some? <==> |bs| >= ConfigurationHeaderLength
    ensures r.Some? ==> SerializeConfigurationHeader(r.value) == bs[..ConfigurationHeaderLength]
  {
    if |bs| < ConfigurationHeaderLength then None
    else
      FromLe16RoundTrip(bs[2], bs[3]);
      Some(ConfigurationHeader(Header(bs[0], bs[1]), FromLe16(bs[2], bs[3]),
                                  bs[4], bs[5], bs[6], bs[7], bs[8]))
  }

  lemma ConfigurationHeaderRoundTrip(c: ConfigurationHeader, rest: seq<byte>)
    ensures |SerializeConfigurationHeader(c)| == ConfigurationHeaderLength
    ensures ParseConfigurationHeader(SerializeConfigurationHeader(c) + rest) == Some(c)
    ensures SerializeConfigurationHeader(c)[2] == c.TotalConfigurationSize % 0x100
    ensures SerializeConfigurationHeader(c)[3] == c.TotalConfigurationSize / 0x100
    ensures c.Header == Header(ConfigurationHeaderLength as byte, DTYPE_Configuration) ==>
      SerializeConfigurationHeader(c)[0] == |SerializeConfigurationHeader(c)|
  {
  }

  /** A configuration header whose attributes and power come from the masks
      and TUSB_CONFIG_POWER_MA: on the wire, byte 7 has the reserved bit set
      and byte 8 times 2 mA is within 1 mA of the requested current, as long
      as that current is at most 511 mA. */
  lemma ConfigurationFieldsOnWire(c: ConfigurationHeader, selfPowered: bool, remoteWakeup: bool, mA: nat)
    requires c.ConfigAttributes == ConfigAttributes(selfPowered, remoteWakeup) as int
    requires c.MaxPowerConsumption == MaxPowerField(mA)
    requires mA <= 511
    ensures (SerializeConfigurationHeader(c)[7] as bv8) & CONFIG_ATTR_RESERVED != 0
    ensures var power: int := SerializeConfigurationHeader(c)[8]; 2 * power <= mA <= 2 * power + 1
  {
    ConfigurationHeaderRoundTrip(c, []);
    ConfigPowerFitsByte(mA);
  }

  function ToStdConfigurationHeader(c: ConfigurationHeader): StdConfigurationHeader
  {
    StdConfigurationHeader(c.Header.Size, c.Header.Type, c.TotalConfigurationSize,
                           c.TotalInterfaces, c.ConfigurationNumber, c.ConfigurationStrIndex,
                           c.ConfigAttributes, c.MaxPowerConsumption)
  }

  function SerializeStdConfigurationHeader(c: StdConfigurationHeader): seq<byte>
  {
    [c.bLength, c.bDescriptorType] + Le16(c.wTotalLength)
      + [c.bNumInterfaces, c.bConfigurationValue, c.iConfiguration, c.bmAttributes, c.bMaxPower]
  }

  lemma ConfigurationHeaderTwinsAgree(c: ConfigurationHeader)
    ensures SerializeStdConfigurationHeader(ToStdConfigurationHeader(c)) == SerializeConfigurationHeader(c)
  {
  }

  // ---------------------------------------------------------------------
  // Interface descriptor (section 9.6.5)

  datatype Interface = Interface(
    Header: Header,
    InterfaceNumber: byte, AlternateSetting: byte, TotalEndpoints: byte,
    Class: byte, SubClass: byte, Protocol: byte,
    InterfaceStrIndex: byte)

  datatype StdInterface = StdInterface(
    bLength: byte, bDescriptorType: byte,
    bInterfaceNumber: byte, bAlternateSetting: byte, bNumEndpoints: byte,
    bInterfaceClass: byte, bInterfaceSubClass: byte, bInterfaceProtocol: byte,
    iInterface: byte)

  function SerializeInterface(i: Interface): seq<byte>
  {
    SerializeHeader(i.Header)
      + [i.InterfaceNumber, i.AlternateSetting, i.TotalEndpoints,
         i.Class, i.SubClass, i.Protocol, i.InterfaceStrIndex]
  }

  function ParseInterface(bs: seq<byte>): (r: Option<Interface>)
    ensures r.Some? <==> |bs| >= InterfaceLength
    ensures r.Some? ==> SerializeInterface(r.value) == bs[..InterfaceLength]
  {
    if |bs| < InterfaceLength then None
    else Some(Interface(Header(bs[0], bs[1]), bs[2], bs[3], bs[4], bs[5], bs[6], bs[7], bs[8]))
  }

  lemma InterfaceRoundTrip(i: Interface, rest: seq<byte>)
    ensures |SerializeInterface(i)| == InterfaceLength
    ensures ParseInterface(SerializeInterface(i) + rest) == Some(i)
    ensures i.Header == Header(InterfaceLength as byte, DTYPE_Interface) ==>
      SerializeInterface(i)[0] == |SerializeInterface(i)|
  {
  }

  function ToStdInterface(i: Interface): StdInterface
  {
    StdInterface(i.Header.Size, i.Header.Type, i.InterfaceNumber, i.AlternateSetting,
                 i.TotalEndpoints, i.Class, i.SubClass, i.Protocol, i.InterfaceStrIndex)
  }

  function SerializeStdInterface(i: StdInterface): seq<byte>
  {
    [i.bLength, i.bDescriptorType, i.bInterfaceNumber, i.bAlternateSetting, i.bNumEndpoints,
     i.bInterfaceClass, i.bInterfaceSubClass, i.bInterfaceProtocol, i.iInterface]
  }

  lemma InterfaceTwinsAgree(i: Interface)
    ensures SerializeStdInterface(ToStdInterface(i)) == SerializeInterface(i)
  {
  }

  // ---------------------------------------------------------------------
  // Interface association descriptor (USB IAD ECN)

  datatype InterfaceAssociation = InterfaceAssociation(
    Header: Header,
    FirstInterfaceIndex: byte, TotalInterfaces: byte,
    Class: byte, SubClass: byte, Protocol: byte,
    IADStrIndex: byte)

  datatype StdInterfaceAssociation = StdInterfaceAssociation(
    bLength: byte, bDescriptorType: byte,
    bFirstInterface: byte, bInterfaceCount: byte,
    bFunctionClass: byte, bFunctionSubClass: byte, bFunctionProtocol: byte,
    iFunction: byte)

  function SerializeInterfaceAssociation(a: InterfaceAssociation): seq<byte>
  {
    SerializeHeader(a.Header)
      + [a.FirstInterfaceIndex, a.TotalInterfaces, a.Class, a.SubClass, a.Protocol, a.IADStrIndex]
  }

  function ParseInterfaceAssociation(bs: seq<byte>): (r: Option<InterfaceAssociation>)
    ensures r.Some? <==> |bs| >= InterfaceAssociationLength
    ensures r.Some? ==> SerializeInterfaceAssociation(r.value) == bs[..InterfaceAssociationLength]
  {
    if |bs| < InterfaceAssociationLength then None
    else Some(InterfaceAssociation(Header(bs[0], bs[1]), bs[2], bs[3], bs[4], bs[5], bs[6], bs[7]))
  }

  lemma InterfaceAssociationRoundTrip(a: InterfaceAssociation, rest: seq<byte>)
    ensures |SerializeInterfaceAssociation(a)| == InterfaceAssociationLength
    ensures ParseInterfaceAssociation(SerializeInterfaceAssociation(a) + rest) == Some(a)
    ensures a.Header == Header(InterfaceAssociationLength as byte, DTYPE_InterfaceAssociation) ==>
      SerializeInterfaceAssociation(a)[0] == |SerializeInterfaceAssociation(a)|
  {
  }

  function ToStdInterfaceAssociation(a: InterfaceAssociation): StdInterfaceAssociation
  {
    StdInterfaceAssociation(a.Header.Size, a.Header.Type, a.FirstInterfaceIndex, a.TotalInterfaces,
                            a.Class, a.SubClass, a.Protocol, a.IADStrIndex)
  }

  function SerializeStdInterfaceAssociation(a: StdInterfaceAssociation): seq<byte>
  {
    [a.bLength, a.bDescriptorType, a.bFirstInterface, a.bInterfaceCount,
     a.bFunctionClass, a.bFunctionSubClass, a.bFunctionProtocol, a.iFunction]
  }

  lemma InterfaceAssociationTwinsAgree(a: InterfaceAssociation)
    ensures SerializeStdInterfaceAssociation(ToStdInterfaceAssociation(a)) == SerializeInterfaceAssociation(a)
  {
  }

  // ---------------------------------------------------------------------
  // Endpoint descriptor (section 9.6.6)

  datatype Endpoint = Endpoint(
    Header: Header,
    EndpointAddress: byte, Attributes: byte,
    EndpointSize: u16,
    PollingIntervalMS: byte)

  datatype StdEndpoint = StdEndpoint(
    bLength: byte, bDescriptorType: byte,
    bEndpointAddress: byte, bmAttributes: byte,
    wMaxPacketSize: u16,
    bInterval: byte)

  function SerializeEndpoint(e: Endpoint): seq<byte>
  {
    SerializeHeader(e.Header) + [e.EndpointAddress, e.Attributes]
      + Le16(e.EndpointSize) + [e.PollingIntervalMS]
  }

  function ParseEndpoint(bs: seq<byte>): (r: Option<Endpoint>)
    ensures r.Some? <==> |bs| >= EndpointLength
    ensures r.Some? ==> SerializeEndpoint(r.value) == bs[..EndpointLength]
  {
    if |bs| < EndpointLength then None
    else
      FromLe16RoundTrip(bs[4], bs[5]);
      Some(Endpoint(Header(bs[0], bs[1]), bs[2], bs[3], FromLe16(bs[4], bs[5]), bs[6]))
  }

  lemma EndpointRoundTrip(e: Endpoint, rest: seq<byte>)
    ensures |SerializeEndpoint(e)| == EndpointLength
    ensures ParseEndpoint(SerializeEndpoint(e) + rest) == Some(e)
    ensures SerializeEndpoint(e)[4] == e.EndpointSize % 0x100
    ensures SerializeEndpoint(e)[5] == e.EndpointSize / 0x100
    ensures e.Header == Header(EndpointLength as byte, DTYPE_Endpoint) ==>
      SerializeEndpoint(e)[0] == |SerializeEndpoint(e)|
  {
  }

  /** An endpoint whose Attributes byte was built from the masks: byte 3 on
      the wire decodes to the type, sync and usage it was built from. */
  lemma EndpointAttributesOnWire(e: Endpoint, t: EndpointType, s: SyncType, u: UsageType)
    requires e.Attributes == EndpointAttributes(t, s, u) as int
    ensures DecodeEndpointAttributes(SerializeEndpoint(e)[3] as bv8) == Some((t, s, u))
  {
    EndpointRoundTrip(e, []);
    EndpointAttributesRoundTrip(t, s, u, 0);
  }

  function ToStdEndpoint(e: Endpoint): StdEndpoint
  {
    StdEndpoint(e.Header.Size, e.Header.Type, e.EndpointAddress, e.Attributes,
                e.EndpointSize, e.PollingIntervalMS)
  }

  function SerializeStdEndpoint(e: StdEndpoint): seq<byte>
  {
    [e.bLength, e.bDescriptorType, e.bEndpointAddress, e.bmAttributes]
      + Le16(e.wMaxPacketSize) + [e.bInterval]
  }

  lemma EndpointTwinsAgree(e: Endpoint)
    ensures SerializeStdEndpoint(ToStdEndpoint(e)) == SerializeEndpoint(e)
  {
  }

  // ---------------------------------------------------------------------
  // String descriptor (section 9.6.7)

  datatype StringDescriptor = StringDescriptor(Header: Header, UnicodeString: seq<u16>)
  datatype StdStringDescriptor = StdStringDescriptor(bLength: byte, bDescriptorType: byte, bString: seq<u16>)

  function SerializeString(s: StringDescriptor): (bs: seq<byte>)
    ensures |bs| == StringLen(|s.UnicodeString|)
  {
    SerializeHeader(s.Header) + Le16s(s.UnicodeString)
  }

  /** Reads the header, then as many whole code units as its Size announces
      beyond the header; None when Size is below the header's own length or
      the buffer is shorter than announced. */
  function ParseString(bs: seq<byte>): (r: Option<StringDescriptor>)
    ensures r.Some? ==> |bs| >= StringLen(|r.value.UnicodeString|)
    ensures r.Some? ==> SerializeString(r.value) == bs[..StringLen(|r.value.UnicodeString|)]
  {
    if |bs| < HeaderLength || bs[0] < HeaderLength then None
    else
      var n := (bs[0] - HeaderLength) / 2;
      if |bs| < HeaderLength + 2 * n then None
      else
        FromLe16sRoundTrip(bs[HeaderLength..], n);
        assert bs[..HeaderLength + 2 * n] == bs[..HeaderLength] + bs[HeaderLength..][..2 * n];
        Some(StringDescriptor(Header(bs[0], bs[1]), FromLe16s(bs[HeaderLength..], n)))
  }

  /** A string descriptor whose Size is TUSB_STRING_LEN of its length reads
      back unchanged, and its first byte is its serialised length. */
  lemma {:induction false} StringRoundTrip(s: StringDescriptor, rest: seq<byte>)
    requires s.Header.Size == StringLen(|s.UnicodeString|)
    ensures ParseString(SerializeString(s) + rest) == Some(s)
    ensures SerializeString(s)[0] == |SerializeString(s)|
  {
    var bs := SerializeString(s) + rest;
    assert bs[HeaderLength..] == Le16s(s.UnicodeString) + rest;
    Le16sRoundTrip(s.UnicodeString, rest);
  }

  /** TUSB_STRING_DESCRIPTOR(String) with a wide literal of `literal`
      code units: the flexible array holds the whole literal, NUL
      terminator included; `sizeof` counts that terminator (2 bytes per
      unit), the macro subtracts it again, and the sum is truncated to the
      8-bit Size field. */
  function StringDescriptorFromLiteral(literal: seq<u16>): StringDescriptor
  {
    var sizeofLiteral := 2 * (|literal| + 1);
    StringDescriptor(Header((HeaderLength + (sizeofLiteral - 2)) % 0x100, DTYPE_String), literal + [0])
  }

  /** TUSB_STRING_DESCRIPTOR_ARRAY(...): Size from the byte size of the
      `uint16_t` array, truncated to 8 bits; the array holds only the
      listed units. */
  function StringDescriptorFromArray(units: seq<u16>): StringDescriptor
  {
    StringDescriptor(Header((HeaderLength + 2 * |units|) % 0x100, DTYPE_String), units)
  }

  /** Both macros announce the same Size, which is TUSB_STRING_LEN of the
      string exactly when it has at most 126 code units. The literal form's
      bytes are the array form's followed by the two bytes of the NUL unit,
      which lie past the announced Size: read from either image the
      descriptor is the array form's. */
  lemma {:induction false} StringMacrosAgree(units: seq<u16>, rest: seq<byte>)
    ensures StringDescriptorFromLiteral(units).Header == StringDescriptorFromArray(units).Header
    ensures StringDescriptorFromLiteral(units).UnicodeString == units + [0]
    ensures SerializeString(StringDescriptorFromLiteral(units)) == SerializeString(StringDescriptorFromArray(units)) + [0, 0]
    ensures StringDescriptorFromArray(units).Header.Size == StringLen(|units|) <==> |units| <= 126
    ensures |units| <= 126 ==>
      && ParseString(SerializeString(StringDescriptorFromArray(units)) + rest) == Some(StringDescriptorFromArray(units))
      && ParseString(SerializeString(StringDescriptorFromLiteral(units)) + rest) == Some(StringDescriptorFromArray(units))
  {
    var a := StringDescriptorFromArray(units);
    var l := StringDescriptorFromLiteral(units);
    Le16sAppend(units, [0]);
    assert SerializeString(l) == SerializeString(a) + [0, 0];
    if |units| <= 126 {
      StringRoundTrip(a, rest);
      StringRoundTrip(a, [0, 0] + rest);
      assert SerializeString(l) + rest == SerializeString(a) + ([0, 0] + rest);
    }
  }

  function ToStdString(s: StringDescriptor): StdStringDescriptor
  {
    StdStringDescriptor(s.Header.Size, s.Header.Type, s.UnicodeString)
  }

  function SerializeStdString(s: StdStringDescriptor): seq<byte>
  {
    [s.bLength, s.bDescriptorType] + Le16s(s.bString)
  }

  lemma StringTwinsAgree(s: StringDescriptor)
    ensures SerializeStdString(ToStdString(s)) == SerializeString(s)
  {
  }
}
