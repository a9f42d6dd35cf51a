/** The packed bit layouts the charger reports and accepts.

    Fields are packed least-significant bit first, in declaration order, and in a
    multi-byte value byte 0 holds the least significant eight bits. Every decoder
    is total: each bit pattern of its width names a variant, reserved codes
    included. */
module Bitfields {

  datatype Option<T> = None | Some(value: T)

  // ---------------------------------------------------------------------------
  // Mode: a 4-bit field with five valid, non-contiguous codes

  /** Operating mode of the charger's power path. */
  datatype Mode = Off | Buck | Charge | Boost | Otg

  function ModeCode(m: Mode): bv4
  {
    match m
    case Off => 0x0
    case Buck => 0x4
    case Charge => 0x5
    case Boost => 0x9
    case Otg => 0xa
  }

  /** Decoding accepts exactly the codes of the five modes and rejects every other
      4-bit pattern. */
  function DecodeMode(c: bv4): (r: Option<Mode>)
    ensures r.Some? <==> exists m :: ModeCode(m) == c
    ensures r.Some? ==> ModeCode(r.value) == c
  {
    if c == 0x0 then Some(Mode.Off)
    else if c == 0x4 then Some(Buck)
    else if c == 0x5 then Some(Charge)
    else if c == 0x9 then Some(Boost)
    else if c == 0xa then Some(Otg)
    else None
  }

  lemma ModeRoundTrip(m: Mode)
    ensures DecodeMode(ModeCode(m)) == Some(m)
  {
  }

  // ---------------------------------------------------------------------------
  // The sub-field enumerations of Details; each covers every code of its width

  datatype ChgIn = Undervoltage | BelowBatt | Overvoltage | Valid

  function ChgInCode(c: ChgIn): bv2
  {
    match c
    case Undervoltage => 0
    case BelowBatt => 1
    case Overvoltage => 2
    case Valid => 3
  }

  function DecodeChgIn(b: bv2): (c: ChgIn)
    ensures ChgInCode(c) == b
  {
    if b == 0 then Undervoltage
    else if b == 1 then BelowBatt
    else if b == 2 then ChgIn.Overvoltage
    else Valid
  }

  datatype BatterySense = Connected | PositiveOpen | NegativeOpen | BothOpen

  function BatterySenseCode(s: BatterySense): bv2
  {
    match s
    case Connected => 0
    case PositiveOpen => 1
    case NegativeOpen => 2
    case BothOpen => 3
  }

  function DecodeBatterySense(b: bv2): (s: BatterySense)
    ensures BatterySenseCode(s) == b
  {
    if b == 0 then Connected
    else if b == 1 then PositiveOpen
    else if b == 2 then NegativeOpen
    else BothOpen
  }

  datatype TemperatureRegulation = BelowThreshold | AboveThreshold

  function TemperatureRegulationCode(t: TemperatureRegulation): bv1
  {
    match t
    case BelowThreshold => 0
    case AboveThreshold => 1
  }

  function DecodeTemperatureRegulation(b: bv1): (t: TemperatureRegulation)
    ensures TemperatureRegulationCode(t) == b
  {
    if b == 0 then BelowThreshold else AboveThreshold
  }

  /** Code 6 is reserved; it still decodes, to Reserved. */
  datatype BatteryDetails =
    | BatteryRemoved
    | PrequalificationVoltage
    | TimerFault
    | RegularVoltage
    | LowVoltage
    | Overvoltage
    | Reserved
    | BatteryOnly

  function BatteryDetailsCode(d: BatteryDetails): bv3
  {
    match d
    case BatteryRemoved => 0
    case PrequalificationVoltage => 1
    case TimerFault => 2
    case RegularVoltage => 3
    case LowVoltage => 4
    case Overvoltage => 5
    case Reserved => 6
    case BatteryOnly => 7
  }

  function DecodeBatteryDetails(b: bv3): (d: BatteryDetails)
    ensures BatteryDetailsCode(d) == b
  {
    if b == 0 then BatteryRemoved
    else if b == 1 then PrequalificationVoltage
    else if b == 2 then BatteryDetails.TimerFault
    else if b == 3 then RegularVoltage
    else if b == 4 then LowVoltage
    else if b == 5 then BatteryDetails.Overvoltage
    else if b == 6 then BatteryDetails.Reserved
    else BatteryOnly
  }

  /** Codes 0x5, 0x9 and 0xf are reserved; they still decode, to Reserved05,
      Reserved09 and Reserved0F. */
  datatype ChargerDetails =
    | Prequalification
    | ConstantCurrent
    | ConstantVoltage
    | TopOff
    | Done
    | Reserved05
    | TimerFault
    | QBattDisabled
    | Off
    | Reserved09
    | HighTemperature
    | WatchdogTimer
    | Jeita
    | ThermistorRemoval
    | SuspendPin
    | Reserved0F

  function ChargerDetailsCode(d: ChargerDetails): bv4
  {
    match d
    case Prequalification => 0x0
    case ConstantCurrent => 0x1
    case ConstantVoltage => 0x2
    case TopOff => 0x3
    case Done => 0x4
    case Reserved05 => 0x5
    case TimerFault => 0x6
    case QBattDisabled => 0x7
    case Off => 0x8
    case Reserved09 => 0x9
    case HighTemperature => 0xa
    case WatchdogTimer => 0xb
    case Jeita => 0xc
    case ThermistorRemoval => 0xd
    case SuspendPin => 0xe
    case Reserved0F => 0xf
  }

  function DecodeChargerDetails(b: bv4): (d: ChargerDetails)
    ensures ChargerDetailsCode(d) == b
  {
    if b == 0x0 then Prequalification
    else if b == 0x1 then ConstantCurrent
    else if b == 0x2 then ConstantVoltage
    else if b == 0x3 then TopOff
    else if b == 0x4 then Done
    else if b == 0x5 then Reserved05
    else if b == 0x6 then ChargerDetails.TimerFault
    else if b == 0x7 then QBattDisabled
    else if b == 0x8 then ChargerDetails.Off
    else if b == 0x9 then Reserved09
    else if b == 0xa then HighTemperature
    else if b == 0xb then WatchdogTimer
    else if b == 0xc then Jeita
    else if b == 0xd then ThermistorRemoval
    else if b == 0xe then SuspendPin
    else Reserved0F
  }

  /** Code 7 is reserved; it still decodes, to Reserved. */
  datatype ThermistorDetails = Cold | Cool | Normal | Warm | Hot | Removed | Disabled | Reserved

  function ThermistorDetailsCode(t: ThermistorDetails): bv3
  {
    match t
    case Cold => 0
    case Cool => 1
    case Normal => 2
    case Warm => 3
    case Hot => 4
    case Removed => 5
    case Disabled => 6
    case Reserved => 7
  }

  function DecodeThermistorDetails(b: bv3): (t: ThermistorDetails)
    ensures ThermistorDetailsCode(t) == b
  {
    if b == 0 then Cold
    else if b == 1 then Cool
    else if b == 2 then Normal
    else if b == 3 then Warm
    else if b == 4 then Hot
    else if b == 5 then Removed
    else if b == 6 then Disabled
    else ThermistorDetails.Reserved
  }

  /** Every enumeration code decodes back to the variant it came from: together
      with the decoders' ensures, each code and its variant are in one-to-one
      correspondence. */
  lemma EnumCodesRoundTrip(c: ChgIn, s: BatterySense, t: TemperatureRegulation,
                           b: BatteryDetails, d: ChargerDetails, h: ThermistorDetails)
    ensures DecodeChgIn(ChgInCode(c)) == c
    ensures DecodeBatterySense(BatterySenseCode(s)) == s
    ensures DecodeTemperatureRegulation(TemperatureRegulationCode(t)) == t
    ensures DecodeBatteryDetails(BatteryDetailsCode(b)) == b
    ensures DecodeChargerDetails(ChargerDetailsCode(d)) == d
    ensures DecodeThermistorDetails(ThermistorDetailsCode(h)) == h
  {
  }

  // ---------------------------------------------------------------------------
  // ChargerInterrupts: 8 one-bit flags; bit 2 has no accessor but is carried

  /** The charger interrupt flags, bit 0 first. `reserved` is bit 2: it has no
      named accessor, but a value read from the device keeps it, so converting
      back to a byte gives the byte that was read. */
  datatype ChargerInterrupts = ChargerInterrupts(
    bypassNode: bool,
    disqbat: bool,
    reserved: bool,
    battery: bool,
    charger: bool,
    inputCurrentLimit: bool,
    chgin: bool,
    adaptiveInputCurrentLoop: bool)

  /** The flag set with no bit set. */
  const NO_INTERRUPTS := ChargerInterrupts(false, false, false, false, false, false, false, false)

  function InterruptsFromByte(b: bv8): ChargerInterrupts
  {
    ChargerInterrupts(
      b & 0x01 != 0, b & 0x02 != 0, b & 0x04 != 0, b & 0x08 != 0,
      b & 0x10 != 0, b & 0x20 != 0, b & 0x40 != 0, b & 0x80 != 0)
  }

  function InterruptsToByte(f: ChargerInterrupts): bv8
  {
    (if f.bypassNode then 0x01 else 0) |
    (if f.disqbat then 0x02 else 0) |
    (if f.reserved then 0x04 else 0) |
    (if f.battery then 0x08 else 0) |
    (if f.charger then 0x10 else 0) |
    (if f.inputCurrentLimit then 0x20 else 0) |
    (if f.chgin then 0x40 else 0) |
    (if f.adaptiveInputCurrentLoop then 0x80 else 0)
  }

  /** Every byte survives decoding and re-encoding unchanged, reserved bit included. */
  lemma InterruptsByteRoundTrip(b: bv8)
    ensures InterruptsToByte(InterruptsFromByte(b)) == b
  {
  }

  lemma InterruptsValueRoundTrip(f: ChargerInterrupts)
    ensures InterruptsFromByte(InterruptsToByte(f)) == f
  {
  }

  /** Bit i of the encoded byte is set exactly when the i-th declared flag is. */
  lemma InterruptsBitLayout(f: ChargerInterrupts)
    ensures var b := InterruptsToByte(f);
      && (b & 0x01 != 0 <==> f.bypassNode)
      && (b & 0x02 != 0 <==> f.disqbat)
      && (b & 0x04 != 0 <==> f.reserved)
      && (b & 0x08 != 0 <==> f.battery)
      && (b & 0x10 != 0 <==> f.charger)
      && (b & 0x20 != 0 <==> f.inputCurrentLimit)
      && (b & 0x40 != 0 <==> f.chgin)
      && (b & 0x80 != 0 <==> f.adaptiveInputCurrentLoop)
  {
  }

  /** The flag set in which every flag of `f` is flipped. */
  function Complement(f: ChargerInterrupts): (g: ChargerInterrupts)
  {
    ChargerInterrupts(!f.bypassNode, !f.disqbat, !f.reserved, !f.battery,
                      !f.charger, !f.inputCurrentLimit, !f.chgin,
                      !f.adaptiveInputCurrentLoop)
  }

  /** The bitwise complement of an encoded flag set encodes the flipped flags:
      in the mask register a source is enabled (bit clear) exactly when its flag
      was true. */
  lemma InterruptsComplement(f: ChargerInterrupts)
    ensures InterruptsFromByte(!InterruptsToByte(f)) == Complement(f)
    ensures InterruptsToByte(Complement(f)) == !InterruptsToByte(f)
  {
  }

  // ---------------------------------------------------------------------------
  // BypassNodeDetails: 4 one-bit flags

  datatype BypassNodeDetails = BypassNodeDetails(
    otgCurrentLimit: bool,
    boostCurrentLimit: bool,
    buckCurrentLimit: bool,
    boostOn: bool)

  function BypassFromBits(b: bv4): BypassNodeDetails
  {
    BypassNodeDetails(b & 0x1 != 0, b & 0x2 != 0, b & 0x4 != 0, b & 0x8 != 0)
  }

  function BypassToBits(d: BypassNodeDetails): bv4
  {
    (if d.otgCurrentLimit then 0x1 else 0) |
    (if d.boostCurrentLimit then 0x2 else 0) |
    (if d.buckCurrentLimit then 0x4 else 0) |
    (if d.boostOn then 0x8 else 0)
  }

  lemma BypassBitsRoundTrip(b: bv4)
    ensures BypassToBits(BypassFromBits(b)) == b
  {
  }

  lemma BypassValueRoundTrip(d: BypassNodeDetails)
    ensures BypassFromBits(BypassToBits(d)) == d
  {
  }

  /** Bit i of the encoded nibble is set exactly when the i-th declared flag is. */
  lemma BypassBitLayout(d: BypassNodeDetails)
    ensures var b := BypassToBits(d);
      && (b & 0x1 != 0 <==> d.otgCurrentLimit)
      && (b & 0x2 != 0 <==> d.boostCurrentLimit)
      && (b & 0x4 != 0 <==> d.buckCurrentLimit)
      && (b & 0x8 != 0 <==> d.boostOn)
  {
  }

  // ---------------------------------------------------------------------------
  // Details: a 24-bit snapshot of seven sub-fields and five reserved bits

  datatype Details = Details(
    sense: BatterySense,
    chgin: ChgIn,
    charger: ChargerDetails,
    battery: BatteryDetails,
    temp: TemperatureRegulation,
    bypass: BypassNodeDetails,
    thermistor: ThermistorDetails)

  /** The widths of the declared fields of Details, in declaration order:
      reserved, sense, reserved, chgin, reserved, charger, battery, temp,
      bypass, thermistor, reserved. */
  const DETAILS_WIDTHS: seq<nat> := [1, 2, 2, 2, 1, 4, 3, 1, 4, 3, 1]

  /** The bit offset of the k-th declared field: the widths of the fields before
      it, summed. */
  function Offset(widths: seq<nat>, k: nat): nat
    requires k <= |widths|
  {
    if k == 0 then 0 else Offset(widths, k - 1) + widths[k - 1]
  }

  /** Packing in declaration order never moves a field back: the offset of a
      later field is at least that of an earlier one. */
  lemma {:induction false} OffsetMonotone(widths: seq<nat>, j: nat, k: nat)
    requires j <= k <= |widths|
    ensures Offset(widths, j) <= Offset(widths, k)
    decreases k
  {
    if j < k {
      OffsetMonotone(widths, j, k - 1);
    }
  }

  /** Under the packing rule the declared fields occupy disjoint bit ranges,
      in declaration order, all inside the total width: field j ends no later
      than field k begins. */
  lemma {:induction false} FieldsDisjoint(widths: seq<nat>, j: nat, k: nat)
    requires j < k < |widths|
    ensures Offset(widths, j) + widths[j] <= Offset(widths, k)
    ensures Offset(widths, k) + widths[k] <= Offset(widths, |widths|)
  {
    OffsetMonotone(widths, j + 1, k);
    OffsetMonotone(widths, k + 1, |widths|);
  }

  const SENSE_OFFSET: bv24 := 1
  const CHGIN_OFFSET: bv24 := 5
  const CHARGER_OFFSET: bv24 := 8
  const BATTERY_OFFSET: bv24 := 12
  const TEMP_OFFSET: bv24 := 15
  const BYPASS_OFFSET: bv24 := 16
  const THERMISTOR_OFFSET: bv24 := 20

  /** The bits of the 24-bit word that belong to some field: all but 0, 3, 4, 7
      and 23. */
  const DETAILS_USED: bv24 := 0x7f_ff66

  /** The offsets the codec uses are those that packing the declared fields in
      order yields, and the declared widths fill exactly 24 bits. */
  lemma {:induction false} DetailsLayout()
    ensures |DETAILS_WIDTHS| == 11
    ensures Offset(DETAILS_WIDTHS, 1) == SENSE_OFFSET as nat
    ensures Offset(DETAILS_WIDTHS, 3) == CHGIN_OFFSET as nat
    ensures Offset(DETAILS_WIDTHS, 5) == CHARGER_OFFSET as nat
    ensures Offset(DETAILS_WIDTHS, 6) == BATTERY_OFFSET as nat
    ensures Offset(DETAILS_WIDTHS, 7) == TEMP_OFFSET as nat
    ensures Offset(DETAILS_WIDTHS, 8) == BYPASS_OFFSET as nat
    ensures Offset(DETAILS_WIDTHS, 9) == THERMISTOR_OFFSET as nat
    ensures Offset(DETAILS_WIDTHS, 11) == 24
  {
  }

  /** The declared fields of Details, reserved spans included, occupy disjoint
      bit ranges in declaration order, all inside the 24 bits; in particular the
      seven named fields lie in the ranges [1, 3), [5, 7), [8, 12), [12, 15),
      [15, 16), [16, 20) and [20, 23). */
  lemma DetailsFieldsDisjoint()
    ensures forall j, k :: 0 <= j < k < |DETAILS_WIDTHS| ==>
      Offset(DETAILS_WIDTHS, j) + DETAILS_WIDTHS[j] <= Offset(DETAILS_WIDTHS, k)
    ensures forall k :: 0 <= k < |DETAILS_WIDTHS| ==> Offset(DETAILS_WIDTHS, k) + DETAILS_WIDTHS[k] <= 24
    ensures && SENSE_OFFSET as nat + 2 <= CHGIN_OFFSET as nat
            && CHGIN_OFFSET as nat + 2 <= CHARGER_OFFSET as nat
            && CHARGER_OFFSET as nat + 4 <= BATTERY_OFFSET as nat
            && BATTERY_OFFSET as nat + 3 <= TEMP_OFFSET as nat
            && TEMP_OFFSET as nat + 1 <= BYPASS_OFFSET as nat
            && BYPASS_OFFSET as nat + 4 <= THERMISTOR_OFFSET as nat
            && THERMISTOR_OFFSET as nat + 3 <= 24
  {
    DetailsLayout();
    forall j, k | 0 <= j < k < |DETAILS_WIDTHS|
      ensures Offset(DETAILS_WIDTHS, j) + DETAILS_WIDTHS[j] <= Offset(DETAILS_WIDTHS, k)
    {
      FieldsDisjoint(DETAILS_WIDTHS, j, k);
    }
    forall k | 0 <= k < |DETAILS_WIDTHS|
      ensures Offset(DETAILS_WIDTHS, k) + DETAILS_WIDTHS[k] <= 24
    {
      if k == 0 {
        FieldsDisjoint(DETAILS_WIDTHS, 0, 1);
      } else {
        FieldsDisjoint(DETAILS_WIDTHS, 0, k);
      }
    }
    FieldsDisjoint(DETAILS_WIDTHS, 1, 3);
    FieldsDisjoint(DETAILS_WIDTHS, 3, 5);
    FieldsDisjoint(DETAILS_WIDTHS, 5, 6);
    FieldsDisjoint(DETAILS_WIDTHS, 6, 7);
    FieldsDisjoint(DETAILS_WIDTHS, 7, 8);
    FieldsDisjoint(DETAILS_WIDTHS, 8, 9);
    FieldsDisjoint(DETAILS_WIDTHS, 9, 10);
  }

  /** The 24-bit word of three bytes, byte 0 least significant. */
  function DetailsWord(bytes: seq<bv8>): bv24
    requires |bytes| == 3
  {
    bytes[0] as bv24 | ((bytes[1] as bv24) << 8) | ((bytes[2] as bv24) << 16)
  }

  /** The three bytes of a 24-bit word, least significant first. */
  function DetailsBytes(w: bv24): (bytes: seq<bv8>)
    ensures |bytes| == 3
  {
    [(w & 0xff) as bv8, ((w >> 8) & 0xff) as bv8, ((w >> 16) & 0xff) as bv8]
  }

  lemma WordBytesRoundTrip(bytes: seq<bv8>, w: bv24)
    requires |bytes| == 3
    ensures DetailsBytes(DetailsWord(bytes)) == bytes
    ensures DetailsWord(DetailsBytes(w)) == w
  {
  }

  /** The raw bits of each field of the Details word, before the fields'
      enumerations are applied. */
  datatype DetailsBits = DetailsBits(
    sense: bv2, chgin: bv2, charger: bv4, battery: bv3, temp: bv1, bypass: bv4, thermistor: bv3)

  /** Cuts a word into its fields at the offsets of the layout. */
  function Unpack(w: bv24): DetailsBits
  {
    DetailsBits(
      ((w >> SENSE_OFFSET) & 0x3) as bv2,
      ((w >> CHGIN_OFFSET) & 0x3) as bv2,
      ((w >> CHARGER_OFFSET) & 0xf) as bv4,
      ((w >> BATTERY_OFFSET) & 0x7) as bv3,
      ((w >> TEMP_OFFSET) & 0x1) as bv1,
      ((w >> BYPASS_OFFSET) & 0xf) as bv4,
      ((w >> THERMISTOR_OFFSET) & 0x7) as bv3)
  }

  /** Places each field at its offset; the reserved bits are zero. */
  function Pack(f: DetailsBits): bv24
  {
    ((f.sense as bv24) << SENSE_OFFSET) |
    ((f.chgin as bv24) << CHGIN_OFFSET) |
    ((f.charger as bv24) << CHARGER_OFFSET) |
    ((f.battery as bv24) << BATTERY_OFFSET) |
    ((f.temp as bv24) << TEMP_OFFSET) |
    ((f.bypass as bv24) << BYPASS_OFFSET) |
    ((f.thermistor as bv24) << THERMISTOR_OFFSET)
  }

  /** The fields occupy disjoint bit ranges: packing and cutting again gives
      each field back. */
  lemma UnpackPack(f: DetailsBits)
    ensures Unpack(Pack(f)) == f
  {
  }

  /** Cutting and packing again keeps exactly the used bits. */
  lemma PackUnpack(w: bv24)
    ensures Pack(Unpack(w)) == w & DETAILS_USED
  {
  }

  /** Cutting looks at the used bits only. */
  lemma UnpackIgnoresReserved(w: bv24)
    ensures Unpack(w & DETAILS_USED) == Unpack(w)
  {
  }

  function DecodeDetailsWord(w: bv24): Details
  {
    var f := Unpack(w);
    Details(
      DecodeBatterySense(f.sense),
      DecodeChgIn(f.chgin),
      DecodeChargerDetails(f.charger),
      DecodeBatteryDetails(f.battery),
      DecodeTemperatureRegulation(f.temp),
      BypassFromBits(f.bypass),
      DecodeThermistorDetails(f.thermistor))
  }

  /** Decoding three bytes read from the device; total over all 2^24 patterns. */
  function DecodeDetails(bytes: seq<bv8>): Details
    requires |bytes| == 3
  {
    DecodeDetailsWord(DetailsWord(bytes))
  }

  /** The word of a Details value, reserved bits zero. */
  function EncodeDetailsWord(d: Details): bv24
  {
    Pack(DetailsBits(
      BatterySenseCode(d.sense),
      ChgInCode(d.chgin),
      ChargerDetailsCode(d.charger),
      BatteryDetailsCode(d.battery),
      TemperatureRegulationCode(d.temp),
      BypassToBits(d.bypass),
      ThermistorDetailsCode(d.thermistor)))
  }

  function EncodeDetails(d: Details): (bytes: seq<bv8>)
  {
    DetailsBytes(EncodeDetailsWord(d))
  }

  /** No reserved bit of the encoding is ever set. */
  lemma EncodeDetailsReservedZero(d: Details)
    ensures EncodeDetailsWord(d) & !DETAILS_USED == 0
  {
  }

  /** Decoding an encoded Details gives it back. */
  lemma DetailsDecodeEncode(d: Details)
    ensures DecodeDetails(EncodeDetails(d)) == d
  {
    var w := EncodeDetailsWord(d);
    WordBytesRoundTrip(DetailsBytes(w), w);
    UnpackPack(DetailsBits(
      BatterySenseCode(d.sense), ChgInCode(d.chgin), ChargerDetailsCode(d.charger),
      BatteryDetailsCode(d.battery), TemperatureRegulationCode(d.temp),
      BypassToBits(d.bypass), ThermistorDetailsCode(d.thermistor)));
    EnumCodesRoundTrip(d.chgin, d.sense, d.temp, d.battery, d.charger, d.thermistor);
    BypassValueRoundTrip(d.bypass);
  }

  /** The reserved bits never influence a decoded field. */
  lemma DetailsIgnoresReserved(w: bv24)
    ensures DecodeDetailsWord(w) == DecodeDetailsWord(w & DETAILS_USED)
  {
    UnpackIgnoresReserved(w);
  }

  /** Flipping any one reserved bit (0, 3, 4, 7 or 23) leaves the decoded value
      unchanged. */
  lemma DetailsReservedBit(bytes: seq<bv8>, i: nat)
    requires |bytes| == 3
    requires i == 0 || i == 3 || i == 4 || i == 7 || i == 23
    ensures DecodeDetailsWord(DetailsWord(bytes) ^ (1 << i)) == DecodeDetails(bytes)
  {
    var w := DetailsWord(bytes);
    if i == 0 {
      FlipReserved(w, 1 << 0);
    } else if i == 3 {
      FlipReserved(w, 1 << 3);
    } else if i == 4 {
      FlipReserved(w, 1 << 4);
    } else if i == 7 {
      FlipReserved(w, 1 << 7);
    } else {
      FlipReserved(w, 1 << 23);
    }
  }

  /** Flipping bits that lie outside every field leaves the decoded value
      unchanged. */
  lemma FlipReserved(w: bv24, bits: bv24)
    requires bits & DETAILS_USED == 0
    ensures DecodeDetailsWord(w ^ bits) == DecodeDetailsWord(w)
  {
    assert (w ^ bits) & DETAILS_USED == w & DETAILS_USED;
    DetailsIgnoresReserved(w);
    DetailsIgnoresReserved(w ^ bits);
  }


  /** Re-encoding decoded bytes reproduces them with the reserved bits cleared,
      and every other bit kept. */
  lemma DetailsEncodeDecode(bytes: seq<bv8>)
    requires |bytes| == 3
    ensures EncodeDetails(DecodeDetails(bytes)) == DetailsBytes(DetailsWord(bytes) & DETAILS_USED)
  {
    var w := DetailsWord(bytes);
    PackUnpack(w);
    BypassBitsRoundTrip(Unpack(w).bypass);
    assert EncodeDetailsWord(DecodeDetails(bytes)) == Pack(Unpack(w));
  }

  /** Three zero bytes decode to the zeroth variant of every field. */
  lemma DetailsZero()
    ensures DecodeDetails([0, 0, 0]) == Details(
      Connected, Undervoltage, Prequalification, BatteryRemoved, BelowThreshold,
      BypassNodeDetails(false, false, false, false), Cold)
  {
  }
}
