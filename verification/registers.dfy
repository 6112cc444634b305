/**
 * The BQ25723 bus addresses and register catalog, and the static lookup
 * from a register offset to its name used by diagnostic dumps.
 */
module Registers {
  import opened WordBytes

  /** Bus address the device answers on by default, and its documented alternate. */
  const DefaultAddress: Byte := 0x6B
  const AlternateAddress: Byte := 0x6A

  // Core control registers.
  const ChargeOption0: Byte := 0x00
  const ChargeCurrent: Byte := 0x02
  const ChargeVoltage: Byte := 0x04
  const OtgVoltage: Byte := 0x06
  const OtgCurrent: Byte := 0x08
  const InputVoltage: Byte := 0x0A
  const VsysMin: Byte := 0x0C
  const IinHost: Byte := 0x0E
  // Status and ADC registers.
  const ChargerStatus: Byte := 0x20
  const ProchotStatus: Byte := 0x22
  const IinDpm: Byte := 0x24
  const AdcVbusPsys: Byte := 0x26
  const AdcIbat: Byte := 0x28
  const AdcIinCmpin: Byte := 0x2A
  const AdcVsysVbat: Byte := 0x2C
  // Identity registers.
  const ManufacturerId: Byte := 0x2E
  const DeviceId: Byte := 0x2F
  // Extended option registers.
  const ChargeOption1: Byte := 0x30
  const ChargeOption2: Byte := 0x32
  const ChargeOption3: Byte := 0x34
  const ProchotOption0: Byte := 0x36
  const ProchotOption1: Byte := 0x38
  const AdcOption: Byte := 0x3A
  const ChargeOption4: Byte := 0x3C
  const VminActProt: Byte := 0x3E

  /** The name reported for every offset outside the catalog. */
  const Unknown: string := "UNKNOWN"

  /** The catalog offsets, in the order they are declared. */
  const Catalog: seq<Byte> := [
    ChargeOption0, ChargeCurrent, ChargeVoltage, OtgVoltage, OtgCurrent,
    InputVoltage, VsysMin, IinHost,
    ChargerStatus, ProchotStatus, IinDpm, AdcVbusPsys, AdcIbat, AdcIinCmpin, AdcVsysVbat,
    ManufacturerId, DeviceId,
    ChargeOption1, ChargeOption2, ChargeOption3, ProchotOption0, ProchotOption1,
    AdcOption, ChargeOption4, VminActProt]

  /**
   * The catalog described by its shape rather than by its entries: the even
   * offsets 0x00-0x0E, 0x20-0x2C and 0x30-0x3E, plus both identity
   * registers 0x2E and 0x2F.
   */
  predicate InCatalogRanges(reg: Byte) {
    || (reg <= 0x0E && reg % 2 == 0)
    || (0x20 <= reg <= 0x2C && reg % 2 == 0)
    || reg == 0x2E
    || reg == 0x2F
    || (0x30 <= reg <= 0x3E && reg % 2 == 0)
  }

  /** Name of a register offset; `Unknown` for offsets outside the catalog. */
  function RegisterName(reg: Byte): (name: string)
    ensures name != Unknown <==> reg in Catalog
    ensures |name| > 0
  {
    if reg == ChargeOption0 then "CHARGE_OPTION_0"
    else if reg == ChargeCurrent then "CHARGE_CURRENT"
    else if reg == ChargeVoltage then "CHARGE_VOLTAGE"
    else if reg == OtgVoltage then "OTG_VOLTAGE"
    else if reg == OtgCurrent then "OTG_CURRENT"
    else if reg == InputVoltage then "INPUT_VOLTAGE"
    else if reg == VsysMin then "VSYS_MIN"
    else if reg == IinHost then "IIN_HOST"
    else if reg == ChargerStatus then "CHARGER_STATUS"
    else if reg == ProchotStatus then "PROCHOT_STATUS"
    else if reg == IinDpm then "IIN_DPM"
    else if reg == AdcVbusPsys then "ADCVBUS_PSYS"
    else if reg == AdcIbat then "ADCIBAT"
    else if reg == AdcIinCmpin then "ADCIINCMPIN"
    else if reg == AdcVsysVbat then "ADCVSYSVBAT"
    else if reg == ManufacturerId then "MANUFACTURER_ID"
    else if reg == DeviceId then "DEVICE_ID"
    else if reg == ChargeOption1 then "CHARGE_OPTION_1"
    else if reg == ChargeOption2 then "CHARGE_OPTION_2"
    else if reg == ChargeOption3 then "CHARGE_OPTION_3"
    else if reg == ProchotOption0 then "PROCHOT_OPTION_0"
    else if reg == ProchotOption1 then "PROCHOT_OPTION_1"
    else if reg == AdcOption then "ADC_OPTION"
    else if reg == ChargeOption4 then "CHARGE_OPTION_4"
    else if reg == VminActProt then "VMIN_ACT_PROT"
    else Unknown
  }

  /** The declared catalog is exactly the offsets of `InCatalogRanges`. */
  lemma CatalogIsRanges(reg: Byte)
    ensures reg in Catalog <==> InCatalogRanges(reg)
  {
    forall i | 0 <= i < |Catalog|
      ensures InCatalogRanges(Catalog[i])
    {
    }
    if reg <= 0x0E && reg % 2 == 0 {
      assert reg in [0x00, 0x02, 0x04, 0x06, 0x08, 0x0A, 0x0C, 0x0E];
    } else if 0x20 <= reg <= 0x2C && reg % 2 == 0 {
      assert reg in [0x20, 0x22, 0x24, 0x26, 0x28, 0x2A, 0x2C];
    } else if 0x30 <= reg <= 0x3E && reg % 2 == 0 {
      assert reg in [0x30, 0x32, 0x34, 0x36, 0x38, 0x3A, 0x3C, 0x3E];
    }
  }

  /** Every offset outside the catalog's ranges is reported as `Unknown`, and only those. */
  lemma UnknownIffOutsideRanges(reg: Byte)
    ensures RegisterName(reg) == Unknown <==> !InCatalogRanges(reg)
  {
    CatalogIsRanges(reg);
  }

  /** The catalog has 25 offsets, no two alike. */
  lemma CatalogSize()
    ensures |Catalog| == 25
    ensures forall i, j :: 0 <= i < j < |Catalog| ==> Catalog[i] != Catalog[j]
  {
  }

  /** Distinct catalog offsets have distinct names. */
  lemma CatalogNamesDistinct(a: Byte, b: Byte)
    requires a in Catalog && b in Catalog && a != b
    ensures RegisterName(a) != RegisterName(b)
  {
  }

  /** The first catalog entry and the device-identity register have their own names. */
  lemma KnownNames()
    ensures RegisterName(0x00) == "CHARGE_OPTION_0"
    ensures RegisterName(DeviceId) == "DEVICE_ID"
  {
    assert RegisterName(0x00) == "CHARGE_OPTION_0";
  }

  /** Offsets just outside the catalog, and the top byte value, are unknown. */
  lemma BoundaryOffsetsUnknown()
    ensures RegisterName(0x01) == Unknown
    ensures RegisterName(0x0F) == Unknown
    ensures RegisterName(0x1E) == Unknown
    ensures RegisterName(0x40) == Unknown
    ensures RegisterName(0xFF) == Unknown
  {
    CatalogIsRanges(0x01);
    CatalogIsRanges(0x0F);
    CatalogIsRanges(0x1E);
    CatalogIsRanges(0x40);
    CatalogIsRanges(0xFF);
  }
}
