/**
 * The persistence records and the conversions from domain values to them.
 */
module Mappers {

  import opened Ids
  import Domain

  /** The persisted crop-production record. */
  datatype GormCropProduction = GormCropProduction(
    id: Uuid,
    farmId: Uuid,
    cropType: string,
    isIrrigated: bool,
    isInsured: bool)

  /** The persisted farm record with its crop productions. */
  datatype GormFarm = GormFarm(
    id: Uuid,
    name: string,
    landArea: real,
    unitMeasure: string,
    address: string,
    productions: seq<GormCropProduction>)

  /**
   * The crop productions `ToGormCropProductions` builds: one record per
   * input, in order, carrying only the crop type and the two flags; the
   * id and farm id are left at their zero value.
   */
  function GormCropProductions(domainCrops: seq<Domain.CropProduction>): (crops: seq<GormCropProduction>)
    ensures |crops| == |domainCrops|
    ensures forall i :: 0 <= i < |crops| ==>
      && crops[i].cropType == domainCrops[i].cropType
      && crops[i].isIrrigated == domainCrops[i].isIrrigated
      && crops[i].isInsured == domainCrops[i].isInsured
      && crops[i].id == Nil
      && crops[i].farmId == Nil
  {
    if domainCrops == [] then
      []
    else
      var crop := domainCrops[|domainCrops| - 1];
      GormCropProductions(domainCrops[..|domainCrops| - 1])
        + [GormCropProduction(Nil, Nil, crop.cropType, crop.isIrrigated, crop.isInsured)]
  }

  /** `ToGormCropProductions`: appends one record per input crop production. */
  method ToGormCropProductions(domainCrops: seq<Domain.CropProduction>) returns (crops: seq<GormCropProduction>)
    ensures crops == GormCropProductions(domainCrops)
  {
    crops := [];
    for i := 0 to |domainCrops|
      invariant crops == GormCropProductions(domainCrops[..i])
    {
      var crop := domainCrops[i];
      crops := crops + [GormCropProduction(Nil, Nil, crop.cropType, crop.isIrrigated, crop.isInsured)];
      assert domainCrops[..i + 1][..i] == domainCrops[..i];
    }
    assert domainCrops[..|domainCrops|] == domainCrops;
  }

  /** `ToGormFarm`: copies the farm's own fields and converts its crop productions. */
  function ToGormFarm(domainFarm: Domain.Farm): (r: GormFarm)
    ensures r.id == domainFarm.id && r.name == domainFarm.name
    ensures r.landArea == domainFarm.landArea
    ensures r.unitMeasure == domainFarm.unitMeasure && r.address == domainFarm.address
    ensures r.productions == GormCropProductions(domainFarm.cropProductions)
    ensures |r.productions| == |domainFarm.cropProductions|
  {
    GormFarm(
      domainFarm.id,
      domainFarm.name,
      domainFarm.landArea,
      domainFarm.unitMeasure,
      domainFarm.address,
      GormCropProductions(domainFarm.cropProductions))
  }

  /**
   * The conversion forgets the crop productions' ids: two lists that differ
   * only in ids map to the same records.
   */
  lemma GormCropProductionsIgnoresIds(a: seq<Domain.CropProduction>, b: seq<Domain.CropProduction>)
    requires |a| == |b|
    requires forall i :: 0 <= i < |a| ==> Domain.EraseIds(a[i]) == Domain.EraseIds(b[i])
    ensures GormCropProductions(a) == GormCropProductions(b)
  {
  }

  /** The conversion distributes over concatenation, so it maps each element on its own. */
  lemma GormCropProductionsAppend(a: seq<Domain.CropProduction>, b: seq<Domain.CropProduction>)
    ensures GormCropProductions(a + b) == GormCropProductions(a) + GormCropProductions(b)
  {
  }
}
