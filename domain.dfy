/**
 * The domain package: crop types and their validation, the checking
 * constructor of a crop production, the farm aggregate, and the farm
 * repository that the create-farm use case hands its farm to.
 */
module Domain {

  import opened Wrappers
  import opened Ids

  /** `CropType` is a string type; only four of its values are valid. */
  type CropType = string

  const CropTypeRice: CropType := "RICE"
  const CropTypeCorn: CropType := "CORN"
  const CropTypeSoybean: CropType := "SOYBEANS"
  const CropTypeCoffee: CropType := "COFFEE"

  /** The closed set of crop types the domain accepts. */
  const ValidCropTypes: set<CropType> := {CropTypeRice, CropTypeCorn, CropTypeSoybean, CropTypeCoffee}

  /** A crop production of a farm. */
  datatype CropProduction = CropProduction(
    id: Uuid,
    farmId: Uuid,
    cropType: string,
    isIrrigated: bool,
    isInsured: bool)

  /** A farm together with its crop productions. */
  datatype Farm = Farm(
    id: Uuid,
    name: string,
    landArea: real,
    unitMeasure: string,
    address: string,
    cropProductions: seq<CropProduction>)

  /** The two errors `NewCropProduction` can return. */
  datatype CropProductionError = ErrInvalidCropType | ErrInvalidFarmID
  {
    /** The error's text. */
    function Message(): (msg: string)
      ensures msg != ""
      ensures ErrInvalidCropType? <==> msg == "invalid crop type"
      ensures ErrInvalidFarmID? <==> msg == "invalid farm ID"
    {
      match this
      case ErrInvalidCropType => "invalid crop type"
      case ErrInvalidFarmID => "invalid farm ID"
    }
  }

  /** `CropType.IsValid`: true exactly for the four enumerated crop types. */
  function IsValid(c: CropType): (b: bool)
    ensures b <==> c in ValidCropTypes
  {
    match c
    case "RICE" => true
    case "CORN" => true
    case "SOYBEANS" => true
    case "COFFEE" => true
    case _ => false
  }

  /** `CropType.String`: the underlying string, unchanged. */
  function String(c: CropType): (s: string)
    ensures s == c
  {
    c
  }

  /** What every crop production built by `NewCropProduction` satisfies. */
  predicate WellFormed(p: CropProduction)
  {
    p.farmId != Nil && p.cropType in ValidCropTypes
  }

  /** A crop production with both of its ids cleared. */
  function EraseIds(p: CropProduction): CropProduction
  {
    p.(id := Nil, farmId := Nil)
  }

  /**
   * `NewCropProduction`: rejects a nil farm id first, then an invalid
   * crop type, and only then builds the record.
   */
  function NewCropProduction(
    id: Uuid,
    farmId: Uuid,
    cropType: CropType,
    isIrrigated: bool,
    isInsured: bool
  ): (r: Result<CropProduction, CropProductionError>)
    ensures farmId == Nil ==> r == Failure(ErrInvalidFarmID)
    ensures farmId != Nil && cropType !in ValidCropTypes ==> r == Failure(ErrInvalidCropType)
    ensures r.Success? <==> farmId != Nil && cropType in ValidCropTypes
    ensures r.Success? ==>
      && r.value.id == id
      && r.value.farmId == farmId
      && r.value.cropType == cropType
      && r.value.isIrrigated == isIrrigated
      && r.value.isInsured == isInsured
    ensures r.Success? ==> WellFormed(r.value)
  {
    if farmId == Nil then
      Failure(ErrInvalidFarmID)
    else if !IsValid(cropType) then
      Failure(ErrInvalidCropType)
    else
      Success(CropProduction(id, farmId, String(cropType), isIrrigated, isInsured))
  }

  /** The four constants are distinct: the enumeration has exactly four members. */
  lemma CropTypesAreFour()
    ensures |ValidCropTypes| == 4
    ensures String(CropTypeRice) == "RICE" && String(CropTypeCorn) == "CORN"
    ensures String(CropTypeSoybean) == "SOYBEANS" && String(CropTypeCoffee) == "COFFEE"
  {
  }

  /**
   * `NewCropProduction` accepts exactly the well-formed records and gives
   * each of them back unchanged.
   */
  lemma NewCropProductionRebuilds(p: CropProduction)
    ensures NewCropProduction(p.id, p.farmId, p.cropType, p.isIrrigated, p.isInsured) == Success(p)
        <==> WellFormed(p)
  {
  }

  /**
   * The farm repository (`CreateFarm` of the `FarmRepository` interface).
   * Its implementation persists through a foreign ORM; here it is an
   * abstract collaborator: `respond` is what it answers for a farm, and
   * `received` records every farm it was handed.
   */
  class FarmRepository {
    const respond: Farm -> Result<Farm, RepositoryError>
    var received: seq<Farm>

    constructor (respond: Farm -> Result<Farm, RepositoryError>)
      ensures this.respond == respond && received == []
    {
      this.respond := respond;
      received := [];
    }

    method CreateFarm(farm: Farm) returns (r: Result<Farm, RepositoryError>)
      modifies this
      ensures received == old(received) + [farm]
      ensures r == respond(farm)
    {
      received := received + [farm];
      r := respond(farm);
    }
  }

  /** An error the repository reports; only its text is observable. */
  datatype RepositoryError = RepositoryError(message: string)
}
