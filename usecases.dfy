/**
 * The create-farm use case: stamp a new farm id on the farm, a new id and
 * the farm's id on each of its crop productions, and hand the farm to the
 * repository.
 */
module Usecases {

  import opened Wrappers
  import opened Ids
  import opened Domain

  /**
   * The farm `Execute` hands to the repository, given the farm id and the
   * crop-production ids it drew: only the ids change.
   */
  function Stamped(farm: Farm, farmId: Uuid, productionIds: seq<Uuid>): (r: Farm)
    requires |productionIds| == |farm.cropProductions|
    ensures r.id == farmId
    ensures r.name == farm.name && r.landArea == farm.landArea
    ensures r.unitMeasure == farm.unitMeasure && r.address == farm.address
    ensures |r.cropProductions| == |farm.cropProductions|
    ensures forall i :: 0 <= i < |r.cropProductions| ==>
      && r.cropProductions[i].id == productionIds[i]
      && r.cropProductions[i].farmId == farmId
      && r.cropProductions[i].cropType == farm.cropProductions[i].cropType
      && r.cropProductions[i].isIrrigated == farm.cropProductions[i].isIrrigated
      && r.cropProductions[i].isInsured == farm.cropProductions[i].isInsured
  {
    var ps := farm.cropProductions;
    farm.(
      id := farmId,
      cropProductions := seq(|ps|, i requires 0 <= i < |ps| => ps[i].(id := productionIds[i], farmId := farmId)))
  }

  /** A farm with every id in it cleared: what the source keeps from the caller. */
  function Erased(farm: Farm): Farm
  {
    farm.(id := Nil, cropProductions := seq(|farm.cropProductions|, i requires 0 <= i < |farm.cropProductions| => EraseIds(farm.cropProductions[i])))
  }

  /** Stamping changes ids and nothing else. */
  lemma StampedChangesOnlyIds(farm: Farm, farmId: Uuid, productionIds: seq<Uuid>)
    requires |productionIds| == |farm.cropProductions|
    ensures Erased(Stamped(farm, farmId, productionIds)) == Erased(farm)
  {
  }

  /** A suffix of a list of distinct ids is distinct and shares no id with the prefix. */
  lemma DistinctSplit(a: seq<Uuid>, b: seq<Uuid>)
    requires Distinct(a + b)
    ensures Distinct(b)
    ensures forall k :: 0 <= k < |b| ==> b[k] !in a
  {
    var s := a + b;
    forall k | 0 <= k < |b|
      ensures b[k] !in a
    {
      forall j | 0 <= j < |a|
        ensures a[j] != b[k]
      {
        assert s[j] == a[j] && s[|a| + k] == b[k];
      }
    }
    forall i, j | 0 <= i < j < |b|
      ensures b[i] != b[j]
    {
      assert s[|a| + i] == b[i] && s[|a| + j] == b[j];
    }
  }

  /** The `CreateFarm` use case. */
  class CreateFarm {
    const repository: FarmRepository

    /** `NewCreateFarmUseCase`. */
    constructor (repository: FarmRepository)
      ensures this.repository == repository
    {
      this.repository := repository;
    }

    /**
     * `CreateFarm.Execute`: draws a farm id, then one id per crop
     * production in order, stamps them on the farm, calls the repository
     * once with the stamped farm and returns its answer unchanged.
     */
    method Execute(farm: Farm, ids: IdGenerator) returns (r: Result<Farm, RepositoryError>)
      requires ids.Valid()
      modifies repository, ids
      ensures ids.Valid()
      ensures |ids.issued| == |old(ids.issued)| + 1 + |farm.cropProductions|
      ensures ids.issued[..|old(ids.issued)|] == old(ids.issued)
      ensures var drawn := ids.issued[|old(ids.issued)|..];
        && Distinct(drawn)
        && (forall k :: 0 <= k < |drawn| ==> drawn[k] != Nil && drawn[k] !in old(ids.issued))
        && repository.received == old(repository.received) + [Stamped(farm, drawn[0], drawn[1..])]
        && r == repository.respond(Stamped(farm, drawn[0], drawn[1..]))
    {
      ghost var before := ids.issued;
      var farmId := ids.New();
      var f := farm.(id := farmId);
      ghost var productionIds: seq<Uuid> := [];
      var i := 0;
      while i < |f.cropProductions|
        modifies ids
        invariant i <= |f.cropProductions| == |farm.cropProductions|
        invariant ids.Valid()
        invariant |productionIds| == i
        invariant ids.issued == before + [farmId] + productionIds
        invariant f.(cropProductions := farm.cropProductions) == farm.(id := farmId)
        invariant forall k :: 0 <= k < i ==>
          f.cropProductions[k] == farm.cropProductions[k].(id := productionIds[k], farmId := farmId)
        invariant forall k :: i <= k < |f.cropProductions| ==> f.cropProductions[k] == farm.cropProductions[k]
      {
        var productionId := ids.New();
        f := f.(cropProductions := f.cropProductions[i := f.cropProductions[i].(id := productionId)]);
        f := f.(cropProductions := f.cropProductions[i := f.cropProductions[i].(farmId := farmId)]);
        productionIds := productionIds + [productionId];
        i := i + 1;
      }
      assert f == Stamped(farm, farmId, productionIds);
      ghost var drawn := [farmId] + productionIds;
      assert ids.issued == before + drawn;
      DistinctSplit(before, drawn);
      assert ids.issued[|before|..] == drawn && drawn[0] == farmId && drawn[1..] == productionIds;
      r := repository.CreateFarm(f);
    }
  }

  /** The farm the use-case tests submit: one RICE crop production, no ids yet. */
  function TestFarm(): Farm
  {
    Farm(Nil, "Test Farm", 100.5, "acres", "123 Farm Lane", [CropProduction(Nil, Nil, "RICE", false, false)])
  }

  /** The farm the mocked repository answers with: ids of its own, not the drawn ones. */
  function ExpectedFarm(): Farm
  {
    Farm(7, "Test Farm", 100.5, "acres", "123 Farm Lane", [CropProduction(8, 7, "RICE", false, false)])
  }

  /**
   * The success case: the repository is handed one farm with the submitted
   * name and land area, a fresh farm id, and one crop production with its
   * own fresh id pointing at the new farm; the use case returns the farm the
   * repository answers with, not the one it handed over.
   */
  method CreateFarmSucceeds() returns (r: Result<Farm, RepositoryError>, handed: Farm)
    ensures r == Success(ExpectedFarm())
    ensures handed.id != Nil
    ensures handed.name == "Test Farm" && handed.landArea == 100.5
    ensures |handed.cropProductions| == 1
    ensures handed.cropProductions[0].farmId == handed.id
    ensures handed.cropProductions[0].id != Nil && handed.cropProductions[0].id != handed.id
    ensures handed.cropProductions[0].cropType == CropTypeRice
  {
    var repository := new FarmRepository(f => Success(ExpectedFarm()));
    var useCase := new CreateFarm(repository);
    var ids := new IdGenerator();
    r := useCase.Execute(TestFarm(), ids);
    handed := repository.received[0];
    ghost var drawn := ids.issued[0..];
    assert drawn[1..][0] == drawn[1];
  }

  /**
   * The repository-error case: the use case returns the repository's error
   * unchanged, with no farm.
   */
  method CreateFarmReportsRepositoryError() returns (r: Result<Farm, RepositoryError>)
    ensures r == Failure(RepositoryError("database error"))
  {
    var repository := new FarmRepository(f => Failure(RepositoryError("database error")));
    var useCase := new CreateFarm(repository);
    var ids := new IdGenerator();
    r := useCase.Execute(TestFarm(), ids);
  }
}
