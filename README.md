# Farm API core: crop-production validation, farm creation, persistence mapping

A Dafny model of the domain logic of a farm-management HTTP API written in Go.
Three pieces of it are modelled:

- **Crop types and crop productions** (`Domain`, `domain.dfy`). A crop type is a
  string, and only four values are valid: RICE, CORN, SOYBEANS and COFFEE.
  `NewCropProduction` is a checking constructor. It rejects a nil farm id first,
  then an invalid crop type, and only then builds the record.
- **The create-farm use case** (`Usecases`, `usecases.dfy`). `CreateFarm.Execute`
  draws a new farm id and stamps it on the farm. It then walks the crop
  productions in order, giving each one a new id and pointing its farm id at the
  new farm. Finally it hands the farm to the repository once and returns the
  repository's answer unchanged. The loop is an imperative `while` loop. Its
  contract ties the farm handed to the repository to the specification function
  `Stamped`, and the lemmas beside `Stamped` say what stamping changes and what
  it keeps.
- **Domain-to-persistence mappers** (`Mappers`, `mappers.dfy`). `ToGormFarm` copies
  the farm's own fields and converts its crop productions. `ToGormCropProductions`
  builds the persisted crop productions by appending one record per input. It
  copies only the crop type and the two flags; id and farm id are left at their
  zero value.

Supporting modules: `Ids` (`ids.dfy`) models identifiers and the id generator,
and `Wrappers` (`wrappers.dfy`) holds the `Result` type for Go's `(value, error)`
returns.

Modelling choices:

- Identifiers are natural numbers (`Ids.Uuid`), with `Ids.Nil` = 0. Contracts
  outside `Ids` use only equality and `Nil`; only the id generator's counter uses
  their order. The source has two versions of the types here: `uuid.UUID` ids in
  `crop_production.go` and `create_farm.go`, and, in an older version of the types
  (`farm.go`, `entities.go`), `uint` ids. Both have the zero value `Nil`.
- `uuid.New` is a foreign random generator. It is modelled as `Ids.IdGenerator`,
  a source whose contract is that every id it hands out is non-nil and was never
  handed out before.
- The repository behind `CreateFarm` is an abstract collaborator,
  `Domain.FarmRepository`. The function `respond` stands for what it answers for a
  farm, a farm or an error. It records every farm it receives, so "called exactly
  once, with this farm" can be stated.
- The domain farm's crop-production field follows `create_farm.go` and is named
  `cropProductions`. `mappers.go`, written against the older version of the types, reads the same field as
  `Productions`. The persisted farm's field is `productions`, as in `entities.go`.
- `LandArea` is a Go `float64`. It is only ever copied, so it is modelled as a
  `real` that no operation inspects.

## Model

| member | source | states |
|---|---|---|
| Domain.IsValid | internal/app/domain/crop_production.go:19-33 | true exactly when the crop type is one of RICE, CORN, SOYBEANS, COFFEE, false for every other string |
| Domain.String | internal/app/domain/crop_production.go:35-37 | the crop type's underlying string, unchanged |
| Domain.CropTypesAreFour | internal/app/domain/crop_production.go:19-24 | the four constants are distinct, so the enumeration has exactly four members, and each maps to its literal |
| Domain.CropProductionError.Message | internal/app/domain/crop_production.go:39-42 | the two errors carry the texts "invalid crop type" and "invalid farm ID" |
| Domain.NewCropProduction | internal/app/domain/crop_production.go:44-65 | a nil farm id fails with ErrInvalidFarmID whatever the crop type; otherwise an invalid crop type fails with ErrInvalidCropType; it succeeds exactly when both checks pass, and the record then carries the given id, farm id, crop type and flags, has a valid crop type and a non-nil farm id |
| Domain.NewCropProductionRebuilds | internal/app/domain/crop_production.go:51-64 | rebuilding a record from its own fields succeeds and gives it back exactly when the record has a non-nil farm id and a valid crop type |
| Domain.FarmRepository.CreateFarm | internal/app/domain/farm_repository.go:5-6 | the repository records the farm it is handed and answers with a farm or an error |
| Ids.IdGenerator.New | internal/app/domain/usecases/create_farm.go:18 | each generated id is non-nil and differs from every id generated before |
| Usecases.Stamped | internal/app/domain/usecases/create_farm.go:18-24 | the stamped farm has the new farm id; each crop production has the id drawn for its position and the new farm id; count, order, crop types, flags, name, land area, unit and address are unchanged |
| Usecases.StampedChangesOnlyIds | internal/app/domain/usecases/create_farm.go:19-24 | once every id is cleared, the stamped farm equals the submitted one: stamping changes ids and nothing else |
| Usecases.CreateFarm.constructor | internal/app/domain/usecases/create_farm.go:28-32 | the use case is bound to the given repository |
| Usecases.CreateFarm.Execute | internal/app/domain/usecases/create_farm.go:17-26 | draws 1 + n fresh, distinct, non-nil ids; hands the repository exactly one farm, the submitted farm stamped with those ids; returns the repository's answer, farm or error, unchanged |
| Usecases.CreateFarmSucceeds | internal/app/domain/usecases/create_farm_test.go:28-58 | with a repository that answers with a farm of its own, creating "Test Farm" with one RICE crop production hands the repository one farm with a fresh id, the same name and land area, and one crop production whose own fresh id differs from the farm's and whose farm id is the new farm's id; the result is the repository's farm |
| Usecases.CreateFarmReportsRepositoryError | internal/app/domain/usecases/create_farm_test.go:60-83 | when the repository fails with "database error", the use case returns that error unchanged and no farm |
| Mappers.GormCropProductions | internal/app/infra/database/mappers/mappers.go:19-29 | one persisted record per input, in order (empty for empty input); each has the input's crop type and flags and zero id and farm id |
| Mappers.ToGormCropProductions | internal/app/infra/database/mappers/mappers.go:19-29 | the append loop builds exactly GormCropProductions of its input |
| Mappers.ToGormFarm | internal/app/infra/database/mappers/mappers.go:8-17 | copies id, name, land area, unit and address verbatim; its crop productions are exactly GormCropProductions of the farm's, with the same count |
| Mappers.GormCropProductionsIgnoresIds | internal/app/infra/database/mappers/mappers.go:22-26 | crop-production lists that differ only in ids and farm ids map to the same persisted records |
| Mappers.GormCropProductionsAppend | internal/app/infra/database/mappers/mappers.go:20-27 | converting a concatenation gives the concatenation of the conversions |

## Left out

- Listing farms with filters and pagination: the source has no implementation of it. `ListFarms` is commented out of the repository interface, and the database repository implements only `CreateFarm`.
- Deleting farms, the HTTP controller, routers, server, middleware, status-code mapping, DTO validation tags, configuration, logging, database setup and dependency wiring: these are framework glue or foreign libraries.
- The repository's body: it maps the farm with `ToGormFarm` and persists it in a GORM transaction, a foreign ORM. It is modelled only as the abstract collaborator `Domain.FarmRepository`.
- Usecases.CreateFarm.Execute: Go passes the farm by value, but its crop-production slice shares its backing array with the caller. So the caller also sees the stamped crop-production ids. The model stamps a value copy and does not capture this aliasing.
- Ids.IdGenerator.New: `uuid.New` draws random version-4 UUIDs and panics when the entropy source fails. The model promises freshness outright and does not model randomness, the 128-bit width, or the panic.
- Go's `(*Farm, error)` also allows a farm together with an error, or neither. `create_farm.go` would pass either through unchanged. The model's `Result` holds exactly one of the two. No repository or test in the source returns such a pair.
- `ctx` (the request context) is passed through to the repository without being used; it is not modelled.
- Timestamps (`CreatedAt`, `UpdatedAt`, `DeletedAt`) are neither read nor written by the modelled code. They are not part of the modelled records.
- Floating-point semantics of `LandArea`: it is only copied.
- Go's nil slice: `ToGormCropProductions` returns a nil slice for empty input. It is modelled as the empty sequence, which has the same length and contents.
- The mapper tests expect ids and farm ids to be copied, and they call `ToDomainFarm` and `ToDomainCropProductions`. That does not match `mappers.go`, which copies three fields and defines neither function. The model follows `mappers.go`.
