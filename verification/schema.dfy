/**
 * The `puppies` table of shared/schema.ts, used as a type definition.
 *
 * `InsertPuppy` is the row without `id`. The five columns with a database
 * default are optional in it, and `description` is the one nullable column.
 * At run time the in-memory store spreads an `InsertPuppy` into a `Puppy`,
 * so a stored record can lack a defaulted property even though the select
 * type declares it non-null; those fields are therefore `Option` in `Puppy`
 * too, and `Complete` states the declared non-null shape.
 */
module Schema {
  import opened Wrappers

  const DefaultHealthStatus: string := "100% Healthy"

  datatype InsertPuppy = InsertPuppy(
    name: string,
    breed: string,
    age: string,
    weight: string,
    gender: string,
    price: int,
    color: string,
    description: Option<string>,
    images: seq<string>,
    isAvailable: Option<bool>,
    healthStatus: Option<string>,
    isVaccinated: Option<bool>,
    isInsured: Option<bool>,
    freeDelivery: Option<bool>)

  datatype Puppy = Puppy(
    id: string,
    name: string,
    breed: string,
    age: string,
    weight: string,
    gender: string,
    price: int,
    color: string,
    description: Option<string>,
    images: seq<string>,
    isAvailable: Option<bool>,
    healthStatus: Option<string>,
    isVaccinated: Option<bool>,
    isInsured: Option<bool>,
    freeDelivery: Option<bool>)

  /** Every not-null column holds a value. */
  predicate Complete(p: Puppy) {
    p.isAvailable.Some? && p.healthStatus.Some? && p.isVaccinated.Some?
    && p.isInsured.Some? && p.freeDelivery.Some?
  }

  /** Every defaulted column holds its declared default value. */
  predicate HasDefaultFlags(p: Puppy) {
    p.isAvailable == Some(true) && p.healthStatus == Some(DefaultHealthStatus)
    && p.isVaccinated == Some(true) && p.isInsured == Some(true) && p.freeDelivery == Some(true)
  }

  /** The insert schema: the row with `id` omitted. */
  function Omit(p: Puppy): (ins: InsertPuppy)
    ensures ins.name == p.name && ins.breed == p.breed && ins.age == p.age
    ensures ins.weight == p.weight && ins.gender == p.gender && ins.price == p.price
    ensures ins.color == p.color && ins.description == p.description && ins.images == p.images
    ensures ins.isAvailable == p.isAvailable && ins.healthStatus == p.healthStatus
    ensures ins.isVaccinated == p.isVaccinated && ins.isInsured == p.isInsured
    ensures ins.freeDelivery == p.freeDelivery
  {
    InsertPuppy(p.name, p.breed, p.age, p.weight, p.gender, p.price, p.color, p.description,
                p.images, p.isAvailable, p.healthStatus, p.isVaccinated, p.isInsured, p.freeDelivery)
  }

  /** The object spread `{ ...ins, id }`: every insert field copied, `id` added. */
  function WithId(ins: InsertPuppy, id: string): (p: Puppy)
    ensures p.id == id
    ensures Omit(p) == ins
  {
    Puppy(id, ins.name, ins.breed, ins.age, ins.weight, ins.gender, ins.price, ins.color,
          ins.description, ins.images, ins.isAvailable, ins.healthStatus, ins.isVaccinated,
          ins.isInsured, ins.freeDelivery)
  }

  /** Omitting the id and adding it back are inverse: a caller of the insert type cannot supply an id. */
  lemma OmitWithIdRoundTrip(ins: InsertPuppy, p: Puppy)
    ensures Omit(WithId(ins, p.id)) == ins
    ensures WithId(Omit(p), p.id) == p
    ensures forall id1, id2 :: WithId(ins, id1) == WithId(ins, id2) ==> id1 == id2
  {
  }

  /**
   * What the database does on insert: `id` comes from `gen_random_uuid()`
   * (here the parameter) and each omitted defaulted column takes its default.
   */
  function ApplyDefaults(ins: InsertPuppy, id: string): (p: Puppy)
    ensures p.id == id && Complete(p)
    ensures Omit(p).(isAvailable := ins.isAvailable, healthStatus := ins.healthStatus,
                     isVaccinated := ins.isVaccinated, isInsured := ins.isInsured,
                     freeDelivery := ins.freeDelivery) == ins
    ensures ins.isAvailable.Some? ==> p.isAvailable == ins.isAvailable
    ensures ins.isAvailable.None? ==> p.isAvailable == Some(true)
    ensures ins.healthStatus.Some? ==> p.healthStatus == ins.healthStatus
    ensures ins.healthStatus.None? ==> p.healthStatus == Some(DefaultHealthStatus)
    ensures ins.isVaccinated.Some? ==> p.isVaccinated == ins.isVaccinated
    ensures ins.isVaccinated.None? ==> p.isVaccinated == Some(true)
    ensures ins.isInsured.Some? ==> p.isInsured == ins.isInsured
    ensures ins.isInsured.None? ==> p.isInsured == Some(true)
    ensures ins.freeDelivery.Some? ==> p.freeDelivery == ins.freeDelivery
    ensures ins.freeDelivery.None? ==> p.freeDelivery == Some(true)
  {
    WithId(ins, id).(
      isAvailable := Some(ins.isAvailable.GetOr(true)),
      healthStatus := Some(ins.healthStatus.GetOr(DefaultHealthStatus)),
      isVaccinated := Some(ins.isVaccinated.GetOr(true)),
      isInsured := Some(ins.isInsured.GetOr(true)),
      freeDelivery := Some(ins.freeDelivery.GetOr(true)))
  }

  /** Defaults only fill gaps: an insert that supplies every defaulted column is stored as given. */
  lemma ApplyDefaultsKeepsSuppliedValues(ins: InsertPuppy, id: string)
    ensures Complete(WithId(ins, id)) <==> ApplyDefaults(ins, id) == WithId(ins, id)
  {
  }
}
