/** The Driver document (Backend/models/Driver.js): required fields, the
    vehicle-type enum, the availability default and the unique phone index. */
module DriverSchema {
  import opened Basics

  datatype VehicleType = Bike | Auto | Car

  function VehicleTypeName(v: VehicleType): string
  {
    match v
    case Bike => "bike"
    case Auto => "auto"
    case Car => "car"
  }

  /** The enum check on `vehicleType`: only the three listed names pass. */
  function ParseVehicleType(s: string): (r: Option<VehicleType>)
    ensures r.Some? ==> VehicleTypeName(r.value) == s
    ensures r.None? ==> forall v :: VehicleTypeName(v) != s
  {
    if s == "bike" then Some(Bike)
    else if s == "auto" then Some(Auto)
    else if s == "car" then Some(Car)
    else None
  }

  /** A stored driver. `lastLocation`, which the driver controller tries to
      write, is not a path of this schema, so a stored driver has none. */
  datatype Driver = Driver(
    name: string,
    phone: string,
    password: string,
    vehicleNumber: string,
    vehicleType: VehicleType,
    isAvailable: bool)

  /** The fields handed to `Driver.create`; an absent field is `None`. */
  datatype DriverInput = DriverInput(
    name: Option<string>,
    phone: Option<string>,
    password: Option<string>,
    vehicleNumber: Option<string>,
    vehicleType: Option<string>,
    isAvailable: Option<bool>)

  /** A required `String` path is refused when absent or empty. */
  predicate RequiredString(v: Option<string>)
  {
    v.Some? && v.value != ""
  }

  predicate AcceptableInput(input: DriverInput)
  {
    && RequiredString(input.name)
    && RequiredString(input.phone)
    && RequiredString(input.password)
    && RequiredString(input.vehicleNumber)
    && RequiredString(input.vehicleType)
    && ParseVehicleType(input.vehicleType.value).Some?
  }

  /** `Driver.create` before it reaches the collection: apply the
      `isAvailable` default, then validate. */
  function Create(input: DriverInput): (r: Result<Driver>)
    ensures r.Success? <==> AcceptableInput(input)
    ensures r.Success? ==> r.value.name == input.name.value && r.value.phone == input.phone.value
    ensures r.Success? ==> r.value.password == input.password.value && r.value.vehicleNumber == input.vehicleNumber.value
    ensures r.Success? ==> VehicleTypeName(r.value.vehicleType) == input.vehicleType.value
    ensures r.Success? ==> r.value.isAvailable == (input.isAvailable.None? || input.isAvailable.value)
  {
    if !AcceptableInput(input) then
      Failure("Driver validation failed")
    else
      Success(Driver(
        input.name.value,
        input.phone.value,
        input.password.value,
        input.vehicleNumber.value,
        ParseVehicleType(input.vehicleType.value).value,
        if input.isAvailable.Some? then input.isAvailable.value else true))
  }

  /** The unique index on `phone`: no two stored drivers share a number. */
  ghost predicate PhonesUnique(drivers: map<DriverId, Driver>)
  {
    forall a, b :: a in drivers && b in drivers && a != b ==> drivers[a].phone != drivers[b].phone
  }

  /** Inserting into the collection: a duplicate `_id` or a duplicate `phone`
      is refused with a duplicate-key error. */
  function Insert(drivers: map<DriverId, Driver>, id: DriverId, d: Driver): (r: Result<map<DriverId, Driver>>)
    ensures r.Failure? <==> id in drivers || exists k :: k in drivers && drivers[k].phone == d.phone
    ensures r.Success? ==> r.value == drivers[id := d] && id !in drivers
    ensures PhonesUnique(drivers) && r.Success? ==> PhonesUnique(r.value)
  {
    if id in drivers || exists k :: k in drivers && drivers[k].phone == d.phone then
      Failure("E11000 duplicate key error")
    else
      Success(drivers[id := d])
  }

  /** A driver created without an explicit flag is available. */
  lemma DefaultAvailable(input: DriverInput)
    requires AcceptableInput(input) && input.isAvailable.None?
    ensures Create(input).Success? && Create(input).value.isAvailable
  {
  }
}
