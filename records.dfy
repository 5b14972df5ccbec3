/** The dispatch record: one optional string per field, as the JavaScript
    objects `result`, `additional_data` and `finalData` hold them. A key an
    object does not have reads as `null`, which is how every reader in the
    command treats `undefined`. */
module Records {
  import opened Options

  datatype Field =
    | VehicleNum | Destination | Weight | SoNo | PhoneNum
    | DriverLicense | DriverName | ProductType

  datatype Record = Record(
    vehicleNum: Option<string>, destination: Option<string>, weight: Option<string>,
    soNo: Option<string>, phoneNum: Option<string>, driverLicense: Option<string>,
    driverName: Option<string>, productType: Option<string>)

  /** Every field `null`. */
  const Empty: Record := Record(None, None, None, None, None, None, None, None)

  /** The keys of the default `additional_data` of the driver-info parser. */
  const TransactionFields: set<Field> := {VehicleNum, Destination, Weight, SoNo, PhoneNum}

  /** The property name of a field in the JavaScript objects. */
  function Name(f: Field): string {
    match f
    case VehicleNum => "vehicle_num"
    case Destination => "destination"
    case Weight => "weight"
    case SoNo => "so_no"
    case PhoneNum => "phone_num"
    case DriverLicense => "driver_license"
    case DriverName => "driver_name"
    case ProductType => "product_type"
  }

  /** JavaScript truthiness of a string-or-null value. */
  predicate Truthy(v: Option<string>) { v.Some? && v.value != "" }

  /** `r[f]`. */
  function Get(r: Record, f: Field): Option<string> {
    match f
    case VehicleNum => r.vehicleNum
    case Destination => r.destination
    case Weight => r.weight
    case SoNo => r.soNo
    case PhoneNum => r.phoneNum
    case DriverLicense => r.driverLicense
    case DriverName => r.driverName
    case ProductType => r.productType
  }

  /** `r[f] = v`: field `f` becomes `v` and no other field changes. */
  function Set(r: Record, f: Field, v: Option<string>): (r': Record)
    ensures Get(r', f) == v
    ensures forall g :: g != f ==> Get(r', g) == Get(r, g)
  {
    match f
    case VehicleNum => r.(vehicleNum := v)
    case Destination => r.(destination := v)
    case Weight => r.(weight := v)
    case SoNo => r.(soNo := v)
    case PhoneNum => r.(phoneNum := v)
    case DriverLicense => r.(driverLicense := v)
    case DriverName => r.(driverName := v)
    case ProductType => r.(productType := v)
  }

  /** `a || b || null` on two field values. */
  function OrElse(a: Option<string>, b: Option<string>): (r: Option<string>)
    ensures Truthy(a) ==> r == a
    ensures !Truthy(a) && Truthy(b) ==> r == b
    ensures !Truthy(a) && !Truthy(b) ==> r == None
  {
    if Truthy(a) then a else if Truthy(b) then b else None
  }
}
