/** The records the admin and manager console exchanges with the back end
    (src/app/models). An absent optional number is `None`; an absent text is
    the empty string, which JavaScript treats the same way in every test the
    components make. */
module AdminModels {
  import opened Common

  /** A client company. src/app/models/client.ts is not part of this model; the
      fields are the ones the client form edits. */
  datatype Client = Client(
    id: Option<int>,
    name: string,
    companyName: string,
    address: string,
    contactEmail: string,
    contactPhone: string)

  datatype Vehicle = Vehicle(
    id: Option<int>,
    licensePlate: string,
    brand: string,
    model: string,
    fuelType: string,
    year: int,
    client: Option<Client>)

  datatype Driver = Driver(
    id: Option<int>,
    firstName: string,
    lastName: string,
    email: string,
    phone: string,
    vehicleId: Option<int>)

  datatype DriverRequest = DriverRequest(
    firstName: string,
    lastName: string,
    email: string,
    phone: string,
    vehicleId: Option<int>,
    password: string)

  datatype User = User(username: string, password: string, email: string, role: string)

  /** A refuelling as the console sees it; every field is optional. */
  datatype FuelConsumption = FuelConsumption(
    id: Option<int>,
    quantity: Option<real>,
    cost: Option<real>,
    refuelDate: string,
    odometerReading: Option<int>,
    vehicleId: Option<int>,
    fuelType: string)

  /** The four fuel types the forms accept, in the order the charts list them. */
  const FuelTypes: seq<string> := ["Essence", "Diesel", "Électrique", "Hybride"]

  predicate IsFuelType(s: string) {
    s in FuelTypes
  }

  /** The order a list view is sorted in (`'asc' | 'desc' | ''`). */
  datatype SortOrder = Unsorted | Asc | Desc
}
