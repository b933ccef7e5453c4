/**
 * Records the client receives from the back end and passes between
 * components.  Only the fields the modelled logic reads are kept.
 */
module Entities {

  /** The role of a signed-in account: "user" or "admin". */
  datatype Role = Customer | Admin
  {
    function Name(): string
    {
      match this
      case Customer => "user"
      case Admin => "admin"
    }
  }

  /** The account held in the session. */
  datatype User = User(
    id: string,
    firstName: string,
    lastName: string,
    email: string,
    role: Role,
    isActive: bool)

  /** A GeoJSON point: `type` is "Point" and coordinates are [longitude, latitude]. */
  datatype Location = Location(kind: string, longitude: real, latitude: real)

  datatype Branch = Branch(
    id: string,
    name: string,
    address: string,
    city: string,
    country: string,
    location: Location)
}
