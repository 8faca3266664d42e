/** The geolocation context: one state cell `{loading, location, zipcode}`
    replaced by `setGeolocation`. The device sensor is outside the model;
    what it reports arrives as the argument of `SetGeolocation`. */
module Geolocation {
  import opened Common
  import Utility

  datatype LocationData = LocationData(loading: bool, location: Option<Coordinates>, zipcode: Option<string>)

  /** The argument of `setGeolocation`: an error message, coordinates, or null. */
  datatype GeolocationReport = ErrorMessage(message: string) | Position(coordinates: Coordinates) | NoPosition

  /** The state every failure leads to. */
  const UNAVAILABLE: LocationData := LocationData(false, None, None)

  class GeolocationProvider {
    const zipcodes: Utility.ZipTable
    const central: CentralAngle
    var geolocation: LocationData

    /** A postal code is known only together with a location. */
    ghost predicate Valid()
      reads this
    {
      geolocation.zipcode.Some? ==> geolocation.location.Some?
    }

    constructor (zipcodes: Utility.ZipTable, central: CentralAngle)
      ensures Valid()
      ensures this.zipcodes == zipcodes && this.central == central
      ensures geolocation == LocationData(true, None, None)
    {
      this.zipcodes := zipcodes;
      this.central := central;
      geolocation := LocationData(true, None, None);
    }

    /** `setGeolocation(location)`. */
    method SetGeolocation(report: GeolocationReport)
      requires Valid()
      modifies this
      ensures Valid()
      ensures !geolocation.loading
      ensures report.ErrorMessage? || report.NoPosition? ==> geolocation == UNAVAILABLE
      ensures report.Position? ==>
                && geolocation.location == Some(report.coordinates)
                && geolocation.zipcode.Some?
                && Utility.IsClosestZipcode(zipcodes, report.coordinates, central, geolocation.zipcode.value)
    {
      match report {
        case ErrorMessage(_) =>
          geolocation := LocationData(false, None, None);
        case Position(location) =>
          var zipcode := Utility.FindClosestZipcode(zipcodes, location, central);
          geolocation := LocationData(false, Some(location), Some(zipcode));
        case NoPosition =>
          geolocation := LocationData(false, None, None);
      }
    }
  }
}
