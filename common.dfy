/** Values shared by the boat components: JavaScript's optional values and the Boat__c record. */
module Common {

  /** A JavaScript value that may be `undefined` or `null` (None) or present (Some). */
  datatype Option<+T> = None | Some(value: T)

  /** A latitude or longitude. The components only copy these values, so no arithmetic is modelled. */
  type Coordinate = int

  /** The fields of a Boat__c record that the components read; the geolocation is null for a boat without one. */
  datatype Boat = Boat(Id: string, Name: string, GeolocationLatitude: Option<Coordinate>, GeolocationLongitude: Option<Coordinate>)

  /** JavaScript truthiness of a string-valued field: neither undefined/null nor the empty string. */
  predicate Truthy(s: Option<string>) {
    s.Some? && s.value != ""
  }
}
