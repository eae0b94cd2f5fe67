/** The directory record the API returns and the client renders. */
module Advocates {

  /**
   * One advocate. `yearsOfExperience` is a PostgreSQL `integer`; `createdAt`
   * is the timestamp as the JSON response carries it.
   */
  datatype Advocate = Advocate(
    id: int,
    firstName: string,
    lastName: string,
    city: string,
    degree: string,
    specialties: seq<string>,
    yearsOfExperience: int,
    phoneNumber: string,
    createdAt: string
  )
}
