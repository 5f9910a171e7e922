/** The records the front end mirrors from the booking API, and the shape of a request's outcome. */
module Entities {
  import opened Wrappers
  import opened Js

  const CUSTOMER := "CUSTOMER"
  const EMPLOYEE := "EMPLOYEE"
  const ADMIN := "ADMIN"

  datatype User = User(id: int, firstName: string, middleName: string, lastName: string,
                       email: string, phone: string, role: string)

  datatype FieldType = FieldType(id: Option<int>, name: string)

  /** A rentable field ("cancha"); the hourly rate arrives as a number but is edited as text. */
  datatype Field = Field(id: int, name: string, hourlyRate: Value, fieldType: FieldType, active: bool)

  /** A payment method; `methodName` is the API's `method` property. */
  datatype PaymentMethod = PaymentMethod(id: Option<int>, methodName: string)

  /**
   * A promotion; `start` and `end` are instants on the abstract time line, None for an
   * empty date field. The discount is text while edited and a number when loaded.
   */
  datatype Promotion = Promotion(id: Option<int>, discount: Value, description: string,
                                 start: Option<int>, end: Option<int>)

  datatype Reservation = Reservation(id: int, reservationDate: string, client: User, field: Field)

  datatype HttpMethod = GET | POST | PUT | DELETE

  /** How a request ended: a 2xx response, another status, or a thrown error with its message. */
  datatype Response = Ok | NotOk | Threw(message: string)

  /**
   * The message a handler shows after `if (!response.ok) throw new Error(fixed)` and
   * `catch (error) { setError(error.message) }`.
   */
  function FailureMessage(r: Response, fixed: string): (m: string)
    requires !r.Ok?
    ensures r.NotOk? ==> m == fixed
    ensures r.Threw? ==> m == r.message
  {
    if r.Threw? then r.message else fixed
  }
}
