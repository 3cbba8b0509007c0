/** Types every part of the model shares: optional values, the ways an
    endpoint can refuse a request, dates and timestamps, users and the role
    names of app/models.py. */
module Shared {

  datatype Option<+T> = None | Some(value: T)

  /** How an endpoint refuses a request: 404, 403, 400 with its detail text,
      422 for a request body the schema rejects before the handler runs, and
      500 for an exception the handler does not turn into a response. */
  datatype Failure =
    | NotFound
    | Forbidden
    | BadRequest(detail: string)
    | Unprocessable
    | Internal

  datatype Result<+T> = Ok(value: T) | Err(failure: Failure)

  /** A calendar date as its day number (the proleptic Gregorian ordinal),
      so that the difference of two dates is their distance in days. */
  type Date = int

  /** A UTC instant: its calendar date and the second within that day. */
  datatype Timestamp = Timestamp(date: Date, second: nat)

  /** Python truthiness of an optional text: present and not empty. */
  predicate Truthy(text: Option<string>)
  {
    text.Some? && text.value != ""
  }

  type UserId = nat

  /** The names of the roles a user holds (a role's name is a plain string column). */
  type Roles = set<string>

  const SUPER_ADMIN := "Super Admin"
  const ADMIN := "Admin"
  const OPERATION_MANAGER := "Operation Manager"
  const PROJECT_MANAGER := "Project Manager"
  const PROCUREMENT := "Procurement"
  const QS := "QS"
  const DESIGN_MANAGER := "Design Manager"
  const DOC_CONTROLLER := "Document Controller"
  const TECH_ENGINEER := "Technical Engineer"
  const LEAD_DESIGNER := "Lead Designer"
}
