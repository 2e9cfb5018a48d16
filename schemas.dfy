/** The credential record shared by the form and the credential store (backend/app/schemas.py). */
module Schemas {
  datatype Credentials = Credentials(url: string, org: string, token: string)

  /** The form's initial and cleared value: all three fields present and empty. */
  const Empty := Credentials("", "", "")
}
