/** The operator gate in front of every inbox endpoint. */
module Admin {
  import opened Wrappers

  /** Where a caller may put its token: the `x-admin-token` header, the
      `token` query parameter, or a `token` field of the JSON body. */
  datatype Credentials = Credentials(header: Option<string>, query: Option<string>, body: Option<string>)

  /** The token the gate compares: the header if given, else the query
      parameter if given, else whatever the body holds. */
  function PresentedToken(c: Credentials): Option<string>
  {
    if Present(c.header) then c.header
    else if Present(c.query) then c.query
    else c.body
  }

  /** The gate passes exactly when an admin token is configured and the
      presented token equals it; a non-empty header decides alone. */
  function AssertAdmin(adminToken: string, c: Credentials): (ok: bool)
    ensures adminToken == "" ==> !ok
    ensures Present(c.header) ==> (ok <==> adminToken != "" && c.header.value == adminToken)
    ensures !Present(c.header) && Present(c.query) ==> (ok <==> adminToken != "" && c.query.value == adminToken)
    ensures !Present(c.header) && !Present(c.query) ==> (ok <==> adminToken != "" && c.body == Some(adminToken))
  {
    adminToken != "" && PresentedToken(c) == Some(adminToken)
  }

  /** A passing call always carried the configured token in one of the three places. */
  lemma AdmittedCarriesToken(adminToken: string, c: Credentials)
    requires AssertAdmin(adminToken, c)
    ensures adminToken != ""
    ensures c.header == Some(adminToken) || c.query == Some(adminToken) || c.body == Some(adminToken)
  {
  }
}
