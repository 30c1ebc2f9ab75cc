/** What a handler hands back to the HTTP layer. */
module Http {
  import opened Values

  const HTTP_200_OK: nat := 200
  const HTTP_201_CREATED: nat := 201
  const HTTP_202_ACCEPTED: nat := 202

  /** A handler either returns (with the route's status code and the returned
      value as body, None for a handler that returns nothing) or raises one of
      the two exceptions the auth routes use. */
  datatype HttpResult =
    | Success(status: nat, body: Option<map<string, Scalar>>)
    | IncorrectLoginCredentials
    | BadRequest(detail: string)
}
