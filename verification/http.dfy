/** HTTP vocabulary shared by the request engine, the auth flows and the services. */
module Http {

  /** The methods `makeRequest` accepts. */
  datatype Method = GET | POST | PUT | PATCH | DELETE

  /** Name/value pairs in order: URL search parameters or a form body. */
  type Params = seq<(string, string)>

  /** A URL before its query is serialised: the address and its search parameters, in order. */
  datatype Url = Url(address: string, query: Params)

  /** `response.ok`: a status in the range 200-299. */
  predicate IsOk(status: int)
  {
    200 <= status <= 299
  }
}
