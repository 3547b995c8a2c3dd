/** The requests the status row sends through the network client. */
module Network {
  import opened Wrappers

  /** The attached client: the host name of its server and whether it holds a user token. */
  datatype Client = Client(server: string, isAuth: bool)

  /** The guard every engagement toggle starts with: a client is attached and authenticated. */
  predicate Authenticated(c: Option<Client>) {
    c.Some? && c.value.isAuth
  }

  /** The endpoints the row uses; the toggle endpoints and `StatusById` are keyed by a status id. */
  datatype Endpoint =
    | FavouriteStatus(id: string)
    | UnfavouriteStatus(id: string)
    | ReblogStatus(id: string)
    | UnreblogStatus(id: string)
    | PinStatus(id: string)
    | UnpinStatus(id: string)
    | BookmarkStatus(id: string)
    | UnbookmarkStatus(id: string)
    | StatusById(id: string)
    | SearchStatuses(query: string, kind: string, offset: int, following: Option<bool>)

  datatype Verb = Get | Post | Delete

  datatype ApiVersion = V1 | V2

  /** One call on the client: `get`, `post` or `delete` of an endpoint, under an API version. */
  datatype Request = Request(verb: Verb, endpoint: Endpoint, version: ApiVersion)
}
