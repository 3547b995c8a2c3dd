/** The parts of the server's status representation that the status row reads. */
module Models {
  import opened Wrappers

  /** A content filter the status matched. The row only tests for its presence. */
  datatype Filtered = Filtered(filterId: string, keywordMatches: seq<string>)

  /** A status as the server returns it. Engagement flags are optional: the server omits
      them for anonymous requests. `reblog` is the reblogged original when this status
      is a reblog. */
  datatype Status = Status(
    id: string,
    url: Option<string>,
    content: string,
    spoilerText: string,
    favourited: Option<bool>,
    reblogged: Option<bool>,
    pinned: Option<bool>,
    bookmarked: Option<bool>,
    favouritesCount: int,
    reblogsCount: int,
    repliesCount: int,
    filtered: Option<seq<Filtered>>,
    reblog: Option<Status>)

  /** A parsed URL, carrying the two of its properties the row reads. */
  datatype Url = Url(absoluteString: string, lastPathComponent: string)
}
