/** What the status row derives from a status and what each engagement toggle does to its
    local mirror of the status's flags and counts, stated on values. The class in module
    `Row` is proved against these functions. */
module Interaction {
  import opened Wrappers
  import opened Models
  import opened Network
  import opened SwiftInt

  /** The row's local mirror of a status's engagement: four flags and three counts. */
  datatype Engagement = Engagement(
    favourited: bool,
    reblogged: bool,
    pinned: bool,
    bookmarked: bool,
    favouritesCount: int,
    reblogsCount: int,
    repliesCount: int)

  /** The status interactions act on: the reblogged original when there is one. */
  function Target(s: Status): Status {
    if s.reblog.Some? then s.reblog.value else s
  }

  /** `status.reblog?.id ?? status.id`: the id every toggle request is keyed by. */
  function TargetId(s: Status): (id: string)
    ensures s.reblog.Some? ==> id == s.reblog.value.id
    ensures s.reblog.None? ==> id == s.id
  {
    Target(s).id
  }

  /** A flag the server left out (`nil`) reads as not set. */
  function IsSet(flag: Option<bool>): bool {
    flag == Some(true)
  }

  /** The reblog-aware extraction used both when the row is created and when it reconciles
      with a status the server returned. */
  function Extract(s: Status): (e: Engagement)
    ensures s.reblog.Some? ==>
      && (e.favourited <==> s.reblog.value.favourited == Some(true))
      && (e.reblogged <==> s.reblog.value.reblogged == Some(true))
      && (e.pinned <==> s.reblog.value.pinned == Some(true))
      && (e.bookmarked <==> s.reblog.value.bookmarked == Some(true))
      && e.favouritesCount == s.reblog.value.favouritesCount
      && e.reblogsCount == s.reblog.value.reblogsCount
      && e.repliesCount == s.reblog.value.repliesCount
    ensures s.reblog.None? ==>
      && (e.favourited <==> s.favourited == Some(true))
      && (e.reblogged <==> s.reblogged == Some(true))
      && (e.pinned <==> s.pinned == Some(true))
      && (e.bookmarked <==> s.bookmarked == Some(true))
      && e.favouritesCount == s.favouritesCount
      && e.reblogsCount == s.reblogsCount
      && e.repliesCount == s.repliesCount
  {
    var t := Target(s);
    Engagement(IsSet(t.favourited), IsSet(t.reblogged), IsSet(t.pinned), IsSet(t.bookmarked),
               t.favouritesCount, t.reblogsCount, t.repliesCount)
  }

  /** The row's `filter`: the first filter the reblog matched, failing that the first one
      the outer status matched. */
  function FilterOf(s: Status): (f: Option<Filtered>)
    ensures f.Some? <==>
      (s.reblog.Some? && First(s.reblog.value.filtered).Some?) || First(s.filtered).Some?
    ensures s.reblog.Some? && s.reblog.value.filtered.Some? && |s.reblog.value.filtered.value| > 0 ==>
      f == Some(s.reblog.value.filtered.value[0])
    ensures (s.reblog.None? || First(s.reblog.value.filtered).None?) && f.Some? ==>
      s.filtered.Some? && f == Some(s.filtered.value[0])
  {
    var fromReblog := if s.reblog.Some? then First(s.reblog.value.filtered) else None;
    if fromReblog.Some? then fromReblog else First(s.filtered)
  }

  /** Whether the row shows the spoiler: the reblog-or-self spoiler text is not empty. */
  function DisplaysSpoiler(s: Status): (shown: bool)
    ensures shown <==> (if s.reblog.Some? then s.reblog.value.spoilerText else s.spoilerText) != ""
  {
    |Target(s).spoilerText| > 0
  }

  /** `status.reblog?.url ?? status.url ?? ""`: the text the remote detail URL is parsed from. */
  function DetailUrlText(s: Status): (text: string)
    ensures s.reblog.Some? && s.reblog.value.url.Some? ==> text == s.reblog.value.url.value
    ensures (s.reblog.None? || s.reblog.value.url.None?) && s.url.Some? ==> text == s.url.value
    ensures (s.reblog.None? || s.reblog.value.url.None?) && s.url.None? ==> text == ""
  {
    if s.reblog.Some? && s.reblog.value.url.Some? then s.reblog.value.url.value
    else if s.url.Some? then s.url.value
    else ""
  }

  /** Where "open detail" leads: a remote status by URL, or a local status by id. */
  datatype RouterDestination = RemoteStatusDetail(url: Url) | StatusDetail(id: string)

  // ---------------------------------------------------------------------------------
  // Engagement toggles

  datatype Action = Favourite | Unfavourite | Reblog | Unreblog | Pin | Unpin | Bookmark | Unbookmark

  /** Whether the action sets its flag (favourite, reblog, pin, bookmark) or clears it. */
  predicate Sets(a: Action) {
    a.Favourite? || a.Reblog? || a.Pin? || a.Bookmark?
  }

  /** The flag an action toggles. */
  function Flag(a: Action, e: Engagement): bool {
    match a
    case Favourite | Unfavourite => e.favourited
    case Reblog | Unreblog => e.reblogged
    case Pin | Unpin => e.pinned
    case Bookmark | Unbookmark => e.bookmarked
  }

  /** `e` with the action's flag replaced by `b` and nothing else changed. */
  function WithFlag(a: Action, e: Engagement, b: bool): (r: Engagement)
    ensures Flag(a, r) == b
  {
    match a
    case Favourite | Unfavourite => e.(favourited := b)
    case Reblog | Unreblog => e.(reblogged := b)
    case Pin | Unpin => e.(pinned := b)
    case Bookmark | Unbookmark => e.(bookmarked := b)
  }

  /** How far the optimistic change moves the favourite count: up for favourite, down for
      unfavourite, not at all for the other actions. */
  function FavouritesDelta(a: Action): int {
    if a.Favourite? then 1 else if a.Unfavourite? then -1 else 0
  }

  /** How far the optimistic change moves the reblog count. */
  function ReblogsDelta(a: Action): int {
    if a.Reblog? then 1 else if a.Unreblog? then -1 else 0
  }

  /** The change applied before the request is sent: the flag takes the value the action
      asks for; favourite and reblog also move their count by one; nothing else changes. */
  function Optimistic(a: Action, e: Engagement): (r: Engagement)
    ensures Flag(a, r) == Sets(a)
    ensures r == WithFlag(a, e, Sets(a)).(favouritesCount := e.favouritesCount + FavouritesDelta(a),
                                          reblogsCount := e.reblogsCount + ReblogsDelta(a))
    ensures a.Pin? || a.Unpin? || a.Bookmark? || a.Unbookmark? ==> r == WithFlag(a, e, Sets(a))
  {
    match a
    case Favourite => e.(favourited := true, favouritesCount := e.favouritesCount + 1)
    case Unfavourite => e.(favourited := false, favouritesCount := e.favouritesCount - 1)
    case Reblog => e.(reblogged := true, reblogsCount := e.reblogsCount + 1)
    case Unreblog => e.(reblogged := false, reblogsCount := e.reblogsCount - 1)
    case Pin => e.(pinned := true)
    case Unpin => e.(pinned := false)
    case Bookmark => e.(bookmarked := true)
    case Unbookmark => e.(bookmarked := false)
  }

  /** The change applied when the request fails: the flag takes the opposite value and the
      count moves back by one; nothing else changes. */
  function Undo(a: Action, e: Engagement): (r: Engagement)
    ensures Flag(a, r) == !Sets(a)
    ensures r == WithFlag(a, e, !Sets(a)).(favouritesCount := e.favouritesCount - FavouritesDelta(a),
                                           reblogsCount := e.reblogsCount - ReblogsDelta(a))
  {
    match a
    case Favourite => e.(favourited := false, favouritesCount := e.favouritesCount - 1)
    case Unfavourite => e.(favourited := true, favouritesCount := e.favouritesCount + 1)
    case Reblog => e.(reblogged := false, reblogsCount := e.reblogsCount - 1)
    case Unreblog => e.(reblogged := true, reblogsCount := e.reblogsCount + 1)
    case Pin => e.(pinned := false)
    case Unpin => e.(pinned := true)
    case Bookmark => e.(bookmarked := false)
    case Unbookmark => e.(bookmarked := true)
  }

  /** The endpoint an action posts to, keyed by a status id. */
  function ToggleEndpoint(a: Action, id: string): Endpoint {
    match a
    case Favourite => FavouriteStatus(id)
    case Unfavourite => UnfavouriteStatus(id)
    case Reblog => ReblogStatus(id)
    case Unreblog => UnreblogStatus(id)
    case Pin => PinStatus(id)
    case Unpin => UnpinStatus(id)
    case Bookmark => BookmarkStatus(id)
    case Unbookmark => UnbookmarkStatus(id)
  }

  /** The request a toggle sends: none without an authenticated client, otherwise a post to
      the action's endpoint for the reblogged original's id, or the status's own id. */
  function ToggleRequest(a: Action, s: Status, c: Option<Client>): (r: Option<Request>)
    ensures r.Some? <==> Authenticated(c)
    ensures r.Some? ==> r.value.verb == Post && r.value.version == V1
    ensures r.Some? ==> r.value.endpoint == ToggleEndpoint(a, if s.reblog.Some? then s.reblog.value.id else s.id)
  {
    if Authenticated(c) then Some(Request(Post, ToggleEndpoint(a, TargetId(s)), V1)) else None
  }

  /** The mirror after one toggle, given the outcome of its request: unchanged when the
      guard fails; on success, the extraction from the returned status whatever the mirror
      held before; on failure, the mirror as it was except that the action's flag ends
      opposite to what the action asked for. The counts are restored exactly. */
  function Toggle(a: Action, e: Engagement, c: Option<Client>, o: Outcome<Status>): (r: Engagement)
    ensures !Authenticated(c) ==> r == e
    ensures Authenticated(c) && o.Success? ==> r == Extract(o.value)
    ensures Authenticated(c) && o.Failure? ==> r == WithFlag(a, e, !Sets(a))
  {
    if !Authenticated(c) then e
    else match o
      case Success(s) => Extract(s)
      case Failure => Undo(a, Optimistic(a, e))
  }

  // ---------------------------------------------------------------------------------
  // Embedded status resolution

  /** Swift's `contains` on strings: `part` occurs in `s` as a contiguous substring. */
  predicate Contains(s: string, part: string)
    ensures Contains(s, part) ==> |part| <= |s|
    ensures part <= s ==> Contains(s, part)
    ensures |part| <= |s| && s[|s| - |part|..] == part ==> Contains(s, part)
  {
    assert s[0..] == s;
    exists i :: 0 <= i <= |s| && part <= s[i..]
  }

  /** Whether a URL is resolved by fetching its id: it mentions the client's server and its
      last path component parses as an `Int`. */
  predicate FetchesById(c: Client, url: Url) {
    Contains(url.absoluteString, c.server) && ParseInt(url.lastPathComponent).Some?
  }

  /** The request that resolves the embedded status: none without a client, without a found
      URL, or when the client has no connection for the first URL; otherwise a fetch by the
      id in the URL's last path component, or a v2 search for statuses matching the URL. */
  function EmbedRequest(c: Option<Client>, urls: Option<seq<Url>>, hasConnection: Url -> bool): (r: Option<Request>)
    ensures r.None? <==> c.None? || urls.None? || urls.value == [] || !hasConnection(urls.value[0])
    ensures r.Some? ==> r.value.verb == Get
    ensures r.Some? ==> (r.value.endpoint.StatusById? <==> FetchesById(c.value, urls.value[0]))
    ensures r.Some? && r.value.endpoint.StatusById? ==>
      && r.value.version == V1
      && r.value.endpoint.id == Describe(ParseInt(urls.value[0].lastPathComponent).value)
      && ParseInt(r.value.endpoint.id) == ParseInt(urls.value[0].lastPathComponent)
    ensures r.Some? && !r.value.endpoint.StatusById? ==>
      r.value == Request(Get, SearchStatuses(urls.value[0].absoluteString, "statuses", 0, None), V2)
  {
    if c.None? || urls.None? || urls.value == [] || !hasConnection(urls.value[0]) then None
    else
      var url := urls.value[0];
      if FetchesById(c.value, url) then
        var id := ParseInt(url.lastPathComponent);
        ParseDescribe(id.value);
        Some(Request(Get, StatusById(Describe(id.value)), V1))
      else
        Some(Request(Get, SearchStatuses(url.absoluteString, "statuses", 0, None), V2))
  }
}
