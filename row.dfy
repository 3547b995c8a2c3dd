/** The per-status interaction state holder behind a status row. */
module Row {
  import opened Wrappers
  import opened Models
  import opened Network
  import opened SwiftInt
  import opened Interaction

  /** One displayed status: a local, optimistically updated mirror of its engagement, the
      embedded (quoted) status once resolved, and display flags. Each engagement method
      takes the outcome of the request it sends and returns the request it sent, together
      with the mirror as it stands while that request is in flight. */
  class StatusRowViewModel {
    const status: Status
    const isCompact: bool
    const isFocused: bool
    const isRemote: bool
    const showActions: bool

    var favouritesCount: int
    var isFavourited: bool
    var isReblogged: bool
    var isPinned: bool
    var isBookmarked: bool
    var reblogsCount: int
    var repliesCount: int
    var embeddedStatus: Option<Status>
    var displaySpoiler: bool
    var isEmbedLoading: bool
    var isFiltered: bool

    /** The network client, attached by the owner of the row after creation. */
    var client: Option<Client>

    /** The seven mirrored engagement fields as one value. */
    function Mirror(): Engagement
      reads this
    {
      Engagement(isFavourited, isReblogged, isPinned, isBookmarked,
                 favouritesCount, reblogsCount, repliesCount)
    }

    constructor (status: Status, isCompact: bool := false, isFocused: bool := false, isRemote: bool := false,
                 showActions: bool := true)
      ensures this.status == status && this.isCompact == isCompact && this.isFocused == isFocused
      ensures this.isRemote == isRemote && this.showActions == showActions
      ensures Mirror() == Extract(status)
      ensures displaySpoiler == DisplaysSpoiler(status)
      ensures isFiltered == FilterOf(status).Some?
      ensures embeddedStatus.None? && isEmbedLoading && client.None?
    {
      this.status := status;
      this.isCompact := isCompact;
      this.isFocused := isFocused;
      this.isRemote := isRemote;
      this.showActions := showActions;
      if status.reblog.Some? {
        var reblog := status.reblog.value;
        isFavourited := reblog.favourited == Some(true);
        isReblogged := reblog.reblogged == Some(true);
        isPinned := reblog.pinned == Some(true);
        isBookmarked := reblog.bookmarked == Some(true);
      } else {
        isFavourited := status.favourited == Some(true);
        isReblogged := status.reblogged == Some(true);
        isPinned := status.pinned == Some(true);
        isBookmarked := status.bookmarked == Some(true);
      }
      favouritesCount := if status.reblog.Some? then status.reblog.value.favouritesCount else status.favouritesCount;
      reblogsCount := if status.reblog.Some? then status.reblog.value.reblogsCount else status.reblogsCount;
      repliesCount := if status.reblog.Some? then status.reblog.value.repliesCount else status.repliesCount;
      embeddedStatus := None;
      isEmbedLoading := true;
      displaySpoiler := (if status.reblog.Some? then status.reblog.value.spoilerText else status.spoilerText) != "";
      isFiltered := FilterOf(status).Some?;
      client := None;
    }

    /** The destination "open detail" hands to the router, if any. `parseUrl` is
        `URL(string:)`. */
    method NavigateToDetail(parseUrl: string -> Option<Url>) returns (dest: Option<RouterDestination>)
      ensures isFocused ==> dest.None?
      ensures !isFocused && isRemote && parseUrl(DetailUrlText(status)).Some? ==>
        dest == Some(RemoteStatusDetail(parseUrl(DetailUrlText(status)).value))
      ensures !isFocused && !(isRemote && parseUrl(DetailUrlText(status)).Some?) ==>
        dest == Some(StatusDetail(if status.reblog.Some? then status.reblog.value.id else status.id))
    {
      if isFocused {
        return None;
      }
      var url := if isRemote then parseUrl(DetailUrlText(status)) else None;
      if url.Some? {
        dest := Some(RemoteStatusDetail(url.value));
      } else {
        dest := Some(StatusDetail(TargetId(status)));
      }
    }

    /** Resolves the status quoted in this one. `findStatusesURLs` gives the status URLs found
        in a body, `hasConnection` whether the client can reach a URL; `fetched` and
        `found` are the outcomes of the fetch by id and of the search, of which only the one
        sent is used. */
    method LoadEmbeddedStatus(findStatusesURLs: string -> Option<seq<Url>>, hasConnection: Url -> bool,
                              fetched: Outcome<Status>, found: Outcome<seq<Status>>)
      returns (req: Option<Request>)
      modifies this`isEmbedLoading, this`embeddedStatus
      ensures req == EmbedRequest(client, findStatusesURLs(status.content), hasConnection)
      ensures !isEmbedLoading
      ensures req.None? ==> embeddedStatus == old(embeddedStatus)
      ensures req.Some? && req.value.endpoint.StatusById? ==>
        embeddedStatus == (if fetched.Success? then Some(fetched.value) else old(embeddedStatus))
      ensures req.Some? && !req.value.endpoint.StatusById? ==>
        embeddedStatus == (if found.Success? then First(Some(found.value)) else old(embeddedStatus))
    {
      var urls := findStatusesURLs(status.content);
      if client.None? || urls.None? || urls.value == [] || !hasConnection(urls.value[0]) {
        isEmbedLoading := false;
        return None;
      }
      var c, url := client.value, urls.value[0];
      isEmbedLoading := true;
      var embed: Option<Status>;
      if FetchesById(c, url) {
        var id := ParseInt(url.lastPathComponent);
        req := Some(Request(Get, StatusById(Describe(id.value)), V1));
        if fetched.Failure? {
          isEmbedLoading := false;
          return;
        }
        embed := Some(fetched.value);
      } else {
        req := Some(Request(Get, SearchStatuses(url.absoluteString, "statuses", 0, None), V2));
        if found.Failure? {
          isEmbedLoading := false;
          return;
        }
        embed := First(Some(found.value));
      }
      embeddedStatus := embed;
      isEmbedLoading := false;
    }

    method Favourite(o: Outcome<Status>) returns (req: Option<Request>, pending: Engagement)
      modifies this`isFavourited, this`isReblogged, this`isPinned, this`isBookmarked
      modifies this`favouritesCount, this`reblogsCount, this`repliesCount
      ensures req == ToggleRequest(Action.Favourite, status, client)
      ensures pending == if req.Some? then Optimistic(Action.Favourite, old(Mirror())) else old(Mirror())
      ensures Mirror() == Toggle(Action.Favourite, old(Mirror()), client, o)
      ensures req.Some? && o.Failure? ==> !isFavourited && favouritesCount == old(favouritesCount)
    {
      if !Authenticated(client) {
        return None, Mirror();
      }
      isFavourited := true;
      favouritesCount := favouritesCount + 1;
      pending := Mirror();
      req := Some(Request(Post, FavouriteStatus(TargetId(status)), V1));
      if o.Success? {
        UpdateFromStatus(o.value);
      } else {
        isFavourited := false;
        favouritesCount := favouritesCount - 1;
      }
    }

    method UnFavourite(o: Outcome<Status>) returns (req: Option<Request>, pending: Engagement)
      modifies this`isFavourited, this`isReblogged, this`isPinned, this`isBookmarked
      modifies this`favouritesCount, this`reblogsCount, this`repliesCount
      ensures req == ToggleRequest(Action.Unfavourite, status, client)
      ensures pending == if req.Some? then Optimistic(Action.Unfavourite, old(Mirror())) else old(Mirror())
      ensures Mirror() == Toggle(Action.Unfavourite, old(Mirror()), client, o)
      ensures req.Some? && o.Failure? ==> isFavourited && favouritesCount == old(favouritesCount)
    {
      if !Authenticated(client) {
        return None, Mirror();
      }
      isFavourited := false;
      favouritesCount := favouritesCount - 1;
      pending := Mirror();
      req := Some(Request(Post, UnfavouriteStatus(TargetId(status)), V1));
      if o.Success? {
        UpdateFromStatus(o.value);
      } else {
        isFavourited := true;
        favouritesCount := favouritesCount + 1;
      }
    }

    method Reblog(o: Outcome<Status>) returns (req: Option<Request>, pending: Engagement)
      modifies this`isFavourited, this`isReblogged, this`isPinned, this`isBookmarked
      modifies this`favouritesCount, this`reblogsCount, this`repliesCount
      ensures req == ToggleRequest(Action.Reblog, status, client)
      ensures pending == if req.Some? then Optimistic(Action.Reblog, old(Mirror())) else old(Mirror())
      ensures Mirror() == Toggle(Action.Reblog, old(Mirror()), client, o)
      ensures req.Some? && o.Failure? ==> !isReblogged && reblogsCount == old(reblogsCount)
    {
      if !Authenticated(client) {
        return None, Mirror();
      }
      isReblogged := true;
      reblogsCount := reblogsCount + 1;
      pending := Mirror();
      req := Some(Request(Post, ReblogStatus(TargetId(status)), V1));
      if o.Success? {
        UpdateFromStatus(o.value);
      } else {
        isReblogged := false;
        reblogsCount := reblogsCount - 1;
      }
    }

    method UnReblog(o: Outcome<Status>) returns (req: Option<Request>, pending: Engagement)
      modifies this`isFavourited, this`isReblogged, this`isPinned, this`isBookmarked
      modifies this`favouritesCount, this`reblogsCount, this`repliesCount
      ensures req == ToggleRequest(Action.Unreblog, status, client)
      ensures pending == if req.Some? then Optimistic(Action.Unreblog, old(Mirror())) else old(Mirror())
      ensures Mirror() == Toggle(Action.Unreblog, old(Mirror()), client, o)
      ensures req.Some? && o.Failure? ==> isReblogged && reblogsCount == old(reblogsCount)
    {
      if !Authenticated(client) {
        return None, Mirror();
      }
      isReblogged := false;
      reblogsCount := reblogsCount - 1;
      pending := Mirror();
      req := Some(Request(Post, UnreblogStatus(TargetId(status)), V1));
      if o.Success? {
        UpdateFromStatus(o.value);
      } else {
        isReblogged := true;
        reblogsCount := reblogsCount + 1;
      }
    }

    method Pin(o: Outcome<Status>) returns (req: Option<Request>, pending: Engagement)
      modifies this`isFavourited, this`isReblogged, this`isPinned, this`isBookmarked
      modifies this`favouritesCount, this`reblogsCount, this`repliesCount
      ensures req == ToggleRequest(Action.Pin, status, client)
      ensures pending == if req.Some? then Optimistic(Action.Pin, old(Mirror())) else old(Mirror())
      ensures Mirror() == Toggle(Action.Pin, old(Mirror()), client, o)
      ensures o.Failure? ==> Mirror() == old(Mirror()).(pinned := if req.Some? then false else old(isPinned))
    {
      if !Authenticated(client) {
        return None, Mirror();
      }
      isPinned := true;
      pending := Mirror();
      req := Some(Request(Post, PinStatus(TargetId(status)), V1));
      if o.Success? {
        UpdateFromStatus(o.value);
      } else {
        isPinned := false;
      }
    }

    method UnPin(o: Outcome<Status>) returns (req: Option<Request>, pending: Engagement)
      modifies this`isFavourited, this`isReblogged, this`isPinned, this`isBookmarked
      modifies this`favouritesCount, this`reblogsCount, this`repliesCount
      ensures req == ToggleRequest(Action.Unpin, status, client)
      ensures pending == if req.Some? then Optimistic(Action.Unpin, old(Mirror())) else old(Mirror())
      ensures Mirror() == Toggle(Action.Unpin, old(Mirror()), client, o)
      ensures o.Failure? ==> Mirror() == old(Mirror()).(pinned := if req.Some? then true else old(isPinned))
    {
      if !Authenticated(client) {
        return None, Mirror();
      }
      isPinned := false;
      pending := Mirror();
      req := Some(Request(Post, UnpinStatus(TargetId(status)), V1));
      if o.Success? {
        UpdateFromStatus(o.value);
      } else {
        isPinned := true;
      }
    }

    method Bookmark(o: Outcome<Status>) returns (req: Option<Request>, pending: Engagement)
      modifies this`isFavourited, this`isReblogged, this`isPinned, this`isBookmarked
      modifies this`favouritesCount, this`reblogsCount, this`repliesCount
      ensures req == ToggleRequest(Action.Bookmark, status, client)
      ensures pending == if req.Some? then Optimistic(Action.Bookmark, old(Mirror())) else old(Mirror())
      ensures Mirror() == Toggle(Action.Bookmark, old(Mirror()), client, o)
      ensures o.Failure? ==> Mirror() == old(Mirror()).(bookmarked := if req.Some? then false else old(isBookmarked))
    {
      if !Authenticated(client) {
        return None, Mirror();
      }
      isBookmarked := true;
      pending := Mirror();
      req := Some(Request(Post, BookmarkStatus(TargetId(status)), V1));
      if o.Success? {
        UpdateFromStatus(o.value);
      } else {
        isBookmarked := false;
      }
    }

    method Unbookmark(o: Outcome<Status>) returns (req: Option<Request>, pending: Engagement)
      modifies this`isFavourited, this`isReblogged, this`isPinned, this`isBookmarked
      modifies this`favouritesCount, this`reblogsCount, this`repliesCount
      ensures req == ToggleRequest(Action.Unbookmark, status, client)
      ensures pending == if req.Some? then Optimistic(Action.Unbookmark, old(Mirror())) else old(Mirror())
      ensures Mirror() == Toggle(Action.Unbookmark, old(Mirror()), client, o)
      ensures o.Failure? ==> Mirror() == old(Mirror()).(bookmarked := if req.Some? then true else old(isBookmarked))
    {
      if !Authenticated(client) {
        return None, Mirror();
      }
      isBookmarked := false;
      pending := Mirror();
      req := Some(Request(Post, UnbookmarkStatus(TargetId(status)), V1));
      if o.Success? {
        UpdateFromStatus(o.value);
      } else {
        isBookmarked := true;
      }
    }

    /** Deletes the outer status, not the reblogged original. Needs a client but not an
        authenticated one; a failure is swallowed and no field changes either way. */
    method Delete(o: Outcome<()>) returns (req: Option<Request>)
      ensures req.Some? <==> client.Some?
      ensures req.Some? ==> req.value == Request(Verb.Delete, StatusById(status.id), V1)
    {
      if client.None? {
        return None;
      }
      req := Some(Request(Verb.Delete, StatusById(status.id), V1));
    }

    /** Reconciles the mirror with a status the server returned, by the same reblog-aware
        rule the constructor uses; nothing outside the seven mirrored fields changes. */
    method UpdateFromStatus(s: Status)
      modifies this`isFavourited, this`isReblogged, this`isPinned, this`isBookmarked
      modifies this`favouritesCount, this`reblogsCount, this`repliesCount
      ensures Mirror() == Extract(s)
    {
      if s.reblog.Some? {
        var reblog := s.reblog.value;
        isFavourited := reblog.favourited == Some(true);
        isReblogged := reblog.reblogged == Some(true);
        isPinned := reblog.pinned == Some(true);
        isBookmarked := reblog.bookmarked == Some(true);
      } else {
        isFavourited := s.favourited == Some(true);
        isReblogged := s.reblogged == Some(true);
        isPinned := s.pinned == Some(true);
        isBookmarked := s.bookmarked == Some(true);
      }
      favouritesCount := if s.reblog.Some? then s.reblog.value.favouritesCount else s.favouritesCount;
      reblogsCount := if s.reblog.Some? then s.reblog.value.reblogsCount else s.reblogsCount;
      repliesCount := if s.reblog.Some? then s.reblog.value.repliesCount else s.repliesCount;
    }
  }

  // ---------------------------------------------------------------------------------
  // Callers: what the contracts above let a caller conclude

  /** A status without URL, spoiler or filters, with the given id, favourite count and favourited flag. */
  function SampleStatus(id: string, favourites: int, favourited: bool, reblog: Option<Status>): Status {
    Status(id, None, "", "", Some(favourited), Some(false), Some(false), Some(false),
           favourites, 0, 0, None, reblog)
  }

  /** Favouriting a status with five favourites: six, favourited, while the request is in
      flight; six, favourited, once the server confirms six. */
  method FavouriteConfirmedScenario() returns (pendingCount: int, pendingFavourited: bool, count: int, favourited: bool)
    ensures pendingCount == 6 && pendingFavourited
    ensures count == 6 && favourited
  {
    var s := SampleStatus("1", 5, false, None);
    var row := new StatusRowViewModel(s);
    row.client := Some(Client("mastodon.social", true));
    var _, pending := row.Favourite(Success(SampleStatus("1", 6, true, None)));
    pendingCount, pendingFavourited := pending.favouritesCount, pending.favourited;
    count, favourited := row.favouritesCount, row.isFavourited;
  }

  /** Favouriting the same status when the request fails, twice in a row: each failure
      returns to the baseline. */
  method FavouriteFailedScenario() returns (count: int, favourited: bool)
    ensures count == 5 && !favourited
  {
    var s := SampleStatus("1", 5, false, None);
    var row := new StatusRowViewModel(s);
    row.client := Some(Client("mastodon.social", true));
    var _, _ := row.Favourite(Failure);
    assert row.favouritesCount == 5 && !row.isFavourited;
    var _, _ := row.Favourite(Failure);
    count, favourited := row.favouritesCount, row.isFavourited;
  }

  /** Pinning a reblog of status 42 posts the pin for 42, not for the wrapper. */
  method PinReblogScenario() returns (req: Option<Request>)
    ensures req == Some(Request(Post, PinStatus("42"), V1))
  {
    var s := SampleStatus("7", 0, false, Some(SampleStatus("42", 0, false, None)));
    var row := new StatusRowViewModel(s);
    row.client := Some(Client("mastodon.social", true));
    var pending;
    req, pending := row.Pin(Failure);
  }
}
