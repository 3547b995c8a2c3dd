/** Properties of the status row's interaction rules: how a reblog is read, what a failed
    or successful toggle leaves behind, what any sequence of toggles leaves behind, and
    which request resolves an embedded status. */
module InteractionLemmas {
  import opened Wrappers
  import opened Models
  import opened Network
  import opened SwiftInt
  import opened Interaction

  /** For a reblog, the wrapper's own flags and counts are never read: any wrapper around
      the same reblogged original yields the same engagement. */
  lemma ExtractIgnoresWrapper(s: Status, w: Status)
    requires s.reblog.Some? && w.reblog == s.reblog
    ensures Extract(w) == Extract(s)
    ensures TargetId(w) == TargetId(s) == s.reblog.value.id
  {
  }

  /** A failed toggle gives back exactly the mirror it started from if and only if the
      action's flag already held the value the failure leaves it at. */
  lemma FailureRestoresIff(a: Action, e: Engagement, c: Option<Client>)
    requires Authenticated(c)
    ensures Toggle(a, e, c, Failure) == e <==> Flag(a, e) == !Sets(a)
  {
  }

  /** Repeating a failed toggle changes nothing further. */
  lemma FailedToggleIsIdempotent(a: Action, e: Engagement, c: Option<Client>)
    ensures Toggle(a, Toggle(a, e, c, Failure), c, Failure) == Toggle(a, e, c, Failure)
  {
  }

  /** After a successful toggle the mirror depends only on the returned status: neither the
      action taken nor what the mirror held before matters. */
  lemma SuccessForgetsPriorState(a: Action, b: Action, e: Engagement, e': Engagement, c: Option<Client>, s: Status)
    requires Authenticated(c)
    ensures Toggle(a, e, c, Success(s)) == Toggle(b, e', c, Success(s)) == Extract(s)
  {
  }

  // ---------------------------------------------------------------------------------
  // Sequences of toggles

  /** One user action on the row and the outcome of the request it sent. */
  datatype Attempt = Attempt(action: Action, outcome: Outcome<Status>)

  /** The mirror after a sequence of toggles, one after another, with the same client. */
  function Run(e: Engagement, c: Option<Client>, attempts: seq<Attempt>): Engagement
    decreases |attempts|
  {
    if attempts == [] then e
    else Run(Toggle(attempts[0].action, e, c, attempts[0].outcome), c, attempts[1..])
  }

  predicate AllFail(attempts: seq<Attempt>) {
    forall i :: 0 <= i < |attempts| ==> attempts[i].outcome.Failure?
  }

  predicate SameCounts(e: Engagement, e': Engagement) {
    e.favouritesCount == e'.favouritesCount && e.reblogsCount == e'.reblogsCount
    && e.repliesCount == e'.repliesCount
  }

  lemma {:induction false} RunAppend(e: Engagement, c: Option<Client>, xs: seq<Attempt>, ys: seq<Attempt>)
    ensures Run(e, c, xs + ys) == Run(Run(e, c, xs), c, ys)
    decreases |xs|
  {
    if xs == [] {
      assert xs + ys == ys;
    } else {
      assert (xs + ys)[1..] == xs[1..] + ys;
      RunAppend(Toggle(xs[0].action, e, c, xs[0].outcome), c, xs[1..], ys);
    }
  }

  /** Without an authenticated client no sequence of toggles changes the mirror. */
  lemma {:induction false} UnauthenticatedRunChangesNothing(e: Engagement, c: Option<Client>, attempts: seq<Attempt>)
    requires !Authenticated(c)
    ensures Run(e, c, attempts) == e
    decreases |attempts|
  {
    if attempts != [] {
      UnauthenticatedRunChangesNothing(e, c, attempts[1..]);
    }
  }

  /** A sequence of toggles whose requests all fail leaves every count where it was: no
      optimistic increment or decrement survives a failure. */
  lemma {:induction false} FailedRunKeepsCounts(e: Engagement, c: Option<Client>, attempts: seq<Attempt>)
    requires AllFail(attempts)
    ensures SameCounts(Run(e, c, attempts), e)
    decreases |attempts|
  {
    if attempts != [] {
      var e' := Toggle(attempts[0].action, e, c, attempts[0].outcome);
      assert SameCounts(e', e);
      assert AllFail(attempts[1..]) by {
        forall i | 0 <= i < |attempts| - 1 ensures attempts[1..][i].outcome.Failure? {
          assert attempts[1..][i] == attempts[i + 1];
        }
      }
      FailedRunKeepsCounts(e', c, attempts[1..]);
    }
  }

  /** With an authenticated client, the counts after any sequence of toggles are the ones
      the server reported in the last successful reply. */
  lemma CountsFollowLastSuccess(e: Engagement, c: Option<Client>, attempts: seq<Attempt>, k: nat)
    requires Authenticated(c)
    requires k < |attempts| && attempts[k].outcome.Success?
    requires AllFail(attempts[k + 1..])
    ensures SameCounts(Run(e, c, attempts), Extract(attempts[k].outcome.value))
  {
    var before, last, after := attempts[..k], attempts[k], attempts[k + 1..];
    assert attempts == before + [last] + after;
    RunAppend(e, c, before + [last], after);
    RunAppend(e, c, before, [last]);
    var reconciled := Run(Run(e, c, before), c, [last]);
    assert reconciled == Extract(last.outcome.value);
    FailedRunKeepsCounts(reconciled, c, after);
  }

  // ---------------------------------------------------------------------------------
  // Embedded status resolution

  /** A URL on the client's server whose last path component is an id written the way
      `String(_: Int)` writes it is fetched by exactly that id. */
  lemma CanonicalIdIsFetchedVerbatim(c: Client, urls: seq<Url>, hasConnection: Url -> bool, n: int)
    requires urls != [] && hasConnection(urls[0])
    requires Contains(urls[0].absoluteString, c.server)
    requires IntMin <= n <= IntMax && urls[0].lastPathComponent == Describe(n)
    ensures EmbedRequest(Some(c), Some(urls), hasConnection) == Some(Request(Get, StatusById(urls[0].lastPathComponent), V1))
  {
    ParseDescribe(n);
  }

  /** A URL that does not mention the client's server is always looked up by search. */
  lemma ForeignUrlIsSearched(c: Client, urls: seq<Url>, hasConnection: Url -> bool)
    requires urls != [] && hasConnection(urls[0])
    requires !Contains(urls[0].absoluteString, c.server)
    ensures EmbedRequest(Some(c), Some(urls), hasConnection)
            == Some(Request(Get, SearchStatuses(urls[0].absoluteString, "statuses", 0, None), V2))
  {
  }

  /** A URL on the client's server whose last path component is a run of digits within
      range, leading zeros allowed, is fetched by id, and the id sent is that number
      written without leading zeros. */
  lemma NumericSameServerSegmentIsFetchedById(c: Client, urls: seq<Url>, hasConnection: Url -> bool)
    requires urls != [] && hasConnection(urls[0])
    requires Contains(urls[0].absoluteString, c.server)
    requires var m := urls[0].lastPathComponent; |m| > 0 && AllDigits(m) && DigitsValue(m) <= IntMax
    ensures EmbedRequest(Some(c), Some(urls), hasConnection)
            == Some(Request(Get, StatusById(Describe(DigitsValue(urls[0].lastPathComponent))), V1))
  {
    ParseDigits(urls[0].lastPathComponent);
  }
}
