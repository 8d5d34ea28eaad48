/** The client's loop over the pages of the cache library. */
module LibraryPagination {
  import opened Prelude

  /** A library item; the loop only moves it. */
  datatype Item = Item(id: Text)

  datatype Page = Page(items: seq<Item>, nextPageToken: Text)

  datatype PaginationError =
    | FetchFailed(call: nat)
    | RepeatedPageToken(token: Text)
    | ExceededPageLimit(limit: int)
    | ExceededItemLimit(limit: int)

  /** Any source of pages: what it answers may depend on how often it was asked; `None` is a thrown error. */
  type Source = (nat, Text) -> Option<Page>

  function Limit(maxPages: int): nat {
    Max(1, maxPages)
  }

  // ---------------------------------------------------------------- what was fetched

  /** Fetch `i` answered with the token of the next fetch. */
  ghost predicate Leads(fetch: Source, tokens: seq<Text>, i: nat)
    requires i + 1 < |tokens|
  {
    fetch(i, tokens[i]).Some? && tokens[i + 1] != "" && fetch(i, tokens[i]).value.nextPageToken == tokens[i + 1]
  }

  /** The tokens asked for are the empty one and then each page's own next token. */
  ghost predicate Followed(fetch: Source, tokens: seq<Text>) {
    (tokens != [] ==> tokens[0] == "") && forall i :: 0 <= i < |tokens| - 1 ==> Leads(fetch, tokens, i)
  }

  /** The items of the first `n` pages, in order. */
  ghost function ItemsOf(fetch: Source, tokens: seq<Text>, n: nat): seq<Item>
    requires n <= |tokens|
  {
    if n == 0 || fetch(n - 1, tokens[n - 1]).None? then []
    else ItemsOf(fetch, tokens, n - 1) + fetch(n - 1, tokens[n - 1]).value.items
  }

  /** The last page asked for. */
  ghost function LastPage(fetch: Source, tokens: seq<Text>): Option<Page>
    requires tokens != []
  {
    fetch(|tokens| - 1, tokens[|tokens| - 1])
  }

  ghost predicate Failed(fetch: Source, tokens: seq<Text>, maxPages: int, maxItems: int, partial: bool,
                         e: PaginationError)
    requires tokens != []
  {
    var page := LastPage(fetch, tokens);
    match e
    case FetchFailed(call) => page.None? && call == |tokens| - 1
    case ExceededItemLimit(limit) => page.Some? && limit == maxItems && |ItemsOf(fetch, tokens, |tokens|)| > maxItems
    case ExceededPageLimit(limit) =>
      page.Some? && limit == maxPages && !partial && |tokens| == Limit(maxPages) && page.value.nextPageToken != ""
    case RepeatedPageToken(token) =>
      && page.Some? && token == page.value.nextPageToken && token != ""
      && token in tokens && |tokens| < maxPages
  }

  ghost predicate Succeeded(fetch: Source, tokens: seq<Text>, maxPages: int, maxItems: int, partial: bool,
                            items: seq<Item>)
    requires tokens != []
  {
    && items == ItemsOf(fetch, tokens, |tokens|) && |items| <= maxItems
    && LastPage(fetch, tokens).Some?
    && (LastPage(fetch, tokens).value.nextPageToken == "" || (partial && |tokens| == Limit(maxPages)))
  }

  /** The fetches made: within the limit, no token twice, and within the item limit before the last. */
  ghost predicate Fetches(fetch: Source, maxPages: int, maxItems: int, tokens: seq<Text>) {
    && 1 <= |tokens| <= Limit(maxPages)
    && NoDuplicates(tokens) && Followed(fetch, tokens)
    && (forall n :: 0 < n < |tokens| ==> |ItemsOf(fetch, tokens, n)| <= maxItems)
  }

  /** Everything a call promises, in terms of the fetches it made. */
  ghost predicate Outcome(fetch: Source, maxPages: int, maxItems: int, partial: bool,
                          r: Result<seq<Item>, PaginationError>, tokens: seq<Text>) {
    Fetches(fetch, maxPages, maxItems, tokens)
    && match r
       case Ok(items) => Succeeded(fetch, tokens, maxPages, maxItems, partial, items)
       case Err(e) => Failed(fetch, tokens, maxPages, maxItems, partial, e)
  }

  // ---------------------------------------------------------------- the loop

  /** `collectCacheLibraryItems`; `tokens` are the fetches made. For any source it stops within the page limit and never
      asks for a token twice. */
  method Collect(maxPages: int, maxItems: int, allowPartialResults: bool, fetch: Source)
    returns (r: Result<seq<Item>, PaginationError>, tokens: seq<Text>)
    ensures Outcome(fetch, maxPages, maxItems, allowPartialResults, r, tokens)
  {
    var allItems: seq<Item> := [];
    var pageToken: Text := "";
    var seen: set<Text> := {};
    tokens := [];
    while true
      invariant |tokens| < Limit(maxPages) && Fetchable(fetch, tokens + [pageToken], seen)
      invariant allItems == ItemsOf(fetch, tokens, |tokens|)
      invariant forall n :: 0 < n <= |tokens| ==> |ItemsOf(fetch, tokens, n)| <= maxItems
      decreases Limit(maxPages) - |tokens|
    {
      NowFetched(fetch, maxPages, maxItems, tokens, pageToken, seen);
      tokens := tokens + [pageToken];
      var page := fetch(|tokens| - 1, pageToken);
      if page.None? {
        return Err(FetchFailed(|tokens| - 1)), tokens;
      }
      allItems := allItems + page.value.items;
      assert allItems == ItemsOf(fetch, tokens, |tokens|);
      if |allItems| > maxItems {
        return Err(ExceededItemLimit(maxItems)), tokens;
      }
      var next := page.value.nextPageToken;
      if next == "" {
        return Ok(allItems), tokens;
      }
      if |tokens| >= maxPages {
        if allowPartialResults {
          return Ok(allItems), tokens;
        }
        return Err(ExceededPageLimit(maxPages)), tokens;
      }
      if next in seen {
        return Err(RepeatedPageToken(next)), tokens;
      }
      NextToken(fetch, tokens, next, seen);
      seen, pageToken := seen + {next}, next;
    }
  }

  lemma NowFetched(fetch: Source, maxPages: int, maxItems: int, before: seq<Text>, token: Text, seen: set<Text>)
    requires |before| < Limit(maxPages) && Fetchable(fetch, before + [token], seen)
    requires forall n :: 0 < n <= |before| ==> |ItemsOf(fetch, before, n)| <= maxItems
    ensures Fetches(fetch, maxPages, maxItems, before + [token])
    ensures ItemsOf(fetch, before + [token], |before|) == ItemsOf(fetch, before, |before|)
    ensures forall n :: 0 < n <= |before| ==> |ItemsOf(fetch, before + [token], n)| <= maxItems
  {
    SameItems(fetch, before, before + [token]);
  }

  /** The tokens fetched so far and the next one; `seen` are all of them but the empty first. */
  ghost predicate Fetchable(fetch: Source, tokens: seq<Text>, seen: set<Text>) {
    NoDuplicates(tokens) && Followed(fetch, tokens) && seen == Elements(tokens) - {""}
  }

  lemma NextToken(fetch: Source, tokens: seq<Text>, next: Text, seen: set<Text>)
    requires tokens != [] && Fetchable(fetch, tokens, seen) && next !in seen
    requires LastPage(fetch, tokens).Some? && LastPage(fetch, tokens).value.nextPageToken == next && next != ""
    ensures Fetchable(fetch, tokens + [next], seen + {next})
  {
    var more := tokens + [next];
    forall i | 0 <= i < |more| - 1 ensures Leads(fetch, more, i) {
      assert i < |tokens| - 1 ==> Leads(fetch, tokens, i);
    }
    assert next !in Elements(tokens);
    assert Elements(more) == Elements(tokens) + {next};
  }

  lemma {:induction false} SameItemsUpTo(fetch: Source, a: seq<Text>, b: seq<Text>, n: nat)
    requires n <= |a| <= |b| && b[..|a|] == a
    ensures ItemsOf(fetch, b, n) == ItemsOf(fetch, a, n)
  {
    if n > 0 {
      SameItemsUpTo(fetch, a, b, n - 1);
      assert b[n - 1] == b[..|a|][n - 1];
    }
  }

  lemma SameItems(fetch: Source, a: seq<Text>, b: seq<Text>)
    requires |a| <= |b| && b[..|a|] == a
    ensures forall n :: 0 <= n <= |a| ==> ItemsOf(fetch, b, n) == ItemsOf(fetch, a, n)
  {
    forall n | 0 <= n <= |a| ensures ItemsOf(fetch, b, n) == ItemsOf(fetch, a, n) {
      SameItemsUpTo(fetch, a, b, n);
    }
  }

  // ---------------------------------------------------------------- completeness

  /** A finite listing that fits the limits: distinct tokens, ended by an empty one. */
  ghost predicate Listing(fetch: Source, chain: seq<Text>, maxPages: int, maxItems: int) {
    && chain != [] && |chain| <= Limit(maxPages) && NoDuplicates(chain) && Followed(fetch, chain)
    && LastPage(fetch, chain).Some? && LastPage(fetch, chain).value.nextPageToken == ""
    && forall n :: 0 < n <= |chain| ==> |ItemsOf(fetch, chain, n)| <= maxItems
  }

  lemma {:induction false} FollowedAgree(fetch: Source, a: seq<Text>, b: seq<Text>, n: nat)
    requires Followed(fetch, a) && Followed(fetch, b) && n < |a| && n < |b|
    ensures a[n] == b[n]
  {
    if n > 0 {
      FollowedAgree(fetch, a, b, n - 1);
      assert Leads(fetch, a, n - 1) && Leads(fetch, b, n - 1);
    }
  }

  /** The fetches of a call run along the listing and do not go past its end. */
  lemma FetchesFollowListing(fetch: Source, maxPages: int, maxItems: int, partial: bool,
                             r: Result<seq<Item>, PaginationError>, tokens: seq<Text>, chain: seq<Text>)
    requires Listing(fetch, chain, maxPages, maxItems) && Outcome(fetch, maxPages, maxItems, partial, r, tokens)
    ensures |tokens| <= |chain| && chain[..|tokens|] == tokens
  {
    if |tokens| > |chain| {
      assert Leads(fetch, tokens, |chain| - 1);
      FollowedAgree(fetch, tokens, chain, |chain| - 1);
    } else {
      forall n | 0 <= n < |tokens| ensures chain[n] == tokens[n] {
        FollowedAgree(fetch, tokens, chain, n);
      }
    }
  }

  /** In the middle of a listing there is a further page, its token is new and nothing is exceeded. */
  lemma MidListing(fetch: Source, maxPages: int, maxItems: int, tokens: seq<Text>, chain: seq<Text>)
    requires Listing(fetch, chain, maxPages, maxItems) && 1 <= |tokens| < |chain| && chain[..|tokens|] == tokens
    ensures LastPage(fetch, tokens).Some? && LastPage(fetch, tokens).value.nextPageToken != ""
    ensures LastPage(fetch, tokens).value.nextPageToken !in tokens && |tokens| < Limit(maxPages)
    ensures |ItemsOf(fetch, tokens, |tokens|)| <= maxItems
  {
    var k := |tokens|;
    SameItems(fetch, tokens, chain);
    assert Leads(fetch, chain, k - 1) && chain[k - 1] == tokens[k - 1];
    assert |ItemsOf(fetch, chain, k)| <= maxItems;
  }

  /** A listing that fits the limits is always returned, complete and in order. */
  lemma ListingIsCollected(fetch: Source, maxPages: int, maxItems: int, partial: bool,
                           r: Result<seq<Item>, PaginationError>, tokens: seq<Text>, chain: seq<Text>)
    requires Listing(fetch, chain, maxPages, maxItems) && Outcome(fetch, maxPages, maxItems, partial, r, tokens)
    ensures r == Ok(ItemsOf(fetch, chain, |chain|))
  {
    FetchesFollowListing(fetch, maxPages, maxItems, partial, r, tokens, chain);
    SameItems(fetch, tokens, chain);
    if |tokens| < |chain| {
      MidListing(fetch, maxPages, maxItems, tokens, chain);
    } else {
      assert tokens == chain;
    }
  }
}
