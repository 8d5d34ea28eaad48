/** What `page`, `create_session` and `accept_selection` do to the store, and what they keep. */
module ResolutionOps {
  import opened Prelude
  import opened ResolutionModel
  import opened ResolutionState
  import opened ResolutionSelection

  // ---------------------------------------------------------------- page

  predicate PageSizeOk(size: nat) {
    0 < size <= MAX_PAGE_SIZE
  }

  function SessionIdError(id: Text): Option<StoreError> {
    if Blank(id) then Some(SessionIdRequired)
    else if |id| > MAX_TOKEN_BYTES then Some(SessionIdInvalid)
    else None
  }

  function PageEnd(s: Session, offset: nat, size: nat): nat {
    Min(SaturatingAdd(offset, size), |s.candidates|)
  }

  function ViewOf(s: Session, offset: nat, size: nat, next: Text): PageView
    requires offset <= |s.candidates| <= U64_MAX
  {
    PageView(s.view, s.candidates[offset..PageEnd(s, offset, size)], |s.candidates|, next, s.snapshotId)
  }

  function AddCursor(st: Store, id: Text, offset: nat, token: Text): Store
    requires id in st.sessions
  {
    var s := st.sessions[id];
    st.(sessions := st.sessions[id := s.(pageTokens := s.pageTokens[offset := token])],
        cursors := st.cursors[token := Cursor(id, s.snapshotId, offset)])
  }

  /** `page_at_offset`; `uuid` is the identifier drawn if a new cursor is needed. */
  function PageAtOffset(st: Store, id: Text, offset: nat, size: nat,
                        uuid: Text): (Store, Result<PageView, StoreError>) {
    if id !in st.sessions then (st, Err(SessionNotFound))
    else
      var s := st.sessions[id];
      if offset > |s.candidates| || |s.candidates| > U64_MAX then (st, Err(PageTokenBadOffset))
      else
        var end := PageEnd(s, offset, size);
        if end == |s.candidates| then (st, Ok(ViewOf(s, offset, size, "")))
        else if end in s.pageTokens then (st, Ok(ViewOf(s, offset, size, s.pageTokens[end])))
        else (AddCursor(st, id, end, PageToken(uuid)), Ok(ViewOf(s, offset, size, PageToken(uuid))))
  }

  /** The offset a page token stands for; no token, or an empty one, is the first page. */
  function TokenOffset(st: Store, id: Text, token: Option<Text>): Result<nat, StoreError> {
    if token.None? || token.value == "" then Ok(0)
    else if |token.value| > MAX_TOKEN_BYTES then Err(PageTokenTooLong)
    else if token.value !in st.cursors then Err(PageTokenUnknown)
    else
      var c := st.cursors[token.value];
      if c.sessionId != id then Err(PageTokenOtherSession)
      else if id !in st.sessions then Err(SessionNotFound)
      else if c.snapshotId != st.sessions[id].snapshotId then Err(PageTokenOtherSnapshot)
      else Ok(c.offset)
  }

  /** The token and offset part of `page`. */
  function PageIn(st: Store, id: Text, token: Option<Text>, size: nat,
                  uuid: Text): (Store, Result<PageView, StoreError>) {
    var offset := TokenOffset(st, id, token);
    if offset.Err? then (st, Err(offset.error))
    else PageAtOffset(st, id, offset.value, size, uuid)
  }

  /** `page` once expired sessions are gone; `expired` says whether this one was among them. */
  function PageLive(st: Store, expired: bool, id: Text, token: Option<Text>, size: nat,
                    uuid: Text): (Store, Result<PageView, StoreError>) {
    if SessionIdError(id).Some? then (st, Err(SessionIdError(id).value))
    else if expired then (st, Err(SessionExpired))
    else PageIn(st, id, token, size, uuid)
  }

  /** `page` */
  ghost function Page(st: Store, id: Text, token: Option<Text>, now: nat, size: nat,
                      uuid: Text): (Store, Result<PageView, StoreError>) {
    if !PageSizeOk(size) then (st, Err(PageSizeInvalid))
    else PageLive(Pruned(st, now), id in Expired(st, now), id, token, size, uuid)
  }

  /** A drawn identifier has the UUID length and names no cursor yet. */
  ghost predicate FreshPageId(st: Store, uuid: Text) {
    |uuid| == UUID_BYTES && PageToken(uuid) !in st.cursors
  }

  lemma AddCursorKeepsLinked(st: Store, id: Text, offset: nat, token: Text)
    requires Linked(st) && id in st.sessions && offset !in st.sessions[id].pageTokens
    requires token !in st.cursors && |token| == PAGE_TOKEN_BYTES
    ensures Linked(AddCursor(st, id, offset, token))
  {
    var n := AddCursor(st, id, offset, token);
    forall t | t in n.cursors ensures CursorOk(n, t) {
      if t != token {
        assert CursorOk(st, t);
      }
    }
    forall i, o | i in n.sessions && o in n.sessions[i].pageTokens ensures PageTokenOk(n, i, o) {
      if i != id || o != offset {
        assert PageTokenOk(st, i, o);
      }
    }
  }

  lemma AddCursorKeepsTotals(st: Store, id: Text, offset: nat, token: Text)
    requires ExactTotals(st) && id in st.sessions
    ensures ExactTotals(AddCursor(st, id, offset, token))
    ensures |AddCursor(st, id, offset, token).sessions| == |st.sessions|
    ensures AddCursor(st, id, offset, token).sessions.Keys == st.sessions.Keys
  {
    var n := AddCursor(st, id, offset, token);
    assert n.sessions.Keys == st.sessions.Keys;
    assert |n.sessions| == |n.sessions.Keys| && |st.sessions| == |st.sessions.Keys|;
    SumSameOn(CandidateCount, st.sessions, n.sessions, st.order);
    SumSameOn(ReservedBytes, st.sessions, n.sessions, st.order);
  }

  lemma AddCursorKeepsSessions(st: Store, id: Text, offset: nat, token: Text)
    requires forall i :: i in st.sessions ==> SessionOk(i, st.sessions[i])
    requires id in st.sessions && 0 < offset < |st.sessions[id].candidates|
    ensures var n := AddCursor(st, id, offset, token);
      forall i :: i in n.sessions ==> SessionOk(i, n.sessions[i])
  {
    var n := AddCursor(st, id, offset, token);
    assert SessionOk(id, st.sessions[id]);
    forall i | i in n.sessions ensures SessionOk(i, n.sessions[i]) {
      if i != id {
        assert n.sessions[i] == st.sessions[i];
      }
    }
  }

  lemma AddCursorKeepsValid(st: Store, id: Text, offset: nat, token: Text)
    requires Valid(st) && id in st.sessions && offset !in st.sessions[id].pageTokens
    requires token !in st.cursors && |token| == PAGE_TOKEN_BYTES && 0 < offset < |st.sessions[id].candidates|
    ensures Valid(AddCursor(st, id, offset, token))
  {
    AddCursorKeepsLinked(st, id, offset, token);
    AddCursorKeepsTotals(st, id, offset, token);
    AddCursorKeepsSessions(st, id, offset, token);
  }

  /** Serving a page leaves the store alone or adds one cursor at an interior offset. */
  lemma PageAtOffsetStore(st: Store, id: Text, offset: nat, size: nat, uuid: Text, n: Store)
    requires 0 < size && n == PageAtOffset(st, id, offset, size, uuid).0
    ensures n == st || (&& id in st.sessions && offset <= |st.sessions[id].candidates|
                        && var end := PageEnd(st.sessions[id], offset, size);
                           && 0 < end < |st.sessions[id].candidates| && end !in st.sessions[id].pageTokens
                           && n == AddCursor(st, id, end, PageToken(uuid)))
  {
  }

  lemma PageAtOffsetKeepsValid(st: Store, id: Text, offset: nat, size: nat, uuid: Text)
    requires Valid(st) && FreshPageId(st, uuid) && 0 < size
    ensures Valid(PageAtOffset(st, id, offset, size, uuid).0)
  {
    var n := PageAtOffset(st, id, offset, size, uuid).0;
    PageAtOffsetStore(st, id, offset, size, uuid, n);
    if n != st {
      AddCursorKeepsValid(st, id, PageEnd(st.sessions[id], offset, size), PageToken(uuid));
    }
  }

  /** Serving a page changes at most the page table of the session it serves. */
  lemma PageTouchesOneSession(st: Store, id: Text, offset: nat, size: nat, uuid: Text)
    ensures var n := PageAtOffset(st, id, offset, size, uuid).0;
      && n.order == st.order && n.sessions.Keys == st.sessions.Keys && n.sessions - {id} == st.sessions - {id}
      && (id in st.sessions ==> n.sessions[id].(pageTokens := st.sessions[id].pageTokens) == st.sessions[id])
      && n.totalCandidates == st.totalCandidates && n.totalBytes == st.totalBytes
  {
  }

  lemma PageInKeepsValid(st: Store, id: Text, token: Option<Text>, size: nat, uuid: Text)
    requires Valid(st) && FreshPageId(st, uuid) && 0 < size
    ensures Valid(PageIn(st, id, token, size, uuid).0)
  {
    var offset := TokenOffset(st, id, token);
    if offset.Ok? {
      PageAtOffsetKeepsValid(st, id, offset.value, size, uuid);
    }
  }

  lemma PageLiveKeepsValid(st: Store, expired: bool, id: Text, token: Option<Text>, size: nat, uuid: Text)
    requires Valid(st) && FreshPageId(st, uuid) && 0 < size
    ensures Valid(PageLive(st, expired, id, token, size, uuid).0)
  {
    PageInKeepsValid(st, id, token, size, uuid);
  }

  lemma PrunedKeepsValid(st: Store, now: nat)
    requires Valid(st)
    ensures Valid(Pruned(st, now))
    ensures forall uuid :: FreshPageId(st, uuid) ==> FreshPageId(Pruned(st, now), uuid)
  {
    RestrictKeepsValid(st, Expired(st, now));
  }

  /** `page` keeps the store valid. */
  lemma PageKeepsValid(st: Store, id: Text, token: Option<Text>, now: nat, size: nat, uuid: Text)
    requires Valid(st) && FreshPageId(st, uuid)
    ensures Valid(Page(st, id, token, now, size, uuid).0)
  {
    if PageSizeOk(size) {
      PrunedKeepsValid(st, now);
      PageLiveKeepsValid(Pruned(st, now), id in Expired(st, now), id, token, size, uuid);
    }
  }

  lemma CursorTokenSound(st: Store, id: Text, token: Text)
    requires Valid(st) && id in st.sessions && token in st.cursors && st.cursors[token].sessionId == id
    ensures st.cursors[token].snapshotId == st.sessions[id].snapshotId
    ensures st.cursors[token].offset < |st.sessions[id].candidates|
  {
    assert CursorOk(st, token);
  }

  lemma LiveSize(st: Store, id: Text)
    requires Valid(st) && id in st.sessions
    ensures 0 < |st.sessions[id].candidates| <= MAX_CANDIDATES
  {
    assert SessionOk(id, st.sessions[id]);
  }

  /** What `TokenOffset` answers when cursors are as they should be. */
  lemma TokenOffsetCases(st: Store, id: Text, token: Option<Text>)
    requires id in st.sessions && token.Some? && token.value in st.cursors
             && st.cursors[token.value].sessionId == id ==>
               && st.cursors[token.value].snapshotId == st.sessions[id].snapshotId
               && st.cursors[token.value].offset < |st.sessions[id].candidates|
    requires id in st.sessions ==> 0 < |st.sessions[id].candidates| <= MAX_CANDIDATES
    ensures TokenOffset(st, id, token) != Err(PageTokenOtherSnapshot)
    ensures TokenOffset(st, id, token).Ok? && id in st.sessions ==>
      TokenOffset(st, id, token).value < |st.sessions[id].candidates| <= MAX_CANDIDATES
  {
  }

  /** In a valid store a page token that belongs to the session is an interior offset of its snapshot. */
  lemma TokenOffsetSound(st: Store, id: Text, token: Option<Text>)
    requires Valid(st)
    ensures TokenOffset(st, id, token) != Err(PageTokenOtherSnapshot)
    ensures TokenOffset(st, id, token).Ok? && id in st.sessions ==>
      TokenOffset(st, id, token).value < |st.sessions[id].candidates| <= MAX_CANDIDATES
  {
    if id in st.sessions {
      LiveSize(st, id);
      if token.Some? && token.value in st.cursors && st.cursors[token.value].sessionId == id {
        CursorTokenSound(st, id, token.value);
      }
    }
    TokenOffsetCases(st, id, token);
  }

  lemma PageAtOffsetErrors(st: Store, id: Text, offset: nat, size: nat, uuid: Text)
    requires id in st.sessions ==> offset < |st.sessions[id].candidates| <= MAX_CANDIDATES
    ensures PageAtOffset(st, id, offset, size, uuid).1.Err? ==>
            PageAtOffset(st, id, offset, size, uuid).1 == Err(SessionNotFound)
  {
  }

  lemma PageLiveErrors(st: Store, expired: bool, id: Text, token: Option<Text>, size: nat, uuid: Text)
    requires Valid(st)
    ensures PageLive(st, expired, id, token, size, uuid).1 != Err(PageTokenOtherSnapshot)
    ensures PageLive(st, expired, id, token, size, uuid).1 != Err(PageTokenBadOffset)
  {
    TokenOffsetSound(st, id, token);
    var offset := TokenOffset(st, id, token);
    if offset.Ok? {
      PageAtOffsetErrors(st, id, offset.value, size, uuid);
    }
  }

  /** The mismatch and bad-offset errors cannot happen. */
  lemma PageErrorsUnreachable(st: Store, id: Text, token: Option<Text>, now: nat, size: nat, uuid: Text)
    requires Valid(st)
    ensures Page(st, id, token, now, size, uuid).1 != Err(PageTokenOtherSnapshot)
    ensures Page(st, id, token, now, size, uuid).1 != Err(PageTokenBadOffset)
  {
    PrunedKeepsValid(st, now);
    PageLiveErrors(Pruned(st, now), id in Expired(st, now), id, token, size, uuid);
  }

  // ---------------------------------------------------------------- create

  datatype CreateRequest = CreateRequest(
    resolution: Resolution, options: Option<PlaybackOptions>, context: Option<RequestContext>,
    now: nat, wallNow: nat, pageSize: nat,
    uuids: seq<Text>)   // drawn in order: session, snapshot, one per candidate, page cursor

  /** Enough distinct identifiers for the whole call. */
  ghost predicate EnoughIds(req: CreateRequest) {
    && |req.uuids| == |req.resolution.candidates| + 3
    && NoDuplicates(req.uuids)
    && forall i :: 0 <= i < |req.uuids| ==> |req.uuids[i]| == UUID_BYTES
  }

  ghost predicate FreshIds(st: Store, req: CreateRequest) {
    && EnoughIds(req)
    && SessionId(req.uuids[0]) !in st.sessions
    && PageToken(req.uuids[|req.uuids| - 1]) !in st.cursors
  }

  /** The cover URL is dropped from every stored candidate. */
  function Tokenize(uuid: Text, c: Candidate): Tokenized {
    Tokenized(CandidateToken(uuid), c.(coverUri := ""))
  }

  function TokenizeAll(uuids: seq<Text>, cs: seq<Candidate>): seq<Tokenized>
    requires |uuids| == |cs|
  {
    seq(|cs|, i requires 0 <= i < |cs| => Tokenize(uuids[i], cs[i]))
  }

  /** The token-to-offset table after inserting the candidates in order. */
  function OffsetTable(cs: seq<Tokenized>): map<Text, nat> {
    if cs == [] then map[] else OffsetTable(cs[..|cs| - 1])[cs[|cs| - 1].token := |cs| - 1]
  }

  /** The token of the first candidate with this selection id, or the empty string. */
  function TokenOfSelection(cs: seq<Tokenized>, selectionId: Text): Text {
    if cs == [] then ""
    else if cs[0].candidate.selectionId == selectionId then cs[0].token
    else TokenOfSelection(cs[1..], selectionId)
  }

  function DefaultToken(cs: seq<Tokenized>, selectionId: Text): Text {
    if selectionId == "" then "" else TokenOfSelection(cs, selectionId)
  }

  function CandidateIds(req: CreateRequest): seq<Text>
    requires |req.uuids| == |req.resolution.candidates| + 3
  {
    req.uuids[2..|req.uuids| - 1]
  }

  function NewCandidates(req: CreateRequest): seq<Tokenized>
    requires |req.uuids| == |req.resolution.candidates| + 3
  {
    TokenizeAll(CandidateIds(req), req.resolution.candidates)
  }

  function NewView(req: CreateRequest): SessionView
    requires |req.uuids| == |req.resolution.candidates| + 3
  {
    var r := req.resolution;
    SessionView(SessionId(req.uuids[0]), r.source, r.title, r.sourceKind, req.wallNow, req.wallNow + SESSION_TTL,
                DefaultToken(NewCandidates(req), r.defaultSelectionId), r.candidatesTruncated, req.context)
  }

  function NewBytes(p: Platform, req: CreateRequest): nat
    requires |req.uuids| == |req.resolution.candidates| + 3
  {
    SessionBytes(p, NewView(req), SnapshotId(req.uuids[1]), req.options, req.context, NewCandidates(req))
  }

  function NewSession(p: Platform, req: CreateRequest): Session
    requires |req.uuids| == |req.resolution.candidates| + 3
  {
    Session(NewView(req), SnapshotId(req.uuids[1]), req.options, NewCandidates(req), OffsetTable(NewCandidates(req)),
            map[], req.now + SESSION_TTL, NewBytes(p, req))
  }

  /** Why a request is turned away before any live session is touched. */
  function CreateError(p: Platform, req: CreateRequest): Option<StoreError>
    requires |req.uuids| == |req.resolution.candidates| + 3
  {
    if !PageSizeOk(req.pageSize) then Some(PageSizeInvalid)
    else if ResolutionError(req.resolution, req.options, req.context).Some? then
      ResolutionError(req.resolution, req.options, req.context)
    else if req.wallNow + SESSION_TTL > p.wallClockMax then Some(ExpiryUnrepresentable)
    else if NewBytes(p, req) > USIZE_MAX || CursorBytes(p, NewView(req), SnapshotId(req.uuids[1])) > USIZE_MAX then
      Some(SizeOverflow)
    else if NewBytes(p, req) > MAX_SNAPSHOT_BYTES then Some(SnapshotTooLarge)
    else None
  }

  /** The first number from `n` on at which `crowded` fails, or `max`. */
  ghost function FirstRoom(crowded: nat -> bool, n: nat, max: nat): nat
    decreases max - n
  {
    if n < max && crowded(n) then FirstRoom(crowded, n + 1, max) else n
  }

  lemma {:induction false} FirstRoomIs(crowded: nat -> bool, n: nat, max: nat)
    requires n <= max && !crowded(max)
    ensures n <= FirstRoom(crowded, n, max) <= max && !crowded(FirstRoom(crowded, n, max))
    ensures forall m :: n <= m < FirstRoom(crowded, n, max) ==> crowded(m)
    decreases max - n
  {
    if n < max && crowded(n) {
      FirstRoomIs(crowded, n + 1, max);
    }
  }

  ghost function CrowdedAfter(st: Store, candidates: nat, bytes: nat): nat -> bool {
    (n: nat) => Crowded(st, candidates, bytes, n)
  }

  /** How many of the oldest sessions the capacity loop removes. */
  ghost function EvictionCount(st: Store, candidates: nat, bytes: nat): (n: nat)
    ensures n <= |st.order|
  {
    FirstRoomAtMost(CrowdedAfter(st, candidates, bytes), 0, |st.order|);
    FirstRoom(CrowdedAfter(st, candidates, bytes), 0, |st.order|)
  }

  lemma {:induction false} FirstRoomAtMost(crowded: nat -> bool, n: nat, max: nat)
    requires n <= max
    ensures FirstRoom(crowded, n, max) <= max
    decreases max - n
  {
    if n < max && crowded(n) {
      FirstRoomAtMost(crowded, n + 1, max);
    }
  }

  lemma LeastIsShortest(st: Store, candidates: nat, bytes: nat, crowded: nat -> bool, n: nat)
    requires forall m :: crowded(m) == Crowded(st, candidates, bytes, m)
    requires n <= |st.order| && !crowded(n) && forall m :: 0 <= m < n ==> crowded(m)
    ensures ShortestEviction(st, candidates, bytes, n)
  {
    forall m | 0 <= m < n ensures Crowded(st, candidates, bytes, m) {
      assert crowded(m);
    }
  }

  /** The capacity loop always finds room, and evicts the shortest oldest-first prefix that gives it. */
  lemma EvictionCountIsShortest(st: Store, candidates: nat, bytes: nat)
    requires Queued(st) && candidates <= MAX_CANDIDATES && bytes <= MAX_SNAPSHOT_BYTES
    ensures ShortestEviction(st, candidates, bytes, EvictionCount(st, candidates, bytes))
  {
    var crowded := CrowdedAfter(st, candidates, bytes);
    EmptiedStoreHasRoom(st, candidates, bytes);
    FirstRoomIs(crowded, 0, |st.order|);
    LeastIsShortest(st, candidates, bytes, crowded, FirstRoom(crowded, 0, |st.order|));
  }

  /** The store with room made for the new session, oldest sessions first. */
  ghost function MakeRoom(st: Store, candidates: nat, bytes: nat): Store {
    WithoutOldest(st, EvictionCount(st, candidates, bytes))
  }

  /** How the capacity loop ends: the store it leaves and its error, if any. */
  datatype Eviction = Eviction(store: Store, error: Option<StoreError>)

  lemma WithoutHeadShrinks(order: seq<Text>)
    requires order != []
    ensures |Without(order, {order[0]})| < |order|
  {
    WithoutNoLonger(order[1..], {order[0]});
  }

  lemma {:induction false} WithoutNoLonger(order: seq<Text>, gone: set<Text>)
    ensures |Without(order, gone)| <= |order|
  {
    if order != [] {
      WithoutNoLonger(order[1..], gone);
    }
  }

  /** The capacity loop of `create_session`: it fails when it still needs room and no session is left. (A queue that
      named
      a missing session would never end the loop; the model then fails too, and `EvictedMakesRoom` excludes both.) */
  ghost function Evicted(st: Store, candidates: nat, bytes: nat): Eviction
    decreases |st.order|
  {
    if !Exceeded(st, candidates, bytes) then Eviction(st, None)
    else if st.order == [] || st.order[0] !in st.sessions then Eviction(st, Some(CapacityUnavailable))
    else
      WithoutHeadShrinks(st.order);
      Evicted(RemoveSession(st, st.order[0]), candidates, bytes)
  }

  /** One turn of the loop. */
  ghost predicate Evicts(a: Store, b: Store) {
    match a
    case Store(sessions, order, _, _, _) => order != [] && order[0] in sessions && RemoveSession(a, order[0]) == b
  }

  lemma EvictsOnce(a: Store, b: Store, candidates: nat, bytes: nat)
    requires Evicts(a, b) && Exceeded(a, candidates, bytes)
    ensures Evicted(a, candidates, bytes) == Evicted(b, candidates, bytes)
  {
  }

  lemma OldestIsLive(st: Store, n: nat, left: Store)
    requires Valid(st) && n < |st.order| && left == WithoutOldest(st, n)
    ensures left.order != [] && left.order[0] == st.order[n] && st.order[n] in left.sessions
  {
    WithoutOldestQueue(st, n);
    assert st.order[n] in Elements(st.order) && st.order[n] !in Elements(st.order[..n]);
  }

  lemma OldestEvicts(st: Store, n: nat, left: Store, next: Store)
    requires Valid(st) && n < |st.order| && left == WithoutOldest(st, n) && next == WithoutOldest(st, n + 1)
    ensures Evicts(left, next)
  {
    OldestIsLive(st, n, left);
    EvictNext(st, n);
  }

  /** The loop along a list of stores, up to the first with room. */
  lemma {:induction false} EvictedAlong(out: seq<Store>, candidates: nat, bytes: nat, n: nat)
    requires n < |out| && !Exceeded(out[|out| - 1], candidates, bytes)
    requires forall m :: 0 <= m < |out| - 1 ==> Exceeded(out[m], candidates, bytes) && Evicts(out[m], out[m + 1])
    ensures Evicted(out[n], candidates, bytes) == Eviction(out[|out| - 1], None)
    decreases |out| - n
  {
    if n < |out| - 1 {
      EvictsOnce(out[n], out[n + 1], candidates, bytes);
      EvictedAlong(out, candidates, bytes, n + 1);
    }
  }

  lemma NoneOut(st: Store)
    requires Valid(st)
    ensures WithoutOldest(st, 0) == st
  {
    assert Elements(st.order[..0]) == {};
    RestrictNothing(st, {});
  }

  ghost predicate OutAt(st: Store, out: seq<Store>, m: nat)
    requires m < |out|
  {
    m <= |st.order| && out[m] == WithoutOldest(st, m)
  }

  /** The stores of the loop: the oldest session goes in each turn. */
  ghost predicate Outs(st: Store, out: seq<Store>) {
    forall m :: 0 <= m < |out| ==> OutAt(st, out, m)
  }

  lemma OutsExist(st: Store, count: nat) returns (out: seq<Store>)
    requires count <= |st.order|
    ensures |out| == count + 1 && Outs(st, out)
  {
    out := seq(count + 1, m requires 0 <= m <= count => WithoutOldest(st, m));
  }

  lemma OutsStep(st: Store, candidates: nat, bytes: nat, count: nat, out: seq<Store>, m: nat)
    requires Valid(st) && ShortestEviction(st, candidates, bytes, count) && |out| == count + 1 && Outs(st, out)
             && m < count
    ensures Exceeded(out[m], candidates, bytes) && Evicts(out[m], out[m + 1])
  {
    assert OutAt(st, out, m) && OutAt(st, out, m + 1);
    assert Crowded(st, candidates, bytes, m);
    OldestEvicts(st, m, out[m], out[m + 1]);
  }

  lemma OutsEnds(st: Store, candidates: nat, bytes: nat, count: nat, out: seq<Store>)
    requires Valid(st) && ShortestEviction(st, candidates, bytes, count) && |out| == count + 1 && Outs(st, out)
    ensures out[0] == st && out[count] == WithoutOldest(st, count) && !Exceeded(out[count], candidates, bytes)
  {
    assert OutAt(st, out, 0) && OutAt(st, out, count);
    NoneOut(st);
    assert !Crowded(st, candidates, bytes, count);
  }

  /** The capacity loop always finds room, by the shortest oldest-first eviction; its error is unreachable. */
  lemma EvictedMakesRoom(st: Store, candidates: nat, bytes: nat)
    requires Valid(st) && candidates <= MAX_CANDIDATES && bytes <= MAX_SNAPSHOT_BYTES
    ensures Evicted(st, candidates, bytes) == Eviction(MakeRoom(st, candidates, bytes), None)
  {
    EvictionCountIsShortest(st, candidates, bytes);
    var count := EvictionCount(st, candidates, bytes);
    var out := OutsExist(st, count);
    OutsEnds(st, candidates, bytes, count, out);
    forall m | 0 <= m < count ensures Exceeded(out[m], candidates, bytes) && Evicts(out[m], out[m + 1]) {
      OutsStep(st, candidates, bytes, count, out, m);
    }
    EvictedAlong(out, candidates, bytes, 0);
  }

  function Insert(st: Store, id: Text, s: Session): Store {
    Store(st.sessions[id := s], st.order + [id], st.cursors,
          SaturatingAdd(st.totalCandidates, |s.candidates|), SaturatingAdd(st.totalBytes, s.estimatedBytes))
  }

  /** `create_session` once the request has passed every check. */
  ghost function Stored(p: Platform, pruned: Store, req: CreateRequest): (Store, Result<PageView, StoreError>)
    requires |req.uuids| == |req.resolution.candidates| + 3
  {
    var s := NewSession(p, req);
    var room := Evicted(pruned, |s.candidates|, s.estimatedBytes);
    if room.error.Some? then (room.store, Err(room.error.value))
    else Page(Insert(room.store, s.view.id, s), s.view.id, None, req.now, req.pageSize, req.uuids[|req.uuids| - 1])
  }

  /** `create_session` */
  ghost function Create(p: Platform, st: Store, req: CreateRequest): (Store, Result<PageView, StoreError>)
    requires |req.uuids| == |req.resolution.candidates| + 3
  {
    if CreateError(p, req).Some? then (Pruned(st, req.now), Err(CreateError(p, req).value))
    else Stored(p, Pruned(st, req.now), req)
  }

  // ---------------------------------------------------------------- accept

  datatype Accepted = Accepted(
    source: Text, title: Text, options: Option<PlaybackOptions>, context: Option<RequestContext>,
    candidates: seq<Candidate>)

  function Pick(s: Session, offsets: seq<nat>): seq<Candidate>
    requires forall i :: 0 <= i < |offsets| ==> offsets[i] < |s.candidates|
  {
    seq(|offsets|, i requires 0 <= i < |offsets| => s.candidates[offsets[i]].candidate)
  }

  /**
   `accept_selection` once expired sessions are gone. The range check stands for the indexing of the
   snapshot, which in a valid store is always in range (`SelectionMeaning`).
   */
  function AcceptLive(st: Store, expired: bool, id: Text, sel: Selection): Result<Accepted, StoreError> {
    if SessionIdError(id).Some? then Err(SessionIdError(id).value)
    else if expired then Err(SessionExpired)
    else if id !in st.sessions then Err(SessionNotFound)
    else
      var s := st.sessions[id];
      var offsets := SelectedOffsets(s, sel);
      if offsets.Err? then Err(offsets.error)
      else if exists i :: 0 <= i < |offsets.value| && offsets.value[i] >= |s.candidates| then Err(CandidateTokenUnknown)
      else Ok(Accepted(s.view.source, s.view.title, s.options, s.view.context, Pick(s, offsets.value)))
  }

  /** `accept_selection`: only expired sessions leave the store. */
  ghost function Accept(st: Store, id: Text, sel: Selection, now: nat): (Store, Result<Accepted, StoreError>) {
    (Pruned(st, now), AcceptLive(Pruned(st, now), id in Expired(st, now), id, sel))
  }
}
