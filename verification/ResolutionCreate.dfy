/** `create_session`: a new session is well formed, fits, and always answers with its first page. */
module ResolutionCreate {
  import opened Prelude
  import opened ResolutionModel
  import opened ResolutionState
  import opened ResolutionOps

  lemma {:induction false} OffsetTableInverts(cs: seq<Tokenized>)
    requires forall i, j :: 0 <= i < j < |cs| ==> cs[i].token != cs[j].token
    ensures OffsetsInvert(cs, OffsetTable(cs))
  {
    if cs != [] {
      var front, last := cs[..|cs| - 1], cs[|cs| - 1];
      OffsetTableInverts(front);
      var before, after := OffsetTable(front), OffsetTable(cs);
      assert last.token !in before;
      forall i | 0 <= i < |cs| ensures cs[i].token in after && after[cs[i].token] == i {
        if i < |front| {
          assert cs[i] == front[i];
        }
      }
    }
  }

  lemma NewTokensDistinct(req: CreateRequest)
    requires EnoughIds(req)
    ensures var cs := NewCandidates(req);
      && |cs| == |req.resolution.candidates|
      && (forall i, j :: 0 <= i < j < |cs| ==> cs[i].token != cs[j].token)
      && (forall i :: 0 <= i < |cs| ==> OwnIdentifier(cs[i].token))
  {
    var ids, cs := CandidateIds(req), NewCandidates(req);
    forall i | 0 <= i < |cs| ensures OwnIdentifier(cs[i].token) && cs[i].token == CandidateToken(ids[i])
        && ids[i] == req.uuids[i + 2] {
    }
    forall i, j | 0 <= i < j < |cs| ensures cs[i].token != cs[j].token {
      PrefixCancels("bilibili-candidate-", ids[i], ids[j]);
    }
  }

  lemma PrefixCancels(prefix: Text, a: Text, b: Text)
    ensures prefix + a == prefix + b ==> a == b
  {
    assert a == (prefix + a)[|prefix|..];
    assert b == (prefix + b)[|prefix|..];
  }

  lemma NewSessionOk(p: Platform, req: CreateRequest)
    requires EnoughIds(req) && ResolutionError(req.resolution, req.options, req.context).None?
    ensures SessionOk(SessionId(req.uuids[0]), NewSession(p, req))
  {
    NewTokensDistinct(req);
    OffsetTableInverts(NewCandidates(req));
  }

  lemma AcceptedFits(p: Platform, req: CreateRequest)
    requires EnoughIds(req) && CreateError(p, req).None?
    ensures |NewCandidates(req)| <= MAX_CANDIDATES && NewBytes(p, req) <= MAX_SNAPSHOT_BYTES
  {
  }

  /** The default token names the candidate whose selection id the resolution gave as default. */
  lemma {:induction false} TokenOfSelectionMeaning(cs: seq<Tokenized>, selectionId: Text)
    requires exists i :: 0 <= i < |cs| && cs[i].candidate.selectionId == selectionId
    ensures exists i :: 0 <= i < |cs| && cs[i].candidate.selectionId == selectionId
              && TokenOfSelection(cs, selectionId) == cs[i].token
  {
    if cs[0].candidate.selectionId != selectionId {
      var k :| 0 <= k < |cs| && cs[k].candidate.selectionId == selectionId;
      assert cs[1..][k - 1] == cs[k];
      TokenOfSelectionMeaning(cs[1..], selectionId);
      var i :| 0 <= i < |cs[1..]| && cs[1..][i].candidate.selectionId == selectionId
        && TokenOfSelection(cs[1..], selectionId) == cs[1..][i].token;
      assert cs[i + 1] == cs[1..][i];
    }
  }

  lemma DefaultTokenMeaning(req: CreateRequest)
    requires EnoughIds(req) && ResolutionError(req.resolution, req.options, req.context).None?
    ensures var cs := NewCandidates(req); var token := NewView(req).defaultToken;
      if req.resolution.defaultSelectionId == "" then token == ""
      else exists i :: 0 <= i < |cs| && cs[i].token == token
             && req.resolution.candidates[i].selectionId == req.resolution.defaultSelectionId
  {
    var r := req.resolution;
    ResolutionErrorMeaning(r, req.options, req.context);
    if r.defaultSelectionId != "" {
      var c :| c in r.candidates && c.selectionId == r.defaultSelectionId;
      var k :| 0 <= k < |r.candidates| && r.candidates[k] == c;
      assert NewCandidates(req)[k].candidate.selectionId == r.defaultSelectionId;
      TokenOfSelectionMeaning(NewCandidates(req), r.defaultSelectionId);
    }
  }

  // ---------------------------------------------------------------- the size overflow cannot happen

  lemma {:induction false} TotalBounded(parts: seq<nat>)
    requires forall i :: 0 <= i < |parts| ==> parts[i] <= 65536
    ensures Total(parts) <= |parts| * 65536
  {
    if parts != [] {
      TotalBounded(parts[..|parts| - 1]);
    }
  }

  lemma {:induction false} CandidatesTotalBounded(p: Platform, cs: seq<Tokenized>)
    requires forall i :: 0 <= i < |cs| ==> Total(CandidateParts(p, cs[i])) <= 786432
    ensures CandidatesTotal(p, cs) <= |cs| * 786432
  {
    if cs != [] {
      CandidatesTotalBounded(p, cs[..|cs| - 1]);
    }
  }

  lemma CandidatePartsBounded(p: Platform, uuid: Text, c: Candidate)
    requires SmallSizes(p) && |uuid| == UUID_BYTES && GoodCandidate(c)
    ensures Total(CandidateParts(p, Tokenize(uuid, c))) <= 786432
  {
    TotalBounded(CandidateParts(p, Tokenize(uuid, c)));
  }

  lemma {:induction false} TokenOfSelectionShort(cs: seq<Tokenized>, selectionId: Text)
    requires forall i :: 0 <= i < |cs| ==> |cs[i].token| <= MAX_TOKEN_BYTES
    ensures |TokenOfSelection(cs, selectionId)| <= MAX_TOKEN_BYTES
  {
    if cs != [] {
      TokenOfSelectionShort(cs[1..], selectionId);
    }
  }

  lemma ProductBounded(a: nat, b: nat, x: nat, y: nat)
    requires a <= x && b <= y
    ensures a * b <= x * y
  {
    assert a * b <= x * b;
  }

  lemma NewCandidatesBounded(p: Platform, req: CreateRequest)
    requires SmallSizes(p) && EnoughIds(req) && GoodCandidates(req.resolution.candidates)
    ensures CandidatesTotal(p, NewCandidates(req)) <= |req.resolution.candidates| * 786432
  {
    var cs := NewCandidates(req);
    forall i | 0 <= i < |cs| ensures Total(CandidateParts(p, cs[i])) <= 786432 {
      CandidatePartsBounded(p, CandidateIds(req)[i], req.resolution.candidates[i]);
    }
    CandidatesTotalBounded(p, cs);
  }

  lemma NewHeaderBounded(req: CreateRequest)
    requires EnoughIds(req) && GoodHeader(req.resolution, req.options, req.context)
    ensures Total(HeaderParts(NewView(req), SnapshotId(req.uuids[1]), req.options, req.context)) <= 655360
    ensures |NewView(req).id| == 52 && |SnapshotId(req.uuids[1])| == 61
  {
    NewTokensDistinct(req);
    TokenOfSelectionShort(NewCandidates(req), req.resolution.defaultSelectionId);
    TotalBounded(HeaderParts(NewView(req), SnapshotId(req.uuids[1]), req.options, req.context));
  }

  /** For a validated resolution every checked addition fits in 64 bits. */
  lemma SizeNeverOverflows(p: Platform, req: CreateRequest)
    requires SmallSizes(p) && EnoughIds(req) && ResolutionError(req.resolution, req.options, req.context).None?
    ensures NewBytes(p, req) <= USIZE_MAX
    ensures CursorBytes(p, NewView(req), SnapshotId(req.uuids[1])) <= USIZE_MAX
    ensures CreateError(p, req) != Some(SizeOverflow)
  {
    ResolutionErrorMeaning(req.resolution, req.options, req.context);
    NewCandidatesBounded(p, req);
    NewHeaderBounded(req);
    var count := SaturatingSub(|NewCandidates(req)|, 1);
    var each := CursorBytes(p, NewView(req), SnapshotId(req.uuids[1]));
    assert each <= 200000 && count <= 10000;
    ProductBounded(each, count, 200000, 10000);
    assert CursorReservation(p, NewView(req), SnapshotId(req.uuids[1]), count) <= 2000000000;
  }

  // ---------------------------------------------------------------- insertion

  lemma InsertKeepsTotals(st: Store, id: Text, s: Session)
    requires Queued(st) && ExactTotals(st) && id !in st.sessions
    requires st.totalCandidates + |s.candidates| <= U64_MAX && st.totalBytes + s.estimatedBytes <= U64_MAX
    ensures ExactTotals(Insert(st, id, s))
  {
    var n := Insert(st, id, s);
    assert id !in Elements(st.order);
    SumSameOn(CandidateCount, st.sessions, n.sessions, st.order);
    SumSameOn(ReservedBytes, st.sessions, n.sessions, st.order);
    SumAppend(CandidateCount, n.sessions, st.order, id);
    SumAppend(ReservedBytes, n.sessions, st.order, id);
  }

  lemma InsertKeepsLinked(st: Store, id: Text, s: Session)
    requires Linked(st) && id !in st.sessions && s.pageTokens == map[]
    ensures Linked(Insert(st, id, s))
  {
    var n := Insert(st, id, s);
    forall t | t in n.cursors ensures CursorOk(n, t) {
      assert CursorOk(st, t);
    }
    forall i, o | i in n.sessions && o in n.sessions[i].pageTokens ensures PageTokenOk(n, i, o) {
      assert PageTokenOk(st, i, o);
    }
  }

  lemma QueueGrows(order: seq<Text>, id: Text, longer: seq<Text>)
    requires NoDuplicates(order) && id !in Elements(order) && longer == order + [id]
    ensures NoDuplicates(longer) && Elements(longer) == Elements(order) + {id}
  {
    assert forall i :: 0 <= i < |order| ==> order[i] in Elements(order);
  }

  lemma InsertKeepsQueue(st: Store, id: Text, s: Session)
    requires Queued(st) && id !in st.sessions
    ensures Queued(Insert(st, id, s))
    ensures |Insert(st, id, s).sessions| == |st.sessions| + 1
  {
    var n := Insert(st, id, s);
    assert n.sessions.Keys == st.sessions.Keys + {id};
    assert |n.sessions| == |n.sessions.Keys| && |st.sessions| == |st.sessions.Keys|;
    QueueGrows(st.order, id, n.order);
  }

  lemma InsertKeepsSessions(st: Store, id: Text, s: Session)
    requires SessionOk(id, s) && forall i :: i in st.sessions ==> SessionOk(i, st.sessions[i])
    ensures forall i :: i in Insert(st, id, s).sessions ==> SessionOk(i, Insert(st, id, s).sessions[i])
  {
    var n := Insert(st, id, s);
    assert forall i :: i in n.sessions && i != id ==> n.sessions[i] == st.sessions[i];
  }

  lemma InsertKeepsLimits(st: Store, id: Text, s: Session)
    requires !Exceeded(st, |s.candidates|, s.estimatedBytes) && |Insert(st, id, s).sessions| == |st.sessions| + 1
    ensures WithinLimits(Insert(st, id, s))
  {
  }

  lemma InsertKeepsValid(st: Store, id: Text, s: Session)
    requires Valid(st) && id !in st.sessions && SessionOk(id, s) && s.pageTokens == map[]
    requires !Exceeded(st, |s.candidates|, s.estimatedBytes)
    ensures Valid(Insert(st, id, s))
  {
    InsertKeepsQueue(st, id, s);
    InsertKeepsLinked(st, id, s);
    InsertKeepsTotals(st, id, s);
    InsertKeepsSessions(st, id, s);
    InsertKeepsLimits(st, id, s);
  }

  /** The store that `create_session` hands to `page`. */
  ghost function Created(p: Platform, st: Store, req: CreateRequest): Store
    requires |req.uuids| == |req.resolution.candidates| + 3
  {
    var s := NewSession(p, req);
    Insert(MakeRoom(Pruned(st, req.now), |s.candidates|, s.estimatedBytes), s.view.id, s)
  }

  lemma RestrictHasNoMore(st: Store, gone: set<Text>)
    ensures Restrict(st, gone).sessions.Keys <= st.sessions.Keys
    ensures Restrict(st, gone).cursors.Keys <= st.cursors.Keys
    ensures forall id :: id in Restrict(st, gone).sessions ==> Restrict(st, gone).sessions[id] == st.sessions[id]
  {
  }

  lemma CreatedIsValid(p: Platform, st: Store, req: CreateRequest)
    requires Valid(st) && FreshIds(st, req) && CreateError(p, req).None?
    ensures Valid(Created(p, st, req))
    ensures FreshPageId(Created(p, st, req), req.uuids[|req.uuids| - 1])
  {
    var pruned := Pruned(st, req.now);
    var s := NewSession(p, req);
    RestrictKeepsValid(st, Expired(st, req.now));
    RestrictHasNoMore(st, Expired(st, req.now));
    NewSessionOk(p, req);
    RoomIsMade(pruned, |s.candidates|, s.estimatedBytes);
    var room := MakeRoom(pruned, |s.candidates|, s.estimatedBytes);
    InsertKeepsValid(room, s.view.id, s);
  }

  lemma RoomIsMade(st: Store, candidates: nat, bytes: nat)
    requires Valid(st) && candidates <= MAX_CANDIDATES && bytes <= MAX_SNAPSHOT_BYTES
    ensures Valid(MakeRoom(st, candidates, bytes))
    ensures !Exceeded(MakeRoom(st, candidates, bytes), candidates, bytes)
    ensures MakeRoom(st, candidates, bytes).sessions.Keys <= st.sessions.Keys
    ensures MakeRoom(st, candidates, bytes).cursors.Keys <= st.cursors.Keys
  {
    EvictionCountIsShortest(st, candidates, bytes);
    var n := EvictionCount(st, candidates, bytes);
    RestrictKeepsValid(st, Elements(st.order[..n]));
    RestrictHasNoMore(st, Elements(st.order[..n]));
  }

  /** Nothing is expired right after an insertion. */
  lemma NothingExpired(p: Platform, st: Store, req: CreateRequest)
    requires |req.uuids| == |req.resolution.candidates| + 3
    ensures Expired(Created(p, st, req), req.now) == {}
  {
    var pruned := Pruned(st, req.now);
    var s := NewSession(p, req);
    RestrictHasNoMore(st, Expired(st, req.now));
    RestrictHasNoMore(pruned, Elements(pruned.order[..EvictionCount(pruned, |s.candidates|, s.estimatedBytes)]));
  }

  lemma OwnIdentifierIsVisible(t: Text)
    requires OwnIdentifier(t)
    ensures SessionIdError(t).None?
  {
    assert WhitespaceWidth(t) == 0;
  }

  lemma FirstPageIs(st: Store, id: Text, now: nat, size: nat, uuid: Text)
    requires Queued(st) && Linked(st) && ExactTotals(st) && Expired(st, now) == {} && OwnIdentifier(id)
             && PageSizeOk(size)
    ensures Page(st, id, None, now, size, uuid) == PageAtOffset(st, id, 0, size, uuid)
  {
    RestrictNothing(st, {});
    OwnIdentifierIsVisible(id);
  }

  lemma FirstView(st: Store, id: Text, size: nat, uuid: Text)
    requires id in st.sessions && |st.sessions[id].candidates| <= U64_MAX && PageSizeOk(size)
    ensures var r := PageAtOffset(st, id, 0, size, uuid).1; var s := st.sessions[id];
      && r.Ok? && r.value.session == s.view && r.value.snapshotId == s.snapshotId
      && r.value.totalSize == |s.candidates| && r.value.candidates == s.candidates[..Min(size, |s.candidates|)]
  {
  }

  /** The capacity loop leaves room for the new session. */
  lemma RoomForNew(p: Platform, st: Store, req: CreateRequest, s: Session, room: Eviction)
    requires Valid(st) && FreshIds(st, req) && CreateError(p, req).None?
    requires s == NewSession(p, req) && room == Evicted(Pruned(st, req.now), |s.candidates|, s.estimatedBytes)
    ensures room.error.None? && Insert(room.store, s.view.id, s) == Created(p, st, req)
  {
    RestrictKeepsValid(st, Expired(st, req.now));
    AcceptedFits(p, req);
    EvictedMakesRoom(Pruned(st, req.now), |s.candidates|, s.estimatedBytes);
  }

  /** An accepted request ends in the page of the store with room made and its session added. */
  lemma CreateIs(p: Platform, st: Store, req: CreateRequest)
    requires Valid(st) && FreshIds(st, req) && CreateError(p, req).None?
    ensures Create(p, st, req)
         == Page(Created(p, st, req), SessionId(req.uuids[0]), None, req.now, req.pageSize, req.uuids[|req.uuids| - 1])
  {
    var s := NewSession(p, req);
    RoomForNew(p, st, req, s, Evicted(Pruned(st, req.now), |s.candidates|, s.estimatedBytes));
  }

  /** An accepted request answers with the first page of its own snapshot. */
  lemma CreateAnswers(p: Platform, st: Store, req: CreateRequest)
    requires Valid(st) && FreshIds(st, req) && CreateError(p, req).None?
    ensures Create(p, st, req)
            == PageAtOffset(Created(p, st, req), SessionId(req.uuids[0]), 0, req.pageSize, req.uuids[|req.uuids| - 1])
    ensures var r := Create(p, st, req).1;
      && r.Ok?
      && r.value.session == NewView(req)
      && r.value.snapshotId == SnapshotId(req.uuids[1])
      && r.value.totalSize == |req.resolution.candidates|
      && r.value.candidates == NewCandidates(req)[..Min(req.pageSize, |req.resolution.candidates|)]
  {
    var created, id, uuid := Created(p, st, req), SessionId(req.uuids[0]), req.uuids[|req.uuids| - 1];
    CreateIs(p, st, req);
    CreatedIsValid(p, st, req);
    NothingExpired(p, st, req);
    NewSessionOk(p, req);
    assert created.sessions[id] == NewSession(p, req);
    FirstPageIs(created, id, req.now, req.pageSize, uuid);
    FirstView(created, id, req.pageSize, uuid);
  }

  // ---------------------------------------------------------------- what an accepted request leaves and answers

  /** The token of the default candidate, or none. */
  ghost predicate NamesDefault(token: Text, cs: seq<Tokenized>, selectionId: Text) {
    if selectionId == "" then token == ""
    else exists i :: 0 <= i < |cs| && cs[i].token == token && cs[i].candidate.selectionId == selectionId
  }

  /** The session holds what was asked for, under the identifiers drawn, for fifteen minutes. */
  ghost predicate HoldsRequest(s: Session, req: CreateRequest)
    requires |req.uuids| == |req.resolution.candidates| + 3
  {
    var r, v := req.resolution, s.view;
    && v.id == "bilibili-resolution-" + req.uuids[0]
    && s.snapshotId == "bilibili-resolution-snapshot-" + req.uuids[1]
    && v.source == r.source && v.title == r.title && v.sourceKind == r.sourceKind
    && v.createdAt == req.wallNow && v.expiresAt == req.wallNow + 900 && s.expiresAt == req.now + 900
    && v.candidatesTruncated == r.candidatesTruncated && v.context == req.context && s.options == req.options
    && NamesDefault(v.defaultToken, s.candidates, r.defaultSelectionId)
    && HoldsCandidates(s.candidates, r.candidates, req.uuids)
  }

  /** The candidates in order, without their cover URLs, each under a token of its own. */
  ghost predicate HoldsCandidates(stored: seq<Tokenized>, asked: seq<Candidate>, uuids: seq<Text>)
    requires |uuids| == |asked| + 3
  {
    && |stored| == |asked|
    && forall i :: 0 <= i < |stored| ==>
         stored[i].token == "bilibili-candidate-" + uuids[i + 2] && stored[i].candidate == asked[i].(coverUri := "")
  }

  lemma NewDefaultIsNamed(req: CreateRequest)
    requires EnoughIds(req) && ResolutionError(req.resolution, req.options, req.context).None?
    ensures NamesDefault(NewView(req).defaultToken, NewCandidates(req), req.resolution.defaultSelectionId)
  {
    DefaultTokenMeaning(req);
    var cs, r := NewCandidates(req), req.resolution;
    if r.defaultSelectionId != "" {
      var i :| 0 <= i < |cs| && cs[i].token == NewView(req).defaultToken
        && r.candidates[i].selectionId == r.defaultSelectionId;
      assert cs[i].candidate.selectionId == r.defaultSelectionId;
    }
  }

  lemma NewCandidatesHold(req: CreateRequest)
    requires EnoughIds(req)
    ensures HoldsCandidates(NewCandidates(req), req.resolution.candidates, req.uuids)
  {
    var ids := CandidateIds(req);
    assert forall i :: 0 <= i < |ids| ==> ids[i] == req.uuids[i + 2];
  }

  lemma NewSessionHolds(p: Platform, req: CreateRequest)
    requires EnoughIds(req) && ResolutionError(req.resolution, req.options, req.context).None?
    ensures HoldsRequest(NewSession(p, req), req)
  {
    NewDefaultIsNamed(req);
    NewCandidatesHold(req);
  }

  /** The first page of that session, with a token for the next one unless it is the last. */
  ghost predicate FirstPageOf(s: Session, size: nat, uuid: Text, v: PageView) {
    && v.session == s.view && v.snapshotId == s.snapshotId && v.totalSize == |s.candidates|
    && v.candidates == s.candidates[..Min(size, |s.candidates|)]
    && v.nextPageToken == if |s.candidates| <= size then "" else "bilibili-page-" + uuid
  }

  lemma FirstPageServed(st: Store, id: Text, size: nat, uuid: Text)
    requires id in st.sessions && 0 < |st.sessions[id].candidates| <= MAX_CANDIDATES && PageSizeOk(size)
    requires st.sessions[id].pageTokens == map[]
    ensures var r := PageAtOffset(st, id, 0, size, uuid).1; r.Ok? && FirstPageOf(st.sessions[id], size, uuid, r.value)
  {
  }

  lemma HoldsLater(a: Session, b: Session, req: CreateRequest)
    requires |req.uuids| == |req.resolution.candidates| + 3
    requires HoldsRequest(a, req) && b.(pageTokens := a.pageTokens) == a
    ensures HoldsRequest(b, req) && b.view == a.view
  {
  }

  /** What an accepted request leaves in the store, and the page it answers with. */
  lemma CreateHolds(p: Platform, st: Store, req: CreateRequest)
    requires Valid(st) && FreshIds(st, req) && CreateError(p, req).None?
    ensures var (after, r) := Create(p, st, req); var id := SessionId(req.uuids[0]);
      && id in after.sessions && HoldsRequest(after.sessions[id], req)
      && r.Ok? && FirstPageOf(after.sessions[id], req.pageSize, req.uuids[|req.uuids| - 1], r.value)
  {
    var created, id, uuid := Created(p, st, req), SessionId(req.uuids[0]), req.uuids[|req.uuids| - 1];
    CreateAnswers(p, st, req);
    NewSessionHolds(p, req);
    NewSessionOk(p, req);
    assert created.sessions[id] == NewSession(p, req);
    FirstPageServed(created, id, req.pageSize, uuid);
    PageTouchesOneSession(created, id, 0, req.pageSize, uuid);
    HoldsLater(created.sessions[id], Create(p, st, req).0.sessions[id], req);
  }

  /** A request is accepted exactly when its page size is from 1 to 200, its resolution acceptable, its expiry
      representable and its session, as the store will hold it, within 64 MiB. */
  lemma CreateSucceedsExactly(p: Platform, st: Store, req: CreateRequest)
    requires Valid(st) && FreshIds(st, req) && SmallSizes(p)
    ensures Create(p, st, req).1.Ok? <==>
              && 1 <= req.pageSize <= 200
              && Acceptable(req.resolution, req.options, req.context)
              && req.wallNow + 900 <= p.wallClockMax
              && NewSession(p, req).estimatedBytes <= 64 * 1024 * 1024
  {
    ResolutionErrorMeaning(req.resolution, req.options, req.context);
    if ResolutionError(req.resolution, req.options, req.context).None? {
      SizeNeverOverflows(p, req);
    }
    if CreateError(p, req).None? {
      CreateAnswers(p, st, req);
    } else {
      RejectedCreate(p, st, req);
    }
  }

  /** `create_session` keeps the store valid, whatever the request. */
  lemma CreateKeepsValid(p: Platform, st: Store, req: CreateRequest)
    requires Valid(st) && FreshIds(st, req)
    ensures Valid(Create(p, st, req).0)
  {
    if CreateError(p, req).Some? {
      RestrictKeepsValid(st, Expired(st, req.now));
    } else {
      CreatedIsValid(p, st, req);
      CreateAnswers(p, st, req);
      PageAtOffsetKeepsValid(Created(p, st, req), SessionId(req.uuids[0]), 0, req.pageSize, req.uuids[|req.uuids| - 1]);
    }
  }

  lemma {:induction false} FirstCandidateErrorKinds(cs: seq<Candidate>, i: nat)
    requires i <= |cs|
    ensures FirstCandidateError(cs, i) != Some(CapacityUnavailable)
    decreases |cs| - i
  {
    if i < |cs| {
      FirstCandidateErrorKinds(cs, i + 1);
    }
  }

  /** What the queue and the session map become when a request is accepted. */
  lemma CreateStoreAfter(p: Platform, st: Store, req: CreateRequest)
    requires Valid(st) && FreshIds(st, req) && CreateError(p, req).None?
    ensures var pruned := Pruned(st, req.now); var after := Create(p, st, req).0;
      var s := NewSession(p, req); var n := EvictionCount(pruned, |s.candidates|, s.estimatedBytes);
      && after.order == pruned.order[n..] + [s.view.id]
      && after.sessions - {s.view.id} == WithoutOldest(pruned, n).sessions
  {
    var pruned := Pruned(st, req.now);
    var s := NewSession(p, req);
    var n := EvictionCount(pruned, |s.candidates|, s.estimatedBytes);
    CreateAnswers(p, st, req);
    PageTouchesOneSession(Created(p, st, req), s.view.id, 0, req.pageSize, req.uuids[|req.uuids| - 1]);
    RestrictKeepsValid(st, Expired(st, req.now));
    WithoutOldestQueue(pruned, n);
    RestrictHasNoMore(st, Expired(st, req.now));
    RestrictHasNoMore(pruned, Elements(pruned.order[..n]));
    InsertThenForget(WithoutOldest(pruned, n).sessions, s.view.id, s);
  }

  lemma InsertThenForget(m: map<Text, Session>, id: Text, s: Session)
    requires id !in m
    ensures m[id := s] - {id} == m
  {
  }

  lemma CreateErrorKinds(p: Platform, req: CreateRequest)
    requires |req.uuids| == |req.resolution.candidates| + 3
    ensures CreateError(p, req) != Some(CapacityUnavailable)
  {
    FirstCandidateErrorKinds(req.resolution.candidates, 0);
  }

  lemma RejectedCreate(p: Platform, st: Store, req: CreateRequest)
    requires |req.uuids| == |req.resolution.candidates| + 3 && CreateError(p, req).Some?
    ensures Create(p, st, req) == (Pruned(st, req.now), Err(CreateError(p, req).value))
  {
  }

  /**
   A request fails exactly when it is turned away before any live session is touched; then nothing
   but expired sessions is removed. The capacity error is never returned.
   */
  lemma RejectedCreateRemovesOnlyExpired(p: Platform, st: Store, req: CreateRequest)
    requires Valid(st) && FreshIds(st, req)
    ensures Create(p, st, req).1.Err? <==> CreateError(p, req).Some?
    ensures Create(p, st, req).1.Err? ==> Create(p, st, req).0 == Pruned(st, req.now)
    ensures Create(p, st, req).1 != Err(CapacityUnavailable)
  {
    if CreateError(p, req).None? {
      CreateAnswers(p, st, req);
    } else {
      RejectedCreate(p, st, req);
      CreateErrorKinds(p, req);
    }
  }

  /**
   An accepted request removes the expired sessions and then exactly the shortest oldest-first
   prefix of the others that makes room, and adds its own session.
   */
  lemma CreateEvictsMinimally(p: Platform, st: Store, req: CreateRequest)
    requires Valid(st) && FreshIds(st, req) && CreateError(p, req).None?
    ensures var pruned := Pruned(st, req.now); var after := Create(p, st, req).0;
      var s := NewSession(p, req); var n := EvictionCount(pruned, |s.candidates|, s.estimatedBytes);
      && ShortestEviction(pruned, |s.candidates|, s.estimatedBytes, n)
      && after.order == pruned.order[n..] + [s.view.id]
      && after.sessions - {s.view.id} == WithoutOldest(pruned, n).sessions
  {
    var s := NewSession(p, req);
    CreateStoreAfter(p, st, req);
    NewSessionOk(p, req);
    RestrictKeepsValid(st, Expired(st, req.now));
    EvictionCountIsShortest(Pruned(st, req.now), |s.candidates|, s.estimatedBytes);
  }
}
