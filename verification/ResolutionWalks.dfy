/** Paging, byte reservation and selection, over runs of the resolution store. */
module ResolutionWalks {
  import opened Prelude
  import opened ResolutionModel
  import opened ResolutionState
  import opened ResolutionOps
  import opened ResolutionCreate
  import opened ResolutionRuns

  // ---------------------------------------------------------------- snapshots are frozen

  /** If the session is live before and after, only its page table has grown. */
  ghost predicate Frozen(a: Store, b: Store, id: Text) {
    id in a.sessions && id in b.sessions ==>
      && b.sessions[id].(pageTokens := a.sessions[id].pageTokens) == a.sessions[id]
      && (forall t :: t in a.cursors && a.cursors[t].sessionId == id ==> t in b.cursors && b.cursors[t] == a.cursors[t])
  }

  lemma FrozenTransitive(a: Store, b: Store, c: Store, id: Text)
    requires Frozen(a, b, id) && Frozen(b, c, id) && (id in c.sessions ==> id in b.sessions)
    ensures Frozen(a, c, id)
  {
  }

  lemma RestrictFrozen(st: Store, gone: set<Text>, id: Text)
    ensures Frozen(st, Restrict(st, gone), id)
    ensures Restrict(st, gone).sessions.Keys <= st.sessions.Keys
  {
  }

  lemma PageAtOffsetFrozen(st: Store, target: Text, offset: nat, size: nat, uuid: Text, id: Text)
    requires PageToken(uuid) !in st.cursors
    ensures Frozen(st, PageAtOffset(st, target, offset, size, uuid).0, id)
    ensures PageAtOffset(st, target, offset, size, uuid).0.sessions.Keys == st.sessions.Keys
  {
  }

  lemma PageLiveFrozen(st: Store, expired: bool, target: Text, token: Option<Text>, size: nat, uuid: Text, id: Text)
    requires PageToken(uuid) !in st.cursors
    ensures Frozen(st, PageLive(st, expired, target, token, size, uuid).0, id)
    ensures PageLive(st, expired, target, token, size, uuid).0.sessions.Keys == st.sessions.Keys
  {
    var offset := TokenOffset(st, target, token);
    if offset.Ok? {
      PageAtOffsetFrozen(st, target, offset.value, size, uuid, id);
    }
  }

  lemma PageFrozen(st: Store, target: Text, token: Option<Text>, now: nat, size: nat, uuid: Text, id: Text)
    requires PageToken(uuid) !in st.cursors
    ensures Frozen(st, Page(st, target, token, now, size, uuid).0, id)
    ensures Page(st, target, token, now, size, uuid).0.sessions.Keys <= st.sessions.Keys
  {
    if PageSizeOk(size) {
      var pruned := Pruned(st, now);
      RestrictFrozen(st, Expired(st, now), id);
      PageLiveFrozen(pruned, target in Expired(st, now), target, token, size, uuid, id);
      FrozenTransitive(st, pruned, Page(st, target, token, now, size, uuid).0, id);
    }
  }

  lemma InsertFrozen(st: Store, new_: Text, s: Session, id: Text)
    requires id != new_
    ensures Frozen(st, Insert(st, new_, s), id)
  {
  }

  lemma CreatedFrozen(p: Platform, st: Store, req: CreateRequest, id: Text)
    requires |req.uuids| == |req.resolution.candidates| + 3 && id != SessionId(req.uuids[0])
    ensures Frozen(st, Created(p, st, req), id)
    ensures Created(p, st, req).sessions.Keys <= st.sessions.Keys + {SessionId(req.uuids[0])}
  {
    var pruned, s := Pruned(st, req.now), NewSession(p, req);
    var n := EvictionCount(pruned, |s.candidates|, s.estimatedBytes);
    RestrictFrozen(st, Expired(st, req.now), id);
    RestrictFrozen(pruned, Elements(pruned.order[..n]), id);
    FrozenTransitive(st, pruned, WithoutOldest(pruned, n), id);
    InsertFrozen(WithoutOldest(pruned, n), s.view.id, s, id);
    FrozenTransitive(st, WithoutOldest(pruned, n), Created(p, st, req), id);
  }

  lemma CreateFrozen(p: Platform, st: Store, req: CreateRequest, id: Text)
    requires Valid(st) && FreshIds(st, req) && id != SessionId(req.uuids[0])
    ensures Frozen(st, Create(p, st, req).0, id)
    ensures Create(p, st, req).0.sessions.Keys <= st.sessions.Keys + {SessionId(req.uuids[0])}
  {
    if CreateError(p, req).Some? {
      RestrictFrozen(st, Expired(st, req.now), id);
    } else {
      var uuid := req.uuids[|req.uuids| - 1];
      CreateAnswers(p, st, req);
      CreatedIsValid(p, st, req);
      CreatedFrozen(p, st, req, id);
      PageAtOffsetFrozen(Created(p, st, req), SessionId(req.uuids[0]), 0, req.pageSize, uuid, id);
      FrozenTransitive(st, Created(p, st, req), Create(p, st, req).0, id);
    }
  }

  /** No operation changes a live snapshot, and a session that is gone never comes back. */
  lemma ApplyFrozen(p: Platform, w: World, op: Op, id: Text)
    requires WorldOk(w) && Fresh(w, op) && id in w.issuer
    ensures Frozen(w.store, Apply(p, w, op).store, id)
    ensures id in Apply(p, w, op).store.sessions ==> id in w.store.sessions
    ensures id in Apply(p, w, op).issuer
  {
    if op.CreateOp? {
      FreshCreate(w, op.req);
      assert SessionId(op.req.uuids[0]) in DrawnIds(op.req);
      CreateFrozen(p, w.store, op.req, id);
    } else if op.PageOp? {
      PageFrozen(w.store, op.id, op.token, op.now, op.size, op.uuid, id);
    } else {
      AcceptOpKeepsOk(p, w, op);
      RestrictFrozen(w.store, Expired(w.store, op.now), id);
    }
  }

  lemma {:induction false} RunFrozen(p: Platform, w: World, ops: seq<Op>, id: Text)
    requires WorldOk(w) && FreshRun(p, w, ops) && id in w.issuer
    ensures Frozen(w.store, RunAll(p, w, ops).store, id)
    ensures id in RunAll(p, w, ops).store.sessions ==> id in w.store.sessions
    ensures id in RunAll(p, w, ops).issuer
    decreases |ops|
  {
    if ops != [] {
      var next := Apply(p, w, ops[0]);
      ApplyFrozen(p, w, ops[0], id);
      ApplyKeepsOk(p, w, ops[0]);
      RunFrozen(p, next, ops[1..], id);
      FrozenTransitive(w.store, next.store, RunAll(p, w, ops).store, id);
    }
  }

  // ---------------------------------------------------------------- paging refines slicing

  /** The token stands for this offset of the session: no token is the start. */
  ghost predicate TokenAt(st: Store, id: Text, token: Option<Text>, offset: nat) {
    && id in st.sessions
    && match token
       case None => offset == 0
       case Some(t) => t in st.cursors && st.cursors[t] == Cursor(id, st.sessions[id].snapshotId, offset)
  }

  /** A page view is the slice from `offset` on, of the asked size, of the session's snapshot. */
  ghost predicate IsSlice(s: Session, offset: nat, size: nat, v: PageView) {
    var end := Min(offset + size, |s.candidates|);
    && offset < end
    && v.candidates == s.candidates[offset..end]
    && v.snapshotId == s.snapshotId && v.totalSize == |s.candidates| && v.session == s.view
    && (v.nextPageToken == "" <==> end == |s.candidates|)
  }

  lemma TokenAtSurvives(a: Store, b: Store, id: Text, token: Option<Text>, offset: nat)
    requires TokenAt(a, id, token, offset) && Frozen(a, b, id) && id in b.sessions
    ensures TokenAt(b, id, token, offset)
    ensures b.sessions[id].candidates == a.sessions[id].candidates
  {
  }

  /** Serving a page of a live session is exactly taking the next slice. */
  lemma PageAtOffsetServes(st: Store, id: Text, offset: nat, size: nat, uuid: Text)
    requires Valid(st) && FreshPageId(st, uuid) && PageSizeOk(size)
    requires id in st.sessions && offset < |st.sessions[id].candidates|
    ensures var r := PageAtOffset(st, id, offset, size, uuid);
      && r.1.Ok? && IsSlice(st.sessions[id], offset, size, r.1.value)
      && (r.1.value.nextPageToken != "" ==>
            TokenAt(r.0, id, Some(r.1.value.nextPageToken), Min(offset + size, |st.sessions[id].candidates|)))
  {
    var s := st.sessions[id];
    assert SessionOk(id, s);
    var end := PageEnd(s, offset, size);
    if end in s.pageTokens {
      assert PageTokenOk(st, id, end);
      assert CursorOk(st, s.pageTokens[end]);
    }
  }

  lemma TokenAtOffset(st: Store, id: Text, token: Option<Text>, offset: nat)
    requires Valid(st) && TokenAt(st, id, token, offset)
    ensures TokenOffset(st, id, token) == Ok(offset)
    ensures offset < |st.sessions[id].candidates|
    ensures SessionIdError(id).None?
  {
    assert SessionOk(id, st.sessions[id]);
    OwnIdentifierIsVisible(id);
    if token.Some? {
      assert CursorOk(st, token.value);
    }
  }

  lemma PageLiveIs(st: Store, id: Text, token: Option<Text>, offset: nat, size: nat, uuid: Text)
    requires SessionIdError(id).None? && TokenOffset(st, id, token) == Ok(offset)
    ensures PageLive(st, false, id, token, size, uuid) == PageAtOffset(st, id, offset, size, uuid)
  {
  }

  lemma PageLiveServes(st: Store, id: Text, token: Option<Text>, offset: nat, size: nat, uuid: Text)
    requires Valid(st) && FreshPageId(st, uuid) && PageSizeOk(size) && TokenAt(st, id, token, offset)
    ensures var r := PageLive(st, false, id, token, size, uuid);
      && r.1.Ok? && IsSlice(st.sessions[id], offset, size, r.1.value)
      && (r.1.value.nextPageToken != "" ==>
            TokenAt(r.0, id, Some(r.1.value.nextPageToken), Min(offset + size, |st.sessions[id].candidates|)))
  {
    TokenAtOffset(st, id, token, offset);
    PageLiveIs(st, id, token, offset, size, uuid);
    PageAtOffsetServes(st, id, offset, size, uuid);
  }

  /** A page request for a session that is live and not expired always succeeds, with the next slice. */
  lemma LivePageSucceeds(st: Store, id: Text, token: Option<Text>, offset: nat, now: nat, size: nat, uuid: Text)
    requires Valid(st) && FreshPageId(st, uuid) && PageSizeOk(size)
    requires TokenAt(st, id, token, offset) && now < st.sessions[id].expiresAt
    ensures var r := Page(st, id, token, now, size, uuid);
      && r.1.Ok? && IsSlice(st.sessions[id], offset, size, r.1.value)
      && (r.1.value.nextPageToken != "" ==>
            TokenAt(r.0, id, Some(r.1.value.nextPageToken), Min(offset + size, |st.sessions[id].candidates|)))
  {
    var pruned := Pruned(st, now);
    PrunedKeepsValid(st, now);
    RestrictFrozen(st, Expired(st, now), id);
    assert pruned.sessions[id] == st.sessions[id];
    TokenAtSurvives(st, pruned, id, token, offset);
    PageLiveServes(pruned, id, token, offset, size, uuid);
  }

  /** A page request that succeeds was for a live session and a page size from 1 to 200. */
  lemma SuccessfulPageWasLive(st: Store, id: Text, token: Option<Text>, now: nat, size: nat, uuid: Text)
    requires Page(st, id, token, now, size, uuid).1.Ok?
    ensures PageSizeOk(size) && id in st.sessions && now < st.sessions[id].expiresAt
  {
  }

  /** One page request of a client, after any operations by anybody. */
  datatype Visit = Visit(between: seq<Op>, now: nat, size: nat, uuid: Text)

  datatype Trail = Trail(world: World, pages: seq<PageView>, token: Option<Text>)

  ghost function VisitOp(id: Text, token: Option<Text>, v: Visit): Op {
    PageOp(id, token, v.now, v.size, v.uuid)
  }

  /** The world and the page after one visit, if its request succeeds. */
  ghost function Visited(p: Platform, w: World, id: Text, token: Option<Text>, v: Visit): Option<(World, PageView)> {
    if !FreshRun(p, w, v.between) then None
    else
      var before := RunAll(p, w, v.between);
      if !Fresh(before, VisitOp(id, token, v)) then None
      else
        var r := Page(before.store, id, token, v.now, v.size, v.uuid).1;
        if r.Err? then None else Some((Apply(p, before, VisitOp(id, token, v)), r.value))
  }

  /** The run before a request leaves the session's snapshot and the token's meaning alone. */
  lemma BetweenKeeps(p: Platform, w: World, id: Text, token: Option<Text>, offset: nat, ops: seq<Op>)
    requires WorldOk(w) && TokenAt(w.store, id, token, offset) && FreshRun(p, w, ops)
    requires id in RunAll(p, w, ops).store.sessions
    ensures var before := RunAll(p, w, ops);
      && WorldOk(before) && TokenAt(before.store, id, token, offset) && Frozen(w.store, before.store, id)
  {
    assert SessionIssued(w.issuer, id, w.store.sessions[id]);
    RunKeepsOk(p, w, ops);
    RunFrozen(p, w, ops, id);
    TokenAtSurvives(w.store, RunAll(p, w, ops).store, id, token, offset);
  }

  /** One step of a walk leaves a good world behind. */
  lemma VisitKeepsWorld(p: Platform, w: World, id: Text, token: Option<Text>, v: Visit)
    requires WorldOk(w) && Visited(p, w, id, token, v).Some?
    ensures WorldOk(Visited(p, w, id, token, v).value.0)
  {
    RunKeepsOk(p, w, v.between);
    ApplyKeepsOk(p, RunAll(p, w, v.between), VisitOp(id, token, v));
  }

  /** One step of a walk yields the next slice of the snapshot the session had at the start. */
  lemma VisitYieldsSlice(p: Platform, w: World, id: Text, token: Option<Text>, offset: nat, v: Visit)
    requires WorldOk(w) && TokenAt(w.store, id, token, offset) && Visited(p, w, id, token, v).Some?
    ensures IsSlice(w.store.sessions[id], offset, v.size, Visited(p, w, id, token, v).value.1)
  {
    var before := RunAll(p, w, v.between);
    SuccessfulPageWasLive(before.store, id, token, v.now, v.size, v.uuid);
    BetweenKeeps(p, w, id, token, offset, v.between);
    FreshVisit(before, id, token, v);
    LivePageSucceeds(before.store, id, token, offset, v.now, v.size, v.uuid);
    SameSlice(w.store, before.store, id, offset, v.size, Visited(p, w, id, token, v).value.1);
  }

  lemma SameSlice(a: Store, b: Store, id: Text, offset: nat, size: nat, view: PageView)
    requires id in a.sessions && id in b.sessions && Frozen(a, b, id) && IsSlice(b.sessions[id], offset, size, view)
    ensures IsSlice(a.sessions[id], offset, size, view)
  {
  }

  /** The token stands for `offset` of this session, whose snapshot is `cs`. */
  ghost predicate TokenIn(st: Store, id: Text, token: Option<Text>, offset: nat, cs: seq<Tokenized>, snapshotId: Text) {
    TokenAt(st, id, token, offset) && st.sessions[id].candidates == cs && st.sessions[id].snapshotId == snapshotId
  }

  lemma FrozenTokenIn(a: Store, b: Store, c: Store, id: Text, token: Option<Text>, offset: nat)
    requires id in a.sessions && id in b.sessions && Frozen(a, b, id) && Frozen(b, c, id)
             && TokenAt(c, id, token, offset)
    ensures TokenIn(c, id, token, offset, a.sessions[id].candidates, a.sessions[id].snapshotId)
  {
  }

  lemma VisitedIsPage(p: Platform, w: World, id: Text, token: Option<Text>, v: Visit)
    requires Visited(p, w, id, token, v).Some?
    ensures var r := Visited(p, w, id, token, v).value;
      var page := Page(RunAll(p, w, v.between).store, id, token, v.now, v.size, v.uuid);
      page.1 == Ok(r.1) && r.0.store == page.0
  {
  }

  /** The token a page returns stands for the end of its slice, in the same snapshot. */
  lemma PageReturnsToken(st: Store, id: Text, token: Option<Text>, offset: nat, now: nat, size: nat, uuid: Text,
                         next: Store, view: PageView)
    requires Valid(st) && TokenAt(st, id, token, offset) && FreshPageId(st, uuid)
    requires Page(st, id, token, now, size, uuid) == (next, Ok(view)) && view.nextPageToken != ""
    ensures TokenAt(next, id, Some(view.nextPageToken), Min(offset + size, |st.sessions[id].candidates|))
    ensures Frozen(st, next, id)
  {
    SuccessfulPageWasLive(st, id, token, now, size, uuid);
    LivePageSucceeds(st, id, token, offset, now, size, uuid);
    PageFrozen(st, id, token, now, size, uuid, id);
  }

  lemma FreshVisit(w: World, id: Text, token: Option<Text>, v: Visit)
    requires WorldOk(w) && Fresh(w, VisitOp(id, token, v))
    ensures FreshPageId(w.store, v.uuid)
  {
  }

  lemma VisitReturnsToken(p: Platform, w: World, id: Text, token: Option<Text>, offset: nat, v: Visit,
                          r: (World, PageView))
    requires WorldOk(w) && TokenAt(w.store, id, token, offset) && Visited(p, w, id, token, v) == Some(r)
    requires r.1.nextPageToken != ""
    ensures TokenIn(r.0.store, id, Some(r.1.nextPageToken), Min(offset + v.size, |w.store.sessions[id].candidates|),
                    w.store.sessions[id].candidates, w.store.sessions[id].snapshotId)
  {
    var before := RunAll(p, w, v.between);
    VisitedIsPage(p, w, id, token, v);
    SuccessfulPageWasLive(before.store, id, token, v.now, v.size, v.uuid);
    BetweenKeeps(p, w, id, token, offset, v.between);
    FreshVisit(before, id, token, v);
    LaterPageReturnsToken(w.store, before.store, id, token, offset, v, r.0.store, r.1);
  }

  lemma LaterPageReturnsToken(start: Store, st: Store, id: Text, token: Option<Text>, offset: nat, v: Visit,
                              next: Store, view: PageView)
    requires Valid(st) && id in start.sessions && TokenAt(st, id, token, offset) && FreshPageId(st, v.uuid)
    requires Frozen(start, st, id) && Page(st, id, token, v.now, v.size, v.uuid) == (next, Ok(view))
             && view.nextPageToken != ""
    ensures TokenIn(next, id, Some(view.nextPageToken), Min(offset + v.size, |start.sessions[id].candidates|),
                    start.sessions[id].candidates, start.sessions[id].snapshotId)
  {
    PageReturnsToken(st, id, token, offset, v.now, v.size, v.uuid, next, view);
    FrozenTokenIn(start, st, next, id, Some(view.nextPageToken), Min(offset + v.size, |start.sessions[id].candidates|));
  }

  // ---------------------------------------------------------------- walks

  /** Any source of pages: the world and the page after one visit, or nothing. */
  type Server = (World, Option<Text>, Visit) -> Option<(World, PageView)>

  /** Follows `next_page_token` from `token`; no trail if a request fails or the last page was reached. */
  ghost function Walk(serve: Server, w: World, token: Option<Text>, visits: seq<Visit>): Option<Trail>
    decreases |visits|
  {
    if visits == [] then Some(Trail(w, [], token))
    else if token == Some("") then None
    else
      match serve(w, token, visits[0])
      case None => None
      case Some((after, view)) =>
        match Walk(serve, after, Some(view.nextPageToken), visits[1..])
        case None => None
        case Some(rest) => Some(rest.(pages := [view] + rest.pages))
  }

  /** `at(w, token, offset)` says what a token stands for. */
  type Meaning = (World, Option<Text>, nat) -> bool

  /** The answer is the slice from `offset` on, and its token stands for where that slice ends. */
  ghost predicate NextSlice(at: Meaning, cs: seq<Tokenized>, snapshotId: Text, offset: nat, r: (World, PageView)) {
    match r
    case (after, view) =>
      var end := offset + |view.candidates|;
      && offset < end <= |cs| && view.candidates == cs[offset..end] && view.snapshotId == snapshotId
      && (view.nextPageToken == "" <==> end == |cs|)
      && (view.nextPageToken != "" ==> at(after, Some(view.nextPageToken), end))
  }

  ghost predicate ServesSlices(serve: Server, at: Meaning, cs: seq<Tokenized>, snapshotId: Text) {
    forall w, token, offset, v :: at(w, token, offset) && serve(w, token, v).Some? ==>
      NextSlice(at, cs, snapshotId, offset, serve(w, token, v).value)
  }

  /** The pages are consecutive, non-empty slices of one snapshot, cut at `cuts`. */
  ghost predicate Consecutive(cs: seq<Tokenized>, snapshotId: Text, pages: seq<PageView>, cuts: seq<nat>) {
    && |cuts| == |pages| + 1
    && (forall i :: 0 <= i < |cuts| ==> cuts[i] <= |cs|)
    && (forall i :: 0 <= i < |pages| ==>
          cuts[i] < cuts[i + 1] && pages[i].candidates == cs[cuts[i]..cuts[i + 1]] && pages[i].snapshotId == snapshotId)
  }

  lemma ConsecutiveCons(cs: seq<Tokenized>, snapshotId: Text, offset: nat, view: PageView, pages: seq<PageView>,
                        cuts: seq<nat>)
    requires Consecutive(cs, snapshotId, pages, cuts) && offset < cuts[0] && view.snapshotId == snapshotId
    requires view.candidates == cs[offset..cuts[0]]
    ensures Consecutive(cs, snapshotId, [view] + pages, [offset] + cuts)
  {
  }

  /** One request and the rest of the walk. */
  lemma WalkNext(serve: Server, w: World, token: Option<Text>, visits: seq<Visit>, after: World, view: PageView)
    requires visits != [] && Walk(serve, w, token, visits).Some? && serve(w, token, visits[0]) == Some((after, view))
    ensures Walk(serve, after, Some(view.nextPageToken), visits[1..]).Some?
    ensures var rest := Walk(serve, after, Some(view.nextPageToken), visits[1..]).value;
      Walk(serve, w, token, visits).value == rest.(pages := [view] + rest.pages)
  {
  }

  /** Every page of a walk is the next slice, and the walk ends exactly at the end of the snapshot. */
  lemma {:induction false} WalkCuts(serve: Server, at: Meaning, cs: seq<Tokenized>, snapshotId: Text, w: World,
                                    token: Option<Text>, offset: nat, visits: seq<Visit>)
    returns (cuts: seq<nat>)
    requires ServesSlices(serve, at, cs, snapshotId) && at(w, token, offset)
    requires offset < |cs| && token != Some("") && Walk(serve, w, token, visits).Some?
    ensures var trail := Walk(serve, w, token, visits).value;
      && |trail.pages| == |visits|
      && Consecutive(cs, snapshotId, trail.pages, cuts) && cuts[0] == offset
      && (trail.token == Some("") <==> cuts[|cuts| - 1] == |cs|)
    decreases |visits|
  {
    if visits == [] {
      cuts := [offset];
    } else {
      var (after, view) := serve(w, token, visits[0]).value;
      assert NextSlice(at, cs, snapshotId, offset, (after, view));
      var end := offset + |view.candidates|;
      WalkNext(serve, w, token, visits, after, view);
      var rest := [end];
      if view.nextPageToken == "" {
        assert visits[1..] == [];
      } else {
        rest := WalkCuts(serve, at, cs, snapshotId, after, Some(view.nextPageToken), end, visits[1..]);
      }
      cuts := [offset] + rest;
      ConsecutiveCons(cs, snapshotId, offset, view,
                      Walk(serve, after, Some(view.nextPageToken), visits[1..]).value.pages, rest);
    }
  }

  function Concat(pages: seq<PageView>): seq<Tokenized> {
    if pages == [] then [] else pages[0].candidates + Concat(pages[1..])
  }

  lemma {:induction false} ConsecutiveConcat(cs: seq<Tokenized>, snapshotId: Text, pages: seq<PageView>, cuts: seq<nat>)
    requires Consecutive(cs, snapshotId, pages, cuts)
    ensures cuts[0] + |pages| <= cuts[|pages|] <= |cs|
    ensures Concat(pages) == cs[cuts[0]..cuts[|pages|]]
  {
    if pages != [] {
      ConsecutiveConcat(cs, snapshotId, pages[1..], cuts[1..]);
      assert cs[cuts[0]..cuts[1]] + cs[cuts[1]..cuts[|pages|]] == cs[cuts[0]..cuts[|pages|]];
    }
  }

  /** A source that answers as the store does for one session. */
  ghost predicate IsStore(serve: Server, p: Platform, id: Text) {
    forall w, token, v {:trigger Visited(p, w, id, token, v)} :: serve(w, token, v) == Visited(p, w, id, token, v)
  }

  /** What tokens of this session mean, in worlds satisfying `ok`, while its snapshot is `cs`. */
  ghost function StoreMeaning(ok: World -> bool, id: Text, cs: seq<Tokenized>, snapshotId: Text): Meaning {
    (w: World, token: Option<Text>, offset: nat) =>
      ok(w) && TokenIn(w.store, id, token, offset, cs, snapshotId)
  }

  lemma SliceIsNext(ok: World -> bool, id: Text, s: Session, offset: nat, size: nat, after: World, view: PageView)
    requires ok(after) && IsSlice(s, offset, size, view)
    requires view.nextPageToken != "" ==>
      TokenIn(after.store, id, Some(view.nextPageToken), Min(offset + size, |s.candidates|), s.candidates, s.snapshotId)
    ensures NextSlice(StoreMeaning(ok, id, s.candidates, s.snapshotId), s.candidates, s.snapshotId, offset,
            (after, view))
  {
    assert |view.candidates| == Min(offset + size, |s.candidates|) - offset;
  }

  /** What one visit gives: a good world, the next slice of `s`, and a token for the end of that slice. */
  ghost predicate GoodVisit(id: Text, s: Session, offset: nat, size: nat, r: (World, PageView)) {
    match r
    case (after, view) =>
      && WorldOk(after) && IsSlice(s, offset, size, view)
      && (view.nextPageToken != "" ==>
            TokenIn(after.store, id, Some(view.nextPageToken), Min(offset + size, |s.candidates|), s.candidates,
                s.snapshotId))
  }

  lemma VisitIsGood(p: Platform, id: Text, w: World, token: Option<Text>, offset: nat, v: Visit, r: (World, PageView),
                    s: Session)
    requires WorldOk(w) && TokenAt(w.store, id, token, offset) && Visited(p, w, id, token, v) == Some(r)
    requires s == w.store.sessions[id]
    ensures GoodVisit(id, s, offset, v.size, r)
  {
    VisitKeepsWorld(p, w, id, token, v);
    VisitYieldsSlice(p, w, id, token, offset, v);
    if r.1.nextPageToken != "" {
      VisitReturnsToken(p, w, id, token, offset, v, r);
    }
  }

  lemma GoodVisitIsNext(id: Text, s: Session, offset: nat, size: nat, r: (World, PageView))
    requires GoodVisit(id, s, offset, size, r)
    ensures NextSlice(StoreMeaning(WorldOk, id, s.candidates, s.snapshotId), s.candidates, s.snapshotId, offset, r)
  {
    SliceIsNext(WorldOk, id, s, offset, size, r.0, r.1);
  }

  lemma VisitIsNextSlice(p: Platform, id: Text, w: World, token: Option<Text>, offset: nat, v: Visit,
                         r: (World, PageView), s: Session)
    requires WorldOk(w) && TokenAt(w.store, id, token, offset) && Visited(p, w, id, token, v) == Some(r)
    requires s == w.store.sessions[id]
    ensures NextSlice(StoreMeaning(WorldOk, id, s.candidates, s.snapshotId), s.candidates, s.snapshotId, offset, r)
  {
    VisitIsGood(p, id, w, token, offset, v, r, s);
    GoodVisitIsNext(id, s, offset, v.size, r);
  }

  lemma StoreServesSlices(serve: Server, p: Platform, id: Text, cs: seq<Tokenized>, snapshotId: Text)
    requires IsStore(serve, p, id)
    ensures ServesSlices(serve, StoreMeaning(WorldOk, id, cs, snapshotId), cs, snapshotId)
  {
    var at := StoreMeaning(WorldOk, id, cs, snapshotId);
    forall w, token, offset, v | at(w, token, offset) && serve(w, token, v).Some?
      ensures NextSlice(at, cs, snapshotId, offset, serve(w, token, v).value)
    {
      assert serve(w, token, v) == Visited(p, w, id, token, v);
      VisitIsNextSlice(p, id, w, token, offset, v, serve(w, token, v).value, w.store.sessions[id]);
    }
  }

  lemma MeaningAtStart(w: World, id: Text)
    requires WorldOk(w) && id in w.store.sessions
    ensures StoreMeaning(WorldOk, id, w.store.sessions[id].candidates, w.store.sessions[id].snapshotId)(w, None, 0)
    ensures |w.store.sessions[id].candidates| > 0
  {
    var s := w.store.sessions[id];
    assert SessionOk(id, s);
    assert TokenIn(w.store, id, None, 0, s.candidates, s.snapshotId);
  }

  /** A walk over any source of slices, from the start of the snapshot. */
  lemma WalkIsSlicing(serve: Server, at: Meaning, cs: seq<Tokenized>, snapshotId: Text, w: World, visits: seq<Visit>)
    requires ServesSlices(serve, at, cs, snapshotId) && at(w, None, 0) && cs != []
    requires Walk(serve, w, None, visits).Some?
    ensures var trail := Walk(serve, w, None, visits).value;
      && Concat(trail.pages) <= cs
      && |visits| == |trail.pages| <= |Concat(trail.pages)|
      && (forall i :: 0 <= i < |trail.pages| ==> trail.pages[i].snapshotId == snapshotId)
      && (trail.token == Some("") <==> Concat(trail.pages) == cs)
  {
    var cuts := WalkCuts(serve, at, cs, snapshotId, w, None, 0, visits);
    var pages := Walk(serve, w, None, visits).value.pages;
    ConsecutiveConcat(cs, snapshotId, pages, cuts);
    assert cs[0..cuts[|pages|]] == cs[..cuts[|pages|]];
  }

  /**
   Paging refines slicing: whatever happens between the requests and whatever page sizes are asked,
   a walk from the first page yields a prefix of the one frozen snapshot, in order, every page with
   its snapshot id and at least one candidate long; it reaches the empty token exactly when it has
   yielded the whole snapshot, so within as many pages as there are candidates.
   */
  lemma WalkYieldsSnapshot(serve: Server, p: Platform, w: World, id: Text, visits: seq<Visit>)
    requires IsStore(serve, p, id) && WorldOk(w) && id in w.store.sessions && Walk(serve, w, None, visits).Some?
    ensures var trail := Walk(serve, w, None, visits).value; var s := w.store.sessions[id];
      && Concat(trail.pages) <= s.candidates
      && |visits| == |trail.pages| <= |Concat(trail.pages)|
      && (forall i :: 0 <= i < |trail.pages| ==> trail.pages[i].snapshotId == s.snapshotId)
      && (trail.token == Some("") <==> Concat(trail.pages) == s.candidates)
  {
    var s := w.store.sessions[id];
    StoreServesSlices(serve, p, id, s.candidates, s.snapshotId);
    MeaningAtStart(w, id);
    WalkIsSlicing(serve, StoreMeaning(WorldOk, id, s.candidates, s.snapshotId), s.candidates, s.snapshotId, w, visits);
  }

  // ---------------------------------------------------------------- live walks

  /** `live(w, token, v)` says that a request must be answered. */
  type Liveness = (World, Option<Text>, Visit) -> bool

  ghost predicate Answers(serve: Server, at: Meaning, live: Liveness) {
    forall w, token, offset, v :: at(w, token, offset) && live(w, token, v) ==> serve(w, token, v).Some?
  }

  /** Every request of the walk is live when it is made, up to the one that reaches the end. */
  ghost predicate LiveWalk(serve: Server, live: Liveness, w: World, token: Option<Text>, visits: seq<Visit>)
    decreases |visits|
  {
    visits != [] && token != Some("") ==>
      && live(w, token, visits[0])
      && (serve(w, token, visits[0]).Some? ==>
            match serve(w, token, visits[0]).value
            case (after, view) => LiveWalk(serve, live, after, Some(view.nextPageToken), visits[1..]))
  }

  ghost predicate ReachesEnd(serve: Server, w: World, token: Option<Text>, visits: seq<Visit>) {
    match Walk(serve, w, token, visits)
    case None => false
    case Some(trail) => trail.token == Some("")
  }

  lemma ReachesEndFirst(serve: Server, w: World, token: Option<Text>, v: Visit)
    requires token != Some("") && serve(w, token, v).Some? && serve(w, token, v).value.1.nextPageToken == ""
    ensures ReachesEnd(serve, w, token, [v])
  {
    var (after, view) := serve(w, token, v).value;
    assert [v][1..] == [];
    assert Walk(serve, after, Some(""), []) == Some(Trail(after, [], Some("")));
  }

  lemma ReachesEndLater(serve: Server, w: World, token: Option<Text>, v: Visit, after: World, view: PageView,
                        rest: seq<Visit>)
    requires token != Some("") && serve(w, token, v) == Some((after, view))
    requires ReachesEnd(serve, after, Some(view.nextPageToken), rest)
    ensures ReachesEnd(serve, w, token, [v] + rest)
  {
    assert ([v] + rest)[1..] == rest;
  }

  /** A live walk reaches the end after at most as many requests as candidates are left. */
  lemma {:induction false} LiveWalkEnds(serve: Server, at: Meaning, live: Liveness, cs: seq<Tokenized>,
                                        snapshotId: Text, w: World, token: Option<Text>, offset: nat,
                                        visits: seq<Visit>) returns (n: nat)
    requires ServesSlices(serve, at, cs, snapshotId) && Answers(serve, at, live) && at(w, token, offset)
    requires token != Some("") && offset < |cs| && |visits| >= |cs| - offset && LiveWalk(serve, live, w, token, visits)
    ensures 1 <= n <= |cs| - offset && ReachesEnd(serve, w, token, visits[..n])
    decreases |visits|
  {
    var v := visits[0];
    assert serve(w, token, v).Some?;
    var (after, view) := serve(w, token, v).value;
    assert NextSlice(at, cs, snapshotId, offset, (after, view));
    if view.nextPageToken == "" {
      n := 1;
      ReachesEndFirst(serve, w, token, v);
      assert visits[..1] == [v];
    } else {
      var m := LiveWalkEnds(serve, at, live, cs, snapshotId, after, Some(view.nextPageToken),
          offset + |view.candidates|, visits[1..]);
      n := m + 1;
      ReachesEndLater(serve, w, token, v, after, view, visits[1..][..m]);
      assert visits[..n] == [v] + visits[1..][..m];
    }
  }

  /** The request is made of a session that is still there and not expired, with a legal page size and fresh
      identifiers. */
  ghost predicate LiveVisit(p: Platform, id: Text, w: World, token: Option<Text>, v: Visit) {
    && FreshRun(p, w, v.between)
    && var before := RunAll(p, w, v.between);
       && Fresh(before, VisitOp(id, token, v)) && PageSizeOk(v.size)
       && id in before.store.sessions && v.now < before.store.sessions[id].expiresAt
  }

  ghost predicate IsLiveness(live: Liveness, p: Platform, id: Text) {
    forall w, token, v {:trigger LiveVisit(p, id, w, token, v)} :: live(w, token, v) == LiveVisit(p, id, w, token, v)
  }

  lemma LivePageAnswered(before: World, id: Text, token: Option<Text>, offset: nat, v: Visit)
    requires WorldOk(before) && TokenAt(before.store, id, token, offset) && Fresh(before, VisitOp(id, token, v))
    requires PageSizeOk(v.size) && v.now < before.store.sessions[id].expiresAt
    ensures Page(before.store, id, token, v.now, v.size, v.uuid).1.Ok?
  {
    FreshVisit(before, id, token, v);
    LivePageSucceeds(before.store, id, token, offset, v.now, v.size, v.uuid);
  }

  lemma AnsweredIsVisited(p: Platform, w: World, before: World, id: Text, token: Option<Text>, v: Visit)
    requires FreshRun(p, w, v.between) && before == RunAll(p, w, v.between) && Fresh(before, VisitOp(id, token, v))
    requires Page(before.store, id, token, v.now, v.size, v.uuid).1.Ok?
    ensures Visited(p, w, id, token, v).Some?
  {
  }

  lemma LiveVisitAnswered(p: Platform, id: Text, w: World, token: Option<Text>, offset: nat, v: Visit)
    requires WorldOk(w) && TokenAt(w.store, id, token, offset) && LiveVisit(p, id, w, token, v)
    ensures Visited(p, w, id, token, v).Some?
  {
    var before := RunAll(p, w, v.between);
    BetweenKeeps(p, w, id, token, offset, v.between);
    LivePageAnswered(before, id, token, offset, v);
    AnsweredIsVisited(p, w, before, id, token, v);
  }

  lemma StoreAnswers(serve: Server, live: Liveness, p: Platform, id: Text, cs: seq<Tokenized>, snapshotId: Text)
    requires IsStore(serve, p, id) && IsLiveness(live, p, id)
    ensures Answers(serve, StoreMeaning(WorldOk, id, cs, snapshotId), live)
  {
    var at := StoreMeaning(WorldOk, id, cs, snapshotId);
    forall w, token, offset, v | at(w, token, offset) && live(w, token, v) ensures serve(w, token, v).Some? {
      assert live(w, token, v) == LiveVisit(p, id, w, token, v) && serve(w, token, v) == Visited(p, w, id, token, v);
      LiveVisitAnswered(p, id, w, token, offset, v);
    }
  }

  /**
   A walk whose session is live and unexpired at every request reaches the empty token after at most as many requests as
   the snapshot has candidates, and has then yielded exactly the snapshot.
   */
  lemma LiveWalkYieldsAll(serve: Server, live: Liveness, p: Platform, w: World, id: Text, visits: seq<Visit>,
                          s: Session)
    returns (n: nat)
    requires IsStore(serve, p, id) && IsLiveness(live, p, id) && WorldOk(w) && id in w.store.sessions
             && s == w.store.sessions[id]
    requires |visits| >= |s.candidates| && LiveWalk(serve, live, w, None, visits)
    ensures 1 <= n <= |s.candidates| && Walk(serve, w, None, visits[..n]).Some?
    ensures Walk(serve, w, None, visits[..n]).value.token == Some("")
    ensures Concat(Walk(serve, w, None, visits[..n]).value.pages) == s.candidates
  {
    var at := StoreMeaning(WorldOk, id, s.candidates, s.snapshotId);
    StoreServesSlices(serve, p, id, s.candidates, s.snapshotId);
    StoreAnswers(serve, live, p, id, s.candidates, s.snapshotId);
    MeaningAtStart(w, id);
    n := LiveWalkEnds(serve, at, live, s.candidates, s.snapshotId, w, None, 0, visits);
    WalkYieldsSnapshot(serve, p, w, id, visits[..n]);
  }
}
