/** Byte reservation and selection guarantees that hold in every reachable store. */
module ResolutionGuarantees {
  import opened Prelude
  import opened ResolutionModel
  import opened ResolutionBytes
  import opened ResolutionState
  import opened ResolutionSelection
  import opened ResolutionOps
  import opened ResolutionCreate
  import opened ResolutionRuns
  import opened ResolutionWalks

  // ---------------------------------------------------------------- every live session is fully charged

  lemma FrozenKeepsPrice(p: Platform, a: Store, b: Store, id: Text)
    requires Priced(p, a) && Frozen(a, b, id) && id in a.sessions && id in b.sessions
    ensures var s := b.sessions[id];
      s.estimatedBytes == SessionBytes(p, s.view, s.snapshotId, s.options, s.view.context, s.candidates)
  {
  }

  lemma CreateKeepsPrices(p: Platform, st: Store, req: CreateRequest)
    requires Valid(st) && FreshIds(st, req) && Priced(p, st)
    ensures Priced(p, Create(p, st, req).0)
  {
    var after := Create(p, st, req).0;
    var newId := SessionId(req.uuids[0]);
    forall id | id in after.sessions
      ensures var s := after.sessions[id];
        s.estimatedBytes == SessionBytes(p, s.view, s.snapshotId, s.options, s.view.context, s.candidates)
    {
      if id != newId {
        CreateFrozen(p, st, req, id);
        FrozenKeepsPrice(p, st, after, id);
      } else {
        FreshSessionPriced(p, st, req);
      }
    }
  }

  lemma FreshSessionPriced(p: Platform, st: Store, req: CreateRequest)
    requires Valid(st) && FreshIds(st, req) && SessionId(req.uuids[0]) in Create(p, st, req).0.sessions
    ensures var s := Create(p, st, req).0.sessions[SessionId(req.uuids[0])];
      s.estimatedBytes == SessionBytes(p, s.view, s.snapshotId, s.options, s.view.context, s.candidates)
  {
    var id := SessionId(req.uuids[0]);
    if CreateError(p, req).Some? {
      RestrictHasNoMore(st, Expired(st, req.now));
    } else {
      CreateAnswers(p, st, req);
      PageTouchesOneSession(Created(p, st, req), id, 0, req.pageSize, req.uuids[|req.uuids| - 1]);
      assert Created(p, st, req).sessions[id] == NewSession(p, req);
    }
  }

  lemma ApplyKeepsPrices(p: Platform, w: World, op: Op)
    requires WorldOk(w) && Fresh(w, op) && Priced(p, w.store)
    ensures Priced(p, Apply(p, w, op).store)
  {
    if op.CreateOp? {
      FreshCreate(w, op.req);
      CreateKeepsPrices(p, w.store, op.req);
    } else if op.PageOp? {
      var after := Page(w.store, op.id, op.token, op.now, op.size, op.uuid).0;
      forall id | id in after.sessions
        ensures var s := after.sessions[id];
          s.estimatedBytes == SessionBytes(p, s.view, s.snapshotId, s.options, s.view.context, s.candidates)
      {
        PageFrozen(w.store, op.id, op.token, op.now, op.size, op.uuid, id);
        FrozenKeepsPrice(p, w.store, after, id);
      }
    } else {
      AcceptOpKeepsOk(p, w, op);
      RestrictHasNoMore(w.store, Expired(w.store, op.now));
    }
  }

  lemma {:induction false} RunKeepsPrices(p: Platform, w: World, ops: seq<Op>)
    requires WorldOk(w) && FreshRun(p, w, ops) && Priced(p, w.store)
    ensures Priced(p, RunAll(p, w, ops).store)
    decreases |ops|
  {
    if ops != [] {
      ApplyKeepsOk(p, w, ops[0]);
      ApplyKeepsPrices(p, w, ops[0]);
      RunKeepsPrices(p, Apply(p, w, ops[0]), ops[1..]);
    }
  }

  // ---------------------------------------------------------------- the reservation covers lazy cursors

  lemma {:induction false} SumAtMost(f: Session -> nat, g: Session -> nat, sessions: map<Text, Session>,
                                     order: seq<Text>)
    requires forall id :: id in sessions ==> f(sessions[id]) <= g(sessions[id])
    ensures Sum(f, sessions, order) <= Sum(g, sessions, order)
  {
    if order != [] {
      SumAtMost(f, g, sessions, order[1..]);
    }
  }

  lemma PageTokensAreShort(st: Store, id: Text)
    requires Valid(st) && id in st.sessions
    ensures var tokens := st.sessions[id].pageTokens;
      forall offset :: offset in tokens ==> offset > 0 && |tokens[offset]| == 46
  {
    var tokens := st.sessions[id].pageTokens;
    assert SessionOk(id, st.sessions[id]);
    forall offset | offset in tokens ensures |tokens[offset]| == 46 {
      assert PageTokenOk(st, id, offset) && CursorOk(st, tokens[offset]);
    }
  }

  lemma ChargedStoreFits(p: Platform, st: Store)
    requires Valid(st) && Priced(p, st)
    ensures forall id :: id in st.sessions ==> Owned(p, st.sessions[id]) <= st.sessions[id].estimatedBytes
    ensures Sum((s: Session) => Owned(p, s), st.sessions, st.order) <= st.totalBytes <= 64 * 1024 * 1024
  {
    forall id | id in st.sessions ensures Owned(p, st.sessions[id]) <= st.sessions[id].estimatedBytes {
      PageTokensAreShort(st, id);
      SessionStaysWithinEstimate(p, st.sessions[id]);
    }
    SumAtMost((s: Session) => Owned(p, s), ReservedBytes, st.sessions, st.order);
  }

  /**
   Byte reservation is sound: in every store reached from the empty one, whatever page calls were
   made, no session owns more than it was charged, and all together stay within 64 MiB.
   */
  lemma ReservationIsSound(p: Platform, ops: seq<Op>)
    requires FreshRun(p, World(EMPTY, map[]), ops)
    ensures var st := RunAll(p, World(EMPTY, map[]), ops).store;
      && (forall id :: id in st.sessions ==> Owned(p, st.sessions[id]) <= st.sessions[id].estimatedBytes)
      && Sum((s: Session) => Owned(p, s), st.sessions, st.order) <= st.totalBytes <= 64 * 1024 * 1024
  {
    var st := RunAll(p, World(EMPTY, map[]), ops).store;
    EmptyWorldOk();
    RunKeepsOk(p, World(EMPTY, map[]), ops);
    RunKeepsPrices(p, World(EMPTY, map[]), ops);
    ChargedStoreFits(p, st);
  }

  // ---------------------------------------------------------------- paging

  /** No token, an empty one, or one of this session. */
  ghost predicate MayContinue(st: Store, id: Text, token: Option<Text>) {
    token.None? || token.value == "" || (token.value in st.cursors && st.cursors[token.value].sessionId == id)
  }

  lemma TokenResolves(st: Store, id: Text, token: Option<Text>)
    requires Valid(st) && id in st.sessions
    ensures TokenOffset(st, id, token).Ok? <==> MayContinue(st, id, token)
  {
    if token.Some? && token.value in st.cursors {
      assert CursorOk(st, token.value);
    }
  }

  lemma InsideAnswers(st: Store, id: Text, offset: nat, size: nat, uuid: Text)
    requires id in st.sessions && offset < |st.sessions[id].candidates| <= MAX_CANDIDATES
    ensures PageAtOffset(st, id, offset, size, uuid).1.Ok?
  {
  }

  lemma LivePageAnswers(st: Store, id: Text, token: Option<Text>, size: nat, uuid: Text)
    requires Valid(st) && id in st.sessions
    ensures PageIn(st, id, token, size, uuid).1.Ok? <==> MayContinue(st, id, token)
  {
    TokenResolves(st, id, token);
    TokenOffsetSound(st, id, token);
    if TokenOffset(st, id, token).Ok? {
      InsideAnswers(st, id, TokenOffset(st, id, token).value, size, uuid);
    }
  }

  lemma LiveSessionIdPasses(st: Store, id: Text)
    requires Valid(st) && id in st.sessions
    ensures SessionIdError(id).None?
  {
    assert SessionOk(id, st.sessions[id]);
    OwnIdentifierIsVisible(id);
  }

  lemma LivePageIs(st: Store, id: Text, token: Option<Text>, now: nat, size: nat, uuid: Text)
    requires PageSizeOk(size) && SessionIdError(id).None? && id !in Expired(st, now)
    ensures Page(st, id, token, now, size, uuid) == PageIn(Pruned(st, now), id, token, size, uuid)
  {
  }

  lemma MayContinueLive(st: Store, id: Text, token: Option<Text>, now: nat)
    requires id in st.sessions && now < st.sessions[id].expiresAt
    ensures MayContinue(Pruned(st, now), id, token) <==> MayContinue(st, id, token)
    ensures id in Pruned(st, now).sessions && id !in Expired(st, now)
  {
  }

  /** A page request succeeds exactly with a page size from 1 to 200, for a live session, and with no token, an empty
      one or one of that session. */
  lemma PageSucceedsExactly(st: Store, id: Text, token: Option<Text>, now: nat, size: nat, uuid: Text)
    requires Valid(st)
    ensures Page(st, id, token, now, size, uuid).1.Ok? <==>
              1 <= size <= 200 && id in st.sessions && now < st.sessions[id].expiresAt && MayContinue(st, id, token)
  {
    if PageSizeOk(size) && id in st.sessions && now < st.sessions[id].expiresAt {
      MayContinueLive(st, id, token, now);
      PrunedKeepsValid(st, now);
      LiveSessionIdPasses(st, id);
      LivePageIs(st, id, token, now, size, uuid);
      LivePageAnswers(Pruned(st, now), id, token, size, uuid);
    } else if Page(st, id, token, now, size, uuid).1.Ok? {
      SuccessfulPageWasLive(st, id, token, now, size, uuid);
    }
  }

  /** An empty page token is the same as none. */
  lemma EmptyTokenIsNone(st: Store, id: Text, now: nat, size: nat, uuid: Text)
    ensures Page(st, id, Some(""), now, size, uuid) == Page(st, id, None, now, size, uuid)
  {
    assert TokenOffset(Pruned(st, now), id, Some("")) == TokenOffset(Pruned(st, now), id, None);
  }

  // ---------------------------------------------------------------- selection

  /** The answer holds the candidates at these 1 to 100 different offsets, in this order, and the session's own data. */
  ghost predicate AnswersWith(s: Session, sel: Selection, offsets: seq<nat>, r: Accepted) {
    && Means(s, sel, offsets) && NoDuplicates(offsets) && 1 <= |offsets| <= 100 && |r.candidates| == |offsets|
    && (forall i :: 0 <= i < |offsets| ==>
          offsets[i] < |s.candidates| && r.candidates[i] == s.candidates[offsets[i]].candidate)
    && r.source == s.view.source && r.title == s.view.title && r.options == s.options && r.context == s.view.context
  }

  lemma AcceptLiveMeaning(st: Store, id: Text, sel: Selection)
    returns (offsets: seq<nat>)
    requires id in st.sessions && SessionOk(id, st.sessions[id]) && AcceptLive(st, false, id, sel).Ok?
    ensures AnswersWith(st.sessions[id], sel, offsets, AcceptLive(st, false, id, sel).value)
  {
    SelectionMeaning(st.sessions[id], sel);
    offsets := SelectedOffsets(st.sessions[id], sel).value;
  }

  lemma AcceptedWasLive(st: Store, id: Text, sel: Selection, now: nat)
    requires Accept(st, id, sel, now).1.Ok?
    ensures id in st.sessions && now < st.sessions[id].expiresAt
    ensures Pruned(st, now).sessions[id] == st.sessions[id]
    ensures Accept(st, id, sel, now).1 == AcceptLive(Pruned(st, now), false, id, sel)
  {
  }

  lemma AcceptLiveExactly(st: Store, id: Text, sel: Selection)
    requires id in st.sessions && SessionOk(id, st.sessions[id])
    ensures AcceptLive(st, false, id, sel).Ok? <==> Selects(st.sessions[id], sel)
  {
    var s := st.sessions[id];
    OwnIdentifierIsVisible(id);
    SelectionAccepted(s, sel);
    if SelectedOffsets(s, sel).Ok? {
      SelectionMeaning(s, sel);
    }
  }

  /** Exactly the selections of live sessions that name what their snapshot holds, within a task's limit, are
      accepted. */
  lemma AcceptedExactly(st: Store, id: Text, sel: Selection, now: nat)
    requires Valid(st)
    ensures Accept(st, id, sel, now).1.Ok?
            <==> id in st.sessions && now < st.sessions[id].expiresAt && Selects(st.sessions[id], sel)
  {
    if id in st.sessions && now < st.sessions[id].expiresAt {
      LiveAccept(st, id, sel, now);
      assert SessionOk(id, st.sessions[id]);
      AcceptLiveExactly(Pruned(st, now), id, sel);
    } else if Accept(st, id, sel, now).1.Ok? {
      AcceptedWasLive(st, id, sel, now);
    }
  }

  /** An accepted selection returns 1 to 100 candidates of that session's own snapshot, as selected. */
  lemma AcceptedSelectionMeaning(st: Store, id: Text, sel: Selection, now: nat)
    returns (offsets: seq<nat>)
    requires Valid(st) && Accept(st, id, sel, now).1.Ok?
    ensures id in st.sessions && now < st.sessions[id].expiresAt
    ensures AnswersWith(st.sessions[id], sel, offsets, Accept(st, id, sel, now).1.value)
  {
    AcceptedWasLive(st, id, sel, now);
    assert SessionOk(id, st.sessions[id]);
    offsets := AcceptLiveMeaning(Pruned(st, now), id, sel);
  }

  /**
   In every reachable world a candidate token issued for one session is rejected by every other
   session, whether or not its own session is still live.
   */
  lemma OtherSessionsTokenRejected(w: World, id: Text, sel: Selection, now: nat, token: Text)
    requires WorldOk(w) && token in w.issuer && w.issuer[token] != id
    requires token in sel.tokens || (sel.mode == MODE_RANGE && (token == sel.rangeStart || token == sel.rangeEnd))
    ensures Accept(w.store, id, sel, now).1.Err?
  {
    RestrictHasNoMore(w.store, Expired(w.store, now));
    if id in w.store.sessions {
      var s := w.store.sessions[id];
      assert SessionOk(id, s) && SessionIssued(w.issuer, id, s);
      assert !HasToken(s, token);
      ForeignTokenRejected(s, sel, token);
    }
  }

  lemma LiveRangeAccepted(st: Store, id: Text, from: nat, to: nat)
    requires id in st.sessions && SessionOk(id, st.sessions[id])
    requires from < to <= |st.sessions[id].candidates| && to - from <= MAX_TASK_CANDIDATES
    ensures var s := st.sessions[id];
      var r := AcceptLive(st, false, id,
          Selection(MODE_RANGE, [], s.candidates[from].token, s.candidates[to - 1].token));
      && r.Ok? && |r.value.candidates| == to - from
      && forall i :: 0 <= i < to - from ==> r.value.candidates[i] == s.candidates[from + i].candidate
  {
    OwnIdentifierIsVisible(id);
    RangeSelectsSlice(st.sessions[id], from, to);
  }

  lemma LiveAccept(st: Store, id: Text, sel: Selection, now: nat)
    requires id in st.sessions && now < st.sessions[id].expiresAt
    ensures Accept(st, id, sel, now).1 == AcceptLive(Pruned(st, now), false, id, sel)
    ensures id in Pruned(st, now).sessions && Pruned(st, now).sessions[id] == st.sessions[id]
  {
  }

  /** The range selection from the first to the last candidate of a page. */
  ghost function RangeOf(v: PageView): Selection
    requires v.candidates != []
  {
    Selection(MODE_RANGE, [], v.candidates[0].token, v.candidates[|v.candidates| - 1].token)
  }

  ghost predicate Returns(r: Result<Accepted, StoreError>, v: PageView) {
    && r.Ok? && |r.value.candidates| == |v.candidates|
    && forall i :: 0 <= i < |v.candidates| ==> r.value.candidates[i] == v.candidates[i].candidate
  }

  lemma LivePageRange(st: Store, id: Text, offset: nat, size: nat, v: PageView)
    requires id in st.sessions && SessionOk(id, st.sessions[id])
    requires IsSlice(st.sessions[id], offset, size, v) && |v.candidates| <= MAX_TASK_CANDIDATES
    ensures Returns(AcceptLive(st, false, id, RangeOf(v)), v)
  {
    var s := st.sessions[id];
    var end := Min(offset + size, |s.candidates|);
    assert v.candidates[0] == s.candidates[offset] && v.candidates[|v.candidates| - 1] == s.candidates[end - 1];
    LiveRangeAccepted(st, id, offset, end);
  }

  /** Selecting by the first and last tokens of a page of at most 100 returns that page's candidates. */
  lemma PageRangeRoundTrip(st: Store, id: Text, offset: nat, size: nat, v: PageView, now: nat)
    requires Valid(st) && id in st.sessions && now < st.sessions[id].expiresAt
    requires IsSlice(st.sessions[id], offset, size, v) && |v.candidates| <= MAX_TASK_CANDIDATES
    ensures Returns(Accept(st, id, RangeOf(v), now).1, v)
  {
    assert SessionOk(id, st.sessions[id]);
    LiveAccept(st, id, RangeOf(v), now);
    LivePageRange(Pruned(st, now), id, offset, size, v);
  }
}
