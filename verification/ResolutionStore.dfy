/** The store object itself: its fields, updated in place, always equal to the value model. */
module ResolutionStore {
  import opened Prelude
  import opened ResolutionModel
  import opened ResolutionState
  import opened ResolutionSelection
  import opened ResolutionOps
  import opened ResolutionCreate

  class BilibiliResolutionStore {
    const platform: Platform
    var sessions: map<Text, Session>     // `sessions_by_id`
    var order: seq<Text>                 // `session_order`
    var cursors: map<Text, Cursor>       // `page_cursors_by_token`
    var totalCandidates: nat
    var totalBytes: nat

    function State(): Store
      reads this
    {
      Store(sessions, order, cursors, totalCandidates, totalBytes)
    }

    ghost predicate Good()
      reads this
    {
      platform.sessionSize <= USIZE_MAX && Valid(State())
    }

    constructor (platform: Platform)
      requires platform.sessionSize <= USIZE_MAX
      ensures Good() && State() == EMPTY && this.platform == platform
    {
      this.platform := platform;
      sessions, order, cursors, totalCandidates, totalBytes := map[], [], map[], 0, 0;
    }

    /** `remove_session` */
    method Remove(id: Text)
      modifies this
      ensures State() == RemoveSession(old(State()), id)
    {
      if id !in sessions {
        return;
      }
      var removed := sessions[id];
      sessions := sessions - {id};
      totalCandidates := SaturatingSub(totalCandidates, |removed.candidates|);
      totalBytes := SaturatingSub(totalBytes, removed.estimatedBytes);
      order := Without(order, {id});
      cursors := CursorsWithout(cursors, {id});
    }

    /** Removes the given sessions one by one; `after(gone)` is the store once `gone` are out. */
    method RemoveAll(ids: set<Text>, ghost after: set<Text> -> Store)
      requires State() == after({})
      requires forall gone, id :: RemoveSession(after(gone), id) == after(gone + {id})
      modifies this
      ensures State() == after(ids)
    {
      ghost var gone := {};
      var todo := ids;
      while todo != {}
        invariant todo !! gone && todo + gone == ids
        invariant State() == after(gone)
        decreases todo
      {
        var id :| id in todo;
        Remove(id);
        todo, gone := todo - {id}, gone + {id};
      }
      assert gone == ids;
    }

    /** `prune`: removes exactly the expired sessions, in whatever order the set is walked. */
    method Prune(now: nat) returns (expired: set<Text>)
      requires Good()
      modifies this
      ensures Good() && State() == Pruned(old(State()), now)
      ensures expired == Expired(old(State()), now)
    {
      ghost var start := State();
      ghost var after := (gone: set<Text>) => Restrict(start, gone);
      RestrictNothing(start, {});
      forall gone, id ensures RemoveSession(after(gone), id) == after(gone + {id}) {
        RemoveNext(start, gone, id);
      }
      expired := Expired(State(), now);
      RemoveAll(expired, after);
      RestrictKeepsValid(start, expired);
    }

    /** The capacity loop of `create_session`, with its failure when no session is left to evict. */
    method EvictFor(candidates: nat, bytes: nat) returns (error: Option<StoreError>)
      requires Valid(State())
      modifies this
      ensures Valid(State()) && Eviction(State(), error) == Evicted(old(State()), candidates, bytes)
    {
      while Exceeded(State(), candidates, bytes)
        invariant Valid(State()) && Evicted(State(), candidates, bytes) == Evicted(old(State()), candidates, bytes)
        decreases |order|
      {
        if order == [] {
          return Some(CapacityUnavailable);
        }
        EvictOldest(candidates, bytes);
      }
      return None;
    }

    /** One turn of the loop. */
    method EvictOldest(candidates: nat, bytes: nat)
      requires Valid(State()) && order != [] && Exceeded(State(), candidates, bytes)
      modifies this
      ensures Valid(State()) && |order| < |old(order)|
      ensures Evicted(State(), candidates, bytes) == Evicted(old(State()), candidates, bytes)
    {
      ghost var start := State();
      OldestKnown(start);
      RemovalIsExact(start, order[0]);
      RestrictKeepsValid(start, {order[0]});
      WithoutHeadShrinks(order);
      Remove(order[0]);
    }

    /** `page_at_offset` */
    method PageFrom(id: Text, offset: nat, size: nat, uuid: Text) returns (r: Result<PageView, StoreError>)
      requires id in sessions ==> |sessions[id].candidates| <= U64_MAX
      modifies this`sessions, this`cursors
      ensures (State(), r) == PageAtOffset(old(State()), id, offset, size, uuid)
    {
      if id !in sessions {
        return Err(SessionNotFound);
      }
      var s := sessions[id];
      if offset > |s.candidates| {
        return Err(PageTokenBadOffset);
      }
      var end := PageEnd(s, offset, size);
      var token := "";
      if end < |s.candidates| {
        if end in s.pageTokens {
          token := s.pageTokens[end];
        } else {
          token := PageToken(uuid);
          sessions := sessions[id := s.(pageTokens := s.pageTokens[end := token])];
          cursors := cursors[token := Cursor(id, s.snapshotId, end)];
        }
      }
      r := Ok(ViewOf(s, offset, size, token));
    }

    /** `page` */
    method GetPage(id: Text, token: Option<Text>, now: nat, size: nat, uuid: Text)
      returns (r: Result<PageView, StoreError>)
      requires Good() && FreshPageId(State(), uuid)
      modifies this
      ensures Good()
      ensures (State(), r) == Page(old(State()), id, token, now, size, uuid)
    {
      PageKeepsValid(State(), id, token, now, size, uuid);
      if !PageSizeOk(size) {
        return Err(PageSizeInvalid);
      }
      var expired := Prune(now);
      var idError := SessionIdError(id);
      if idError.Some? {
        return Err(idError.value);
      }
      if id in expired {
        return Err(SessionExpired);
      }
      var offset := TokenOffset(State(), id, token);
      if offset.Err? {
        return Err(offset.error);
      }
      if id in sessions {
        assert SessionOk(id, sessions[id]);
      }
      r := PageFrom(id, offset.value, size, uuid);
    }

    /** The token table built while the candidates are tokenised. */
    method BuildOffsets(cs: seq<Tokenized>) returns (offsets: map<Text, nat>)
      ensures offsets == OffsetTable(cs)
    {
      offsets := map[];
      for i := 0 to |cs|
        invariant offsets == OffsetTable(cs[..i])
      {
        assert cs[..i + 1][..i] == cs[..i];
        offsets := offsets[cs[i].token := i];
      }
      assert cs[..|cs|] == cs;
    }

    /** The checks of `create_session` that precede any eviction. */
    method CheckCreate(req: CreateRequest) returns (error: Option<StoreError>)
      requires EnoughIds(req) && platform.sessionSize <= USIZE_MAX
      ensures error == CreateError(platform, req)
    {
      if !PageSizeOk(req.pageSize) {
        return Some(PageSizeInvalid);
      }
      error := ValidateResolution(req.resolution, req.options, req.context);
      if error.Some? {
        return;
      }
      if req.wallNow + SESSION_TTL > platform.wallClockMax {
        return Some(ExpiryUnrepresentable);
      }
      var bytes := EstimateSessionBytes(platform, NewView(req), SnapshotId(req.uuids[1]), req.options, req.context,
          NewCandidates(req));
      if bytes.Err? {
        return Some(bytes.error);
      }
      if bytes.value > MAX_SNAPSHOT_BYTES {
        return Some(SnapshotTooLarge);
      }
    }

    method AddSession(s: Session)
      modifies this
      ensures State() == Insert(old(State()), s.view.id, s)
    {
      totalCandidates := SaturatingAdd(totalCandidates, |s.candidates|);
      totalBytes := SaturatingAdd(totalBytes, s.estimatedBytes);
      order := order + [s.view.id];
      sessions := sessions[s.view.id := s];
    }

    /** Makes room and stores the session. */
    method Admit(s: Session) returns (error: Option<StoreError>)
      requires Valid(State())
      modifies this
      ensures error.Some? ==> Valid(State())
      ensures var room := Evicted(old(State()), |s.candidates|, s.estimatedBytes);
        && error == room.error
        && State() == if error.Some? then room.store else Insert(room.store, s.view.id, s)
    {
      error := EvictFor(|s.candidates|, s.estimatedBytes);
      if error.None? {
        AddSession(s);
      }
    }

    /** The snapshot of a request that passed every check. */
    method BuildSession(req: CreateRequest) returns (s: Session)
      requires |req.uuids| == |req.resolution.candidates| + 3
      ensures s == NewSession(platform, req)
    {
      var offsets := BuildOffsets(NewCandidates(req));
      s := Session(NewView(req), SnapshotId(req.uuids[1]), req.options, NewCandidates(req), offsets, map[],
                   req.now + SESSION_TTL, NewBytes(platform, req));
    }

    /** `create_session` once the request has passed every check. */
    method StoreSession(req: CreateRequest, ghost start: Store) returns (r: Result<PageView, StoreError>)
      requires Good() && Valid(start) && State() == Pruned(start, req.now)
      requires FreshIds(start, req) && CreateError(platform, req).None?
      modifies this
      ensures Good() && (State(), r) == Stored(platform, old(State()), req)
    {
      var s := BuildSession(req);
      var error := Admit(s);
      if error.Some? {
        return Err(error.value);
      }
      RoomForNew(platform, start, req, s, Evicted(old(State()), |s.candidates|, s.estimatedBytes));
      CreatedIsValid(platform, start, req);
      r := GetPage(s.view.id, None, req.now, req.pageSize, req.uuids[|req.uuids| - 1]);
    }

    /** `create_session` */
    method CreateSession(req: CreateRequest) returns (r: Result<PageView, StoreError>)
      requires Good() && FreshIds(State(), req)
      modifies this
      ensures Good()
      ensures (State(), r) == Create(platform, old(State()), req)
    {
      ghost var start := State();
      var expired := Prune(req.now);
      var error := CheckCreate(req);
      if error.Some? {
        return Err(error.value);
      }
      r := StoreSession(req, start);
    }

    /** `accept_selection` once expired sessions are gone. */
    method AcceptFrom(id: Text, sel: Selection, expired: bool) returns (r: Result<Accepted, StoreError>)
      requires Valid(State())
      ensures r == AcceptLive(State(), expired, id, sel)
    {
      var idError := SessionIdError(id);
      if idError.Some? {
        return Err(idError.value);
      }
      if expired {
        return Err(SessionExpired);
      }
      if id !in sessions {
        return Err(SessionNotFound);
      }
      var s := sessions[id];
      assert SessionOk(id, s);
      var offsets := SelectOffsets(s, sel);
      if offsets.Err? {
        return Err(offsets.error);
      }
      SelectionMeaning(s, sel);
      r := Ok(Accepted(s.view.source, s.view.title, s.options, s.view.context, Pick(s, offsets.value)));
    }

    /** `accept_selection` */
    method AcceptSelection(id: Text, sel: Selection, now: nat) returns (r: Result<Accepted, StoreError>)
      requires Good()
      modifies this
      ensures Good()
      ensures (State(), r) == Accept(old(State()), id, sel, now)
    {
      var expired := Prune(now);
      r := AcceptFrom(id, sel, id in expired);
    }
  }

  lemma OldestKnown(st: Store)
    requires Valid(st) && st.order != []
    ensures st.order[0] in st.sessions
  {
    assert st.order[0] in Elements(st.order);
  }
}
