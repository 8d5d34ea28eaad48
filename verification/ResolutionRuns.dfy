/** Properties of the resolution store over every run of its operations. */
module ResolutionRuns {
  import opened Prelude
  import opened ResolutionModel
  import opened ResolutionState
  import opened ResolutionSelection
  import opened ResolutionOps
  import opened ResolutionCreate

  datatype Op =
    | CreateOp(req: CreateRequest)
    | PageOp(id: Text, token: Option<Text>, now: nat, size: nat, uuid: Text)
    | AcceptOp(id: Text, sel: Selection, now: nat)
    | PruneOp(now: nat)

  /** The store together with the history of which session each identifier was issued for. */
  datatype World = World(store: Store, issuer: map<Text, Text>)

  ghost function CandidateTokens(req: CreateRequest): set<Text>
    requires |req.uuids| == |req.resolution.candidates| + 3
  {
    set c | c in NewCandidates(req) :: c.token
  }

  ghost function DrawnIds(req: CreateRequest): set<Text>
    requires |req.uuids| == |req.resolution.candidates| + 3
  {
    {SessionId(req.uuids[0]), SnapshotId(req.uuids[1]), PageToken(req.uuids[|req.uuids| - 1])} + CandidateTokens(req)
  }

  /** UUIDs do not repeat: every identifier an operation draws is new. */
  ghost predicate Fresh(w: World, op: Op) {
    match op
    case CreateOp(req) => EnoughIds(req) && DrawnIds(req) !! w.issuer.Keys
    case PageOp(_, _, _, _, uuid) => |uuid| == UUID_BYTES && PageToken(uuid) !in w.issuer
    case _ => true
  }

  ghost function Issue(issuer: map<Text, Text>, ids: set<Text>, session: Text): map<Text, Text> {
    issuer + map t | t in ids :: session
  }

  ghost function Apply(p: Platform, w: World, op: Op): World
    requires Fresh(w, op)
  {
    match op
    case CreateOp(req) => World(Create(p, w.store, req).0, Issue(w.issuer, DrawnIds(req), SessionId(req.uuids[0])))
    case PageOp(id, token, now, size, uuid) =>
      World(Page(w.store, id, token, now, size, uuid).0, Issue(w.issuer, {PageToken(uuid)}, id))
    case AcceptOp(id, sel, now) => World(Accept(w.store, id, sel, now).0, w.issuer)
    case PruneOp(now) => World(Pruned(w.store, now), w.issuer)
  }

  // ---------------------------------------------------------------- what every operation keeps

  /** Everything a live session hands out was issued for that session. */
  ghost predicate SessionIssued(issuer: map<Text, Text>, id: Text, s: Session) {
    && id in issuer && issuer[id] == id
    && (forall t :: t in s.offsets ==> t in issuer && issuer[t] == id)
  }

  ghost predicate Issued(st: Store, issuer: map<Text, Text>) {
    && (forall id :: id in st.sessions ==> SessionIssued(issuer, id, st.sessions[id]))
    && (forall t :: t in st.cursors ==> t in issuer && issuer[t] == st.cursors[t].sessionId)
  }

  ghost predicate WorldOk(w: World) {
    match w
    case World(store, issuer) => Valid(store) && Issued(store, issuer)
  }

  lemma IssuedGrows(st: Store, issuer: map<Text, Text>, ids: set<Text>, session: Text)
    requires Issued(st, issuer) && ids !! issuer.Keys
    ensures Issued(st, Issue(issuer, ids, session))
  {
  }

  lemma RestrictKeepsIssued(st: Store, gone: set<Text>, issuer: map<Text, Text>)
    requires Issued(st, issuer)
    ensures Issued(Restrict(st, gone), issuer)
  {
  }

  lemma AddCursorKeepsIssued(st: Store, id: Text, offset: nat, token: Text, issuer: map<Text, Text>)
    requires Issued(st, issuer) && id in st.sessions && token in issuer && issuer[token] == id
    ensures Issued(AddCursor(st, id, offset, token), issuer)
  {
    var n := AddCursor(st, id, offset, token);
    assert SessionIssued(issuer, id, st.sessions[id]);
    forall i | i in n.sessions ensures SessionIssued(issuer, i, n.sessions[i]) {
      assert SessionIssued(issuer, i, st.sessions[i]);
    }
  }

  lemma PageAtOffsetKeepsIssued(st: Store, id: Text, offset: nat, size: nat, uuid: Text, issuer: map<Text, Text>)
    requires Issued(st, issuer) && PageToken(uuid) in issuer && issuer[PageToken(uuid)] == id
    ensures Issued(PageAtOffset(st, id, offset, size, uuid).0, issuer)
  {
    if id in st.sessions {
      var end := PageEnd(st.sessions[id], offset, size);
      AddCursorKeepsIssued(st, id, end, PageToken(uuid), issuer);
    }
  }

  lemma PageLiveKeepsIssued(st: Store, expired: bool, id: Text, token: Option<Text>, size: nat, uuid: Text,
                            issuer: map<Text, Text>)
    requires Issued(st, issuer) && PageToken(uuid) in issuer && issuer[PageToken(uuid)] == id
    ensures Issued(PageLive(st, expired, id, token, size, uuid).0, issuer)
  {
    var offset := TokenOffset(st, id, token);
    if offset.Ok? {
      PageAtOffsetKeepsIssued(st, id, offset.value, size, uuid, issuer);
    }
  }

  lemma PageKeepsIssued(st: Store, id: Text, token: Option<Text>, now: nat, size: nat, uuid: Text,
                        issuer: map<Text, Text>)
    requires Issued(st, issuer) && PageToken(uuid) in issuer && issuer[PageToken(uuid)] == id
    ensures Issued(Page(st, id, token, now, size, uuid).0, issuer)
  {
    RestrictKeepsIssued(st, Expired(st, now), issuer);
    PageLiveKeepsIssued(Pruned(st, now), id in Expired(st, now), id, token, size, uuid, issuer);
  }

  lemma OffsetKeysAreTokens(cs: seq<Tokenized>)
    ensures forall t :: t in OffsetTable(cs) ==> exists c :: c in cs && c.token == t
  {
    if cs != [] {
      OffsetKeysAreTokens(cs[..|cs| - 1]);
    }
  }

  lemma InsertKeepsIssued(p: Platform, st: Store, req: CreateRequest, issuer: map<Text, Text>)
    requires EnoughIds(req) && Issued(st, issuer)
    requires forall t :: t in DrawnIds(req) ==> t in issuer && issuer[t] == SessionId(req.uuids[0])
    ensures var s := NewSession(p, req); Issued(Insert(st, s.view.id, s), issuer)
  {
    var s := NewSession(p, req);
    OffsetKeysAreTokens(NewCandidates(req));
    assert SessionIssued(issuer, s.view.id, s);
  }

  lemma CreateKeepsIssued(p: Platform, st: Store, req: CreateRequest, issuer: map<Text, Text>)
    requires Valid(st) && FreshIds(st, req) && Issued(st, issuer)
    requires forall t :: t in DrawnIds(req) ==> t in issuer && issuer[t] == SessionId(req.uuids[0])
    ensures Issued(Create(p, st, req).0, issuer)
  {
    var pruned := Pruned(st, req.now);
    RestrictKeepsIssued(st, Expired(st, req.now), issuer);
    if CreateError(p, req).None? {
      var s := NewSession(p, req);
      var n := EvictionCount(pruned, |s.candidates|, s.estimatedBytes);
      RestrictKeepsIssued(pruned, Elements(pruned.order[..n]), issuer);
      InsertKeepsIssued(p, WithoutOldest(pruned, n), req, issuer);
      CreateAnswers(p, st, req);
      PageAtOffsetKeepsIssued(Created(p, st, req), s.view.id, 0, req.pageSize, req.uuids[|req.uuids| - 1], issuer);
    }
  }

  lemma FreshCreate(w: World, req: CreateRequest)
    requires WorldOk(w) && Fresh(w, CreateOp(req))
    ensures FreshIds(w.store, req)
  {
    assert SessionId(req.uuids[0]) in DrawnIds(req) && PageToken(req.uuids[|req.uuids| - 1]) in DrawnIds(req);
  }

  lemma CreateOpKeepsOk(p: Platform, w: World, op: Op)
    requires WorldOk(w) && Fresh(w, op) && op.CreateOp?
    ensures WorldOk(Apply(p, w, op))
  {
    var req := op.req;
    FreshCreate(w, req);
    CreateKeepsValid(p, w.store, req);
    IssuedGrows(w.store, w.issuer, DrawnIds(req), SessionId(req.uuids[0]));
    CreateKeepsIssued(p, w.store, req, Apply(p, w, op).issuer);
  }

  lemma PageOpKeepsOk(p: Platform, w: World, op: Op)
    requires WorldOk(w) && Fresh(w, op) && op.PageOp?
    ensures WorldOk(Apply(p, w, op))
  {
    assert FreshPageId(w.store, op.uuid);
    PageKeepsValid(w.store, op.id, op.token, op.now, op.size, op.uuid);
    IssuedGrows(w.store, w.issuer, {PageToken(op.uuid)}, op.id);
    PageKeepsIssued(w.store, op.id, op.token, op.now, op.size, op.uuid, Apply(p, w, op).issuer);
  }

  lemma PrunedKeepsOk(w: World, now: nat)
    requires WorldOk(w)
    ensures WorldOk(World(Pruned(w.store, now), w.issuer))
  {
    PrunedKeepsValid(w.store, now);
    RestrictKeepsIssued(w.store, Expired(w.store, now), w.issuer);
  }

  lemma AcceptOpKeepsOk(p: Platform, w: World, op: Op)
    requires WorldOk(w) && Fresh(w, op) && (op.AcceptOp? || op.PruneOp?)
    ensures Apply(p, w, op) == World(Pruned(w.store, op.now), w.issuer)
    ensures WorldOk(Apply(p, w, op))
  {
    PrunedKeepsOk(w, op.now);
  }

  /** Every operation keeps the whole invariant. */
  lemma ApplyKeepsOk(p: Platform, w: World, op: Op)
    requires WorldOk(w) && Fresh(w, op)
    ensures WorldOk(Apply(p, w, op))
  {
    if op.CreateOp? {
      CreateOpKeepsOk(p, w, op);
    } else if op.PageOp? {
      PageOpKeepsOk(p, w, op);
    } else {
      AcceptOpKeepsOk(p, w, op);
    }
  }

  /** A run whose operations draw only new identifiers. */
  ghost predicate FreshRun(p: Platform, w: World, ops: seq<Op>)
    decreases |ops|
  {
    ops == [] || (Fresh(w, ops[0]) && FreshRun(p, Apply(p, w, ops[0]), ops[1..]))
  }

  ghost function RunAll(p: Platform, w: World, ops: seq<Op>): World
    requires FreshRun(p, w, ops)
    decreases |ops|
  {
    if ops == [] then w else RunAll(p, Apply(p, w, ops[0]), ops[1..])
  }

  lemma EmptyWorldOk()
    ensures WorldOk(World(EMPTY, map[]))
  {
  }

  /** The store invariant over every run of create, page, accept and prune. */
  lemma {:induction false} RunKeepsOk(p: Platform, w: World, ops: seq<Op>)
    requires WorldOk(w) && FreshRun(p, w, ops)
    ensures WorldOk(RunAll(p, w, ops))
    decreases |ops|
  {
    if ops != [] {
      ApplyKeepsOk(p, w, ops[0]);
      RunKeepsOk(p, Apply(p, w, ops[0]), ops[1..]);
    }
  }
}
