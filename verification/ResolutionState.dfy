/** The resolution store as a value: what each operation does to it, and the invariant it keeps. */
module ResolutionState {
  import opened Prelude
  import opened ResolutionModel

  datatype Session = Session(
    view: SessionView, snapshotId: Text, options: Option<PlaybackOptions>, candidates: seq<Tokenized>,
    offsets: map<Text, nat>,      // `candidate_offsets_by_token`
    pageTokens: map<nat, Text>,   // `page_tokens_by_offset`
    expiresAt: nat, estimatedBytes: nat)

  datatype Cursor = Cursor(sessionId: Text, snapshotId: Text, offset: nat)

  datatype Store = Store(
    sessions: map<Text, Session>, order: seq<Text>, cursors: map<Text, Cursor>,
    totalCandidates: nat, totalBytes: nat)

  datatype PageView = PageView(
    session: SessionView, candidates: seq<Tokenized>, totalSize: nat, nextPageToken: Text, snapshotId: Text)

  const EMPTY: Store := Store(map[], [], map[], 0, 0)

  // ---------------------------------------------------------------- sums over the queue

  function CandidateCount(s: Session): nat { |s.candidates| }
  function ReservedBytes(s: Session): nat { s.estimatedBytes }

  /** The sum of a measure over the queued sessions. */
  function Sum(f: Session -> nat, sessions: map<Text, Session>, order: seq<Text>): nat {
    if order == [] then 0
    else (if order[0] in sessions then f(sessions[order[0]]) else 0) + Sum(f, sessions, order[1..])
  }

  /** The queue without the given ids: what `retain` leaves. */
  function Without(order: seq<Text>, gone: set<Text>): seq<Text> {
    if order == [] then []
    else if order[0] in gone then Without(order[1..], gone)
    else [order[0]] + Without(order[1..], gone)
  }

  lemma {:induction false} WithoutKeepsOrder(order: seq<Text>, gone: set<Text>)
    ensures Elements(Without(order, gone)) == Elements(order) - gone
    ensures NoDuplicates(order) ==> NoDuplicates(Without(order, gone))
  {
    if order != [] {
      WithoutKeepsOrder(order[1..], gone);
      var rest := Without(order[1..], gone);
      assert Elements(order) == {order[0]} + Elements(order[1..]);
      assert Elements(Without(order, gone)) == (if order[0] in gone then {} else {order[0]}) + Elements(rest);
      if NoDuplicates(order) {
        assert order[0] !in order[1..];
        assert order[0] !in rest by { assert order[0] !in Elements(order[1..]); }
        assert NoDuplicates(order[1..]);
      }
    }
  }

  lemma {:induction false} WithoutTwice(order: seq<Text>, a: set<Text>, b: set<Text>)
    ensures Without(Without(order, a), b) == Without(order, a + b)
  {
    if order != [] {
      WithoutTwice(order[1..], a, b);
      if order[0] !in a {
        assert Without(order, a)[1..] == Without(order[1..], a);
      }
    }
  }

  lemma {:induction false} WithoutNothing(order: seq<Text>, gone: set<Text>)
    requires Elements(order) !! gone
    ensures Without(order, gone) == order
  {
    if order != [] {
      assert order[0] in Elements(order);
      assert Elements(order[1..]) <= Elements(order);
      WithoutNothing(order[1..], gone);
    }
  }

  /** Dropping a prefix of a duplicate-free queue leaves its suffix. */
  lemma {:induction false} WithoutPrefix(order: seq<Text>, n: nat)
    requires NoDuplicates(order) && n <= |order|
    ensures Without(order, Elements(order[..n])) == order[n..]
    decreases n
  {
    var gone := Elements(order[..n]);
    if n == 0 {
      WithoutNothing(order, gone);
    } else {
      var tail := order[1..];
      assert NoDuplicates(tail);
      assert order[0] == order[..n][0];
      assert order[0] in gone;
      WithoutPrefix(tail, n - 1);
      var less := Elements(tail[..n - 1]);
      assert order[..n] == [order[0]] + tail[..n - 1];
      assert gone == {order[0]} + less;
      WithoutIrrelevant(tail, less, order[0]);
      assert tail[n - 1..] == order[n..];
    }
  }

  lemma {:induction false} WithoutIrrelevant(order: seq<Text>, gone: set<Text>, id: Text)
    requires id !in order
    ensures Without(order, {id} + gone) == Without(order, gone)
  {
    if order != [] {
      WithoutIrrelevant(order[1..], gone, id);
    }
  }

  /** Removing one queued session lowers the sum by exactly its own measure. */
  lemma {:induction false} SumWithoutOne(f: Session -> nat, sessions: map<Text, Session>, order: seq<Text>, id: Text)
    requires NoDuplicates(order) && id in order && id in sessions
    ensures Sum(f, sessions, order) == Sum(f, sessions - {id}, Without(order, {id})) + f(sessions[id])
  {
    var tail := order[1..];
    assert NoDuplicates(tail);
    if order[0] == id {
      assert id !in tail;
      WithoutNothing(tail, {id});
      SumSameOn(f, sessions, sessions - {id}, tail);
    } else {
      assert id in tail;
      SumWithoutOne(f, sessions, tail, id);
      assert Without(order, {id})[1..] == Without(tail, {id});
    }
  }

  lemma {:induction false} SumSameOn(f: Session -> nat, a: map<Text, Session>, b: map<Text, Session>, order: seq<Text>)
    requires forall id :: id in order ==> (id in a <==> id in b) && (id in a ==> f(a[id]) == f(b[id]))
    ensures Sum(f, a, order) == Sum(f, b, order)
  {
    if order != [] {
      assert order[0] in order;
      assert forall id :: id in order[1..] ==> id in order;
      SumSameOn(f, a, b, order[1..]);
    }
  }

  lemma {:induction false} SumAppend(f: Session -> nat, sessions: map<Text, Session>, order: seq<Text>, id: Text)
    ensures Sum(f, sessions, order + [id]) == Sum(f, sessions, order) + (if id in sessions then f(sessions[id]) else 0)
  {
    if order == [] {
      assert order + [id] == [id];
    } else {
      assert (order + [id])[1..] == order[1..] + [id];
      SumAppend(f, sessions, order[1..], id);
    }
  }

  // ---------------------------------------------------------------- the invariant

  /** `offsets` is exactly the inverse of the candidate list. */
  ghost predicate OffsetsInvert(cs: seq<Tokenized>, offsets: map<Text, nat>) {
    && (forall i :: 0 <= i < |cs| ==> cs[i].token in offsets && offsets[cs[i].token] == i)
    && (forall t :: t in offsets ==> offsets[t] < |cs| && cs[offsets[t]].token == t)
  }

  /** An identifier made by the store: visible, and short enough to be sent back. */
  ghost predicate OwnIdentifier(t: Text) {
    0 < |t| <= MAX_TOKEN_BYTES && t[0] == 'b'
  }

  ghost predicate OwnTokens(cs: seq<Tokenized>) {
    forall i :: 0 <= i < |cs| ==> OwnIdentifier(cs[i].token)
  }

  ghost predicate SessionOk(id: Text, s: Session) {
    && s.view.id == id && OwnIdentifier(id)
    && 1 <= |s.candidates| <= MAX_CANDIDATES
    && OffsetsInvert(s.candidates, s.offsets) && OwnTokens(s.candidates)
    && (forall offset :: offset in s.pageTokens ==> 0 < offset < |s.candidates|)
  }

  /** A cursor and its session's page table point at each other. */
  ghost predicate CursorOk(st: Store, token: Text)
    requires token in st.cursors
  {
    var c := st.cursors[token];
    && |token| == PAGE_TOKEN_BYTES
    && c.sessionId in st.sessions
    && c.snapshotId == st.sessions[c.sessionId].snapshotId
    && c.offset in st.sessions[c.sessionId].pageTokens
    && st.sessions[c.sessionId].pageTokens[c.offset] == token
  }

  ghost predicate PageTokenOk(st: Store, id: Text, offset: nat)
    requires id in st.sessions && offset in st.sessions[id].pageTokens
  {
    var token := st.sessions[id].pageTokens[offset];
    token in st.cursors && st.cursors[token] == Cursor(id, st.sessions[id].snapshotId, offset)
  }

  ghost predicate Linked(st: Store) {
    && (forall token :: token in st.cursors ==> CursorOk(st, token))
    && (forall id, offset :: id in st.sessions && offset in st.sessions[id].pageTokens ==> PageTokenOk(st, id, offset))
  }

  ghost predicate Queued(st: Store) {
    NoDuplicates(st.order) && Elements(st.order) == st.sessions.Keys
  }

  ghost predicate ExactTotals(st: Store) {
    && st.totalCandidates == Sum(CandidateCount, st.sessions, st.order)
    && st.totalBytes == Sum(ReservedBytes, st.sessions, st.order)
  }

  ghost predicate WithinLimits(st: Store) {
    && |st.sessions| <= MAX_SESSIONS
    && st.totalCandidates <= MAX_TOTAL_CANDIDATES
    && st.totalBytes <= MAX_SNAPSHOT_BYTES
  }

  ghost predicate Valid(st: Store) {
    match st
    case Store(sessions, _, _, _, _) =>
      && Queued(st) && Linked(st) && ExactTotals(st) && WithinLimits(st)
      && (forall id :: id in sessions ==> SessionOk(id, sessions[id]))
  }

  /** Every live session was charged its full estimate. */
  ghost predicate Priced(p: Platform, st: Store) {
    forall id :: id in st.sessions ==>
      var s := st.sessions[id];
      s.estimatedBytes == SessionBytes(p, s.view, s.snapshotId, s.options, s.view.context, s.candidates)
  }

  // ---------------------------------------------------------------- removal

  /** The cursors that do not belong to the given sessions: what `retain` leaves. */
  function CursorsWithout(cursors: map<Text, Cursor>, gone: set<Text>): map<Text, Cursor> {
    map t | t in cursors && cursors[t].sessionId !in gone :: cursors[t]
  }

  /** The store without the given sessions: nothing else about it changes. */
  ghost function Restrict(st: Store, gone: set<Text>): Store {
    var sessions := st.sessions - gone;
    var order := Without(st.order, gone);
    Store(sessions, order,
          CursorsWithout(st.cursors, gone),
          Sum(CandidateCount, sessions, order), Sum(ReservedBytes, sessions, order))
  }

  lemma RestrictTwice(st: Store, a: set<Text>, b: set<Text>)
    ensures Restrict(Restrict(st, a), b) == Restrict(st, a + b)
  {
    WithoutTwice(st.order, a, b);
    assert (st.sessions - a) - b == st.sessions - (a + b);
    assert Restrict(Restrict(st, a), b).cursors == Restrict(st, a + b).cursors;
  }

  lemma RestrictNothing(st: Store, gone: set<Text>)
    requires Queued(st) && Linked(st) && ExactTotals(st) && gone !! st.sessions.Keys
    ensures Restrict(st, gone) == st
  {
    WithoutNothing(st.order, gone);
    assert st.sessions - gone == st.sessions;
    forall t | t in st.cursors ensures st.cursors[t].sessionId !in gone {
      assert CursorOk(st, t);
    }
    assert Restrict(st, gone).cursors == st.cursors;
  }

  lemma {:induction false} SumShrinks(f: Session -> nat, sessions: map<Text, Session>, order: seq<Text>,
                                      gone: set<Text>)
    ensures Sum(f, sessions - gone, Without(order, gone)) <= Sum(f, sessions, order)
  {
    if order != [] {
      SumShrinks(f, sessions, order[1..], gone);
      if order[0] !in gone {
        assert Without(order, gone)[1..] == Without(order[1..], gone);
      }
    }
  }

  lemma MapShrinks<K, V>(m: map<K, V>, gone: set<K>)
    ensures |m - gone| <= |m|
  {
    assert (m - gone).Keys == m.Keys - gone;
    SubsetSize(m.Keys - gone, m.Keys);
    assert |m - gone| == |(m - gone).Keys| && |m| == |m.Keys|;
  }

  /** Removing any set of sessions keeps the store valid. */
  lemma RestrictKeepsValid(st: Store, gone: set<Text>)
    requires Valid(st)
    ensures Valid(Restrict(st, gone))
  {
    var r := Restrict(st, gone);
    WithoutKeepsOrder(st.order, gone);
    SumShrinks(CandidateCount, st.sessions, st.order, gone);
    SumShrinks(ReservedBytes, st.sessions, st.order, gone);
    MapShrinks(st.sessions, gone);
    RestrictKeepsLinked(st, gone);
  }

  lemma RestrictKeepsLinked(st: Store, gone: set<Text>)
    requires Linked(st)
    ensures Linked(Restrict(st, gone))
  {
    var r := Restrict(st, gone);
    forall token | token in r.cursors ensures CursorOk(r, token) {
      assert CursorOk(st, token);
    }
    forall id, offset | id in r.sessions && offset in r.sessions[id].pageTokens ensures PageTokenOk(r, id, offset) {
      assert PageTokenOk(st, id, offset);
    }
  }

  /** What `remove_session` computes. */
  function RemoveSession(st: Store, id: Text): Store {
    if id !in st.sessions then st
    else
      Store(st.sessions - {id}, Without(st.order, {id}), CursorsWithout(st.cursors, {id}),
            SaturatingSub(st.totalCandidates, |st.sessions[id].candidates|),
            SaturatingSub(st.totalBytes, st.sessions[id].estimatedBytes))
  }

  /** In a valid store its subtractions never saturate: that session goes and nothing else. */
  lemma RemovalIsExact(st: Store, id: Text)
    requires Valid(st)
    ensures RemoveSession(st, id) == Restrict(st, {id})
  {
    if id in st.sessions {
      RemovalTotals(st, id);
    } else {
      RestrictNothing(st, {id});
    }
  }

  lemma RemovalTotals(st: Store, id: Text)
    requires Queued(st) && ExactTotals(st) && id in st.sessions
    ensures Restrict(st, {id}).totalCandidates == SaturatingSub(st.totalCandidates, |st.sessions[id].candidates|)
    ensures Restrict(st, {id}).totalBytes == SaturatingSub(st.totalBytes, st.sessions[id].estimatedBytes)
  {
    assert id in Elements(st.order);
    SumWithoutOne(CandidateCount, st.sessions, st.order, id);
    SumWithoutOne(ReservedBytes, st.sessions, st.order, id);
  }

  /** One more removal after the sessions in `gone`. */
  lemma RemoveNext(start: Store, gone: set<Text>, id: Text)
    requires Valid(start)
    ensures RemoveSession(Restrict(start, gone), id) == Restrict(start, gone + {id})
  {
    RestrictKeepsValid(start, gone);
    RemovalIsExact(Restrict(start, gone), id);
    RestrictTwice(start, gone, {id});
  }

  /** `prune`: exactly the expired sessions go. */
  function Expired(st: Store, now: nat): set<Text> {
    set id | id in st.sessions && st.sessions[id].expiresAt <= now
  }

  ghost function Pruned(st: Store, now: nat): Store {
    Restrict(st, Expired(st, now))
  }

  // ---------------------------------------------------------------- eviction

  /** `capacity_exceeded` */
  predicate Exceeded(st: Store, candidates: nat, bytes: nat) {
    || |st.sessions| >= MAX_SESSIONS
    || SaturatingAdd(st.totalCandidates, candidates) > MAX_TOTAL_CANDIDATES
    || SaturatingAdd(st.totalBytes, bytes) > MAX_SNAPSHOT_BYTES
  }

  /** The store after its `n` oldest sessions are gone. */
  ghost function WithoutOldest(st: Store, n: nat): Store
    requires n <= |st.order|
  {
    Restrict(st, Elements(st.order[..n]))
  }

  /** Is there still too little room after the `n` oldest sessions are gone? */
  ghost predicate Crowded(st: Store, candidates: nat, bytes: nat, n: nat) {
    n <= |st.order| && Exceeded(WithoutOldest(st, n), candidates, bytes)
  }

  /** `n` is the length of the shortest oldest-first prefix whose removal makes room. */
  ghost predicate ShortestEviction(st: Store, candidates: nat, bytes: nat, n: nat) {
    && n <= |st.order|
    && !Crowded(st, candidates, bytes, n)
    && forall m :: 0 <= m < n ==> Crowded(st, candidates, bytes, m)
  }

  lemma WithoutOldestQueue(st: Store, n: nat)
    requires Queued(st) && n <= |st.order|
    ensures WithoutOldest(st, n).order == st.order[n..]
  {
    WithoutPrefix(st.order, n);
  }

  /** An emptied store has room for any session that passed the size checks. */
  lemma EmptiedStoreHasRoom(st: Store, candidates: nat, bytes: nat)
    requires Queued(st) && candidates <= MAX_CANDIDATES && bytes <= MAX_SNAPSHOT_BYTES
    ensures !Crowded(st, candidates, bytes, |st.order|)
  {
    var all := st.order[..|st.order|];
    assert all == st.order;
    WithoutOldestQueue(st, |st.order|);
    assert st.sessions - Elements(all) == map[];
  }

  /** The oldest session is the next to go. */
  lemma EvictNext(start: Store, n: nat)
    requires Valid(start) && n < |start.order|
    ensures RemoveSession(WithoutOldest(start, n), start.order[n]) == WithoutOldest(start, n + 1)
  {
    RemoveNext(start, Elements(start.order[..n]), start.order[n]);
    ElementsNext(start.order, n);
  }

  lemma ElementsNext(order: seq<Text>, n: nat)
    requires n < |order|
    ensures Elements(order[..n + 1]) == Elements(order[..n]) + {order[n]}
  {
    assert order[..n + 1] == order[..n] + [order[n]];
  }

  /** The eviction count is determined: no other length is the shortest. */
  lemma ShortestEvictionUnique(st: Store, candidates: nat, bytes: nat, n: nat, m: nat)
    requires ShortestEviction(st, candidates, bytes, n) && ShortestEviction(st, candidates, bytes, m)
    ensures n == m
  {
  }

  /** There is room exactly when one more session, these candidates and these bytes keep the store within 32 sessions,
      50,000 candidates and 64 MiB. */
  lemma RoomMeaning(st: Store, candidates: nat, bytes: nat)
    requires Valid(st)
    ensures !Exceeded(st, candidates, bytes) <==>
              && |st.sessions| + 1 <= 32
              && Sum(CandidateCount, st.sessions, st.order) + candidates <= 50_000
              && Sum(ReservedBytes, st.sessions, st.order) + bytes <= 64 * 1024 * 1024
  {
  }
}
