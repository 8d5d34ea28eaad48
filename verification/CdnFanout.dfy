/** Range fan-out: spreading the chunks of one file over up to three healthy origins. */
module CdnFanout {
  import opened Prelude
  import opened CdnHealth
  import opened CdnHealthRuns
  import opened CdnRanking

  /** A URL that may serve a range: its origin is known, is not blocked and is not known to refuse ranges. */
  predicate Eligible(origins: Origins, h: History, digest: Option<Text>, now: nat, url: Text) {
    && origins(url).Some?
    && !Blocked(origins, h, digest, now, url)
    && !RefusesRanges(origins, h, digest, url)
  }

  predicate RefusesRanges(origins: Origins, h: History, digest: Option<Text>, url: Text) {
    var host, rep := HostOf(origins, h, url), RepresentationOf(origins, h, digest, url);
    (host.Some? && host.value.rangeSupported == Some(false)) || (rep.Some? && rep.value.rangeSupported == Some(false))
  }

  /** May serve a range, as the tables have it. */
  ghost predicate MayServeRange(origins: Origins, h: History, digest: Option<Text>, now: nat, url: Text) {
    && origins(url).Some? && !Blocked(origins, h, digest, now, url)
    && (HostKnown(origins, h, url) ==> HostEntry(origins, h, url).rangeSupported != Some(false))
    && (RepresentationKnown(origins, h, digest, url) ==>
          RepresentationEntry(origins, h, digest, url).rangeSupported != Some(false))
  }

  lemma EligibleMeaning(origins: Origins, h: History, digest: Option<Text>, now: nat, url: Text)
    ensures Eligible(origins, h, digest, now, url) <==> MayServeRange(origins, h, digest, now, url)
  {
  }

  // ---------------------------------------------------------------- selection

  ghost predicate InRange(positions: seq<nat>, n: nat) {
    forall i :: 0 <= i < |positions| ==> positions[i] < n
  }

  /** Positions of the first three origins, in order; `ok` is eligibility and `origin` the canonical origin. */
  function Selected(ranked: seq<Text>, origins: Origins, ok: Text -> bool, limit: nat): seq<nat>
    requires limit <= |ranked|
  {
    if limit == 0 then []
    else
      var s := Selected(ranked, origins, ok, limit - 1);
      if |s| < MAX_ORIGINS_PER_REPRESENTATION && ok(ranked[limit - 1])
         && NewOrigin(ranked, origins, s, ranked[limit - 1])
      then s + [limit - 1] else s
  }

  predicate NewOrigin(ranked: seq<Text>, origins: Origins, s: seq<nat>, url: Text) {
    forall m :: 0 <= m < |s| ==> s[m] < |ranked| && origins(ranked[s[m]]) != origins(url)
  }

  ghost predicate Chosen(ranked: seq<Text>, origins: Origins, ok: Text -> bool, limit: nat, s: seq<nat>) {
    && Increasing(s) && |s| <= 3
    && (forall m :: 0 <= m < |s| ==> s[m] < limit <= |ranked| && ok(ranked[s[m]]))
    && (forall m, n :: 0 <= m < n < |s| ==> origins(ranked[s[m]]) != origins(ranked[s[n]]))
  }

  /** Why an eligible position was not taken: three were found before, or its origin was. */
  ghost predicate PassedOver(ranked: seq<Text>, origins: Origins, s: seq<nat>, i: nat)
    requires i < |ranked|
  {
    || (|s| == 3 && s[2] < i)
    || exists m :: 0 <= m < |s| && s[m] < i && origins(ranked[s[m]]) == origins(ranked[i])
  }

  lemma {:induction false} SelectedIsChosen(ranked: seq<Text>, origins: Origins, ok: Text -> bool, limit: nat,
                                            s: seq<nat>)
    requires limit <= |ranked| && s == Selected(ranked, origins, ok, limit)
    ensures Chosen(ranked, origins, ok, limit, s)
  {
    if limit > 0 {
      SelectedIsChosen(ranked, origins, ok, limit - 1, Selected(ranked, origins, ok, limit - 1));
    }
  }

  lemma {:induction false} SelectedIsGreedy(ranked: seq<Text>, origins: Origins, ok: Text -> bool, limit: nat,
                                            s: seq<nat>, i: nat)
    requires i < limit <= |ranked| && s == Selected(ranked, origins, ok, limit) && ok(ranked[i]) && i !in s
    ensures PassedOver(ranked, origins, s, i)
  {
    var before := Selected(ranked, origins, ok, limit - 1);
    SelectedIsChosen(ranked, origins, ok, limit - 1, before);
    if i < limit - 1 {
      SelectedIsGreedy(ranked, origins, ok, limit - 1, before, i);
      PassedOverStays(ranked, origins, before, s, i);
    }
  }

  lemma PassedOverStays(ranked: seq<Text>, origins: Origins, before: seq<nat>, s: seq<nat>, i: nat)
    requires i < |ranked| && PassedOver(ranked, origins, before, i)
    requires s == before || (|before| < MAX_ORIGINS_PER_REPRESENTATION && |s| > 0 && s == before + [s[|s| - 1]])
    ensures PassedOver(ranked, origins, s, i)
  {
    if s != before {
      var m :| 0 <= m < |before| && before[m] < i && origins(ranked[before[m]]) == origins(ranked[i]);
      assert s[m] == before[m];
    }
  }

  /** The selection is greedy: eligible, distinct origins in rank order, and nothing eligible is passed over without
      cause. */
  lemma SelectedMeaning(ranked: seq<Text>, origins: Origins, ok: Text -> bool, limit: nat, s: seq<nat>)
    requires limit <= |ranked| && s == Selected(ranked, origins, ok, limit)
    ensures Chosen(ranked, origins, ok, limit, s)
    ensures forall i :: 0 <= i < limit && ok(ranked[i]) ==> i in s || PassedOver(ranked, origins, s, i)
  {
    SelectedIsChosen(ranked, origins, ok, limit, s);
    forall i | 0 <= i < limit && ok(ranked[i]) && i !in s ensures PassedOver(ranked, origins, s, i) {
      SelectedIsGreedy(ranked, origins, ok, limit, s, i);
    }
  }

  ghost function OriginsAt(ranked: seq<Text>, origins: Origins, s: seq<nat>): set<Option<Text>>
    requires InRange(s, |ranked|)
  {
    set m | 0 <= m < |s| :: origins(ranked[s[m]])
  }

  lemma OriginsAtAppended(ranked: seq<Text>, origins: Origins, s: seq<nat>, i: nat)
    requires InRange(s, |ranked|) && i < |ranked|
    ensures InRange(s + [i], |ranked|)
    ensures OriginsAt(ranked, origins, s + [i]) == OriginsAt(ranked, origins, s) + {origins(ranked[i])}
    ensures NewOrigin(ranked, origins, s, ranked[i]) <==> origins(ranked[i]) !in OriginsAt(ranked, origins, s)
  {
    var t := s + [i];
    assert t[|s|] == i && forall m :: 0 <= m < |s| ==> t[m] == s[m];
  }

  lemma SelectedNext(ranked: seq<Text>, origins: Origins, ok: Text -> bool, s: seq<nat>, i: nat,
                     seen: set<Option<Text>>)
    requires i < |ranked| && s == Selected(ranked, origins, ok, i) && |s| < MAX_ORIGINS_PER_REPRESENTATION
    requires InRange(s, |ranked|) && seen == OriginsAt(ranked, origins, s)
    ensures Selected(ranked, origins, ok, i + 1)
            == if ok(ranked[i]) && origins(ranked[i]) !in seen then s + [i] else s
    ensures InRange(s + [i], |ranked|) && OriginsAt(ranked, origins, s + [i]) == seen + {origins(ranked[i])}
  {
    OriginsAtAppended(ranked, origins, s, i);
  }

  /** The selection loop, with its set of seen origins and its early exit. */
  method Select(ranked: seq<Text>, origins: Origins, h: History, digest: Option<Text>, now: nat, ghost ok: Text -> bool)
    returns (selected: seq<nat>)
    requires forall u :: ok(u) == Eligible(origins, h, digest, now, u)
    ensures selected == Selected(ranked, origins, ok, |Head(ranked)|)
  {
    var seen: set<Option<Text>> := {};
    selected := [];
    for i := 0 to |Head(ranked)|
      invariant selected == Selected(ranked, origins, ok, i) && |selected| < MAX_ORIGINS_PER_REPRESENTATION
      invariant InRange(selected, |ranked|) && seen == OriginsAt(ranked, origins, selected)
    {
      SelectedNext(ranked, origins, ok, selected, i, seen);
      if Eligible(origins, h, digest, now, ranked[i]) && origins(ranked[i]) !in seen {
        seen := seen + {origins(ranked[i])};
        selected := selected + [i];
        if |selected| == MAX_ORIGINS_PER_REPRESENTATION {
          FullSelection(ranked, origins, ok, i + 1, |Head(ranked)|);
          break;
        }
      }
    }
  }

  lemma {:induction false} FullSelection(ranked: seq<Text>, origins: Origins, ok: Text -> bool, limit: nat, later: nat)
    requires limit <= later <= |ranked| && |Selected(ranked, origins, ok, limit)| == MAX_ORIGINS_PER_REPRESENTATION
    ensures Selected(ranked, origins, ok, later) == Selected(ranked, origins, ok, limit)
  {
    if limit < later {
      FullSelection(ranked, origins, ok, limit, later - 1);
    }
  }

  // ---------------------------------------------------------------- rearrangement

  /** The positions below `n` that were not selected, in order. */
  function Rest(n: nat, selected: seq<nat>): seq<nat> {
    if n == 0 then [] else if n - 1 in selected then Rest(n - 1, selected) else Rest(n - 1, selected) + [n - 1]
  }

  function Wrap(x: nat, k: nat): (r: nat)
    requires k > 0
    ensures r < k && (x < 2 * k ==> r == if x < k then x else x - k)
  {
    if k <= x < 2 * k then
      ModIs(x, k, 1, x - k);
      x % k
    else if x < k then
      ModIs(x, k, 0, x);
      x % k
    else x % k
  }

  lemma MulMono(a: nat, b: nat, k: nat)
    requires a <= b
    ensures a * k <= b * k
  {
  }

  lemma ModIs(x: nat, k: nat, q: nat, r: nat)
    requires k > 0 && r < k && x == q * k + r
    ensures x % k == r
  {
    var p := x / k;
    assert x == p * k + x % k;
    if p > q {
      MulMono(q + 1, p, k);
    } else if p < q {
      MulMono(p + 1, q, k);
    }
  }

  function Rotated(selected: seq<nat>, rotation: nat): (r: seq<nat>)
    ensures |r| == |selected|
    ensures forall o :: 0 <= o < |selected| ==> r[o] == selected[Wrap(rotation + o, |selected|)]
  {
    seq(|selected|, o requires 0 <= o < |selected| => selected[Wrap(rotation + o, |selected|)])
  }

  /** The order in which the ranked positions are returned. */
  function Order(n: nat, selected: seq<nat>, chunk: nat): seq<nat> {
    if |selected| < 2 then seq(n, i => i)
    else Rotated(selected, Wrap(chunk, |selected|)) + Rest(n, selected)
  }

  function Taken(ranked: seq<Text>, positions: seq<nat>): (urls: seq<Text>)
    requires forall i :: 0 <= i < |positions| ==> positions[i] < |ranked|
    ensures |urls| == |positions|
    ensures forall i :: 0 <= i < |positions| ==> urls[i] == ranked[positions[i]]
  {
    seq(|positions|, i requires 0 <= i < |positions| => ranked[positions[i]])
  }

  lemma {:induction false} RestMeaning(n: nat, selected: seq<nat>)
    ensures Increasing(Rest(n, selected)) && InRange(Rest(n, selected), n)
    ensures forall i :: i in Rest(n, selected) <==> 0 <= i < n && i !in selected
  {
    if n > 0 {
      RestMeaning(n - 1, selected);
    }
  }

  lemma LastIsGreatest(n: nat, selected: seq<nat>)
    requires Increasing(selected) && InRange(selected, n) && n > 0 && n - 1 in selected
    ensures selected != [] && selected[|selected| - 1] == n - 1
    ensures InRange(selected[..|selected| - 1], n - 1)
    ensures forall i :: 0 <= i < n - 1 ==> (i in selected <==> i in selected[..|selected| - 1])
  {
    assert selected == selected[..|selected| - 1] + [selected[|selected| - 1]];
  }

  /** How many positions are left. */
  lemma {:induction false} RestSize(n: nat, selected: seq<nat>)
    requires Increasing(selected) && InRange(selected, n)
    ensures |Rest(n, selected)| == n - |selected|
  {
    if n > 0 {
      if n - 1 in selected {
        LastIsGreatest(n, selected);
        var fewer := selected[..|selected| - 1];
        RestSize(n - 1, fewer);
        RestIgnores(n - 1, selected, fewer);
      } else {
        RestSize(n - 1, selected);
      }
    }
  }

  lemma {:induction false} RestIgnores(n: nat, a: seq<nat>, b: seq<nat>)
    requires forall i :: 0 <= i < n ==> (i in a <==> i in b)
    ensures Rest(n, a) == Rest(n, b)
  {
    if n > 0 {
      RestIgnores(n - 1, a, b);
    }
  }

  /** Beyond the last selected position, everything stays where it was. */
  lemma {:induction false} RestTail(n: nat, selected: seq<nat>, bound: nat, i: nat)
    requires Increasing(selected) && InRange(selected, bound) && bound <= i < n
    ensures |Rest(n, selected)| == n - |selected| && |selected| <= bound
    ensures Rest(n, selected)[i - |selected|] == i
  {
    RestSize(bound, selected);
    RestSize(n, selected);
    if i < n - 1 {
      RestTail(n - 1, selected, bound, i);
    } else {
      RestSize(n - 1, selected);
    }
  }

  /** Each position occurs exactly once in the new order. */
  lemma OrderPermutes(n: nat, selected: seq<nat>, chunk: nat)
    requires Increasing(selected) && InRange(selected, n)
    ensures NoDuplicates(Order(n, selected, chunk)) && |Order(n, selected, chunk)| == n
    ensures forall i :: i in Order(n, selected, chunk) <==> 0 <= i < n
  {
    if |selected| < 2 {
      var identity := Order(n, selected, chunk);
      forall i | 0 <= i < n ensures i in identity {
        assert identity[i] == i;
      }
    } else {
      RestMeaning(n, selected);
      RestSize(n, selected);
      RotationPermutes(selected, Wrap(chunk, |selected|));
      Concatenated(Rotated(selected, Wrap(chunk, |selected|)), Rest(n, selected));
    }
  }

  lemma Concatenated(a: seq<nat>, b: seq<nat>)
    requires NoDuplicates(a) && Increasing(b) && forall i :: i in b ==> i !in a
    ensures NoDuplicates(a + b) && forall i :: i in a + b <==> i in a || i in b
  {
    var c := a + b;
    forall i, j | 0 <= i < j < |c| ensures c[i] != c[j] {
      if i < |a| <= j {
        assert c[i] in a && c[j] in b;
      }
    }
  }

  lemma RotationPermutes(selected: seq<nat>, rotation: nat)
    requires Increasing(selected) && rotation < |selected|
    ensures NoDuplicates(Rotated(selected, rotation))
    ensures forall i :: i in Rotated(selected, rotation) <==> i in selected
  {
    var k, r := |selected|, Rotated(selected, rotation);
    forall a, b | 0 <= a < b < k ensures r[a] != r[b] {
      assert Wrap(rotation + a, k) != Wrap(rotation + b, k);
    }
    forall m | 0 <= m < k ensures selected[m] in r {
      assert r[if rotation <= m then m - rotation else m - rotation + k] == selected[m];
    }
  }

  // ---------------------------------------------------------------- the result

  /** `rank_request_for_range_at` after the ordinary ranking. */
  ghost function FanOut(ranked: seq<Text>, origins: Origins, ok: Text -> bool, chunk: nat): (urls: seq<Text>)
    ensures var s := Selected(ranked, origins, ok, |Head(ranked)|);
            InRange(Order(|ranked|, s, chunk), |ranked|) && urls == Taken(ranked, Order(|ranked|, s, chunk))
  {
    var s := Selected(ranked, origins, ok, |Head(ranked)|);
    SelectedIsChosen(ranked, origins, ok, |Head(ranked)|, s);
    OrderPermutes(|ranked|, s, chunk);
    assert forall i :: 0 <= i < |Order(|ranked|, s, chunk)| ==>
           Order(|ranked|, s, chunk)[i] in Order(|ranked|, s, chunk);
    Taken(ranked, Order(|ranked|, s, chunk))
  }

  ghost predicate Permutation(positions: seq<nat>, n: nat) {
    NoDuplicates(positions) && |positions| == n && forall i :: i in positions <==> 0 <= i < n
  }

  lemma PermutationInRange(positions: seq<nat>, n: nat)
    requires Permutation(positions, n)
    ensures InRange(positions, n)
  {
    assert forall i :: 0 <= i < |positions| ==> positions[i] in positions;
  }

  lemma {:induction false} TakenMultiset(ranked: seq<Text>, positions: seq<nat>)
    requires Permutation(positions, |ranked|)
    ensures InRange(positions, |ranked|)
    ensures multiset(Taken(ranked, positions)) == multiset(ranked)
  {
    PermutationInRange(positions, |ranked|);
    if ranked != [] {
      var n := |ranked| - 1;
      var j := LastRemoved(positions, n);
      var fewer := positions[..j] + positions[j + 1..];
      TakenMultiset(ranked[..n], fewer);
      TakenRemoved(ranked, positions, j, fewer);
      assert ranked == ranked[..n] + [ranked[n]];
    }
  }

  lemma LastRemoved(positions: seq<nat>, n: nat) returns (j: nat)
    requires Permutation(positions, n + 1)
    ensures j < |positions| && positions[j] == n && Permutation(positions[..j] + positions[j + 1..], n)
  {
    assert n in positions;
    j :| 0 <= j < |positions| && positions[j] == n;
    RemovedOne(positions, j);
  }

  lemma TakenRemoved(ranked: seq<Text>, positions: seq<nat>, j: nat, fewer: seq<nat>)
    requires ranked != [] && InRange(positions, |ranked|) && j < |positions| && positions[j] == |ranked| - 1
    requires fewer == positions[..j] + positions[j + 1..] && InRange(fewer, |ranked| - 1)
    ensures multiset(Taken(ranked, positions))
            == multiset(Taken(ranked[..|ranked| - 1], fewer)) + multiset{ranked[|ranked| - 1]}
  {
    var t, f := Taken(ranked, positions), Taken(ranked[..|ranked| - 1], fewer);
    assert f == t[..j] + t[j + 1..];
    assert t == t[..j] + [t[j]] + t[j + 1..];
  }

  lemma RemovedOne(positions: seq<nat>, j: nat)
    requires NoDuplicates(positions) && j < |positions|
    ensures var fewer := positions[..j] + positions[j + 1..];
            NoDuplicates(fewer) && forall i :: i in fewer <==> i in positions && i != positions[j]
  {
    var fewer := positions[..j] + positions[j + 1..];
    forall i | i in positions && i != positions[j] ensures i in fewer {
      var m :| 0 <= m < |positions| && positions[m] == i;
      assert fewer[if m < j then m else m - 1] == i;
    }
  }

  /** Fan-out only rearranges the ranking. */
  lemma FanOutPermutes(ranked: seq<Text>, origins: Origins, ok: Text -> bool, chunk: nat)
    ensures multiset(FanOut(ranked, origins, ok, chunk)) == multiset(ranked)
  {
    var s := Selected(ranked, origins, ok, |Head(ranked)|);
    SelectedIsChosen(ranked, origins, ok, |Head(ranked)|, s);
    OrderPermutes(|ranked|, s, chunk);
    TakenMultiset(ranked, Order(|ranked|, s, chunk));
  }

  /** Nothing moves when fewer than two origins are eligible; otherwise the first `k` URLs are eligible and of different
      origins, the others keep their order, and positions from 32 on are unchanged. */
  lemma FanOutMeaning(ranked: seq<Text>, origins: Origins, ok: Text -> bool, chunk: nat, s: seq<nat>, urls: seq<Text>)
    requires s == Selected(ranked, origins, ok, |Head(ranked)|) && urls == FanOut(ranked, origins, ok, chunk)
    ensures |s| < 2 ==> urls == ranked
    ensures |s| <= |urls| == |ranked|
    ensures |s| >= 2 ==> forall i :: 0 <= i < |s| ==> ok(urls[i])
    ensures |s| >= 2 ==> forall i, j :: 0 <= i < j < |s| ==> origins(urls[i]) != origins(urls[j])
    ensures |s| >= 2 ==> InRange(Rest(|ranked|, s), |ranked|) && urls[|s|..] == Taken(ranked, Rest(|ranked|, s))
    ensures forall i :: MAX_CANDIDATES <= i < |ranked| ==> urls[i] == ranked[i]
  {
    if |s| < 2 {
      assert urls == ranked;
    } else {
      OthersKeepOrder(ranked, origins, ok, chunk, s, urls);
      FirstAreSelected(ranked, origins, ok, chunk, s, urls);
      SelectedIsChosen(ranked, origins, ok, |Head(ranked)|, s);
      forall i | MAX_CANDIDATES <= i < |ranked| ensures urls[i] == ranked[i] {
        RestTail(|ranked|, s, MAX_CANDIDATES, i);
        assert urls[i] == urls[|s|..][i - |s|];
      }
    }
  }

  lemma OthersKeepOrder(ranked: seq<Text>, origins: Origins, ok: Text -> bool, chunk: nat, s: seq<nat>, urls: seq<Text>)
    requires s == Selected(ranked, origins, ok, |Head(ranked)|) && urls == FanOut(ranked, origins, ok, chunk)
             && |s| >= 2
    ensures |s| <= |urls| == |ranked|
    ensures InRange(Rest(|ranked|, s), |ranked|) && urls[|s|..] == Taken(ranked, Rest(|ranked|, s))
  {
    SelectedIsChosen(ranked, origins, ok, |Head(ranked)|, s);
    RestMeaning(|ranked|, s);
    RestSize(|ranked|, s);
    TakenRest(ranked, Rotated(s, Wrap(chunk, |s|)), Rest(|ranked|, s), urls);
  }

  lemma TakenRest(ranked: seq<Text>, first: seq<nat>, rest: seq<nat>, urls: seq<Text>)
    requires InRange(rest, |ranked|) && InRange(first + rest, |ranked|) && urls == Taken(ranked, first + rest)
    ensures urls[|first|..] == Taken(ranked, rest)
  {
  }

  lemma FirstAre(ranked: seq<Text>, origins: Origins, ok: Text -> bool, chunk: nat, s: seq<nat>, urls: seq<Text>)
    requires s == Selected(ranked, origins, ok, |Head(ranked)|) && urls == FanOut(ranked, origins, ok, chunk)
             && |s| >= 2
    ensures |s| <= |urls| && InRange(s, |ranked|)
    ensures forall i :: 0 <= i < |s| ==> urls[i] == ranked[s[Wrap(Wrap(chunk, |s|) + i, |s|)]]
  {
    SelectedIsChosen(ranked, origins, ok, |Head(ranked)|, s);
    forall i | 0 <= i < |s| ensures urls[i] == ranked[s[Wrap(Wrap(chunk, |s|) + i, |s|)]] {
      assert Order(|ranked|, s, chunk)[i] == Rotated(s, Wrap(chunk, |s|))[i];
    }
  }

  lemma FirstAreSelected(ranked: seq<Text>, origins: Origins, ok: Text -> bool, chunk: nat, s: seq<nat>,
                         urls: seq<Text>)
    requires s == Selected(ranked, origins, ok, |Head(ranked)|) && urls == FanOut(ranked, origins, ok, chunk)
             && |s| >= 2
    ensures |s| <= |urls|
    ensures forall i :: 0 <= i < |s| ==> ok(urls[i])
    ensures forall i, j :: 0 <= i < j < |s| ==> origins(urls[i]) != origins(urls[j])
  {
    var k, r := |s|, Wrap(chunk, |s|);
    SelectedIsChosen(ranked, origins, ok, |Head(ranked)|, s);
    FirstAre(ranked, origins, ok, chunk, s, urls);
    forall i, j | 0 <= i < j < k ensures origins(urls[i]) != origins(urls[j]) {
      assert Wrap(r + i, k) != Wrap(r + j, k);
    }
  }

  // ---------------------------------------------------------------- consecutive chunks

  /** The URL that leads chunk `c` is the selected one at position `c` modulo their number. */
  lemma LeaderOf(ranked: seq<Text>, origins: Origins, ok: Text -> bool, chunk: nat, s: seq<nat>)
    requires s == Selected(ranked, origins, ok, |Head(ranked)|) && |s| >= 2
    ensures InRange(s, |ranked|) && FanOut(ranked, origins, ok, chunk) != []
    ensures FanOut(ranked, origins, ok, chunk)[0] == ranked[s[chunk % |s|]]
  {
    FirstAre(ranked, origins, ok, chunk, s, FanOut(ranked, origins, ok, chunk));
    assert Wrap(Wrap(chunk, |s|) + 0, |s|) == chunk % |s|;
  }

  lemma ResidueOnce(first: nat, k: nat, m: nat) returns (c: nat)
    requires m < k
    ensures first <= c < first + k && c % k == m
    ensures forall d :: first <= d < first + k && d % k == m ==> d == c
  {
    var r := first % k;
    c := if r <= m then first + (m - r) else first + (m - r + k);
    ModOffset(first, k, c - first);
    forall d | first <= d < first + k && d % k == m ensures d == c {
      ModOffset(first, k, d - first);
    }
  }

  lemma ModOffset(first: nat, k: nat, o: nat)
    requires o < k
    ensures (first + o) % k == if first % k + o < k then first % k + o else first % k + o - k
  {
    var q, r := first / k, first % k;
    assert first == q * k + r;
    if r + o < k {
      ModIs(first + o, k, q, r + o);
    } else {
      assert first + o == (q + 1) * k + (r + o - k);
      ModIs(first + o, k, q + 1, r + o - k);
    }
  }

  /** Over any `k` consecutive chunks each selected URL leads exactly once. */
  lemma EachLeadsOnce(ranked: seq<Text>, origins: Origins, ok: Text -> bool, first: nat, s: seq<nat>, m: nat)
    returns (c: nat)
    requires s == Selected(ranked, origins, ok, |Head(ranked)|) && |s| >= 2 && m < |s|
    ensures InRange(s, |ranked|) && first <= c < first + |s|
    ensures forall d :: 0 <= d ==> FanOut(ranked, origins, ok, d) != []
    ensures forall d :: first <= d < first + |s| ==> (FanOut(ranked, origins, ok, d)[0] == ranked[s[m]] <==> d == c)
  {
    c := ResidueOnce(first, |s|, m);
    SelectedIsChosen(ranked, origins, ok, |Head(ranked)|, s);
    forall d | 0 <= d ensures FanOut(ranked, origins, ok, d) != [] {
      LeaderOf(ranked, origins, ok, d, s);
    }
    forall d | first <= d < first + |s| ensures FanOut(ranked, origins, ok, d)[0] == ranked[s[m]] <==> d == c {
      LeaderOf(ranked, origins, ok, d, s);
      var n := d % |s|;
      assert n != m ==> origins(ranked[s[n]]) != origins(ranked[s[m]]);
    }
  }

  /** A range request answers with every candidate once, whatever the tables seen under the two locks. */
  lemma RangeRequestPermutes(origins: Origins, first: History, second: History, digest: Option<Text>, now: nat,
                             urls: seq<Text>, chunk: nat)
    ensures var ranked := Ranking(origins, first, digest, now, Distinct(urls));
            multiset(FanOut(ranked, origins, u => Eligible(origins, second, digest, now, u), chunk))
                == multiset(Distinct(urls))
  {
    var ranked := Ranking(origins, first, digest, now, Distinct(urls));
    RankingPermutes(origins, first, digest, now, Distinct(urls));
    FanOutPermutes(ranked, origins, u => Eligible(origins, second, digest, now, u), chunk);
  }

  /** The first `k` URLs may serve ranges and are of different origins. */
  ghost predicate GoodLeaders(origins: Origins, h: History, digest: Option<Text>, now: nat, answer: seq<Text>, k: nat) {
    && k <= |answer|
    && (forall i :: 0 <= i < k ==> MayServeRange(origins, h, digest, now, answer[i]))
    && forall i, j :: 0 <= i < j < k ==> origins(answer[i]) != origins(answer[j])
  }

  lemma EligibleLeaders(origins: Origins, h: History, digest: Option<Text>, now: nat, ok: Text -> bool,
                        answer: seq<Text>, k: nat)
    requires forall u :: ok(u) == Eligible(origins, h, digest, now, u)
    requires k <= |answer| && forall i :: 0 <= i < k ==> ok(answer[i])
    requires forall i, j :: 0 <= i < j < k ==> origins(answer[i]) != origins(answer[j])
    ensures GoodLeaders(origins, h, digest, now, answer, k)
  {
    forall i | 0 <= i < k ensures MayServeRange(origins, h, digest, now, answer[i]) {
      assert ok(answer[i]);
      EligibleMeaning(origins, h, digest, now, answer[i]);
    }
  }

  lemma WrapTwice(chunk: nat, k: nat, i: nat)
    requires i < k
    ensures Wrap(Wrap(chunk, k) + i, k) == (chunk + i) % k
  {
    ModOffset(chunk, k, i);
  }

  lemma LeaderAt(ranked: seq<Text>, origins: Origins, ok: Text -> bool, chunk: nat, s: seq<nat>, urls: seq<Text>,
                 i: nat, m: nat)
    requires s == Selected(ranked, origins, ok, |Head(ranked)|) && urls == FanOut(ranked, origins, ok, chunk)
    requires |s| >= 2 && i < |s| && m == Wrap(Wrap(chunk, |s|) + i, |s|)
    ensures InRange(s, |ranked|) && i < |urls| && urls[i] == ranked[s[m]]
  {
    FirstAre(ranked, origins, ok, chunk, s, urls);
  }

  /** The selected URLs lead in turn, starting with the one at the chunk index modulo their number. */
  lemma LeadersAre(ranked: seq<Text>, origins: Origins, ok: Text -> bool, chunk: nat, s: seq<nat>, urls: seq<Text>,
                   i: nat, m: nat)
    requires s == Selected(ranked, origins, ok, |Head(ranked)|) && urls == FanOut(ranked, origins, ok, chunk)
    requires |s| >= 2 && i < |s| && m == (chunk + i) % |s|
    ensures InRange(s, |ranked|) && i < |urls| && urls[i] == ranked[s[m]]
  {
    WrapTwice(chunk, |s|, i);
    LeaderAt(ranked, origins, ok, chunk, s, urls, i, m);
  }

  /** The URLs that lead a range request are not cooling, quarantined or known to refuse ranges, and are of different
      origins; with fewer than two such origins the ranking is returned as it is. */
  lemma RangeRequestLeaders(origins: Origins, first: History, second: History, digest: Option<Text>, now: nat,
                            urls: seq<Text>, chunk: nat, ok: Text -> bool, ranked: seq<Text>, s: seq<nat>)
    requires forall u :: ok(u) == Eligible(origins, second, digest, now, u)
    requires ranked == Ranking(origins, first, digest, now, Distinct(urls))
    requires s == Selected(ranked, origins, ok, |Head(ranked)|)
    ensures |s| < 2 ==> FanOut(ranked, origins, ok, chunk) == ranked
    ensures |s| >= 2 ==> GoodLeaders(origins, second, digest, now, FanOut(ranked, origins, ok, chunk), |s|)
  {
    FanOutMeaning(ranked, origins, ok, chunk, s, FanOut(ranked, origins, ok, chunk));
    if |s| >= 2 {
      EligibleLeaders(origins, second, digest, now, ok, FanOut(ranked, origins, ok, chunk), |s|);
    }
  }

  /** Positions from 32 on hold the candidates they held in the request. */
  lemma RangeRequestTail(origins: Origins, first: History, digest: Option<Text>, now: nat, urls: seq<Text>, chunk: nat,
                         ok: Text -> bool, ranked: seq<Text>, i: nat)
    requires ranked == Ranking(origins, first, digest, now, Distinct(urls)) && MAX_CANDIDATES <= i < |Distinct(urls)|
    ensures |FanOut(ranked, origins, ok, chunk)| == |Distinct(urls)|
    ensures FanOut(ranked, origins, ok, chunk)[i] == Distinct(urls)[i]
  {
    RankingPermutes(origins, first, digest, now, Distinct(urls));
    FanOutMeaning(ranked, origins, ok, chunk, Selected(ranked, origins, ok, |Head(ranked)|),
                  FanOut(ranked, origins, ok, chunk));
    assert Tail(ranked)[i - MAX_CANDIDATES] == Tail(Distinct(urls))[i - MAX_CANDIDATES];
  }

  /** Over as many consecutive chunks as there are such leaders, each leads exactly once, whatever else the tables
      hold. */
  lemma RangeRequestsTakeTurns(origins: Origins, first: History, second: History, digest: Option<Text>, now: nat,
                               urls: seq<Text>, start: nat, ok: Text -> bool, ranked: seq<Text>, s: seq<nat>, m: nat)
    returns (c: nat)
    requires forall u :: ok(u) == Eligible(origins, second, digest, now, u)
    requires ranked == Ranking(origins, first, digest, now, Distinct(urls))
    requires s == Selected(ranked, origins, ok, |Head(ranked)|) && |s| >= 2 && m < |s|
    ensures InRange(s, |ranked|) && start <= c < start + |s| && Eligible(origins, second, digest, now, ranked[s[m]])
    ensures forall d :: 0 <= d ==> FanOut(ranked, origins, ok, d) != []
    ensures forall d :: start <= d < start + |s| ==> (FanOut(ranked, origins, ok, d)[0] == ranked[s[m]] <==> d == c)
  {
    SelectedIsChosen(ranked, origins, ok, |Head(ranked)|, s);
    c := EachLeadsOnce(ranked, origins, ok, start, s, m);
  }

  // ---------------------------------------------------------------- the loops

  /** The unselected URLs, filtered in order. */
  method Others(ranked: seq<Text>, selected: seq<nat>) returns (urls: seq<Text>)
    requires InRange(selected, |ranked|)
    ensures InRange(Rest(|ranked|, selected), |ranked|) && urls == Taken(ranked, Rest(|ranked|, selected))
  {
    urls := [];
    RestMeaning(0, selected);
    for i := 0 to |ranked|
      invariant InRange(Rest(i, selected), i) && urls == Taken(ranked, Rest(i, selected))
    {
      RestMeaning(i + 1, selected);
      if i !in selected {
        urls := urls + [ranked[i]];
      }
    }
  }

  method Lead(ranked: seq<Text>, selected: seq<nat>, rotation: nat) returns (urls: seq<Text>)
    requires InRange(selected, |ranked|) && rotation < |selected|
    ensures InRange(Rotated(selected, rotation), |ranked|) && urls == Taken(ranked, Rotated(selected, rotation))
  {
    urls := [];
    for offset := 0 to |selected|
      invariant |urls| == offset
      invariant forall i :: 0 <= i < offset ==> urls[i] == ranked[selected[Wrap(rotation + i, |selected|)]]
    {
      urls := urls + [ranked[selected[Wrap(rotation + offset, |selected|)]]];
    }
  }

  /** The second half of `rank_request_for_range_at`; `h` is the table as pruned under the second lock. */
  method FanOutRanked(ranked: seq<Text>, origins: Origins, h: History, digest: Option<Text>, now: nat, chunk: nat,
                      ghost ok: Text -> bool)
    returns (urls: seq<Text>)
    requires forall u :: ok(u) == Eligible(origins, h, digest, now, u)
    ensures urls == FanOut(ranked, origins, ok, chunk)
  {
    var selected := Select(ranked, origins, h, digest, now, ok);
    if |selected| < 2 {
      return ranked;
    }
    SelectedIsChosen(ranked, origins, ok, |Head(ranked)|, selected);
    var lead := Lead(ranked, selected, Wrap(chunk, |selected|));
    var others := Others(ranked, selected);
    return lead + others;
  }
}
