/** Ranking the URLs of a media request by the health table. */
module CdnRanking {
  import opened Prelude
  import opened Ordering
  import opened CdnHealth
  import opened CdnHealthRuns
  import opened CdnHealthTable

  const MAX_CANDIDATES: nat := 32

  // ---------------------------------------------------------------- candidates

  /** The list with only the first occurrence of each URL. */
  function Distinct(urls: seq<Text>): seq<Text> {
    if urls == [] then []
    else
      var d := Distinct(urls[..|urls| - 1]);
      if urls[|urls| - 1] in d then d else d + [urls[|urls| - 1]]
  }

  /** `request_candidates` */
  method RequestCandidates(url: Text, backups: seq<Text>) returns (candidates: seq<Text>)
    ensures candidates == Distinct([url] + backups)
    ensures candidates != [] && candidates[0] == url
  {
    var urls := [url] + backups;
    var seen: set<Text> := {};
    candidates := [];
    for i := 0 to |urls|
      invariant candidates == Distinct(urls[..i]) && seen == Elements(candidates)
      invariant i > 0 ==> candidates != [] && candidates[0] == url
    {
      assert urls[..i + 1][..i] == urls[..i];
      if urls[i] !in seen {
        assert Elements(candidates + [urls[i]]) == Elements(candidates) + {urls[i]};
        seen, candidates := seen + {urls[i]}, candidates + [urls[i]];
      }
    }
    assert urls[..|urls|] == urls;
  }

  ghost predicate Increasing(s: seq<nat>) {
    forall i, j :: 0 <= i < j < |s| ==> s[i] < s[j]
  }

  /** Where the kept URLs stood. */
  function FirstPositions(urls: seq<Text>): seq<nat> {
    if urls == [] then []
    else
      var p := FirstPositions(urls[..|urls| - 1]);
      if urls[|urls| - 1] in Distinct(urls[..|urls| - 1]) then p else p + [|urls| - 1]
  }

  /** Every URL is kept once, at its first position, in the original order. */
  lemma {:induction false} DistinctMeaning(urls: seq<Text>)
    ensures NoDuplicates(Distinct(urls)) && Elements(Distinct(urls)) == Elements(urls)
    ensures var p := FirstPositions(urls);
            && |p| == |Distinct(urls)| && Increasing(p)
            && (forall m :: 0 <= m < |p| ==> p[m] < |urls| && Distinct(urls)[m] == urls[p[m]])
            && (forall m :: 0 <= m < |p| ==> urls[p[m]] !in urls[..p[m]])
  {
    if urls != [] {
      var front, last := urls[..|urls| - 1], urls[|urls| - 1];
      DistinctMeaning(front);
      assert urls == front + [last];
      assert Elements(urls) == Elements(front) + {last};
      assert last in Distinct(front) <==> last in Elements(front);
      assert Elements(Distinct(front) + [last]) == Elements(Distinct(front)) + {last};
      forall m | 0 <= m < |FirstPositions(front)| ensures urls[..FirstPositions(front)[m]]
          == front[..FirstPositions(front)[m]] {
      }
    }
  }

  // ---------------------------------------------------------------- keys

  predicate Ahead(until: Option<nat>, now: nat) {
    until.Some? && now < until.value
  }

  function HostOf(origins: Origins, h: History, url: Text): Option<HostRecord> {
    if origins(url).Some? && origins(url).value in h.hosts then Some(h.hosts[origins(url).value]) else None
  }

  function RepresentationOf(origins: Origins, h: History, digest: Option<Text>,
                            url: Text): Option<RepresentationRecord> {
    if digest.Some? && origins(url).Some? && MapKey(digest.value, origins(url).value) in h.representations
    then Some(h.representations[MapKey(digest.value, origins(url).value)]) else None
  }

  predicate Quarantined(rep: Option<RepresentationRecord>, now: nat) {
    rep.Some? && Ahead(rep.value.quarantinedUntil, now)
  }

  predicate Cooling(rep: Option<RepresentationRecord>, host: Option<HostRecord>, now: nat) {
    (rep.Some? && Ahead(rep.value.cooldownUntil, now)) || (host.Some? && Ahead(host.value.cooldownUntil, now))
  }

  predicate HostFailed(host: Option<HostRecord>) {
    host.Some? && !host.value.latest.Success?
  }

  /** Two for a blocked URL, zero for a known healthy one, one for the rest. */
  function Tier(rep: Option<RepresentationRecord>, host: Option<HostRecord>, now: nat): nat {
    if Quarantined(rep, now) || Cooling(rep, host, now) then 2
    else if rep.Some? && rep.value.latest.Success? && !HostFailed(host) then 0
    else if rep.None? && host.Some? && host.value.latest.Success? then 0
    else 1
  }

  function Metrics(rep: Option<RepresentationRecord>, host: Option<HostRecord>): (Option<nat>, Option<nat>) {
    if rep.Some? && rep.value.latest.Success? && !HostFailed(host) then (rep.value.throughput, rep.value.latency)
    else if host.Some? && host.value.latest.Success? then (host.value.throughput, host.value.latency)
    else (None, None)
  }

  function Recent(rep: Option<RepresentationRecord>, host: Option<HostRecord>, now: nat): (nat, nat) {
    if rep.Some? && rep.value.latest.Success? && !HostFailed(host) && !Cooling(rep, host, now) && !Quarantined(rep, now)
    then (rep.value.updatedAt, rep.value.eventSequence) else (0, 0)
  }

  datatype Entry = Entry(tier: nat, throughput: Option<nat>, latency: Option<nat>, recent: (nat, nat), index: nat,
      url: Text)

  function EntryOf(origins: Origins, h: History, digest: Option<Text>, now: nat, url: Text, index: nat): Entry {
    var rep := RepresentationOf(origins, h, digest, url);
    var host := HostOf(origins, h, url);
    Entry(Tier(rep, host, now), Metrics(rep, host).0, Metrics(rep, host).1, Recent(rep, host, now), index, url)
  }

  // ---------------------------------------------------------------- the comparator

  datatype Comparison = Less | Equal | Greater

  function Compare(a: nat, b: nat): Comparison {
    if a < b then Less else if a == b then Equal else Greater
  }

  function Reversed(c: Comparison): Comparison {
    match c case Less => Greater case Equal => Equal case Greater => Less
  }

  function Then(c: Comparison, d: Comparison): Comparison {
    if c.Equal? then d else c
  }

  /** A known value comes before an unknown one. */
  function KnownFirst(a: Option<nat>, b: Option<nat>, known: (nat, nat) -> Comparison): Comparison {
    match (a, b)
    case (Some(x), Some(y)) => known(x, y)
    case (Some(_), None) => Less
    case (None, Some(_)) => Greater
    case (None, None) => Equal
  }

  /** Lower tier, higher throughput, lower latency, more recent success, earlier in the request. */
  function CompareEntries(l: Entry, r: Entry): Comparison {
    Then(Compare(l.tier, r.tier),
      Then(KnownFirst(l.throughput, r.throughput, (x: nat, y: nat) => Compare(y, x)),
        Then(KnownFirst(l.latency, r.latency, (x: nat, y: nat) => Compare(x, y)),
          Then(Then(Compare(r.recent.0, l.recent.0), Compare(r.recent.1, l.recent.1)),
            Compare(l.index, r.index)))))
  }

  predicate EntryBefore(l: Entry, r: Entry) {
    CompareEntries(l, r).Less?
  }

  lemma CompareFlips(l: Entry, r: Entry)
    ensures CompareEntries(r, l) == Reversed(CompareEntries(l, r))
    ensures CompareEntries(l, r).Equal? ==> l.index == r.index
  {
  }

  lemma CompareTransitive(a: Entry, b: Entry, c: Entry)
    requires EntryBefore(a, b) && EntryBefore(b, c)
    ensures EntryBefore(a, c)
  {
  }

  /** A known value beats an unknown one. */
  predicate Beats(a: Option<nat>, b: Option<nat>, larger: bool) {
    a.Some? && (b.None? || (if larger then a.value > b.value else a.value < b.value))
  }

  /** What the comparator promises, criterion by criterion. */
  predicate Preferred(l: Entry, r: Entry) {
    || l.tier < r.tier
    || (l.tier == r.tier && Beats(l.throughput, r.throughput, true))
    || (l.tier == r.tier && l.throughput == r.throughput && Beats(l.latency, r.latency, false))
    || (l.tier == r.tier && l.throughput == r.throughput && l.latency == r.latency && RankLess(r.recent, l.recent))
    || (l.(url := r.url, index := r.index) == r && l.index < r.index)
  }

  lemma ComparatorMeaning(l: Entry, r: Entry)
    ensures EntryBefore(l, r) <==> Preferred(l, r)
  {
    assert l.recent == (l.recent.0, l.recent.1) && r.recent == (r.recent.0, r.recent.1);
  }

  // ---------------------------------------------------------------- ranking

  function Entries(origins: Origins, h: History, digest: Option<Text>, now: nat, urls: seq<Text>): (es: seq<Entry>)
    ensures |es| == |urls|
    ensures forall i :: 0 <= i < |urls| ==> es[i] == EntryOf(origins, h, digest, now, urls[i], i)
  {
    seq(|urls|, i requires 0 <= i < |urls| => EntryOf(origins, h, digest, now, urls[i], i))
  }

  function Urls(es: seq<Entry>): (urls: seq<Text>)
    ensures |urls| == |es|
    ensures forall i :: 0 <= i < |es| ==> urls[i] == es[i].url
  {
    seq(|es|, i requires 0 <= i < |es| => es[i].url)
  }

  function Head(candidates: seq<Text>): seq<Text> {
    candidates[..Min(MAX_CANDIDATES, |candidates|)]
  }

  function Tail(candidates: seq<Text>): seq<Text> {
    candidates[Min(MAX_CANDIDATES, |candidates|)..]
  }

  /** `rank_request_at` on the pruned table `h`. */
  function Ranking(origins: Origins, h: History, digest: Option<Text>, now: nat, candidates: seq<Text>): seq<Text> {
    Urls(Sort(Entries(origins, h, digest, now, Head(candidates)), EntryBefore)) + Tail(candidates)
  }

  /** On the entries of one request the comparator is a strict total order. */
  lemma EntriesTotal(es: seq<Entry>)
    requires forall i :: 0 <= i < |es| ==> es[i].index == i
    ensures NoDuplicates(es) && StrictTotal(Elements(es), EntryBefore)
  {
    forall a, b ensures CompareEntries(b, a) == Reversed(CompareEntries(a, b))
        && (CompareEntries(a, b).Equal? ==> a.index == b.index) {
      CompareFlips(a, b);
    }
    forall a, b | a in Elements(es) && b in Elements(es) && a != b ensures EntryBefore(a, b) || EntryBefore(b, a) {
      CompareFlips(a, b);
    }
    forall a, b, c | EntryBefore(a, b) && EntryBefore(b, c) ensures EntryBefore(a, c) {
      CompareTransitive(a, b, c);
    }
  }

  /** The ranked head is the only ascending arrangement of the head's entries. */
  lemma RankingIsTheSortedOrder(origins: Origins, h: History, digest: Option<Text>, now: nat, candidates: seq<Text>,
                                s: seq<Entry>)
    requires Elements(s) == Elements(Entries(origins, h, digest, now, Head(candidates)))
    ensures Ascending(s, EntryBefore) <==> s == Sort(Entries(origins, h, digest, now, Head(candidates)), EntryBefore)
    ensures Ascending(s, EntryBefore) ==> Ranking(origins, h, digest, now, candidates) == Urls(s) + Tail(candidates)
  {
    var es := Entries(origins, h, digest, now, Head(candidates));
    EntriesTotal(es);
    SortSorts(es, EntryBefore);
    if Ascending(s, EntryBefore) {
      AscendingUnique(s, Sort(es, EntryBefore), EntryBefore);
    }
  }

  lemma UrlsCons(e: Entry, s: seq<Entry>)
    ensures Urls([e] + s) == [e.url] + Urls(s)
  {
  }

  lemma {:induction false} InsertUrls(e: Entry, s: seq<Entry>)
    ensures multiset(Urls(Insert(e, s, EntryBefore))) == multiset{e.url} + multiset(Urls(s))
  {
    if s == [] || EntryBefore(e, s[0]) {
      UrlsCons(e, s);
    } else {
      InsertUrls(e, s[1..]);
      UrlsCons(s[0], Insert(e, s[1..], EntryBefore));
      UrlsCons(s[0], s[1..]);
      assert s == [s[0]] + s[1..];
    }
  }

  lemma {:induction false} SortUrls(s: seq<Entry>)
    ensures multiset(Urls(Sort(s, EntryBefore))) == multiset(Urls(s))
  {
    if s != [] {
      SortUrls(s[1..]);
      InsertUrls(s[0], Sort(s[1..], EntryBefore));
      UrlsCons(s[0], s[1..]);
      assert s == [s[0]] + s[1..];
    }
  }

  /** Ranking rearranges the candidates and leaves everything after the first 32 in place. */
  lemma RankingPermutes(origins: Origins, h: History, digest: Option<Text>, now: nat, candidates: seq<Text>)
    ensures multiset(Ranking(origins, h, digest, now, candidates)) == multiset(candidates)
    ensures |Ranking(origins, h, digest, now, candidates)| == |candidates|
    ensures Tail(Ranking(origins, h, digest, now, candidates)) == Tail(candidates)
  {
    var es := Entries(origins, h, digest, now, Head(candidates));
    EntriesTotal(es);
    SortSorts(es, EntryBefore);
    SortUrls(es);
    assert Urls(es) == Head(candidates);
    assert candidates == Head(candidates) + Tail(candidates);
  }

  // ---------------------------------------------------------------- what the tables say of a URL

  predicate HostKnown(origins: Origins, h: History, url: Text) {
    origins(url).Some? && origins(url).value in h.hosts
  }

  function HostEntry(origins: Origins, h: History, url: Text): HostRecord
    requires HostKnown(origins, h, url)
  {
    h.hosts[origins(url).value]
  }

  predicate RepresentationKnown(origins: Origins, h: History, digest: Option<Text>, url: Text) {
    digest.Some? && origins(url).Some? && MapKey(digest.value, origins(url).value) in h.representations
  }

  function RepresentationEntry(origins: Origins, h: History, digest: Option<Text>, url: Text): RepresentationRecord
    requires RepresentationKnown(origins, h, digest, url)
  {
    h.representations[MapKey(digest.value, origins(url).value)]
  }

  /** The host is cooling down, or the representation is cooling down or quarantined. */
  predicate Blocked(origins: Origins, h: History, digest: Option<Text>, now: nat, url: Text) {
    || (HostKnown(origins, h, url) &&
          var r := HostEntry(origins, h, url);
          r.cooldownUntil.Some? && now < r.cooldownUntil.value)
    || (RepresentationKnown(origins, h, digest, url) &&
          var r := RepresentationEntry(origins, h, digest, url);
          || (r.cooldownUntil.Some? && now < r.cooldownUntil.value)
          || (r.quarantinedUntil.Some? && now < r.quarantinedUntil.value))
  }

  /** Something is known of the URL, nothing blocks it, and the last event of its host and of its representation, as far
      as they are known, was a success. */
  predicate Healthy(origins: Origins, h: History, digest: Option<Text>, now: nat, url: Text) {
    && !Blocked(origins, h, digest, now, url)
    && (HostKnown(origins, h, url) || RepresentationKnown(origins, h, digest, url))
    && (HostKnown(origins, h, url) ==> HostEntry(origins, h, url).latest == Success)
    && (RepresentationKnown(origins, h, digest, url) ==> RepresentationEntry(origins, h, digest, url).latest == Success)
  }

  /** Healthy URLs come first and blocked ones last. */
  function Standing(origins: Origins, h: History, digest: Option<Text>, now: nat, url: Text): nat {
    if Blocked(origins, h, digest, now, url) then 2 else if Healthy(origins, h, digest, now, url) then 0 else 1
  }

  /** The record of the representation speaks for the URL: it ends in a success and the host has not failed since. */
  predicate RepresentationSpeaks(origins: Origins, h: History, digest: Option<Text>, url: Text) {
    && RepresentationKnown(origins, h, digest, url)
    && RepresentationEntry(origins, h, digest, url).latest == Success
    && (HostKnown(origins, h, url) ==> HostEntry(origins, h, url).latest == Success)
  }

  predicate HostSpeaks(origins: Origins, h: History, url: Text) {
    HostKnown(origins, h, url) && HostEntry(origins, h, url).latest == Success
  }

  function KnownThroughput(origins: Origins, h: History, digest: Option<Text>, url: Text): Option<nat> {
    if RepresentationSpeaks(origins, h, digest, url) then RepresentationEntry(origins, h, digest, url).throughput
    else if HostSpeaks(origins, h, url) then HostEntry(origins, h, url).throughput
    else None
  }

  function KnownLatency(origins: Origins, h: History, digest: Option<Text>, url: Text): Option<nat> {
    if RepresentationSpeaks(origins, h, digest, url) then RepresentationEntry(origins, h, digest, url).latency
    else if HostSpeaks(origins, h, url) then HostEntry(origins, h, url).latency
    else None
  }

  /** The time and the number of the last success of the representation; a host's do not count. */
  function LastSuccess(origins: Origins, h: History, digest: Option<Text>, now: nat, url: Text): (nat, nat) {
    if RepresentationSpeaks(origins, h, digest, url) && !Blocked(origins, h, digest, now, url) then
      var r := RepresentationEntry(origins, h, digest, url);
      (r.updatedAt, r.eventSequence)
    else (0, 0)
  }

  /** The entries of two ranked URLs, the first of them before the second. */
  lemma RankedEntries(origins: Origins, h: History, digest: Option<Text>, now: nat, candidates: seq<Text>, i: nat,
                      j: nat)
    returns (a: Entry, b: Entry)
    requires i < j < Min(MAX_CANDIDATES, |candidates|)
    ensures |Ranking(origins, h, digest, now, candidates)| == |candidates|
    ensures a.url == Ranking(origins, h, digest, now, candidates)[i]
            && b.url == Ranking(origins, h, digest, now, candidates)[j]
    ensures IsEntryOf(origins, h, digest, now, candidates, a) && IsEntryOf(origins, h, digest, now, candidates, b)
    ensures EntryBefore(a, b)
  {
    var es := Entries(origins, h, digest, now, Head(candidates));
    EntriesTotal(es);
    SortSorts(es, EntryBefore);
    var s := Sort(es, EntryBefore);
    a, b := s[i], s[j];
    assert a in Elements(es) && b in Elements(es) by {
      assert a in Elements(s) && b in Elements(s);
    }
  }

  /** The entry of the candidate at its index. */
  predicate IsEntryOf(origins: Origins, h: History, digest: Option<Text>, now: nat, candidates: seq<Text>, e: Entry) {
    && e.index < |candidates| && candidates[e.index] == e.url
    && e == EntryOf(origins, h, digest, now, e.url, e.index)
  }

  lemma EntryMeaning(origins: Origins, h: History, digest: Option<Text>, now: nat, url: Text, index: nat)
    ensures var e := EntryOf(origins, h, digest, now, url, index);
            && e.tier == Standing(origins, h, digest, now, url)
            && e.throughput == KnownThroughput(origins, h, digest, url)
            && e.latency == KnownLatency(origins, h, digest, url)
            && e.recent == LastSuccess(origins, h, digest, now, url)
  {
  }

  /** Among the first 32, healthy URLs come first and blocked ones last. */
  lemma BlockedComeLast(origins: Origins, h: History, digest: Option<Text>, now: nat, candidates: seq<Text>, i: nat,
                        j: nat)
    requires i < j < Min(32, |candidates|)
    ensures |Ranking(origins, h, digest, now, candidates)| == |candidates|
    ensures var ranked := Ranking(origins, h, digest, now, candidates);
            && (Blocked(origins, h, digest, now, ranked[i]) ==> Blocked(origins, h, digest, now, ranked[j]))
            && (Healthy(origins, h, digest, now, ranked[j]) ==> Healthy(origins, h, digest, now, ranked[i]))
  {
    var a, b := RankedEntries(origins, h, digest, now, candidates, i, j);
    EntryMeaning(origins, h, digest, now, a.url, a.index);
    EntryMeaning(origins, h, digest, now, b.url, b.index);
    ComparatorMeaning(a, b);
  }

  predicate AtLeast(a: Option<nat>, b: Option<nat>) {
    b.None? || (a.Some? && b.value <= a.value)
  }

  predicate AtMost(a: Option<nat>, b: Option<nat>) {
    b.None? || (a.Some? && a.value <= b.value)
  }

  ghost predicate StandsBefore(candidates: seq<Text>, first: Text, second: Text) {
    exists x, y :: 0 <= x < y < |candidates| && candidates[x] == first && candidates[y] == second
  }

  /** What the ranking promises of any two URLs in its head, the first of them ranked before the second. */
  ghost predicate RankedInOrder(origins: Origins, h: History, digest: Option<Text>, now: nat, candidates: seq<Text>,
                                first: Text, second: Text) {
    var standing, standing' := Standing(origins, h, digest, now, first), Standing(origins, h, digest, now, second);
    var speed, speed' := KnownThroughput(origins, h, digest, first), KnownThroughput(origins, h, digest, second);
    var delay, delay' := KnownLatency(origins, h, digest, first), KnownLatency(origins, h, digest, second);
    var last, last' := LastSuccess(origins, h, digest, now, first), LastSuccess(origins, h, digest, now, second);
    && standing <= standing'
    && (standing == standing' ==> AtLeast(speed, speed'))
    && (standing == standing' && speed == speed' ==> AtMost(delay, delay'))
    && (standing == standing' && speed == speed' && delay == delay' ==>
          last'.0 < last.0 || (last'.0 == last.0 && last'.1 <= last.1))
    && (standing == standing' && speed == speed' && delay == delay' && last == last' ==>
          StandsBefore(candidates, first, second))
  }

  lemma EntriesInOrder(origins: Origins, h: History, digest: Option<Text>, now: nat, candidates: seq<Text>, a: Entry,
                       b: Entry)
    requires IsEntryOf(origins, h, digest, now, candidates, a) && IsEntryOf(origins, h, digest, now, candidates, b)
    requires EntryBefore(a, b)
    ensures RankedInOrder(origins, h, digest, now, candidates, a.url, b.url)
  {
    EntryMeaning(origins, h, digest, now, a.url, a.index);
    EntryMeaning(origins, h, digest, now, b.url, b.index);
    assert StandsBefore(candidates, a.url, b.url) || b.index <= a.index;
  }

  /** Any two of the first 32: the better standing first, then the higher throughput, then the lower latency, then the
      later success, then the earlier in the request, as the tables have it. */
  lemma RankingInOrder(origins: Origins, h: History, digest: Option<Text>, now: nat, candidates: seq<Text>, i: nat,
                       j: nat)
    requires i < j < Min(32, |candidates|)
    ensures |Ranking(origins, h, digest, now, candidates)| == |candidates|
    ensures RankedInOrder(origins, h, digest, now, candidates, Ranking(origins, h, digest, now, candidates)[i],
                          Ranking(origins, h, digest, now, candidates)[j])
  {
    var a, b := RankedEntries(origins, h, digest, now, candidates, i, j);
    EntriesInOrder(origins, h, digest, now, candidates, a, b);
  }

  /** `rank_request_at`: de-duplicates, prunes the table, ranks. */
  method RankRequest(table: HealthTable, origins: Origins, url: Text, backups: seq<Text>, digest: Option<Text>,
                     now: nat)
    returns (ranked: seq<Text>)
    modifies table
    ensures table.Value() == Apply(origins, old(table.Value()), Ranked(now))
    ensures ranked == Ranking(origins, Prune(old(table.Value()), now), digest, now, Distinct([url] + backups))
  {
    var candidates := RequestCandidates(url, backups);
    table.PruneAt(now);
    var pruned := History(table.sequence, table.hosts, table.representations);
    var entries := Entries(origins, pruned, digest, now, Head(candidates));
    ranked := Urls(Sort(entries, EntryBefore)) + Tail(candidates);
  }
}
