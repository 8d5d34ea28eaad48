/** Bilibili resolution sessions: the data, the input validation and the byte estimate. */
module ResolutionModel {
  import opened Prelude

  const SESSION_TTL: nat := 15 * 60
  const MAX_PAGE_SIZE: nat := 200
  const MAX_CANDIDATES: nat := 10_000
  const MAX_TASK_CANDIDATES: nat := 100
  const MAX_SESSIONS: nat := 32
  const MAX_TOTAL_CANDIDATES: nat := 50_000
  const MAX_TOKEN_BYTES: nat := 256
  const MAX_SNAPSHOT_BYTES: nat := 64 * 1024 * 1024
  const MAX_STRING_BYTES: nat := 64 * 1024
  const UUID_BYTES: nat := 32
  const PAGE_TOKEN_BYTES: nat := |"bilibili-page-"| + UUID_BYTES
  const USIZE_MAX: nat := U64_MAX

  datatype ContentKind = VideoPage | SeasonEpisode | CollectionItem

  datatype Identity = Identity(kind: ContentKind, aid: Option<nat>, bvid: Option<Text>, cid: Option<nat>,
      epid: Option<nat>)

  datatype Candidate = Candidate(
    selectionId: Text, title: Text, subtitle: Text, sourceKind: Text, contentId: Text,
    identity: Identity, index: nat, durationSeconds: Option<nat>, coverUri: Text)

  datatype Resolution = Resolution(
    source: Text, title: Text, sourceKind: Text, candidates: seq<Candidate>,
    defaultSelectionId: Text, candidatesTruncated: bool)

  /** Protocol messages; only their encoded form matters to the store. */
  datatype PlaybackOptions = PlaybackOptions(encoded: Text)
  datatype RequestContext = RequestContext(credentialProfileId: Text, encoded: Text)

  datatype Tokenized = Tokenized(token: Text, candidate: Candidate)

  datatype SessionView = SessionView(
    id: Text, source: Text, title: Text, sourceKind: Text, createdAt: nat, expiresAt: nat,
    defaultToken: Text, candidatesTruncated: bool, context: Option<RequestContext>)

  /** One constructor per distinct failure of the store. */
  datatype StoreError =
    | PageSizeInvalid
    | TooManyCandidates | EmptyTruncatedWindow | NoCandidates
    | StringTooLong | StringMissing | OptionsTooLarge | ContextTooLarge
    | IncompleteIdentity | DuplicateIdentity | DefaultOutsideSnapshot
    | ExpiryUnrepresentable | SizeOverflow | SnapshotTooLarge | CapacityUnavailable
    | SessionIdRequired | SessionIdInvalid | SessionExpired | SessionNotFound
    | PageTokenTooLong | PageTokenUnknown | PageTokenOtherSession | PageTokenOtherSnapshot | PageTokenBadOffset
    | TooManyTokens | EmptyToken | TokenTooLong | UnknownMode | ModeRequired
    | SingleNeedsOneToken | MultipleNeedsTokens | RangeNeedsEnds | AllTakesNoTokens | RangeTokensNotAllowed
    | TaskTooLarge | CandidateTokenUnknown | CandidateTokenRepeated | RangeReversed

  // ---------------------------------------------------------------- text

  /** The bytes taken by a Unicode white-space character at the front of `t`, or 0. */
  function WhitespaceWidth(t: Text): nat
    ensures WhitespaceWidth(t) <= |t|
  {
    if |t| == 0 then 0
    else if t[0] == ' ' || '\t' <= t[0] <= '\r' then 1
    else if |t| >= 2 && t[0] as int == 0xC2 && t[1] as int in {0x85, 0xA0} then 2
    else if |t| < 3 then 0
    else if t[0] as int == 0xE1 && t[1] as int == 0x9A && t[2] as int == 0x80 then 3
    else if t[0] as int == 0xE2 && t[1] as int == 0x80
            && (0x80 <= t[2] as int <= 0x8A || t[2] as int in {0xA8, 0xA9, 0xAF}) then 3
    else if t[0] as int == 0xE2 && t[1] as int == 0x81 && t[2] as int == 0x9F then 3
    else if t[0] as int == 0xE3 && t[1] as int == 0x80 && t[2] as int == 0x80 then 3
    else 0
  }

  /** The code points with the Unicode property White_Space. */
  const WHITE_SPACE: set<int> := {
    0x09, 0x0A, 0x0B, 0x0C, 0x0D, 0x20, 0x85, 0xA0, 0x1680, 0x2000, 0x2001, 0x2002, 0x2003, 0x2004, 0x2005, 0x2006,
    0x2007, 0x2008, 0x2009, 0x200A, 0x2028, 0x2029, 0x202F, 0x205F, 0x3000}

  /** The first `n` bytes are the UTF-8 form (section 3 of RFC 3629) of this code point below 0x10000. */
  predicate Encodes(t: Text, n: nat, point: int) {
    && 1 <= n <= 3 && n <= |t|
    && if n == 1 then point == t[0] as int < 0x80
       else if n == 2 then
         0xC0 <= t[0] as int < 0xE0 && 0x80 <= t[1] as int < 0xC0 && point >= 0x80
         && point == (t[0] as int - 0xC0) * 64 + (t[1] as int - 0x80)
       else
         0xE0 <= t[0] as int < 0xF0 && 0x80 <= t[1] as int < 0xC0 && 0x80 <= t[2] as int < 0xC0 && point >= 0x800
         && point == (t[0] as int - 0xE0) * 4096 + (t[1] as int - 0x80) * 64 + (t[2] as int - 0x80)
  }

  /** The width is that of the white-space character at the front, if there is one. */
  lemma WhitespaceMeaning(t: Text, n: nat, point: int)
    requires Encodes(t, n, point)
    ensures WhitespaceWidth(t) == if point in WHITE_SPACE then n else 0
  {
  }

  /** `t.trim().is_empty()` */
  predicate Blank(t: Text)
    decreases |t|
  {
    t == [] || (WhitespaceWidth(t) > 0 && Blank(t[WhitespaceWidth(t)..]))
  }

  function Decimal(n: nat): Text {
    if n < 10 then [(n as char) + '0'] else Decimal(n / 10) + [((n % 10) as char) + '0']
  }

  /** The number a text of digits stands for. */
  function ValueOf(t: Text): int {
    if t == "" then 0 else 10 * ValueOf(t[..|t| - 1]) + (t[|t| - 1] as int - '0' as int)
  }

  /** The decimal numeral: digits, no leading zero, standing for the number. */
  lemma {:induction false} DecimalMeaning(n: nat)
    ensures ValueOf(Decimal(n)) == n && Decimal(n) != ""
    ensures forall i :: 0 <= i < |Decimal(n)| ==> '0' <= Decimal(n)[i] <= '9'
    ensures n > 0 ==> Decimal(n)[0] != '0'
  {
    if n < 10 {
      assert ValueOf(Decimal(n)[..0]) == 0;
    } else {
      DecimalMeaning(n / 10);
      assert Decimal(n)[..|Decimal(n)| - 1] == Decimal(n / 10);
    }
  }

  function SessionId(uuid: Text): Text { "bilibili-resolution-" + uuid }
  function SnapshotId(uuid: Text): Text { "bilibili-resolution-snapshot-" + uuid }
  function CandidateToken(uuid: Text): Text { "bilibili-candidate-" + uuid }
  function PageToken(uuid: Text): Text { "bilibili-page-" + uuid }

  // ---------------------------------------------------------------- validation

  predicate IsComplete(i: Identity) {
    && i.aid != Some(0) && i.cid != Some(0) && i.epid != Some(0)
    && !(i.bvid.Some? && Blank(i.bvid.value))
    && match i.kind
       case SeasonEpisode => i.epid.Some?
       case _ => i.cid.Some? && (i.aid.Some? || i.bvid.Some?) && i.epid.None?
  }

  predicate MatchesContentId(i: Identity, contentId: Text) {
    match i.kind
    case VideoPage => i.cid.Some? && contentId == Decimal(i.cid.value)
    case SeasonEpisode => i.epid.Some? && contentId == Decimal(i.epid.value)
    case CollectionItem =>
      (i.bvid.Some? && contentId == i.bvid.value) || (i.aid.Some? && contentId == "av" + Decimal(i.aid.value))
  }

  predicate ShortStrings(c: Candidate) {
    && |c.selectionId| <= MAX_STRING_BYTES && |c.title| <= MAX_STRING_BYTES
    && |c.subtitle| <= MAX_STRING_BYTES && |c.sourceKind| <= MAX_STRING_BYTES
    && |c.contentId| <= MAX_STRING_BYTES && |c.coverUri| <= MAX_STRING_BYTES
  }

  predicate StableIdentity(c: Candidate) {
    && !Blank(c.selectionId) && !Blank(c.title) && !Blank(c.sourceKind) && !Blank(c.contentId)
    && c.index != 0 && IsComplete(c.identity) && MatchesContentId(c.identity, c.contentId)
  }

  /** What is wrong with candidate `i`, if anything; `seen` holds the earlier selection ids. */
  function CandidateError(c: Candidate, seen: set<Text>): Option<StoreError> {
    if !ShortStrings(c) then Some(StringTooLong)
    else if !StableIdentity(c) then Some(IncompleteIdentity)
    else if c.identity.bvid.Some? && |c.identity.bvid.value| > MAX_STRING_BYTES then Some(StringTooLong)
    else if c.selectionId in seen then Some(DuplicateIdentity)
    else None
  }

  function SelectionIds(cs: seq<Candidate>): set<Text> {
    set c | c in cs :: c.selectionId
  }

  function RequiredStringError(t: Text): Option<StoreError> {
    if |t| > MAX_STRING_BYTES then Some(StringTooLong)
    else if Blank(t) then Some(StringMissing)
    else None
  }

  /** The checks of `validate_resolution` before it looks at the candidates. */
  function HeaderError(r: Resolution, options: Option<PlaybackOptions>,
                       context: Option<RequestContext>): Option<StoreError> {
    if |r.candidates| > MAX_CANDIDATES then Some(TooManyCandidates)
    else if r.candidates == [] then Some(if r.candidatesTruncated then EmptyTruncatedWindow else NoCandidates)
    else if RequiredStringError(r.source).Some? then RequiredStringError(r.source)
    else if RequiredStringError(r.title).Some? then RequiredStringError(r.title)
    else if RequiredStringError(r.sourceKind).Some? then RequiredStringError(r.sourceKind)
    else if |r.defaultSelectionId| > MAX_STRING_BYTES then Some(StringTooLong)
    else if options.Some? && |options.value.encoded| > MAX_STRING_BYTES then Some(OptionsTooLarge)
    else if context.Some? && |context.value.credentialProfileId| > MAX_STRING_BYTES then Some(StringTooLong)
    else if context.Some? && |context.value.encoded| > MAX_STRING_BYTES then Some(ContextTooLarge)
    else None
  }

  /** No number is zero, no text blank, and the identity has what its kind needs and agrees with the content id. */
  ghost predicate GoodIdentity(i: Identity, contentId: Text) {
    && (i.aid.Some? ==> i.aid.value > 0) && (i.cid.Some? ==> i.cid.value > 0) && (i.epid.Some? ==> i.epid.value > 0)
    && (i.bvid.Some? ==> !Blank(i.bvid.value) && |i.bvid.value| <= 65536)
    && (i.kind == SeasonEpisode ==> i.epid.Some? && contentId == Decimal(i.epid.value))
    && (i.kind != SeasonEpisode ==> i.cid.Some? && i.epid.None? && (i.aid.Some? || i.bvid.Some?))
    && (i.kind == VideoPage ==> contentId == Decimal(i.cid.value))
    && (i.kind == CollectionItem ==>
          i.bvid == Some(contentId) || (i.aid.Some? && contentId == "av" + Decimal(i.aid.value)))
  }

  ghost predicate GoodCandidate(c: Candidate) {
    && |c.selectionId| <= 65536 && |c.title| <= 65536 && |c.subtitle| <= 65536
    && |c.sourceKind| <= 65536 && |c.contentId| <= 65536 && |c.coverUri| <= 65536
    && !Blank(c.selectionId) && !Blank(c.title) && !Blank(c.sourceKind) && !Blank(c.contentId)
    && c.index > 0 && GoodIdentity(c.identity, c.contentId)
  }

  /** What an accepted resolution guarantees about its candidates. */
  ghost predicate GoodCandidates(cs: seq<Candidate>) {
    && (forall i :: 0 <= i < |cs| ==> GoodCandidate(cs[i]))
    && (forall i, j :: 0 <= i < j < |cs| ==> cs[i].selectionId != cs[j].selectionId)
  }

  ghost predicate GoodHeader(r: Resolution, options: Option<PlaybackOptions>, context: Option<RequestContext>) {
    && 1 <= |r.candidates| <= 10_000
    && |r.source| <= 65536 && |r.title| <= 65536 && |r.sourceKind| <= 65536 && |r.defaultSelectionId| <= 65536
    && !Blank(r.source) && !Blank(r.title) && !Blank(r.sourceKind)
    && (options.Some? ==> |options.value.encoded| <= 65536)
    && (context.Some? ==> |context.value.credentialProfileId| <= 65536 && |context.value.encoded| <= 65536)
  }

  ghost predicate Acceptable(r: Resolution, options: Option<PlaybackOptions>, context: Option<RequestContext>) {
    && GoodHeader(r, options, context)
    && GoodCandidates(r.candidates)
    && (r.defaultSelectionId != "" ==> exists c :: c in r.candidates && c.selectionId == r.defaultSelectionId)
  }

  /** The error for the first bad candidate at or after `i`. */
  function FirstCandidateError(cs: seq<Candidate>, i: nat): Option<StoreError>
    requires i <= |cs|
    decreases |cs| - i
  {
    if i == |cs| then None
    else
      var e := CandidateError(cs[i], SelectionIds(cs[..i]));
      if e.Some? then e else FirstCandidateError(cs, i + 1)
  }

  function ResolutionError(r: Resolution, options: Option<PlaybackOptions>,
                           context: Option<RequestContext>): Option<StoreError> {
    if HeaderError(r, options, context).Some? then HeaderError(r, options, context)
    else if FirstCandidateError(r.candidates, 0).Some? then FirstCandidateError(r.candidates, 0)
    else if r.defaultSelectionId != ""
        && r.defaultSelectionId !in SelectionIds(r.candidates) then Some(DefaultOutsideSnapshot)
    else None
  }

  lemma SelectionIdsSnoc(cs: seq<Candidate>, i: nat)
    requires i < |cs|
    ensures SelectionIds(cs[..i + 1]) == SelectionIds(cs[..i]) + {cs[i].selectionId}
  {
    assert cs[..i + 1] == cs[..i] + [cs[i]];
  }

  /** The candidate loop of `validate_resolution`, with its running set of selection ids. */
  method FindCandidateError(cs: seq<Candidate>) returns (error: Option<StoreError>, seen: set<Text>)
    ensures error == FirstCandidateError(cs, 0)
    ensures error.None? ==> seen == SelectionIds(cs)
  {
    seen := {};
    for i := 0 to |cs|
      invariant seen == SelectionIds(cs[..i])
      invariant FirstCandidateError(cs, 0) == FirstCandidateError(cs, i)
    {
      error := CandidateError(cs[i], seen);
      if error.Some? {
        return;
      }
      SelectionIdsSnoc(cs, i);
      seen := seen + {cs[i].selectionId};
    }
    assert cs[..|cs|] == cs;
    error := None;
  }

  /** `validate_resolution` */
  method ValidateResolution(r: Resolution, options: Option<PlaybackOptions>, context: Option<RequestContext>)
    returns (error: Option<StoreError>)
    ensures error == ResolutionError(r, options, context)
  {
    error := HeaderError(r, options, context);
    if error.None? {
      var seen;
      error, seen := FindCandidateError(r.candidates);
      if error.None? && r.defaultSelectionId != "" && r.defaultSelectionId !in seen {
        error := Some(DefaultOutsideSnapshot);
      }
    }
  }

  /** A resolution passes exactly when it is acceptable. */
  lemma ResolutionErrorMeaning(r: Resolution, options: Option<PlaybackOptions>, context: Option<RequestContext>)
    ensures ResolutionError(r, options, context).None? <==> Acceptable(r, options, context)
  {
    HeaderErrorMeaning(r, options, context);
    FirstErrorMeaning(r.candidates, 0);
    if r.defaultSelectionId in SelectionIds(r.candidates) {
      var c :| c in r.candidates && c.selectionId == r.defaultSelectionId;
    }
  }

  lemma HeaderErrorMeaning(r: Resolution, options: Option<PlaybackOptions>, context: Option<RequestContext>)
    ensures HeaderError(r, options, context).None? <==> GoodHeader(r, options, context)
  {
  }

  lemma {:induction false} FirstErrorMeaning(cs: seq<Candidate>, i: nat)
    requires i <= |cs| && GoodCandidates(cs[..i])
    ensures FirstCandidateError(cs, i).None? <==> GoodCandidates(cs)
    decreases |cs| - i
  {
    if i == |cs| {
      assert cs[..i] == cs;
    } else if CandidateError(cs[i], SelectionIds(cs[..i])).None? {
      AcceptedCandidate(cs, i);
      FirstErrorMeaning(cs, i + 1);
    } else {
      RejectedCandidate(cs, i);
    }
  }

  lemma CandidateErrorMeaning(c: Candidate, seen: set<Text>)
    ensures CandidateError(c, seen).None? <==> GoodCandidate(c) && c.selectionId !in seen
  {
  }

  lemma AcceptedCandidate(cs: seq<Candidate>, i: nat)
    requires i < |cs| && GoodCandidates(cs[..i]) && CandidateError(cs[i], SelectionIds(cs[..i])).None?
    ensures GoodCandidates(cs[..i + 1])
  {
    var p, q := cs[..i], cs[..i + 1];
    forall j, k | 0 <= j < k < |q| ensures q[j].selectionId != q[k].selectionId {
      if k == i {
        assert p[j] in p;
        assert q[j].selectionId in SelectionIds(p);
      } else {
        assert p[j].selectionId != p[k].selectionId;
      }
    }
    forall j | 0 <= j < |q| ensures GoodCandidate(q[j]) {
      CandidateErrorMeaning(cs[i], SelectionIds(p));
      if j < i {
        assert q[j] == p[j];
      }
    }
  }

  lemma RejectedCandidate(cs: seq<Candidate>, i: nat)
    requires i < |cs| && CandidateError(cs[i], SelectionIds(cs[..i])).Some?
    ensures !GoodCandidates(cs)
  {
    CandidateErrorMeaning(cs[i], SelectionIds(cs[..i]));
    if cs[i].selectionId in SelectionIds(cs[..i]) {
      var c :| c in cs[..i] && c.selectionId == cs[i].selectionId;
      var j :| 0 <= j < i && cs[..i][j] == c;
      assert cs[j].selectionId == cs[i].selectionId;
    }
  }

  // ---------------------------------------------------------------- byte estimate

  /** `mem::size_of` of the types that the estimate mentions, and the last representable wall-clock second. */
  datatype Platform = Platform(
    sessionSize: nat, candidateSize: nat, offsetEntrySize: nat, tokenEntrySize: nat, cursorEntrySize: nat,
    wallClockMax: nat)

  predicate SmallSizes(p: Platform) {
    && p.sessionSize <= 65536 && p.candidateSize <= 65536 && p.offsetEntrySize <= 65536
    && p.tokenEntrySize <= 65536 && p.cursorEntrySize <= 65536
  }

  function EncodedOptions(options: Option<PlaybackOptions>): nat {
    if options.Some? then |options.value.encoded| else 0
  }

  function EncodedContext(context: Option<RequestContext>): nat {
    if context.Some? then |context.value.encoded| else 0
  }

  function HeaderParts(view: SessionView, snapshotId: Text, options: Option<PlaybackOptions>,
                       context: Option<RequestContext>): seq<nat> {
    [|view.id|, |view.source|, |view.title|, |view.sourceKind|, |view.defaultToken|, |snapshotId|,
     EncodedOptions(options), EncodedContext(context), |view.id|, |view.id|]
  }

  function CandidateParts(p: Platform, c: Tokenized): seq<nat> {
    [p.candidateSize, |c.token|, |c.token|, p.offsetEntrySize, |c.candidate.selectionId|, |c.candidate.title|,
     |c.candidate.subtitle|, |c.candidate.sourceKind|, |c.candidate.contentId|, |c.candidate.coverUri|,
     if c.candidate.identity.bvid.Some? then |c.candidate.identity.bvid.value| else 0, 32]
  }

  function Total(parts: seq<nat>): nat {
    if parts == [] then 0 else Total(parts[..|parts| - 1]) + parts[|parts| - 1]
  }

  function CandidatesTotal(p: Platform, cs: seq<Tokenized>): nat {
    if cs == [] then 0 else CandidatesTotal(p, cs[..|cs| - 1]) + Total(CandidateParts(p, cs[|cs| - 1]))
  }

  /** What a session owns before any page cursor exists. */
  function FixedBytes(p: Platform, view: SessionView, snapshotId: Text, options: Option<PlaybackOptions>,
                      context: Option<RequestContext>, cs: seq<Tokenized>): nat {
    p.sessionSize + Total(HeaderParts(view, snapshotId, options, context)) + CandidatesTotal(p, cs)
  }

  /** What one materialised page cursor costs. */
  function CursorBytes(p: Platform, view: SessionView, snapshotId: Text): nat {
    p.tokenEntrySize + p.cursorEntrySize + PAGE_TOKEN_BYTES * 2 + |view.id| + |snapshotId| + 64
  }

  function CursorReservation(p: Platform, view: SessionView, snapshotId: Text, count: nat): nat {
    CursorBytes(p, view, snapshotId) * count
  }

  /** The whole reservation: the fixed part and a cursor at every interior offset. */
  function SessionBytes(p: Platform, view: SessionView, snapshotId: Text, options: Option<PlaybackOptions>,
                        context: Option<RequestContext>, cs: seq<Tokenized>): nat {
    FixedBytes(p, view, snapshotId, options, context, cs)
    + CursorReservation(p, view, snapshotId, SaturatingSub(|cs|, 1))
  }

  function CheckedAdd(a: nat, b: nat): Option<nat> {
    if a + b <= USIZE_MAX then Some(a + b) else None
  }

  /** A chain of `checked_add`s fails exactly when the whole sum does not fit. */
  method AddAll(start: nat, parts: seq<nat>) returns (sum: Option<nat>)
    requires start <= USIZE_MAX
    ensures sum == if start + Total(parts) <= USIZE_MAX then Some(start + Total(parts)) else None
  {
    var total := start;
    for i := 0 to |parts|
      invariant total == start + Total(parts[..i]) <= USIZE_MAX
    {
      assert parts[..i + 1][..i] == parts[..i];
      var next := CheckedAdd(total, parts[i]);
      if next.None? {
        TotalMonotone(parts, i + 1);
        return None;
      }
      total := next.value;
    }
    assert parts[..|parts|] == parts;
    return Some(total);
  }

  lemma {:induction false} TotalMonotone(parts: seq<nat>, n: nat)
    requires n <= |parts|
    ensures Total(parts[..n]) <= Total(parts)
    decreases |parts|
  {
    if n == |parts| {
      assert parts[..n] == parts;
    } else {
      var front := parts[..|parts| - 1];
      TotalMonotone(front, n);
      assert front[..n] == parts[..n];
    }
  }

  lemma {:induction false} CandidatesTotalMonotone(p: Platform, cs: seq<Tokenized>, n: nat)
    requires n <= |cs|
    ensures CandidatesTotal(p, cs[..n]) <= CandidatesTotal(p, cs)
    decreases |cs|
  {
    if n == |cs| {
      assert cs[..n] == cs;
    } else {
      var front := cs[..|cs| - 1];
      CandidatesTotalMonotone(p, front, n);
      assert front[..n] == cs[..n];
    }
  }

  method AddCandidates(p: Platform, start: nat, cs: seq<Tokenized>) returns (sum: Option<nat>)
    requires start <= USIZE_MAX
    ensures sum == if start + CandidatesTotal(p, cs) <= USIZE_MAX then Some(start + CandidatesTotal(p, cs)) else None
  {
    var total := start;
    for i := 0 to |cs|
      invariant total == start + CandidatesTotal(p, cs[..i]) <= USIZE_MAX
    {
      assert cs[..i + 1][..i] == cs[..i];
      CandidatesTotalMonotone(p, cs, i + 1);
      var next := AddAll(total, CandidateParts(p, cs[i]));
      if next.None? {
        return None;
      }
      total := next.value;
    }
    assert cs[..|cs|] == cs;
    return Some(total);
  }

  /** The worst case for lazily created cursors: one at every interior offset. */
  method ReserveCursors(p: Platform, view: SessionView, snapshotId: Text, count: nat) returns (bytes: Option<nat>)
    ensures var all := CursorReservation(p, view, snapshotId, count);
      bytes == if CursorBytes(p, view, snapshotId) <= USIZE_MAX && all <= USIZE_MAX then Some(all) else None
  {
    var parts := [p.tokenEntrySize, p.cursorEntrySize, PAGE_TOKEN_BYTES * 2, |view.id|, |snapshotId|, 64];
    var each := AddAll(0, parts);
    TotalOfSix(parts);
    if each.None? || each.value * count > USIZE_MAX {
      return None;
    }
    return Some(each.value * count);
  }

  /** `estimate_session_bytes` with its overflow checks. */
  method EstimateSessionBytes(p: Platform, view: SessionView, snapshotId: Text, options: Option<PlaybackOptions>,
                              context: Option<RequestContext>, cs: seq<Tokenized>)
    returns (bytes: Result<nat, StoreError>)
    requires p.sessionSize <= USIZE_MAX
    ensures var exact := SessionBytes(p, view, snapshotId, options, context, cs);
      bytes == if exact <= USIZE_MAX
          && CursorBytes(p, view, snapshotId) <= USIZE_MAX then Ok(exact) else Err(SizeOverflow)
  {
    var header := AddAll(p.sessionSize, HeaderParts(view, snapshotId, options, context));
    if header.None? {
      return Err(SizeOverflow);
    }
    var body := AddCandidates(p, header.value, cs);
    if body.None? {
      return Err(SizeOverflow);
    }
    assert body.value == FixedBytes(p, view, snapshotId, options, context, cs);
    var reserved := ReserveCursors(p, view, snapshotId, SaturatingSub(|cs|, 1));
    if reserved.None? || CheckedAdd(body.value, reserved.value).None? {
      return Err(SizeOverflow);
    }
    return Ok(body.value + reserved.value);
  }

  lemma TotalOfSix(s: seq<nat>)
    requires |s| == 6
    ensures Total(s) == s[0] + s[1] + s[2] + s[3] + s[4] + s[5]
  {
    assert s[..5][..4] == s[..4] && s[..4][..3] == s[..3] && s[..3][..2] == s[..2] && s[..2][..1] == s[..1];
    assert Total(s) == Total(s[..5]) + s[5];
    assert Total(s[..5]) == Total(s[..4]) + s[4];
    assert Total(s[..4]) == Total(s[..3]) + s[3];
    assert Total(s[..3]) == Total(s[..2]) + s[2];
    assert Total(s[..2]) == Total(s[..1]) + s[1];
    assert Total(s[..1]) == s[0];
  }
}
