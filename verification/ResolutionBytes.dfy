/** What a session owns, read from the session itself, against the estimate it was charged. */
module ResolutionBytes {
  import opened Prelude
  import opened ResolutionModel
  import opened ResolutionState

  // ---------------------------------------------------------------- what a session owns

  /** The text of one candidate; its token is stored twice, in the list and as a key of the lookup map. */
  function CandidateText(c: Tokenized): nat {
    2 * |c.token| + |c.candidate.selectionId| + |c.candidate.title| + |c.candidate.subtitle| + |c.candidate.sourceKind|
    + |c.candidate.contentId| + |c.candidate.coverUri|
    + (if c.candidate.identity.bvid.Some? then |c.candidate.identity.bvid.value| else 0)
  }

  /** The text of the view; the session id is stored three times, in the view, as a key and in the queue. */
  function ViewText(view: SessionView): nat {
    3 * |view.id| + |view.source| + |view.title| + |view.sourceKind| + |view.defaultToken|
    + (if view.context.Some? then |view.context.value.encoded| else 0)
  }

  function CandidatesOwned(p: Platform, cs: seq<Tokenized>): nat {
    if cs == [] then 0
    else CandidatesOwned(p, cs[..|cs| - 1]) + p.candidateSize + p.offsetEntrySize + CandidateText(cs[|cs| - 1])
  }

  /** The cursors at offsets below `n`: two table entries, the page token in both, the ids of session and snapshot. */
  function CursorsOwned(p: Platform, s: Session, n: nat): nat {
    if n == 0 then 0
    else
      CursorsOwned(p, s, n - 1)
      + if n - 1 in s.pageTokens
        then p.tokenEntrySize + p.cursorEntrySize + 2 * |s.pageTokens[n - 1]| + |s.view.id| + |s.snapshotId| else 0
  }

  /** Everything the store holds for one session. */
  function Owned(p: Platform, s: Session): nat {
    p.sessionSize + ViewText(s.view) + |s.snapshotId| + (if s.options.Some? then |s.options.value.encoded| else 0)
    + CandidatesOwned(p, s.candidates) + CursorsOwned(p, s, |s.candidates|)
  }

  // ---------------------------------------------------------------- what it was charged

  lemma {:induction false} TotalAppend(a: seq<nat>, b: seq<nat>)
    ensures Total(a + b) == Total(a) + Total(b)
  {
    if b == [] {
      assert a + b == a;
    } else {
      var front := b[..|b| - 1];
      assert (a + b)[..|a + b| - 1] == a + front;
      TotalAppend(a, front);
    }
  }

  lemma TotalPush(s: seq<nat>, x: nat, longer: seq<nat>)
    requires longer == s + [x]
    ensures Total(longer) == Total(s) + x
  {
    assert longer[..|longer| - 1] == s;
  }

  lemma TotalOfFour(a: nat, b: nat, c: nat, d: nat)
    ensures Total([a, b, c, d]) == a + b + c + d
  {
    TotalPush([], a, [a]);
    TotalPush([a], b, [a, b]);
    TotalPush([a, b], c, [a, b, c]);
    TotalPush([a, b, c], d, [a, b, c, d]);
  }

  lemma TotalOfSix(a: nat, b: nat, c: nat, d: nat, e: nat, f: nat)
    ensures Total([a, b, c, d, e, f]) == a + b + c + d + e + f
  {
    TotalOfFour(a, b, c, d);
    TotalPush([a, b, c, d], e, [a, b, c, d, e]);
    TotalPush([a, b, c, d, e], f, [a, b, c, d, e, f]);
  }

  /** A candidate is charged its text, its two table entries and 32 bytes on top. */
  lemma CandidateCharge(p: Platform, c: Tokenized)
    ensures Total(CandidateParts(p, c)) == p.candidateSize + p.offsetEntrySize + CandidateText(c) + 32
  {
    var d := c.candidate;
    var bvid := if d.identity.bvid.Some? then |d.identity.bvid.value| else 0;
    TotalOfSix(p.candidateSize, |c.token|, |c.token|, p.offsetEntrySize, |d.selectionId|, |d.title|);
    TotalOfSix(|d.subtitle|, |d.sourceKind|, |d.contentId|, |d.coverUri|, bvid, 32);
    TotalAppend([p.candidateSize, |c.token|, |c.token|, p.offsetEntrySize, |d.selectionId|, |d.title|],
                [|d.subtitle|, |d.sourceKind|, |d.contentId|, |d.coverUri|, bvid, 32]);
    assert CandidateParts(p, c)
        == [p.candidateSize, |c.token|, |c.token|, p.offsetEntrySize, |d.selectionId|, |d.title|]
           + [|d.subtitle|, |d.sourceKind|, |d.contentId|, |d.coverUri|, bvid, 32];
  }

  lemma HeaderCharge(view: SessionView, snapshotId: Text, options: Option<PlaybackOptions>)
    ensures Total(HeaderParts(view, snapshotId, options, view.context))
            == ViewText(view) + |snapshotId| + (if options.Some? then |options.value.encoded| else 0)
  {
    var o, c := EncodedOptions(options), EncodedContext(view.context);
    TotalOfSix(|view.id|, |view.source|, |view.title|, |view.sourceKind|, |view.defaultToken|, |snapshotId|);
    TotalOfFour(o, c, |view.id|, |view.id|);
    TotalAppend([|view.id|, |view.source|, |view.title|, |view.sourceKind|, |view.defaultToken|, |snapshotId|],
                [o, c, |view.id|, |view.id|]);
    assert HeaderParts(view, snapshotId, options, view.context)
        == [|view.id|, |view.source|, |view.title|, |view.sourceKind|, |view.defaultToken|, |snapshotId|]
           + [o, c, |view.id|, |view.id|];
  }

  lemma {:induction false} CandidatesCharge(p: Platform, cs: seq<Tokenized>)
    ensures CandidatesTotal(p, cs) == CandidatesOwned(p, cs) + 32 * |cs|
  {
    if cs != [] {
      CandidatesCharge(p, cs[..|cs| - 1]);
      CandidateCharge(p, cs[|cs| - 1]);
    }
  }

  lemma OneMore(a: nat, n: nat)
    ensures a * n + a == a * (n + 1)
  {
  }

  /** The cursors there are cost no more than one at every offset but the first, with 64 bytes each on top. */
  lemma {:induction false} CursorsCharge(p: Platform, s: Session, n: nat)
    requires forall offset :: offset in s.pageTokens ==> offset > 0 && |s.pageTokens[offset]| == 46
    ensures CursorsOwned(p, s, n) <= CursorReservation(p, s.view, s.snapshotId, SaturatingSub(n, 1))
  {
    if n >= 2 {
      CursorsCharge(p, s, n - 1);
      OneMore(CursorBytes(p, s.view, s.snapshotId), n - 2);
    } else if n == 1 {
      assert CursorsOwned(p, s, 0) == 0;
    }
  }

  /** No session owns more than the estimate, however many of its cursors exist. */
  lemma SessionStaysWithinEstimate(p: Platform, s: Session)
    requires forall offset :: offset in s.pageTokens ==> offset > 0 && |s.pageTokens[offset]| == 46
    requires s.estimatedBytes == SessionBytes(p, s.view, s.snapshotId, s.options, s.view.context, s.candidates)
    ensures Owned(p, s) <= s.estimatedBytes
  {
    HeaderCharge(s.view, s.snapshotId, s.options);
    CandidatesCharge(p, s.candidates);
    CursorsCharge(p, s, |s.candidates|);
  }

  // ---------------------------------------------------------------- what a longer text costs

  datatype Field =
    | SelectionIdField | TitleField | SubtitleField | SourceKindField | ContentIdField | CoverUriField | BvidField

  /** The candidate with another text in that field. */
  function WithText(c: Candidate, f: Field, t: Text): Candidate {
    match f
    case SelectionIdField => c.(selectionId := t)
    case TitleField => c.(title := t)
    case SubtitleField => c.(subtitle := t)
    case SourceKindField => c.(sourceKind := t)
    case ContentIdField => c.(contentId := t)
    case CoverUriField => c.(coverUri := t)
    case BvidField => c.(identity := c.identity.(bvid := Some(t)))
  }

  function TextOf(c: Candidate, f: Field): Text {
    match f
    case SelectionIdField => c.selectionId
    case TitleField => c.title
    case SubtitleField => c.subtitle
    case SourceKindField => c.sourceKind
    case ContentIdField => c.contentId
    case CoverUriField => c.coverUri
    case BvidField => if c.identity.bvid.Some? then c.identity.bvid.value else ""
  }

  lemma {:induction false} OtherCandidate(p: Platform, cs: seq<Tokenized>, i: nat, c: Tokenized)
    requires i < |cs|
    ensures CandidatesTotal(p, cs[i := c]) - CandidatesTotal(p, cs) == CandidateText(c) - CandidateText(cs[i])
  {
    var n := |cs| - 1;
    CandidateCharge(p, cs[n]);
    if i == n {
      CandidateCharge(p, c);
      assert cs[i := c][..n] == cs[..n];
    } else {
      OtherCandidate(p, cs[..n], i, c);
      assert cs[i := c][..n] == cs[..n][i := c];
    }
  }

  lemma EstimateChange(p: Platform, view: SessionView, snapshotId: Text, options: Option<PlaybackOptions>,
                       context: Option<RequestContext>, cs: seq<Tokenized>, i: nat, c: Tokenized)
    requires i < |cs|
    ensures SessionBytes(p, view, snapshotId, options, context, cs[i := c])
            == SessionBytes(p, view, snapshotId, options, context, cs) + CandidateText(c) - CandidateText(cs[i])
  {
    OtherCandidate(p, cs, i, c);
  }

  lemma FieldChange(c: Tokenized, f: Field, t: Text)
    ensures CandidateText(c.(candidate := WithText(c.candidate, f, t)))
            == CandidateText(c) + |t| - |TextOf(c.candidate, f)|
  {
  }

  /** Another text for one field of one candidate changes the estimate by exactly the difference in length, and another
      token by twice that. */
  lemma LongerTextCostsMore(p: Platform, view: SessionView, snapshotId: Text, options: Option<PlaybackOptions>,
                            context: Option<RequestContext>, cs: seq<Tokenized>, i: nat, f: Field, t: Text)
    requires i < |cs|
    ensures var c := cs[i].(candidate := WithText(cs[i].candidate, f, t));
      SessionBytes(p, view, snapshotId, options, context, cs[i := c])
      == SessionBytes(p, view, snapshotId, options, context, cs) + |t| - |TextOf(cs[i].candidate, f)|
    ensures var c := cs[i].(token := t);
      SessionBytes(p, view, snapshotId, options, context, cs[i := c])
      == SessionBytes(p, view, snapshotId, options, context, cs) + 2 * |t| - 2 * |cs[i].token|
  {
    EstimateChange(p, view, snapshotId, options, context, cs, i, cs[i].(candidate := WithText(cs[i].candidate, f, t)));
    FieldChange(cs[i], f, t);
    EstimateChange(p, view, snapshotId, options, context, cs, i, cs[i].(token := t));
  }
}
