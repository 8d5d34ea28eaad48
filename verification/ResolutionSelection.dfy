/** Turning a client's selection into offsets of one frozen snapshot. */
module ResolutionSelection {
  import opened Prelude
  import opened ResolutionModel
  import opened ResolutionState

  datatype Selection = Selection(mode: int, tokens: seq<Text>, rangeStart: Text, rangeEnd: Text)

  datatype Mode = Single | Multiple | Range | All

  const MODE_UNSPECIFIED := 0
  const MODE_SINGLE := 1
  const MODE_MULTIPLE := 2
  const MODE_RANGE := 3
  const MODE_ALL := 4

  function FirstTokenError(tokens: seq<Text>): Option<StoreError> {
    if tokens == [] then None
    else if tokens[0] == "" then Some(EmptyToken)
    else if |tokens[0]| > MAX_TOKEN_BYTES then Some(TokenTooLong)
    else FirstTokenError(tokens[1..])
  }

  function ShapeError(sel: Selection): Option<StoreError> {
    if |sel.tokens| > MAX_CANDIDATES then Some(TooManyTokens)
    else if FirstTokenError(sel.tokens).Some? then FirstTokenError(sel.tokens)
    else if |sel.rangeStart| > MAX_TOKEN_BYTES || |sel.rangeEnd| > MAX_TOKEN_BYTES then Some(TokenTooLong)
    else None
  }

  /** `validate_bilibili_resolution_selection` */
  function ValidateSelection(sel: Selection): Result<Mode, StoreError> {
    if ShapeError(sel).Some? then Err(ShapeError(sel).value)
    else if sel.mode == MODE_SINGLE then
      if sel.rangeStart != "" || sel.rangeEnd != "" then Err(RangeTokensNotAllowed)
      else if |sel.tokens| != 1 then Err(SingleNeedsOneToken)
      else Ok(Single)
    else if sel.mode == MODE_MULTIPLE then
      if sel.rangeStart != "" || sel.rangeEnd != "" then Err(RangeTokensNotAllowed)
      else if sel.tokens == [] then Err(MultipleNeedsTokens)
      else if |sel.tokens| > MAX_TASK_CANDIDATES then Err(TaskTooLarge)
      else Ok(Multiple)
    else if sel.mode == MODE_RANGE then
      if sel.tokens != [] || sel.rangeStart == "" || sel.rangeEnd == "" then Err(RangeNeedsEnds)
      else Ok(Range)
    else if sel.mode == MODE_ALL then
      if sel.tokens != [] || sel.rangeStart != "" || sel.rangeEnd != "" then Err(AllTakesNoTokens)
      else Ok(All)
    else if sel.mode == MODE_UNSPECIFIED then Err(ModeRequired)
    else Err(UnknownMode)
  }

  function OffsetOf(s: Session, token: Text): Result<nat, StoreError> {
    if token in s.offsets then Ok(s.offsets[token]) else Err(CandidateTokenUnknown)
  }

  /** The offsets named by `tokens`, in order, failing at the first unknown or repeated one. */
  function ResolveTokens(s: Session, tokens: seq<Text>): Result<seq<nat>, StoreError> {
    if tokens == [] then Ok([])
    else
      var earlier := ResolveTokens(s, tokens[..|tokens| - 1]);
      var last := OffsetOf(s, tokens[|tokens| - 1]);
      if earlier.Err? then earlier
      else if last.Err? then Err(last.error)
      else if last.value in earlier.value then Err(CandidateTokenRepeated)
      else Ok(earlier.value + [last.value])
  }

  function Interval(start: nat, count: nat): seq<nat> {
    seq(count, i => start + i)
  }

  /** `selected_offsets` */
  function SelectedOffsets(s: Session, sel: Selection): Result<seq<nat>, StoreError> {
    var mode := ValidateSelection(sel);
    if mode.Err? then Err(mode.error)
    else
      match mode.value
      case Single =>
        var offset := OffsetOf(s, sel.tokens[0]);
        if offset.Err? then Err(offset.error) else Ok([offset.value])
      case Multiple => ResolveTokens(s, sel.tokens)
      case Range =>
        var start := OffsetOf(s, sel.rangeStart);
        var end := OffsetOf(s, sel.rangeEnd);
        if start.Err? then Err(start.error)
        else if end.Err? then Err(end.error)
        else if start.value > end.value then Err(RangeReversed)
        else if end.value - start.value + 1 > MAX_TASK_CANDIDATES then Err(TaskTooLarge)
        else Ok(Interval(start.value, end.value - start.value + 1))
      case All =>
        if |s.candidates| > MAX_TASK_CANDIDATES then Err(TaskTooLarge)
        else Ok(Interval(0, |s.candidates|))
  }

  /** The token loop of the multiple mode, with its running seen-set. */
  method CollectOffsets(s: Session, tokens: seq<Text>) returns (r: Result<seq<nat>, StoreError>)
    ensures r == ResolveTokens(s, tokens)
  {
    var seen: set<nat> := {};
    var offsets: seq<nat> := [];
    for i := 0 to |tokens|
      invariant ResolveTokens(s, tokens[..i]) == Ok(offsets)
      invariant seen == Elements(offsets)
    {
      assert tokens[..i + 1][..i] == tokens[..i];
      var offset := OffsetOf(s, tokens[i]);
      if offset.Err? {
        FailureSticks(s, tokens, i + 1);
        return Err(offset.error);
      }
      if offset.value in seen {
        FailureSticks(s, tokens, i + 1);
        return Err(CandidateTokenRepeated);
      }
      seen := seen + {offset.value};
      offsets := offsets + [offset.value];
    }
    assert tokens[..|tokens|] == tokens;
    return Ok(offsets);
  }

  /** Once a prefix of the tokens fails, the whole list fails the same way. */
  lemma {:induction false} FailureSticks(s: Session, tokens: seq<Text>, n: nat)
    requires n <= |tokens| && ResolveTokens(s, tokens[..n]).Err?
    ensures ResolveTokens(s, tokens) == ResolveTokens(s, tokens[..n])
    decreases |tokens|
  {
    if n == |tokens| {
      assert tokens[..n] == tokens;
    } else {
      var front := tokens[..|tokens| - 1];
      assert front[..n] == tokens[..n];
      FailureSticks(s, front, n);
    }
  }

  /** Collects `count` consecutive offsets. */
  method CollectInterval(start: nat, count: nat) returns (offsets: seq<nat>)
    ensures offsets == Interval(start, count)
  {
    offsets := [];
    for i := 0 to count
      invariant offsets == Interval(start, i)
    {
      offsets := offsets + [start + i];
    }
  }

  /** `selected_offsets` as the code runs it. */
  method SelectOffsets(s: Session, sel: Selection) returns (r: Result<seq<nat>, StoreError>)
    ensures r == SelectedOffsets(s, sel)
  {
    var mode := ValidateSelection(sel);
    if mode.Err? {
      return Err(mode.error);
    }
    match mode.value {
      case Single =>
        var offset := OffsetOf(s, sel.tokens[0]);
        if offset.Err? {
          return Err(offset.error);
        }
        return Ok([offset.value]);
      case Multiple =>
        r := CollectOffsets(s, sel.tokens);
      case Range =>
        var start := OffsetOf(s, sel.rangeStart);
        if start.Err? {
          return Err(start.error);
        }
        var end := OffsetOf(s, sel.rangeEnd);
        if end.Err? {
          return Err(end.error);
        }
        if start.value > end.value {
          return Err(RangeReversed);
        }
        if end.value - start.value + 1 > MAX_TASK_CANDIDATES {
          return Err(TaskTooLarge);
        }
        var offsets := CollectInterval(start.value, end.value - start.value + 1);
        return Ok(offsets);
      case All =>
        if |s.candidates| > MAX_TASK_CANDIDATES {
          return Err(TaskTooLarge);
        }
        var offsets := CollectInterval(0, |s.candidates|);
        return Ok(offsets);
    }
  }

  // ---------------------------------------------------------------- what a selection means

  /** The offsets of `tokens` in the snapshot, one for one. */
  ghost predicate Names(s: Session, tokens: seq<Text>, offsets: seq<nat>) {
    && |offsets| == |tokens|
    && forall i :: 0 <= i < |tokens| ==> offsets[i] < |s.candidates| && s.candidates[offsets[i]].token == tokens[i]
  }

  ghost predicate HasToken(s: Session, token: Text) {
    exists i :: 0 <= i < |s.candidates| && s.candidates[i].token == token
  }

  /** The tokens are the session's own and none repeats. */
  ghost predicate Resolvable(s: Session, tokens: seq<Text>) {
    NoDuplicates(tokens) && forall i :: 0 <= i < |tokens| ==> HasToken(s, tokens[i])
  }

  lemma ResolvableNext(s: Session, front: seq<Text>, last: Text)
    ensures Resolvable(s, front + [last]) <==> Resolvable(s, front) && HasToken(s, last) && last !in front
  {
    var all := front + [last];
    assert all[|front|] == last && forall i :: 0 <= i < |front| ==> all[i] == front[i];
  }

  lemma NamesNext(s: Session, front: seq<Text>, last: Text, offsets: seq<nat>, offset: nat)
    requires OffsetsInvert(s.candidates, s.offsets) && Names(s, front, offsets) && NoDuplicates(offsets)
    requires last in s.offsets && s.offsets[last] == offset
    ensures offset in offsets <==> last in front
    ensures offset !in offsets ==> Names(s, front + [last], offsets + [offset]) && NoDuplicates(offsets + [offset])
  {
    if offset in offsets {
      var i :| 0 <= i < |offsets| && offsets[i] == offset;
      assert front[i] == last;
    }
    if last in front {
      var i :| 0 <= i < |front| && front[i] == last;
      assert offsets[i] == offset;
    }
  }

  /** A list of tokens resolves exactly when all are the session's own and none repeats. */
  lemma {:induction false} ResolveMeaning(s: Session, tokens: seq<Text>)
    requires OffsetsInvert(s.candidates, s.offsets)
    ensures ResolveTokens(s, tokens).Ok? <==> Resolvable(s, tokens)
    ensures ResolveTokens(s, tokens).Ok? ==>
      Names(s, tokens, ResolveTokens(s, tokens).value) && NoDuplicates(ResolveTokens(s, tokens).value)
  {
    if tokens != [] {
      var front, last := tokens[..|tokens| - 1], tokens[|tokens| - 1];
      assert tokens == front + [last];
      ResolveMeaning(s, front);
      ResolvableNext(s, front, last);
      assert HasToken(s, last) <==> last in s.offsets;
      var earlier := ResolveTokens(s, front);
      if earlier.Ok? && last in s.offsets {
        NamesNext(s, front, last, earlier.value, s.offsets[last]);
      }
    }
  }

  /** The offsets an accepted selection stands for, by mode. */
  ghost predicate Means(s: Session, sel: Selection, offsets: seq<nat>) {
    || (sel.mode == MODE_SINGLE && |sel.tokens| == 1 && Names(s, sel.tokens, offsets))
    || (sel.mode == MODE_MULTIPLE && Names(s, sel.tokens, offsets))
    || (sel.mode == MODE_RANGE && |offsets| > 0
        && (forall i :: 0 <= i < |offsets| ==> offsets[i] == offsets[0] + i)
        && offsets[|offsets| - 1] < |s.candidates|
        && s.candidates[offsets[0]].token == sel.rangeStart
        && s.candidates[offsets[|offsets| - 1]].token == sel.rangeEnd)
    || (sel.mode == MODE_ALL && |offsets| == |s.candidates| && forall i :: 0 <= i < |offsets| ==> offsets[i] == i)
  }

  /**
   An accepted selection yields 1 to 100 distinct offsets of this snapshot: the named one, the named
   ones in request order, the contiguous inclusive range, or all.
   */
  lemma SelectionMeaning(s: Session, sel: Selection)
    requires OffsetsInvert(s.candidates, s.offsets) && s.candidates != []
    requires SelectedOffsets(s, sel).Ok?
    ensures var offsets := SelectedOffsets(s, sel).value;
      && 1 <= |offsets| <= MAX_TASK_CANDIDATES
      && NoDuplicates(offsets)
      && (forall i :: 0 <= i < |offsets| ==> offsets[i] < |s.candidates|)
      && Means(s, sel, offsets)
  {
    var mode := ValidateSelection(sel).value;
    match mode {
      case Multiple => ResolveMeaning(s, sel.tokens);
      case _ =>
    }
  }

  lemma WellFormedAccepted(s: Session, sel: Selection)
    requires OffsetsInvert(s.candidates, s.offsets) && ValidateSelection(sel).Ok?
    ensures SelectedOffsets(s, sel).Ok? <==>
      match ValidateSelection(sel).value
      case Single => HasToken(s, sel.tokens[0])
      case Multiple => Resolvable(s, sel.tokens)
      case Range => (exists i, j :: 0 <= i <= j < |s.candidates| && j - i < MAX_TASK_CANDIDATES
                       && s.candidates[i].token == sel.rangeStart && s.candidates[j].token == sel.rangeEnd)
      case All => |s.candidates| <= MAX_TASK_CANDIDATES
  {
    match ValidateSelection(sel).value {
      case Single => assert HasToken(s, sel.tokens[0]) <==> sel.tokens[0] in s.offsets;
      case Multiple => ResolveMeaning(s, sel.tokens);
      case Range =>
        if SelectedOffsets(s, sel).Ok? {
          var i, j := s.offsets[sel.rangeStart], s.offsets[sel.rangeEnd];
          assert s.candidates[i].token == sel.rangeStart && s.candidates[j].token == sel.rangeEnd;
        }
      case All =>
    }
  }

  /** What a snapshot accepts, mode by mode: one token of its own; 1 to 100 different ones; the two ends of at most 100
      candidates, in order; or nothing named and at most 100 candidates in all. */
  ghost predicate Selects(s: Session, sel: Selection) {
    if sel.mode == 1 then
      |sel.tokens| == 1 && HasToken(s, sel.tokens[0]) && sel.rangeStart == "" && sel.rangeEnd == ""
    else if sel.mode == 2 then
      1 <= |sel.tokens| <= 100 && Resolvable(s, sel.tokens) && sel.rangeStart == "" && sel.rangeEnd == ""
    else if sel.mode == 3 then
      sel.tokens == []
      && exists i, j :: 0 <= i <= j < |s.candidates| && j - i < 100
           && s.candidates[i].token == sel.rangeStart && s.candidates[j].token == sel.rangeEnd
    else
      sel.mode == 4 && sel.tokens == [] && sel.rangeStart == "" && sel.rangeEnd == "" && |s.candidates| <= 100
  }

  lemma {:induction false} OwnTokensWellFormed(s: Session, tokens: seq<Text>)
    requires OwnTokens(s.candidates) && forall i :: 0 <= i < |tokens| ==> HasToken(s, tokens[i])
    ensures FirstTokenError(tokens).None?
  {
    if tokens != [] {
      assert HasToken(s, tokens[0]);
      forall i | 0 <= i < |tokens[1..]| ensures HasToken(s, tokens[1..][i]) {
        assert tokens[1..][i] == tokens[i + 1];
      }
      OwnTokensWellFormed(s, tokens[1..]);
    }
  }

  lemma SelectsIsWellFormed(s: Session, sel: Selection)
    requires OwnTokens(s.candidates) && Selects(s, sel)
    ensures ShapeError(sel).None? && ValidateSelection(sel).Ok?
  {
    if sel.mode == 1 || sel.mode == 2 {
      assert forall i :: 0 <= i < |sel.tokens| ==> HasToken(s, sel.tokens[i]);
    }
    OwnTokensWellFormed(s, sel.tokens);
  }

  /** Exactly these selections are accepted. */
  lemma SelectionAccepted(s: Session, sel: Selection)
    requires OffsetsInvert(s.candidates, s.offsets) && OwnTokens(s.candidates)
    ensures SelectedOffsets(s, sel).Ok? <==> Selects(s, sel)
  {
    if Selects(s, sel) {
      SelectsIsWellFormed(s, sel);
    }
    if ValidateSelection(sel).Ok? {
      WellFormedAccepted(s, sel);
    }
  }

  /** A token the snapshot did not issue is never part of an accepted selection. */
  lemma ForeignTokenRejected(s: Session, sel: Selection, token: Text)
    requires OffsetsInvert(s.candidates, s.offsets) && !HasToken(s, token)
    requires token in sel.tokens || (sel.mode == MODE_RANGE && (token == sel.rangeStart || token == sel.rangeEnd))
    ensures SelectedOffsets(s, sel).Err?
  {
    assert token !in s.offsets;
    if SelectedOffsets(s, sel).Ok? {
      WellFormedAccepted(s, sel);
    }
  }

  /** Selecting a range by the tokens at `from` and `to - 1` yields exactly that slice. */
  lemma RangeSelectsSlice(s: Session, from: nat, to: nat)
    requires OffsetsInvert(s.candidates, s.offsets) && from < to <= |s.candidates| && to - from <= MAX_TASK_CANDIDATES
    requires forall i :: 0 <= i < |s.candidates| ==> 0 < |s.candidates[i].token| <= MAX_TOKEN_BYTES
    ensures SelectedOffsets(s, Selection(MODE_RANGE, [], s.candidates[from].token, s.candidates[to - 1].token))
      == Ok(Interval(from, to - from))
  {
  }
}
