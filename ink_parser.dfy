/**
 * The Inkling file editor of `ink_parser.py`. An Inkling file is a list of
 * lines; it is cut into chunks at every line whose stripped form starts with
 * `##`, one chunk is rewritten, and the chunks are flattened back into lines.
 */
module InkParser {
  import opened Wrappers
  import opened Strings
  import opened Seqs

  /** A line that opens a new chunk. */
  predicate IsHeader(l: string) {
    StartsWith(Strip(l), "##")
  }

  /** `[l for sl in chunks for l in sl]`. */
  function Flatten(cs: seq<seq<string>>): seq<string>
    decreases |cs|
  {
    if cs == [] then [] else Flatten(cs[..|cs| - 1]) + cs[|cs| - 1]
  }

  lemma {:induction false} FlattenAppend(a: seq<seq<string>>, b: seq<seq<string>>)
    ensures Flatten(a + b) == Flatten(a) + Flatten(b)
    decreases |b|
  {
    if b == [] {
      assert a + b == a;
    } else {
      assert (a + b)[..|a + b| - 1] == a + b[..|b| - 1];
      FlattenAppend(a, b[..|b| - 1]);
    }
  }

  /** The lines of `cs` are those before chunk `m`, then chunk `m`, then those after it. */
  lemma FlattenAround(cs: seq<seq<string>>, m: nat)
    requires m < |cs|
    ensures Flatten(cs) == Flatten(cs[..m]) + cs[m] + Flatten(cs[m + 1..])
  {
    var p := cs[..m + 1];
    assert p[..m] == cs[..m];
    assert Flatten(p) == Flatten(cs[..m]) + cs[m];
    TakeDrop(cs, m + 1);
    FlattenAppend(p, cs[m + 1..]);
  }

  // --- split_on_dhash --------------------------------------------------------

  /**
   * The chunks after reading `xs`: the finished ones and then the open one. A
   * header line starts a new chunk, unless the open chunk is still empty.
   */
  function Chunks(xs: seq<string>): (cs: seq<seq<string>>)
    ensures |cs| >= 1
    decreases |xs|
  {
    if xs == [] then [[]] else Step(Chunks(xs[..|xs| - 1]), xs[|xs| - 1])
  }

  /** The chunks after one more line `l`. */
  function Step(cs: seq<seq<string>>, l: string): (r: seq<seq<string>>)
    requires |cs| >= 1
    ensures |r| >= 1
  {
    var open := cs[|cs| - 1];
    if IsHeader(l) && |open| > 0 then cs + [[l]] else cs[..|cs| - 1] + [open + [l]]
  }

  /** Reading one more line steps the chunks read so far. */
  lemma ChunksStep(xs: seq<string>, l: string)
    ensures Chunks(xs + [l]) == Step(Chunks(xs), l)
  {
    Snoc(xs, l);
  }

  /** Stepping chunks given as the finished ones and the open one. */
  lemma StepSnoc(front: seq<seq<string>>, open: seq<string>, l: string)
    ensures Step(front + [open], l) == if IsHeader(l) && |open| > 0 then front + [open] + [[l]] else front + [open + [l]]
  {
    Snoc(front, open);
  }

  /** `split_on_dhash(inpt)`. */
  method SplitOnDhash(inpt: seq<string>) returns (outputList: seq<seq<string>>)
    ensures outputList == Chunks(inpt)
  {
    outputList := [];
    var chunk: seq<string> := [];
    for i := 0 to |inpt|
      invariant outputList + [chunk] == Chunks(inpt[..i])
    {
      var l := inpt[i];
      assert inpt[..i + 1] == inpt[..i] + [l];
      ChunksStep(inpt[..i], l);
      StepSnoc(outputList, chunk, l);
      ghost var step := Step(outputList + [chunk], l);
      if IsHeader(l) {
        if |chunk| > 0 {
          assert step == outputList + [chunk] + [[l]];
          outputList := outputList + [chunk];
          chunk := [];
          assert chunk + [l] == [l];
        } else {
          assert step == outputList + [chunk + [l]];
        }
        chunk := chunk + [l];
      } else {
        assert step == outputList + [chunk + [l]];
        chunk := chunk + [l];
      }
    }
    assert inpt[..|inpt|] == inpt;
    outputList := outputList + [chunk];
  }

  lemma FlattenSnoc(cs: seq<seq<string>>, c: seq<string>)
    ensures Flatten(cs + [c]) == Flatten(cs) + c
  {
    Snoc(cs, c);
  }

  /** One step adds exactly its line at the end of the flattened chunks. */
  lemma FlattenStep(cs: seq<seq<string>>, l: string)
    requires |cs| >= 1
    ensures Flatten(Step(cs, l)) == Flatten(cs) + [l]
  {
    var n := |cs|;
    var open := cs[n - 1];
    if IsHeader(l) && |open| > 0 {
      FlattenSnoc(cs, [l]);
    } else {
      var front := cs[..n - 1];
      FlattenSnoc(front, open + [l]);
      assert Flatten(cs) == Flatten(front) + open;
      AppendAssoc(Flatten(front), open, [l]);
    }
  }

  /** Flattening the chunks gives back exactly the input lines. */
  lemma {:induction false} ChunksFlatten(xs: seq<string>)
    ensures Flatten(Chunks(xs)) == xs
    decreases |xs|
  {
    if xs != [] {
      var init := xs[..|xs| - 1];
      var l := xs[|xs| - 1];
      ChunksFlatten(init);
      assert xs == init + [l];
      ChunksStep(init, l);
      FlattenStep(Chunks(init), l);
    }
  }

  /** Every chunk after the first begins with a header, and no line after the first of a chunk is a header. */
  predicate WellShaped(cs: seq<seq<string>>) {
    && (forall k :: 0 < k < |cs| ==> |cs[k]| > 0 && IsHeader(cs[k][0]))
    && (forall k, j :: 0 <= k < |cs| && 0 < j < |cs[k]| ==> !IsHeader(cs[k][j]))
  }

  lemma StepShape(cs: seq<seq<string>>, l: string)
    requires |cs| >= 1 && WellShaped(cs)
    ensures WellShaped(Step(cs, l))
  {
    var n := |cs|;
    var open := cs[n - 1];
    var r := Step(cs, l);
    if IsHeader(l) && |open| > 0 {
      assert r == cs + [[l]];
      HeadersOfSnoc(cs, [l]);
    } else {
      assert r == cs[..n - 1] + [open + [l]];
      assert IsHeader(l) ==> n == 1;
      HeadersOfSnoc(cs[..n - 1], open + [l]);
    }
  }

  /** The shape of `front + [last]`, chunk by chunk. */
  lemma HeadersOfSnoc(front: seq<seq<string>>, last: seq<string>)
    requires WellShaped(front)
    requires |front| > 0 ==> |last| > 0 && IsHeader(last[0])
    requires forall j :: 0 < j < |last| ==> !IsHeader(last[j])
    ensures WellShaped(front + [last])
  {
    var r := front + [last];
    assert forall k :: 0 <= k < |front| ==> r[k] == front[k];
    assert r[|front|] == last;
  }

  /** Every chunk is non-empty once there is any input. */
  predicate AllNonEmpty(cs: seq<seq<string>>) {
    forall k :: 0 <= k < |cs| ==> |cs[k]| > 0
  }

  lemma StepNonEmpty(cs: seq<seq<string>>, l: string)
    requires |cs| >= 1 && (AllNonEmpty(cs) || cs == [[]])
    ensures AllNonEmpty(Step(cs, l))
  {
    var n := |cs|;
    if IsHeader(l) && |cs[n - 1]| > 0 {
      NonEmptySnoc(cs, [l]);
    } else {
      NonEmptySnoc(cs[..n - 1], cs[n - 1] + [l]);
    }
  }

  lemma NonEmptySnoc(front: seq<seq<string>>, last: seq<string>)
    requires AllNonEmpty(front) && |last| > 0
    ensures AllNonEmpty(front + [last])
  {
    var r := front + [last];
    assert forall k :: 0 <= k < |front| ==> r[k] == front[k];
  }

  lemma {:induction false} ChunksNonEmpty(xs: seq<string>)
    requires xs != []
    ensures AllNonEmpty(Chunks(xs))
    decreases |xs|
  {
    var init := xs[..|xs| - 1];
    var l := xs[|xs| - 1];
    if init != [] {
      ChunksNonEmpty(init);
    }
    assert xs == init + [l];
    ChunksStep(init, l);
    StepNonEmpty(Chunks(init), l);
  }

  /** The shape of the split. */
  lemma {:induction false} ChunksShape(xs: seq<string>)
    ensures WellShaped(Chunks(xs))
    decreases |xs|
  {
    if xs != [] {
      var init := xs[..|xs| - 1];
      var l := xs[|xs| - 1];
      ChunksShape(init);
      assert xs == init + [l];
      ChunksStep(init, l);
      StepShape(Chunks(init), l);
    }
  }

  // --- add_weight_objective --------------------------------------------------

  /** One line of `add_weight_objective`: a line naming the goal gets its weight set to `weight`. */
  function WeightedLine(l: string, goalName: string, weight: int): string {
    if !Contains(l, goalName) then l
    else if Contains(l, "weight") then DropLast(l, 2) + IntToString(weight) + ":"
    else DropLast(l, 1) + " weight " + IntToString(weight) + ":"
  }

  /** The chunk `add_weight_objective` returns. */
  function WeightedChunk(chunk: seq<string>, goalName: string, weight: int): (r: seq<string>)
    ensures |r| == |chunk|
  {
    seq(|chunk|, i requires 0 <= i < |chunk| => WeightedLine(chunk[i], goalName, weight))
  }

  /** `add_weight_objective(ink_chunk, goal_name, weight_value)`. */
  method AddWeightObjective(inkChunk: seq<string>, goalName: string, weightValue: int) returns (newChunk: seq<string>)
    ensures newChunk == WeightedChunk(inkChunk, goalName, weightValue)
  {
    newChunk := [];
    for i := 0 to |inkChunk|
      invariant |newChunk| == i
      invariant forall j :: 0 <= j < i ==> newChunk[j] == WeightedLine(inkChunk[j], goalName, weightValue)
    {
      var l := inkChunk[i];
      if Contains(l, goalName) {
        if Contains(l, "weight") {
          l := DropLast(l, 2) + IntToString(weightValue) + ":";
        } else {
          var weightStr := " weight " + IntToString(weightValue) + ":";
          l := DropLast(l, 1) + weightStr;
        }
      }
      newChunk := newChunk + [l];
    }
    assert newChunk == WeightedChunk(inkChunk, goalName, weightValue);
  }

  /** A goal line ending in `:` without a weight gets ` weight w:` in place of the colon. */
  lemma FirstWeighting(p: string, goalName: string, weight: int)
    requires Contains(p, goalName) && !Contains(p + ":", "weight")
    ensures WeightedLine(p + ":", goalName, weight) == p + " weight " + IntToString(weight) + ":"
  {
    ContainsExtendRight(p, ":", goalName);
    assert DropLast(p + ":", 1) == p;
  }

  /** Re-weighting a line whose weight is one digit replaces that weight. */
  lemma ReweightOneDigit(p: string, goalName: string, previous: nat, weight: int)
    requires Contains(p, goalName) && Contains(p, "weight") && previous < 10
    ensures WeightedLine(p + NatToString(previous) + ":", goalName, weight) == p + IntToString(weight) + ":"
  {
    var l := p + NatToString(previous) + ":";
    assert l == p + (NatToString(previous) + ":");
    ContainsExtendRight(p, NatToString(previous) + ":", goalName);
    ContainsExtendRight(p, NatToString(previous) + ":", "weight");
    assert DropLast(l, 2) == p;
  }

  /** Re-weighting a line whose weight has two digits keeps the first of them: only the last two characters are cut. */
  lemma ReweightTwoDigits(p: string, goalName: string, previous: nat, weight: int)
    requires Contains(p, goalName) && Contains(p, "weight") && 10 <= previous < 100
    ensures WeightedLine(p + NatToString(previous) + ":", goalName, weight) == p + NatToString(previous / 10) + IntToString(weight) + ":"
  {
    var l := p + NatToString(previous) + ":";
    assert l == p + (NatToString(previous) + ":");
    ContainsExtendRight(p, NatToString(previous) + ":", goalName);
    ContainsExtendRight(p, NatToString(previous) + ":", "weight");
    assert NatToString(previous) == NatToString(previous / 10) + [DigitChar(previous % 10)];
    assert |NatToString(previous / 10)| == 1;
    assert DropLast(l, 2) == p + NatToString(previous / 10);
  }

  // --- adjust_weight_objectives ----------------------------------------------

  /** `any(needle in line for line in chunk)`. */
  predicate AnyContains(chunk: seq<string>, needle: string) {
    exists i :: 0 <= i < |chunk| && Contains(chunk[i], needle)
  }

  /** A chunk in which every needle occurs on some line. */
  predicate Matches(chunk: seq<string>, needles: seq<string>) {
    forall j :: 0 <= j < |needles| ==> AnyContains(chunk, needles[j])
  }

  /** The index the enumerate loops leave in `match_index`: the last matching chunk, or -1. */
  function LastMatch(cs: seq<seq<string>>, needles: seq<string>): (m: int)
    ensures -1 <= m < |cs|
    decreases |cs|
  {
    if cs == [] then -1
    else if Matches(cs[|cs| - 1], needles) then |cs| - 1
    else LastMatch(cs[..|cs| - 1], needles)
  }

  /** `LastMatch` is a matching chunk with no matching chunk after it, or -1 when no chunk matches. */
  lemma {:induction false} LastMatchIsLast(cs: seq<seq<string>>, needles: seq<string>)
    ensures var m := LastMatch(cs, needles);
      (m >= 0 ==> Matches(cs[m], needles)) && forall e :: m < e < |cs| ==> !Matches(cs[e], needles)
    decreases |cs|
  {
    if cs != [] && !Matches(cs[|cs| - 1], needles) {
      var init := cs[..|cs| - 1];
      LastMatchIsLast(init, needles);
      assert forall e :: 0 <= e < |init| ==> init[e] == cs[e];
    }
  }

  /** The match index after one more chunk. */
  lemma LastMatchSnoc(cs: seq<seq<string>>, c: seq<string>, needles: seq<string>)
    ensures LastMatch(cs + [c], needles) == if Matches(c, needles) then |cs| else LastMatch(cs, needles)
  {
    Snoc(cs, c);
  }

  function GoalNeedles(): seq<string> {
    ["goal ("]
  }

  lemma GoalMatches(chunk: seq<string>)
    ensures Matches(chunk, GoalNeedles()) <==> AnyContains(chunk, "goal (")
  {
    assert GoalNeedles()[0] == "goal (";
  }

  datatype InkError =
    /** `ink_c` is read before any assignment: a goal chunk exists but no weights were given. */
    | UnboundChunk

  /** What `adjust_weight_objectives` returns, with `goal_weights` as its list of items in order. */
  function AdjustedWeights(inkLines: seq<string>, goalWeights: seq<(string, int)>): Result<seq<string>, InkError> {
    var cs := Chunks(inkLines);
    var m := LastMatch(cs, GoalNeedles());
    if m == -1 then Ok(Flatten(cs))
    else if goalWeights == [] then Err(UnboundChunk)
    else
      var last := goalWeights[|goalWeights| - 1];
      Ok(Flatten(cs[m := WeightedChunk(cs[m], last.0, last.1)]))
  }

  /** `adjust_weight_objectives(ink_lines, goal_weights)`. */
  method AdjustWeightObjectives(inkLines: seq<string>, goalWeights: seq<(string, int)>) returns (r: Result<seq<string>, InkError>)
    ensures r == AdjustedWeights(inkLines, goalWeights)
  {
    var inkChunks := SplitOnDhash(inkLines);
    var matchIndex := -1;
    var inkC: Option<seq<string>> := None;
    for e := 0 to |inkChunks|
      invariant matchIndex == LastMatch(inkChunks[..e], GoalNeedles())
      invariant matchIndex == -1 || goalWeights == [] ==> inkC.None?
      invariant matchIndex != -1 && goalWeights != [] ==>
        inkC == Some(WeightedChunk(inkChunks[matchIndex], goalWeights[|goalWeights| - 1].0, goalWeights[|goalWeights| - 1].1))
    {
      var inkL := inkChunks[e];
      assert inkChunks[..e + 1] == inkChunks[..e] + [inkL];
      LastMatchSnoc(inkChunks[..e], inkL, GoalNeedles());
      GoalMatches(inkL);
      if AnyContains(inkL, "goal (") {
        matchIndex := e;
        ghost var before := inkC;
        for j := 0 to |goalWeights|
          invariant inkC == if j == 0 then before else Some(WeightedChunk(inkL, goalWeights[j - 1].0, goalWeights[j - 1].1))
        {
          var c := AddWeightObjective(inkL, goalWeights[j].0, goalWeights[j].1);
          inkC := Some(c);
        }
      }
    }
    assert inkChunks[..|inkChunks|] == inkChunks;
    assert matchIndex == LastMatch(Chunks(inkLines), GoalNeedles());
    if matchIndex != -1 {
      if inkC.None? {
        return Err(UnboundChunk);
      }
      inkChunks := inkChunks[matchIndex := inkC.value];
    }
    r := Ok(Flatten(inkChunks));
  }

  /** Without a goal chunk the lines come back unchanged. */
  lemma NoGoalLeavesLines(inkLines: seq<string>, goalWeights: seq<(string, int)>)
    requires LastMatch(Chunks(inkLines), GoalNeedles()) == -1
    ensures AdjustedWeights(inkLines, goalWeights) == Ok(inkLines)
  {
    ChunksFlatten(inkLines);
  }

  /** The one error: a goal chunk exists and there are no weights to apply. */
  lemma AdjustedWeightsFails(inkLines: seq<string>, goalWeights: seq<(string, int)>)
    ensures AdjustedWeights(inkLines, goalWeights).Err? <==>
      (exists e :: 0 <= e < |Chunks(inkLines)| && AnyContains(Chunks(inkLines)[e], "goal (")) && goalWeights == []
  {
    var cs := Chunks(inkLines);
    var m := LastMatch(cs, GoalNeedles());
    LastMatchIsLast(cs, GoalNeedles());
    if m >= 0 {
      GoalMatches(cs[m]);
      assert exists e :: 0 <= e < |Chunks(inkLines)| && AnyContains(Chunks(inkLines)[e], "goal (");
    } else {
      forall e | 0 <= e < |cs|
        ensures !AnyContains(cs[e], "goal (")
      {
        GoalMatches(cs[e]);
      }
    }
  }

  /** Only the last weight of `goal_weights` takes effect: each is applied to the original chunk. */
  lemma OnlyLastWeightCounts(inkLines: seq<string>, goalWeights: seq<(string, int)>)
    requires goalWeights != []
    ensures AdjustedWeights(inkLines, goalWeights) == AdjustedWeights(inkLines, [goalWeights[|goalWeights| - 1]])
  {
  }

  /**
   * With a goal chunk and some weights, the result has as many lines as the
   * input; the lines of the last goal chunk are re-weighted with the last
   * weight; every other line is kept in place.
   */
  lemma WeightsChangeOnlyLastGoalChunk(inkLines: seq<string>, goalWeights: seq<(string, int)>)
    requires LastMatch(Chunks(inkLines), GoalNeedles()) >= 0 && goalWeights != []
    ensures var cs := Chunks(inkLines);
      var m := LastMatch(cs, GoalNeedles());
      var start := |Flatten(cs[..m])|;
      var last := goalWeights[|goalWeights| - 1];
      var r := AdjustedWeights(inkLines, goalWeights);
      r.Ok? && |r.value| == |inkLines| &&
      forall i :: 0 <= i < |inkLines| ==>
        r.value[i] == if start <= i < start + |cs[m]| then WeightedLine(inkLines[i], last.0, last.1) else inkLines[i]
  {
    var cs := Chunks(inkLines);
    var m := LastMatch(cs, GoalNeedles());
    var last := goalWeights[|goalWeights| - 1];
    var a, b := Flatten(cs[..m]), Flatten(cs[m + 1..]);
    WeightsAround(inkLines, goalWeights);
    WeightedMiddle(a, cs[m], b, last.0, last.1);
  }

  /** The adjusted lines are the lines before and after the last goal chunk around its weighted copy. */
  lemma WeightsAround(inkLines: seq<string>, goalWeights: seq<(string, int)>)
    requires LastMatch(Chunks(inkLines), GoalNeedles()) >= 0 && goalWeights != []
    ensures var cs := Chunks(inkLines);
      var m := LastMatch(cs, GoalNeedles());
      var last := goalWeights[|goalWeights| - 1];
      inkLines == Flatten(cs[..m]) + cs[m] + Flatten(cs[m + 1..]) &&
      AdjustedWeights(inkLines, goalWeights)
        == Ok(Flatten(cs[..m]) + WeightedChunk(cs[m], last.0, last.1) + Flatten(cs[m + 1..]))
  {
    var cs := Chunks(inkLines);
    var m := LastMatch(cs, GoalNeedles());
    var last := goalWeights[|goalWeights| - 1];
    ChunksFlatten(inkLines);
    FlattenAround(cs, m);
    FlattenReplace(cs, m, WeightedChunk(cs[m], last.0, last.1));
  }

  lemma WeightedMiddle(a: seq<string>, x: seq<string>, b: seq<string>, goalName: string, weight: int)
    ensures |a + WeightedChunk(x, goalName, weight) + b| == |a + x + b|
    ensures forall i :: 0 <= i < |a + x + b| ==>
      (a + WeightedChunk(x, goalName, weight) + b)[i]
        == if |a| <= i < |a| + |x| then WeightedLine((a + x + b)[i], goalName, weight) else (a + x + b)[i]
  {
    var y := WeightedChunk(x, goalName, weight);
    ReplaceMiddle(a, x, y, b);
  }

  lemma FlattenReplace(cs: seq<seq<string>>, m: nat, c: seq<string>)
    requires m < |cs|
    ensures Flatten(cs[m := c]) == Flatten(cs[..m]) + c + Flatten(cs[m + 1..])
  {
    var cs' := cs[m := c];
    FlattenAround(cs', m);
    assert cs'[..m] == cs[..m];
    assert cs'[m + 1..] == cs[m + 1..];
  }

  /** Lines of `a + y + b` against those of `a + x + b`, when `y` takes the place of `x`. */
  lemma ReplaceMiddle(a: seq<string>, x: seq<string>, y: seq<string>, b: seq<string>)
    requires |x| == |y|
    ensures |a + y + b| == |a + x + b|
    ensures forall i :: 0 <= i < |a + x + b| ==>
      (a + y + b)[i] == if |a| <= i < |a| + |x| then y[i - |a|] else (a + x + b)[i]
    ensures forall i :: |a| <= i < |a| + |x| ==> (a + x + b)[i] == x[i - |a|]
  {
  }

  // --- adjust_training_params and adjust_algorithm_params ----------------------

  /** `len(l) - len(l.strip())`: the whitespace around the chunk's first line. */
  function Indent(l: string): nat {
    StripSpec(l);
    |l| - |Strip(l)|
  }

  /** One parameter line: `k: v`, indented, with a comma unless `k` is the last key. */
  function ParamLine(ws: int, k: string, v: string, lastKey: string): string {
    Spaces(ws) + k + ": " + v + (if k != lastKey then "," else "")
  }

  /** The lines the `for k, v in params.items()` loop appends for one matching chunk. */
  function ParamLines(params: seq<(string, string)>, ws: int): (r: seq<string>)
    ensures |r| == |params|
  {
    seq(|params|, i requires 0 <= i < |params| => ParamLine(ws, params[i].0, params[i].1, params[|params| - 1].0))
  }

  /** The parameter lines appended over all matching chunks, in order; the list is not reset between matches. */
  function Accumulated(cs: seq<seq<string>>, needles: seq<string>, params: seq<(string, string)>): seq<string>
    requires |needles| > 0
    decreases |cs|
  {
    if cs == [] then []
    else
      var c := cs[|cs| - 1];
      Accumulated(cs[..|cs| - 1], needles, params)
        + if Matches(c, needles) then MatchedChunkNonEmpty(c, needles); ParamLines(params, Indent(c[0]) + 4) else []
  }

  /** The final `white_space - 4`: the indent of the first line of the last matching chunk, or 0. */
  function BlockIndent(cs: seq<seq<string>>, needles: seq<string>): int
    requires |needles| > 0
    decreases |cs|
  {
    if cs == [] then 0
    else
      var c := cs[|cs| - 1];
      if Matches(c, needles) then MatchedChunkNonEmpty(c, needles); Indent(c[0])
      else BlockIndent(cs[..|cs| - 1], needles)
  }

  /** `BlockIndent` is read off the chunk `LastMatch` picks. */
  lemma {:induction false} BlockIndentOfLastMatch(cs: seq<seq<string>>, needles: seq<string>)
    requires |needles| > 0
    ensures var m := LastMatch(cs, needles);
      m >= 0 ==> |cs[m]| > 0 && BlockIndent(cs, needles) == Indent(cs[m][0])
    ensures LastMatch(cs, needles) == -1 ==> BlockIndent(cs, needles) == 0
    decreases |cs|
  {
    if cs != [] && !Matches(cs[|cs| - 1], needles) {
      var init := cs[..|cs| - 1];
      BlockIndentOfLastMatch(init, needles);
      var m := LastMatch(init, needles);
      if m >= 0 {
        assert cs[m] == init[m];
      }
    } else if cs != [] {
      MatchedChunkNonEmpty(cs[|cs| - 1], needles);
    }
  }

  /** The header lines, each indented by `pad` spaces. */
  function Padded(headers: seq<string>, pad: int): (r: seq<string>)
    ensures |r| == |headers|
  {
    seq(|headers|, i requires 0 <= i < |headers| => Spaces(pad) + headers[i])
  }

  /** The block that replaces the last matching chunk: the indented headers, the accumulated parameter lines and a closing brace. */
  function NewBlock(cs: seq<seq<string>>, needles: seq<string>, headers: seq<string>, params: seq<(string, string)>): seq<string>
    requires |needles| > 0
  {
    var pad := BlockIndent(cs, needles);
    Padded(headers, pad) + Accumulated(cs, needles, params) + [Spaces(pad) + "}"]
  }

  /** What `adjust_training_params` and `adjust_algorithm_params` return, for their headers and needles. */
  function AdjustedBlock(inkLines: seq<string>, params: seq<(string, string)>, headers: seq<string>, needles: seq<string>): seq<string>
    requires |needles| > 0
  {
    var cs := Chunks(inkLines);
    var m := LastMatch(cs, needles);
    if m == -1 then Flatten(cs) else Flatten(cs[m := NewBlock(cs, needles, headers, params)])
  }

  /** A chunk in which some needle occurs is not empty, so its first line exists. */
  lemma MatchedChunkNonEmpty(chunk: seq<string>, needles: seq<string>)
    requires |needles| > 0 && Matches(chunk, needles)
    ensures |chunk| > 0
  {
    assert AnyContains(chunk, needles[0]);
  }

  /** `BlockIndent` after one more chunk. */
  lemma BlockIndentSnoc(cs: seq<seq<string>>, c: seq<string>, needles: seq<string>)
    requires |needles| > 0
    ensures Matches(c, needles) ==> |c| > 0
    ensures BlockIndent(cs + [c], needles) == if Matches(c, needles) then Indent(c[0]) else BlockIndent(cs, needles)
  {
    Snoc(cs, c);
    if Matches(c, needles) {
      MatchedChunkNonEmpty(c, needles);
    }
  }

  /** `Accumulated` after one more chunk. */
  lemma AccumulatedSnoc(cs: seq<seq<string>>, c: seq<string>, needles: seq<string>, params: seq<(string, string)>)
    requires |needles| > 0
    ensures Matches(c, needles) ==> |c| > 0
    ensures Accumulated(cs + [c], needles, params)
      == Accumulated(cs, needles, params) + if Matches(c, needles) then ParamLines(params, Indent(c[0]) + 4) else []
  {
    Snoc(cs, c);
    if Matches(c, needles) {
      MatchedChunkNonEmpty(c, needles);
    }
  }

  /** The line the inner loop builds for item `j` extends the parameter lines built so far. */
  lemma ParamLinesPrefix(params: seq<(string, string)>, ws: int, j: nat, l: string)
    requires j < |params|
    requires l == if params[j].0 != params[|params| - 1].0 then Spaces(ws) + params[j].0 + ": " + params[j].1 + ","
      else Spaces(ws) + params[j].0 + ": " + params[j].1
    ensures ParamLines(params, ws)[..j + 1] == ParamLines(params, ws)[..j] + [l]
  {
    var lines := ParamLines(params, ws);
    assert l == lines[j];
  }

  /** The inner `for k, v in params.items()` loop: one line per item appended to `newParams`. */
  method AppendParamLines(newParams: seq<string>, params: seq<(string, string)>, whiteSpace: int) returns (r: seq<string>)
    ensures r == newParams + ParamLines(params, whiteSpace)
  {
    r := newParams;
    ghost var lines := ParamLines(params, whiteSpace);
    for j := 0 to |params|
      invariant r == newParams + lines[..j]
    {
      var k, v := params[j].0, params[j].1;
      var l;
      if k != params[|params| - 1].0 {
        l := Spaces(whiteSpace) + k + ": " + v + ",";
      } else {
        l := Spaces(whiteSpace) + k + ": " + v;
      }
      ParamLinesPrefix(params, whiteSpace, j, l);
      r := r + [l];
    }
    assert lines[..|params|] == lines;
  }

  /**
   * The scan of `adjust_training_params` / `adjust_algorithm_params` over the
   * chunks: the index of the last matching chunk, the indentation (plus four)
   * of its first line, and the header lines followed by one rendered parameter
   * list per matching chunk.
   */
  method ScanBlocks(inkChunks: seq<seq<string>>, params: seq<(string, string)>, headers: seq<string>, needles: seq<string>)
    returns (matchIndex: int, whiteSpace: int, newParams: seq<string>)
    requires |needles| > 0
    ensures matchIndex == LastMatch(inkChunks, needles)
    ensures whiteSpace == BlockIndent(inkChunks, needles) + 4
    ensures newParams == headers + Accumulated(inkChunks, needles, params)
  {
    matchIndex := -1;
    newParams := headers;
    whiteSpace := 4;
    for e := 0 to |inkChunks|
      invariant matchIndex == LastMatch(inkChunks[..e], needles)
      invariant whiteSpace == BlockIndent(inkChunks[..e], needles) + 4
      invariant newParams == headers + Accumulated(inkChunks[..e], needles, params)
    {
      var inkL := inkChunks[e];
      assert inkChunks[..e + 1] == inkChunks[..e] + [inkL];
      LastMatchSnoc(inkChunks[..e], inkL, needles);
      BlockIndentSnoc(inkChunks[..e], inkL, needles);
      AccumulatedSnoc(inkChunks[..e], inkL, needles, params);
      ghost var acc := Accumulated(inkChunks[..e], needles, params);
      if Matches(inkL, needles) {
        matchIndex := e;
        whiteSpace := Indent(inkL[0]) + 4;
        AppendAssoc(headers, acc, ParamLines(params, whiteSpace));
        newParams := AppendParamLines(newParams, params, whiteSpace);
      } else {
        assert acc + [] == acc;
      }
    }
    assert inkChunks[..|inkChunks|] == inkChunks;
  }

  method AdjustBlock(inkLines: seq<string>, params: seq<(string, string)>, headers: seq<string>, needles: seq<string>)
    returns (r: seq<string>)
    requires |needles| > 0
    ensures r == AdjustedBlock(inkLines, params, headers, needles)
  {
    var inkChunks := SplitOnDhash(inkLines);
    var matchIndex, whiteSpace, newParams := ScanBlocks(inkChunks, params, headers, needles);
    var pad := whiteSpace - 4;
    DropPrefix(headers, Accumulated(inkChunks, needles, params));
    var closeParams := Spaces(pad) + "}";
    newParams := Padded(headers, pad) + newParams[|headers|..];
    newParams := newParams + [closeParams];
    assert newParams == NewBlock(inkChunks, needles, headers, params);
    if matchIndex != -1 {
      inkChunks := inkChunks[matchIndex := newParams];
    }
    r := Flatten(inkChunks);
  }

  function TrainingHeaders(trainingSection: string): seq<string> {
    [trainingSection, "training {"]
  }

  function TrainingNeedles(trainingSection: string): seq<string> {
    ["training {", trainingSection]
  }

  /** `adjust_training_params(ink_lines, train_params, training_section)`, with the parameter values already rendered by `str`. */
  method AdjustTrainingParams(inkLines: seq<string>, trainParams: seq<(string, string)>, trainingSection: string)
    returns (r: seq<string>)
    ensures r == AdjustedBlock(inkLines, trainParams, TrainingHeaders(trainingSection), TrainingNeedles(trainingSection))
  {
    r := AdjustBlock(inkLines, trainParams, TrainingHeaders(trainingSection), TrainingNeedles(trainingSection));
  }

  function AlgorithmHeaders(): seq<string> {
    ["algorithm {"]
  }

  /** `adjust_algorithm_params(ink_lines, algo_params)`. */
  method AdjustAlgorithmParams(inkLines: seq<string>, algoParams: seq<(string, string)>) returns (r: seq<string>)
    ensures r == AdjustedBlock(inkLines, algoParams, AlgorithmHeaders(), AlgorithmHeaders())
  {
    r := AdjustBlock(inkLines, algoParams, AlgorithmHeaders(), AlgorithmHeaders());
  }

  /** Without a matching chunk the lines come back unchanged. */
  lemma NoBlockLeavesLines(inkLines: seq<string>, params: seq<(string, string)>, headers: seq<string>, needles: seq<string>)
    requires |needles| > 0
    requires LastMatch(Chunks(inkLines), needles) == -1
    ensures AdjustedBlock(inkLines, params, headers, needles) == inkLines
  {
    ChunksFlatten(inkLines);
  }

  /** With one matching chunk, only that chunk's lines are accumulated. */
  lemma {:induction false} AccumulatedSingle(cs: seq<seq<string>>, needles: seq<string>, params: seq<(string, string)>, m: nat)
    requires |needles| > 0 && m < |cs| && Matches(cs[m], needles)
    requires forall e :: 0 <= e < |cs| && e != m ==> !Matches(cs[e], needles)
    ensures |cs[m]| > 0
    ensures Accumulated(cs, needles, params) == ParamLines(params, Indent(cs[m][0]) + 4)
    decreases |cs|
  {
    MatchedChunkNonEmpty(cs[m], needles);
    if m < |cs| - 1 {
      AccumulatedSingle(cs[..|cs| - 1], needles, params, m);
    } else {
      AccumulatedNone(cs[..|cs| - 1], needles, params);
    }
  }

  lemma {:induction false} AccumulatedNone(cs: seq<seq<string>>, needles: seq<string>, params: seq<(string, string)>)
    requires |needles| > 0
    requires forall e :: 0 <= e < |cs| ==> !Matches(cs[e], needles)
    ensures Accumulated(cs, needles, params) == []
    decreases |cs|
  {
    if cs != [] {
      AccumulatedNone(cs[..|cs| - 1], needles, params);
    }
  }

  /** The last matching chunk is replaced by the new block; the chunks around it are kept. */
  lemma BlockRewrite(inkLines: seq<string>, params: seq<(string, string)>, headers: seq<string>, needles: seq<string>, m: nat)
    requires |needles| > 0 && LastMatch(Chunks(inkLines), needles) == m
    ensures AdjustedBlock(inkLines, params, headers, needles)
      == Flatten(Chunks(inkLines)[..m]) + NewBlock(Chunks(inkLines), needles, headers, params) + Flatten(Chunks(inkLines)[m + 1..])
  {
    FlattenReplace(Chunks(inkLines), m, NewBlock(Chunks(inkLines), needles, headers, params));
  }

  /**
   * With exactly one matching chunk, the new block is the headers indented by
   * the chunk's first-line indent, one parameter line per item at four more
   * spaces, and a closing brace.
   */
  lemma SingleBlock(cs: seq<seq<string>>, params: seq<(string, string)>, headers: seq<string>, needles: seq<string>, m: nat)
    requires |needles| > 0 && m < |cs| && Matches(cs[m], needles)
    requires forall e :: 0 <= e < |cs| && e != m ==> !Matches(cs[e], needles)
    ensures |cs[m]| > 0
    ensures LastMatch(cs, needles) == m
    ensures NewBlock(cs, needles, headers, params) == Block(headers, params, Indent(cs[m][0]))
  {
    MatchedChunkNonEmpty(cs[m], needles);
    LastMatchOfOnly(cs, needles, m);
    BlockIndentOfLastMatch(cs, needles);
    AccumulatedSingle(cs, needles, params, m);
  }

  /** The headers indented by `pad`, one parameter line per item at `pad + 4`, and the closing brace at `pad`. */
  function Block(headers: seq<string>, params: seq<(string, string)>, pad: int): seq<string> {
    Padded(headers, pad) + ParamLines(params, pad + 4) + [Spaces(pad) + "}"]
  }

  /** With exactly one matching chunk, that chunk is the last match. */
  lemma LastMatchOfOnly(cs: seq<seq<string>>, needles: seq<string>, m: nat)
    requires m < |cs| && Matches(cs[m], needles)
    requires forall e :: 0 <= e < |cs| && e != m ==> !Matches(cs[e], needles)
    ensures LastMatch(cs, needles) == m
  {
    LastMatchIsLast(cs, needles);
  }

  /** With distinct keys, every parameter line but the last ends in the separating comma. */
  lemma ParamLinesCommas(params: seq<(string, string)>, ws: int)
    requires forall i, j :: 0 <= i < j < |params| ==> params[i].0 != params[j].0
    ensures forall i :: 0 <= i < |params| ==>
      ParamLines(params, ws)[i] == Spaces(ws) + params[i].0 + ": " + params[i].1 + (if i < |params| - 1 then "," else "")
  {
  }
}
