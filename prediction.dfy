/**
 * `MetaICLModel.do_predict`: per-example aggregation of the inference losses
 * into one score per option, and the choice of the option to report.
 */
module Prediction {
  import opened Wrappers
  import opened Strings

  /** One entry of `data.metadata`: the candidate options and, per option, the positions of its items in the loss array. */
  datatype Example = Example(options: seq<string>, indices: seq<seq<int>>)

  /** An entry of the returned list: a bare option string, or the pair `[option, score]`. */
  datatype Prediction = Label(text: string) | Scored(text: string, score: real)

  /** AssertionError from the length check, or IndexError from a subscript out of range (or `sorted([])[0]`). */
  datatype PredictError = LengthMismatch | IndexOutOfRange

  /** A Python (or numpy) subscript `i` of a sequence of length `n`: negative positions count from the end. */
  function PyIndex(n: nat, i: int): (r: Option<nat>)
    ensures r.Some? <==> -(n as int) <= i < n
    ensures r.Some? ==> r.value < n && (r.value == i || r.value == n + i)
  {
    if 0 <= i < n then Some(i as nat) else if -(n as int) <= i < 0 then Some((n + i) as nat) else None
  }

  /** numpy's `losses[idx]` for a list of positions: every position must be in range. */
  function Gather(losses: seq<real>, idx: seq<int>): (r: Option<seq<real>>)
    ensures r.Some? <==> forall j :: 0 <= j < |idx| ==> PyIndex(|losses|, idx[j]).Some?
    ensures r.Some? ==> |r.value| == |idx|
    ensures r.Some? ==> forall j :: 0 <= j < |idx| ==> r.value[j] == losses[PyIndex(|losses|, idx[j]).value]
  {
    if idx == [] then Some([])
    else
      match (PyIndex(|losses|, idx[0]), Gather(losses, idx[1..]))
      case (Some(k), Some(rest)) => Some([losses[k]] + rest)
      case _ => None
  }

  /** `np.sum`; 0.0 for an empty selection. */
  function Sum(xs: seq<real>): real {
    if xs == [] then 0.0 else Sum(xs[..|xs| - 1]) + xs[|xs| - 1]
  }

  /** `curr_label_losses`: for each option, the summed loss of its items; None when numpy raises IndexError. */
  function OptionScores(losses: seq<real>, indices: seq<seq<int>>): (r: Option<seq<real>>)
    ensures r.Some? <==> forall k :: 0 <= k < |indices| ==> Gather(losses, indices[k]).Some?
    ensures r.Some? ==> |r.value| == |indices|
    ensures r.Some? ==> forall k :: 0 <= k < |indices| ==> r.value[k] == Sum(Gather(losses, indices[k]).value)
  {
    if indices == [] then Some([])
    else
      match (Gather(losses, indices[0]), OptionScores(losses, indices[1..]))
      case (Some(g), Some(rest)) => Some([Sum(g)] + rest)
      case _ => None
  }

  /** `enumerate(xs)` as a list of (position, value) pairs. */
  function Enumerate(xs: seq<real>): (r: seq<(nat, real)>)
    ensures |r| == |xs| && forall i :: 0 <= i < |xs| ==> r[i] == (i, xs[i])
  {
    seq(|xs|, i requires 0 <= i < |xs| => (i as nat, xs[i]))
  }

  /** Score `a` sorts strictly before score `b`: ascending, or descending when `descending`. */
  predicate Precedes(a: real, b: real, descending: bool) {
    if descending then a > b else a < b
  }

  /** Puts `p` in front of the first entry of `s` that does not sort strictly before it. */
  function Insert(p: (nat, real), s: seq<(nat, real)>, descending: bool): seq<(nat, real)> {
    if s == [] || !Precedes(s[0].1, p.1, descending) then [p] + s
    else [s[0]] + Insert(p, s[1..], descending)
  }

  /**
   * `sorted(pairs, key=lambda x: x[1], reverse=descending)`: an insertion sort
   * by score that keeps pairs with equal scores in their original order, as
   * Python's sort does in both directions.
   */
  function SortByScore(ps: seq<(nat, real)>, descending: bool): seq<(nat, real)> {
    if ps == [] then [] else Insert(ps[0], SortByScore(ps[1..], descending), descending)
  }

  /** Ordered by score, and by position among equal scores. */
  ghost predicate StablySorted(s: seq<(nat, real)>, descending: bool) {
    forall i, j :: 0 <= i < j < |s| ==>
      Precedes(s[i].1, s[j].1, descending) || (s[i].1 == s[j].1 && s[i].0 < s[j].0)
  }

  ghost predicate PositionsAbove(s: seq<(nat, real)>, bound: int) {
    forall i :: 0 <= i < |s| ==> bound < s[i].0
  }

  lemma {:induction false} InsertKeepsElements(p: (nat, real), s: seq<(nat, real)>, descending: bool)
    ensures multiset(Insert(p, s, descending)) == multiset(s) + multiset{p}
    decreases |s|
  {
    if s != [] && Precedes(s[0].1, p.1, descending) {
      InsertKeepsElements(p, s[1..], descending);
      assert s == [s[0]] + s[1..];
    }
  }

  /** Every pair inserting `p` after the head of `s` yields sorts after that head. */
  lemma HeadPrecedesRest(p: (nat, real), s: seq<(nat, real)>, descending: bool)
    requires s != [] && Precedes(s[0].1, p.1, descending)
    requires StablySorted(s, descending)
    ensures forall x :: x in multiset(s[1..]) + multiset{p} ==>
      Precedes(s[0].1, x.1, descending) || (s[0].1 == x.1 && s[0].0 < x.0)
  {
    var t := s[1..];
    forall x | x in multiset(t) + multiset{p}
      ensures Precedes(s[0].1, x.1, descending) || (s[0].1 == x.1 && s[0].0 < x.0)
    {
      if x != p {
        assert x in t;
        var k :| 0 <= k < |t| && t[k] == x;
        assert s[k + 1] == x;
      }
    }
  }

  /** Putting `p` in front keeps the order when the head does not sort strictly before it. */
  lemma InsertAtFrontKeepsOrder(p: (nat, real), s: seq<(nat, real)>, descending: bool)
    requires StablySorted(s, descending) && PositionsAbove(s, p.0)
    requires s == [] || !Precedes(s[0].1, p.1, descending)
    ensures StablySorted([p] + s, descending)
  {
    var r := [p] + s;
    forall i, j | 0 <= i < j < |r|
      ensures Precedes(r[i].1, r[j].1, descending) || (r[i].1 == r[j].1 && r[i].0 < r[j].0)
    {
      assert r[j] == s[j - 1];
      if i > 0 {
        assert r[i] == s[i - 1];
      } else if j > 1 {
        assert Precedes(s[0].1, s[j - 1].1, descending) || s[0].1 == s[j - 1].1;
      }
    }
  }

  /** A head that sorts before every entry of a sorted sequence keeps it sorted. */
  lemma ConsKeepsOrder(h: (nat, real), rest: seq<(nat, real)>, descending: bool)
    requires StablySorted(rest, descending)
    requires forall k :: 0 <= k < |rest| ==>
      Precedes(h.1, rest[k].1, descending) || (h.1 == rest[k].1 && h.0 < rest[k].0)
    ensures StablySorted([h] + rest, descending)
  {
    var r := [h] + rest;
    forall i, j | 0 <= i < j < |r|
      ensures Precedes(r[i].1, r[j].1, descending) || (r[i].1 == r[j].1 && r[i].0 < r[j].0)
    {
      assert r[j] == rest[j - 1];
      if i > 0 {
        assert r[i] == rest[i - 1];
      }
    }
  }

  /** Inserting behind a head that sorts strictly before `p` keeps the order. */
  lemma InsertBehindKeepsOrder(p: (nat, real), s: seq<(nat, real)>, descending: bool)
    requires StablySorted(s, descending)
    requires s != [] && Precedes(s[0].1, p.1, descending)
    requires StablySorted(Insert(p, s[1..], descending), descending)
    ensures StablySorted(Insert(p, s, descending), descending)
  {
    var rest := Insert(p, s[1..], descending);
    InsertKeepsElements(p, s[1..], descending);
    HeadPrecedesRest(p, s, descending);
    forall k | 0 <= k < |rest|
      ensures Precedes(s[0].1, rest[k].1, descending) || (s[0].1 == rest[k].1 && s[0].0 < rest[k].0)
    {
      assert rest[k] in multiset(rest);
    }
    ConsKeepsOrder(s[0], rest, descending);
  }

  lemma {:induction false} InsertKeepsOrder(p: (nat, real), s: seq<(nat, real)>, descending: bool)
    requires StablySorted(s, descending) && PositionsAbove(s, p.0)
    ensures StablySorted(Insert(p, s, descending), descending)
    decreases |s|
  {
    if s != [] && Precedes(s[0].1, p.1, descending) {
      InsertKeepsOrder(p, s[1..], descending);
      InsertBehindKeepsOrder(p, s, descending);
    } else {
      InsertAtFrontKeepsOrder(p, s, descending);
    }
  }

  /** The sort returns the same pairs it was given. */
  lemma {:induction false} SortKeepsElements(ps: seq<(nat, real)>, descending: bool)
    ensures multiset(SortByScore(ps, descending)) == multiset(ps)
    decreases |ps|
  {
    if ps != [] {
      SortKeepsElements(ps[1..], descending);
      InsertKeepsElements(ps[0], SortByScore(ps[1..], descending), descending);
      assert ps == [ps[0]] + ps[1..];
    }
  }

  /** On pairs listed by increasing position, the sort orders by score and breaks ties by position. */
  lemma {:induction false} SortIsStable(ps: seq<(nat, real)>, descending: bool)
    requires forall i, j :: 0 <= i < j < |ps| ==> ps[i].0 < ps[j].0
    ensures StablySorted(SortByScore(ps, descending), descending)
    decreases |ps|
  {
    if ps != [] {
      var t := ps[1..];
      SortIsStable(t, descending);
      SortKeepsElements(t, descending);
      var s := SortByScore(t, descending);
      forall i | 0 <= i < |s| ensures ps[0].0 < s[i].0 {
        assert s[i] in multiset(t);
        var k :| 0 <= k < |t| && t[k] == s[i];
        assert ps[k + 1] == s[i];
      }
      InsertKeepsOrder(ps[0], s, descending);
    }
  }

  /** `k` is the first position holding the best score: lowest, or highest when `descending`. */
  predicate IsFirstBest(xs: seq<real>, k: int, descending: bool) {
    && 0 <= k < |xs|
    && (forall j :: 0 <= j < |xs| ==> !Precedes(xs[j], xs[k], descending))
    && (forall j :: 0 <= j < k ==> Precedes(xs[k], xs[j], descending))
  }

  /** At most one position is the first best one. */
  lemma FirstBestUnique(xs: seq<real>, k1: int, k2: int, descending: bool)
    requires IsFirstBest(xs, k1, descending) && IsFirstBest(xs, k2, descending)
    ensures k1 == k2
  {
    assert !Precedes(xs[k2], xs[k1], descending) && !Precedes(xs[k1], xs[k2], descending);
  }

  /** `sorted(enumerate(xs), key=lambda x: x[1], reverse=descending)[0]`. */
  function SortedHead(xs: seq<real>, descending: bool): (nat, real)
    requires |xs| > 0
  {
    SortKeepsElements(Enumerate(xs), descending);
    SortByScore(Enumerate(xs), descending)[0]
  }

  /**
   * The head of the stable sort is the first best option, paired with its
   * score: ties go to the lowest position in both directions.
   */
  lemma SortedHeadIsFirstBest(xs: seq<real>, descending: bool)
    requires |xs| > 0
    ensures IsFirstBest(xs, SortedHead(xs, descending).0, descending)
    ensures SortedHead(xs, descending).1 == xs[SortedHead(xs, descending).0]
  {
    var ps := Enumerate(xs);
    var s := SortByScore(ps, descending);
    SortKeepsElements(ps, descending);
    SortIsStable(ps, descending);
    assert s[0] in multiset(ps);
    var h :| 0 <= h < |ps| && ps[h] == s[0];
    forall j | 0 <= j < |xs|
      ensures !Precedes(xs[j], xs[h], descending)
      ensures j < h ==> Precedes(xs[h], xs[j], descending)
    {
      assert ps[j] in multiset(s);
      var i :| 0 <= i < |s| && s[i] == ps[j];
    }
  }

  /** The position `sorted(...)[0][0]` picks. */
  function Selected(scores: seq<real>, descending: bool): nat
    requires |scores| > 0
  {
    SortedHead(scores, descending).0
  }

  /** How many entries one example appends: two when `label_id` is given, one otherwise. */
  function EntriesPerExample(labelId: Option<int>): nat {
    if labelId.Some? then 2 else 1
  }

  /** The `label_id` entry: the option at that subscript, stripped, with its aggregated score. */
  function LabelEntry(ex: Example, scores: seq<real>, target: int): Option<Prediction> {
    match (PyIndex(|ex.options|, target), PyIndex(|scores|, target))
    case (Some(o), Some(s)) => Some(Scored(Strip(ex.options[o]), scores[s]))
    case _ => None
  }

  /**
   * The entry of the selection branch: the option sorted first, bare when
   * `require_loss` is false (always an ascending sort), else with its score
   * (descending when `do_probs`).
   */
  function ChoiceEntry(ex: Example, scores: seq<real>, requireLoss: bool, doProbs: bool): Option<Prediction> {
    if scores == [] then None
    else
      var top := SortedHead(scores, requireLoss && doProbs);
      if top.0 < |ex.options| then
        Some(if requireLoss then Scored(Strip(ex.options[top.0]), top.1) else Label(Strip(ex.options[top.0])))
      else None
  }

  /** The entries one example appends to `predictions`, or the IndexError raised on the way. */
  function PredictExample(losses: seq<real>, ex: Example, labelId: Option<int>, requireLoss: bool, doProbs: bool)
    : (r: Result<seq<Prediction>, PredictError>)
    ensures r.Err? ==> r.error == IndexOutOfRange
    ensures r.Ok? ==> |r.value| == EntriesPerExample(labelId)
  {
    match OptionScores(losses, ex.indices)
    case None => Err(IndexOutOfRange)
    case Some(scores) =>
      if labelId.Some? && LabelEntry(ex, scores, labelId.value).None? then Err(IndexOutOfRange)
      else
        match ChoiceEntry(ex, scores, requireLoss, doProbs)
        case None => Err(IndexOutOfRange)
        case Some(choice) =>
          if labelId.Some? then Ok([LabelEntry(ex, scores, labelId.value).value, choice]) else Ok([choice])
  }

  /**
   * Joins per-example outcomes in order, stopping at the first error: the
   * effect of appending inside a loop that an exception may leave.
   */
  function Collect<T>(outs: seq<Result<seq<T>, PredictError>>): Result<seq<T>, PredictError>
    decreases |outs|
  {
    if outs == [] then Ok([])
    else
      match Collect(outs[..|outs| - 1])
      case Err(e) => Err(e)
      case Ok(done) =>
        match outs[|outs| - 1]
        case Err(e) => Err(e)
        case Ok(ps) => Ok(done + ps)
  }

  /** Every example's outcome, in metadata order. */
  function Outcomes(losses: seq<real>, md: seq<Example>, labelId: Option<int>, requireLoss: bool, doProbs: bool)
    : (outs: seq<Result<seq<Prediction>, PredictError>>)
    ensures |outs| == |md|
  {
    seq(|md|, i requires 0 <= i < |md| => PredictExample(losses, md[i], labelId, requireLoss, doProbs))
  }

  /** The list built from the examples of `md`, or the first IndexError. */
  function PredictEach(losses: seq<real>, md: seq<Example>, labelId: Option<int>, requireLoss: bool, doProbs: bool)
    : Result<seq<Prediction>, PredictError>
  {
    Collect(Outcomes(losses, md, labelId, requireLoss, doProbs))
  }

  /** `do_predict` on the losses `do_inference` returned, with `len(data)` given as `dataLen`. */
  function Predict(losses: seq<real>, dataLen: nat, md: seq<Example>, labelId: Option<int>, requireLoss: bool, doProbs: bool)
    : Result<seq<Prediction>, PredictError>
  {
    if |losses| != dataLen then Err(LengthMismatch) else PredictEach(losses, md, labelId, requireLoss, doProbs)
  }

  // Properties of one example.

  /**
   * With `label_id` given, the first entry is the option at that (Python)
   * subscript, stripped, with the summed loss of that option's items.
   */
  lemma LabelEntryIsOptionLoss(losses: seq<real>, ex: Example, target: int, requireLoss: bool, doProbs: bool)
    requires PredictExample(losses, ex, Some(target), requireLoss, doProbs).Ok?
    ensures PyIndex(|ex.options|, target).Some? && PyIndex(|ex.indices|, target).Some?
    ensures var k := PyIndex(|ex.indices|, target).value;
      Gather(losses, ex.indices[k]).Some? &&
      PredictExample(losses, ex, Some(target), requireLoss, doProbs).value[0]
        == Scored(Strip(ex.options[PyIndex(|ex.options|, target).value]), Sum(Gather(losses, ex.indices[k]).value))
  {
  }

  /**
   * When `require_loss` is false, the last entry is the stripped option whose
   * summed loss is lowest, the first such on ties; this holds for `do_probs`
   * too, where the scores are probabilities and the least likely option wins.
   */
  lemma BareChoiceIsFirstMinimum(losses: seq<real>, ex: Example, labelId: Option<int>, doProbs: bool)
    requires PredictExample(losses, ex, labelId, false, doProbs).Ok?
    ensures OptionScores(losses, ex.indices).Some?
    ensures var scores := OptionScores(losses, ex.indices).value;
      var out := PredictExample(losses, ex, labelId, false, doProbs).value;
      (exists k :: IsFirstBest(scores, k, false)) &&
      forall k :: IsFirstBest(scores, k, false) ==> k < |ex.options| && out[|out| - 1] == Label(Strip(ex.options[k]))
  {
    var scores := OptionScores(losses, ex.indices).value;
    SortedHeadIsFirstBest(scores, false);
    forall k | IsFirstBest(scores, k, false) ensures k == Selected(scores, false) {
      FirstBestUnique(scores, k, Selected(scores, false), false);
    }
  }

  /**
   * When `require_loss` is true, the last entry pairs the stripped option with
   * its score: the first lowest score, or the first highest when `do_probs`.
   */
  lemma ScoredChoiceIsFirstBest(losses: seq<real>, ex: Example, labelId: Option<int>, doProbs: bool)
    requires PredictExample(losses, ex, labelId, true, doProbs).Ok?
    ensures OptionScores(losses, ex.indices).Some?
    ensures var scores := OptionScores(losses, ex.indices).value;
      var out := PredictExample(losses, ex, labelId, true, doProbs).value;
      (exists k :: IsFirstBest(scores, k, doProbs)) &&
      forall k :: IsFirstBest(scores, k, doProbs) ==>
        k < |ex.options| && out[|out| - 1] == Scored(Strip(ex.options[k]), scores[k])
  {
    var scores := OptionScores(losses, ex.indices).value;
    SortedHeadIsFirstBest(scores, doProbs);
    forall k | IsFirstBest(scores, k, doProbs) ensures k == Selected(scores, doProbs) {
      FirstBestUnique(scores, k, Selected(scores, doProbs), doProbs);
    }
  }

  /** Metadata as the data provider builds it: at least one option, one index list per option, every index in range. */
  predicate WellFormedExample(ex: Example, n: nat) {
    && 0 < |ex.indices| == |ex.options|
    && forall k, j :: 0 <= k < |ex.indices| && 0 <= j < |ex.indices[k]| ==> 0 <= ex.indices[k][j] < n
  }

  /** A well-formed example never raises unless `label_id` is out of range. */
  lemma ExampleSucceeds(losses: seq<real>, ex: Example, labelId: Option<int>, requireLoss: bool, doProbs: bool)
    requires WellFormedExample(ex, |losses|) && (labelId.Some? ==> 0 <= labelId.value < |ex.options|)
    ensures PredictExample(losses, ex, labelId, requireLoss, doProbs).Ok?
  {
    forall k | 0 <= k < |ex.indices|
      ensures Gather(losses, ex.indices[k]).Some?
    {
      assert forall j :: 0 <= j < |ex.indices[k]| ==> PyIndex(|losses|, ex.indices[k][j]).Some?;
    }
    var scores := OptionScores(losses, ex.indices).value;
    SortedHeadIsFirstBest(scores, requireLoss && doProbs);
    assert ChoiceEntry(ex, scores, requireLoss, doProbs).Some?;
  }

  /** Conversely, an example that does not raise has options, index lists, and only indices Python accepts. */
  lemma ExampleOkIsWellIndexed(losses: seq<real>, ex: Example, labelId: Option<int>, requireLoss: bool, doProbs: bool)
    requires PredictExample(losses, ex, labelId, requireLoss, doProbs).Ok?
    ensures 0 < |ex.options|
    ensures 0 < |ex.indices| && forall k, j :: 0 <= k < |ex.indices| && 0 <= j < |ex.indices[k]| ==>
      -(|losses| as int) <= ex.indices[k][j] < |losses|
  {
    forall k, j | 0 <= k < |ex.indices| && 0 <= j < |ex.indices[k]|
      ensures -(|losses| as int) <= ex.indices[k][j] < |losses|
    {
      assert Gather(losses, ex.indices[k]).Some?;
      assert PyIndex(|losses|, ex.indices[k][j]).Some?;
    }
  }

  // Properties of the whole list.

  /** Joining succeeds exactly when every outcome does; otherwise it returns the first error. */
  lemma {:induction false} CollectOkIff<T>(outs: seq<Result<seq<T>, PredictError>>)
    ensures Collect(outs).Ok? <==> forall i :: 0 <= i < |outs| ==> outs[i].Ok?
    ensures Collect(outs).Err? ==> exists i :: 0 <= i < |outs| && outs[i] == Err(Collect(outs).error)
    decreases |outs|
  {
    if outs != [] {
      var init := outs[..|outs| - 1];
      CollectOkIff(init);
      assert forall i :: 0 <= i < |init| ==> init[i] == outs[i];
    }
  }

  /** Joining outcomes of one entry each keeps one entry per outcome, in order. */
  lemma {:induction false} CollectSingles<T>(outs: seq<Result<seq<T>, PredictError>>)
    requires Collect(outs).Ok?
    requires forall i :: 0 <= i < |outs| && outs[i].Ok? ==> |outs[i].value| == 1
    ensures |Collect(outs).value| == |outs|
    ensures forall i :: 0 <= i < |outs| ==> outs[i].Ok? && Collect(outs).value[i] == outs[i].value[0]
    decreases |outs|
  {
    if outs != [] {
      var init := outs[..|outs| - 1];
      CollectSingles(init);
      assert forall i :: 0 <= i < |init| ==> init[i] == outs[i];
    }
  }

  /** Joining outcomes of two entries each keeps both, outcome `i` at positions `2i` and `2i + 1`. */
  lemma {:induction false} CollectPairs<T>(outs: seq<Result<seq<T>, PredictError>>)
    requires Collect(outs).Ok?
    requires forall i :: 0 <= i < |outs| && outs[i].Ok? ==> |outs[i].value| == 2
    ensures |Collect(outs).value| == 2 * |outs|
    ensures forall i :: 0 <= i < |outs| ==>
      outs[i].Ok? && Collect(outs).value[2 * i] == outs[i].value[0] && Collect(outs).value[2 * i + 1] == outs[i].value[1]
    decreases |outs|
  {
    if outs != [] {
      var init := outs[..|outs| - 1];
      CollectPairs(init);
      assert forall i :: 0 <= i < |init| ==> init[i] == outs[i];
    }
  }

  /** The list succeeds exactly when every example does; the only error it raises is IndexError. */
  lemma PredictEachOkIff(losses: seq<real>, md: seq<Example>, labelId: Option<int>, requireLoss: bool, doProbs: bool)
    ensures var r := PredictEach(losses, md, labelId, requireLoss, doProbs);
      r.Ok? <==> forall i :: 0 <= i < |md| ==> PredictExample(losses, md[i], labelId, requireLoss, doProbs).Ok?
    ensures var r := PredictEach(losses, md, labelId, requireLoss, doProbs);
      r.Err? ==> r.error == IndexOutOfRange
  {
    var outs := Outcomes(losses, md, labelId, requireLoss, doProbs);
    CollectOkIff(outs);
    assert forall i :: 0 <= i < |md| ==> outs[i] == PredictExample(losses, md[i], labelId, requireLoss, doProbs);
  }

  /**
   * A successful list holds one block per example, in metadata order: one
   * entry each without `label_id`, the label entry then the choice with it.
   */
  lemma PredictEachLayout(losses: seq<real>, md: seq<Example>, labelId: Option<int>, requireLoss: bool, doProbs: bool)
    requires PredictEach(losses, md, labelId, requireLoss, doProbs).Ok?
    ensures var out := PredictEach(losses, md, labelId, requireLoss, doProbs).value;
      labelId.None? ==> (
        && |out| == |md|
        && forall i :: 0 <= i < |md| ==>
             && PredictExample(losses, md[i], labelId, requireLoss, doProbs).Ok?
             && out[i] == PredictExample(losses, md[i], labelId, requireLoss, doProbs).value[0])
    ensures var out := PredictEach(losses, md, labelId, requireLoss, doProbs).value;
      labelId.Some? ==> (
        && |out| == 2 * |md|
        && forall i :: 0 <= i < |md| ==>
             && PredictExample(losses, md[i], labelId, requireLoss, doProbs).Ok?
             && out[2 * i] == PredictExample(losses, md[i], labelId, requireLoss, doProbs).value[0]
             && out[2 * i + 1] == PredictExample(losses, md[i], labelId, requireLoss, doProbs).value[1])
  {
    var outs := Outcomes(losses, md, labelId, requireLoss, doProbs);
    assert forall i :: 0 <= i < |md| ==> outs[i] == PredictExample(losses, md[i], labelId, requireLoss, doProbs);
    if labelId.None? {
      CollectSingles(outs);
    } else {
      CollectPairs(outs);
    }
  }

  /** An example that raises makes the whole list raise IndexError. */
  lemma PredictEachFails(losses: seq<real>, md: seq<Example>, i: nat, labelId: Option<int>, requireLoss: bool, doProbs: bool)
    requires i < |md| && PredictExample(losses, md[i], labelId, requireLoss, doProbs).Err?
    ensures PredictEach(losses, md, labelId, requireLoss, doProbs) == Err(IndexOutOfRange)
  {
    PredictEachOkIff(losses, md, labelId, requireLoss, doProbs);
  }

  /** Extending the metadata prefix by one successful example appends its entries. */
  lemma PredictEachExtend(losses: seq<real>, md: seq<Example>, i: nat, labelId: Option<int>, requireLoss: bool, doProbs: bool)
    requires i < |md|
    requires PredictEach(losses, md[..i], labelId, requireLoss, doProbs).Ok?
    requires PredictExample(losses, md[i], labelId, requireLoss, doProbs).Ok?
    ensures PredictEach(losses, md[..i + 1], labelId, requireLoss, doProbs)
      == Ok(PredictEach(losses, md[..i], labelId, requireLoss, doProbs).value
            + PredictExample(losses, md[i], labelId, requireLoss, doProbs).value)
  {
    var outs := Outcomes(losses, md[..i + 1], labelId, requireLoss, doProbs);
    assert outs[..i] == Outcomes(losses, md[..i], labelId, requireLoss, doProbs);
    assert outs[i] == PredictExample(losses, md[i], labelId, requireLoss, doProbs);
  }

  /** An example whose scores, label entry and choice all exist yields exactly those entries. */
  lemma PredictExampleOk(losses: seq<real>, ex: Example, labelId: Option<int>, requireLoss: bool, doProbs: bool,
                         scores: seq<real>, choice: Prediction)
    requires OptionScores(losses, ex.indices) == Some(scores)
    requires labelId.Some? ==> LabelEntry(ex, scores, labelId.value).Some?
    requires ChoiceEntry(ex, scores, requireLoss, doProbs) == Some(choice)
    ensures PredictExample(losses, ex, labelId, requireLoss, doProbs)
      == Ok(if labelId.Some? then [LabelEntry(ex, scores, labelId.value).value, choice] else [choice])
  {
  }

  /** The length of a successful result: `EntriesPerExample(labelId)` entries per example. */
  lemma PredictLength(losses: seq<real>, dataLen: nat, md: seq<Example>, labelId: Option<int>, requireLoss: bool, doProbs: bool)
    requires Predict(losses, dataLen, md, labelId, requireLoss, doProbs).Ok?
    ensures |Predict(losses, dataLen, md, labelId, requireLoss, doProbs).value| == |md| * EntriesPerExample(labelId)
  {
    PredictEachLayout(losses, md, labelId, requireLoss, doProbs);
  }

  /**
   * The body of the `do_predict` loop for one example: aggregate its losses,
   * append the label entry if asked, then the selected option.
   */
  method PredictOne(inferred: seq<real>, dp: Example, labelId: Option<int>, requireLoss: bool, doProbs: bool,
                    predictions: seq<Prediction>)
    returns (r: Result<seq<Prediction>, PredictError>)
    ensures r == match PredictExample(inferred, dp, labelId, requireLoss, doProbs)
                 case Ok(entries) => Ok(predictions + entries)
                 case Err(e) => Err(e)
  {
    var curr := OptionScores(inferred, dp.indices);
    if curr.None? {
      return Err(IndexOutOfRange);
    }
    var scores := curr.value;
    var out := predictions;
    ghost var entries: seq<Prediction> := [];
    if labelId.Some? {
      var o := PyIndex(|dp.options|, labelId.value);
      var s := PyIndex(|scores|, labelId.value);
      if o.None? || s.None? {
        return Err(IndexOutOfRange);
      }
      out := out + [Scored(Strip(dp.options[o.value]), scores[s.value])];
      entries := [Scored(Strip(dp.options[o.value]), scores[s.value])];
      assert LabelEntry(dp, scores, labelId.value) == Some(entries[0]);
    }
    if scores == [] {
      return Err(IndexOutOfRange);
    }
    var choice;
    if !requireLoss {
      var predictionIdx := SortedHead(scores, false).0;
      if predictionIdx >= |dp.options| {
        return Err(IndexOutOfRange);
      }
      choice := Label(Strip(dp.options[predictionIdx]));
    } else {
      var reverse := doProbs;
      var predictionTerms := SortedHead(scores, reverse);
      if predictionTerms.0 >= |dp.options| {
        return Err(IndexOutOfRange);
      }
      choice := Scored(Strip(dp.options[predictionTerms.0]), predictionTerms.1);
    }
    out := out + [choice];
    PredictExampleOk(inferred, dp, labelId, requireLoss, doProbs, scores, choice);
    assert out == predictions + (entries + [choice]);
    assert entries + [choice] == if labelId.Some? then [LabelEntry(dp, scores, labelId.value).value, choice] else [choice];
    return Ok(out);
  }

  /**
   * `do_predict`: after the length assertion, one pass over the metadata that
   * appends each example's entries.
   */
  method DoPredict(inferred: seq<real>, dataLen: nat, metadata: seq<Example>, labelId: Option<int>, requireLoss: bool, doProbs: bool)
    returns (r: Result<seq<Prediction>, PredictError>)
    ensures r == Predict(inferred, dataLen, metadata, labelId, requireLoss, doProbs)
    ensures r.Ok? ==> |r.value| == |metadata| * EntriesPerExample(labelId)
  {
    if |inferred| != dataLen {
      return Err(LengthMismatch);
    }
    var predictions: seq<Prediction> := [];
    for idx := 0 to |metadata|
      invariant PredictEach(inferred, metadata[..idx], labelId, requireLoss, doProbs) == Ok(predictions)
    {
      var next := PredictOne(inferred, metadata[idx], labelId, requireLoss, doProbs, predictions);
      if next.Err? {
        PredictEachFails(inferred, metadata, idx, labelId, requireLoss, doProbs);
        return next;
      }
      PredictEachExtend(inferred, metadata, idx, labelId, requireLoss, doProbs);
      predictions := next.value;
    }
    assert metadata[..|metadata|] == metadata;
    PredictLength(inferred, dataLen, metadata, labelId, requireLoss, doProbs);
    return Ok(predictions);
  }
}
