/** The helpers of the dashboard's Overview panel: splitting a series into
    slides, stepping a slide index, flipping a chart between chart and table
    views, and the loading gate in front of the latest prediction. */
module Overview {
  import opened Common
  import opened FarmTypes
  import Dashboard

  // ---------------------------------------------------------------------
  // chunkedData

  /** The concatenation of a sequence of chunks. */
  function Flatten<T>(chunks: seq<seq<T>>): seq<T> {
    if chunks == [] then [] else Flatten(chunks[..|chunks| - 1]) + chunks[|chunks| - 1]
  }

  lemma FlattenAppend<T>(chunks: seq<seq<T>>, c: seq<T>)
    ensures Flatten(chunks + [c]) == Flatten(chunks) + c
  {
    assert (chunks + [c])[..|chunks|] == chunks;
  }

  lemma {:induction false} MulMonotone(a: nat, b: nat, c: nat)
    requires a <= b
    ensures a * c <= b * c
    decreases c
  {
    if c > 0 {
      MulMonotone(a, b, c - 1);
      assert a * c == a * (c - 1) + a;
      assert b * c == b * (c - 1) + b;
    }
  }

  /** `q` is the number of chunks of size `size` that cover `n` items:
      `ceil(n / size)`. */
  lemma {:induction false} CeilingDivision(n: nat, size: nat, q: nat)
    requires size > 0
    requires q * size >= n && q * size < n + size
    ensures q == (n + size - 1) / size
  {
    var m := n + size - 1;
    var d := m / size;
    assert d * size <= m < d * size + size;
    if d < q {
      MulMonotone(d + 1, q, size);
      assert false;
    } else if d > q {
      MulMonotone(q + 1, d, size);
      assert false;
    }
  }

  /** `chunkedData(data, size)`: slices of `size` consecutive items, the
      last one possibly shorter. `size` must be positive, otherwise the
      source's loop never ends. */
  method ChunkedData<T>(data: seq<T>, size: nat) returns (result: seq<seq<T>>)
    requires size > 0
    ensures Flatten(result) == data
    ensures forall k :: 0 <= k < |result| ==> 0 < |result[k]| <= size
    ensures forall k :: 0 <= k < |result| - 1 ==> |result[k]| == size
    ensures |result| == (|data| + size - 1) / size
  {
    result := [];
    var i := 0;
    while i < |data|
      invariant i == |result| * size
      invariant i < |data| + size
      invariant i <= |data| ==> Flatten(result) == data[..i]
      invariant i > |data| ==> Flatten(result) == data
      invariant forall k :: 0 <= k < |result| ==> 0 < |result[k]| <= size
      invariant i <= |data| ==> forall k :: 0 <= k < |result| ==> |result[k]| == size
      invariant forall k :: 0 <= k < |result| - 1 ==> |result[k]| == size
    {
      var end := if i + size < |data| then i + size else |data|;
      var chunk := data[i..end];
      FlattenAppend(result, chunk);
      assert data[..i] + chunk == data[..end];
      assert (|result| + 1) * size == |result| * size + size;
      result := result + [chunk];
      i := i + size;
    }
    assert data[..|data|] == data;
    CeilingDivision(|data|, size, |result|);
  }

  // ---------------------------------------------------------------------
  // prevSlide / nextSlide

  /** A slide index is shown for a chart with `chunkCount` slides. */
  predicate InRange(slide: int, chunkCount: nat) {
    0 <= slide && (slide == 0 || slide < chunkCount)
  }

  datatype Move = Prev | Next

  /** The index after one button press: at most one slide away, in the
      direction pressed, and never leaving the range of shown indices. */
  function StepSlide(slide: int, move: Move, chunkCount: nat): (r: int)
    ensures move == Prev ==> slide - 1 <= r <= slide
    ensures move == Next ==> slide <= r <= slide + 1
    ensures InRange(slide, chunkCount) ==> InRange(r, chunkCount)
  {
    match move
    case Prev => if slide > 0 then slide - 1 else slide
    case Next => if slide < chunkCount - 1 then slide + 1 else slide
  }

  /** The index after a sequence of button presses: each press moves it by
      at most one slide. */
  function Slides(slide: int, moves: seq<Move>, chunkCount: nat): (r: int)
    ensures slide - |moves| <= r <= slide + |moves|
    decreases |moves|
  {
    if moves == [] then slide else Slides(StepSlide(slide, moves[0], chunkCount), moves[1..], chunkCount)
  }

  /** Starting from the initial index 0, no sequence of presses leaves
      [0, max(0, chunkCount - 1)]. */
  lemma {:induction false} SlidesStayInRange(slide: int, moves: seq<Move>, chunkCount: nat)
    requires InRange(slide, chunkCount)
    ensures InRange(Slides(slide, moves, chunkCount), chunkCount)
    decreases |moves|
  {
    if moves != [] {
      SlidesStayInRange(StepSlide(slide, moves[0], chunkCount), moves[1..], chunkCount);
    }
  }

  /** One chart's slide index (`tempHumSlide`, `illuminationSlide`, ...). */
  class Slide {
    var index: int

    constructor ()
      ensures index == 0
    {
      index := 0;
    }

    /** `prevSlide`: decrement unless already at the first slide. */
    method PrevSlide()
      modifies this
      ensures index == StepSlide(old(index), Prev, 0)
      ensures old(index) > 0 ==> index == old(index) - 1
      ensures old(index) <= 0 ==> index == old(index)
      ensures forall n: nat :: InRange(old(index), n) ==> InRange(index, n)
    {
      if index > 0 {
        index := index - 1;
      }
    }

    /** `nextSlide`: increment unless already at the last of `chunkCount` slides. */
    method NextSlide(chunkCount: nat)
      modifies this
      ensures index == StepSlide(old(index), Next, chunkCount)
      ensures old(index) < chunkCount - 1 ==> index == old(index) + 1
      ensures old(index) >= chunkCount - 1 ==> index == old(index)
      ensures InRange(old(index), chunkCount) ==> InRange(index, chunkCount)
    {
      if index < chunkCount - 1 {
        index := index + 1;
      }
    }
  }

  // ---------------------------------------------------------------------
  // toggleViewMode

  datatype ViewMode = Chart | Table

  /** The six chart keys, all starting in chart view. */
  const InitialViewModes: map<string, ViewMode> := map[
    "tempHumData" := Chart, "waterLevelData" := Chart, "illuminationData" := Chart,
    "tdsData" := Chart, "liquidTempData" := Chart, "predictionData" := Chart]

  /** `toggleViewMode(key)` on the previous modes: a key in chart view goes
      to table view, anything else (table view, or a key not yet present)
      goes to chart view; every other key keeps its mode. */
  function ToggleViewMode(modes: map<string, ViewMode>, key: string): (r: map<string, ViewMode>)
    ensures r.Keys == modes.Keys + {key}
    ensures key in modes && modes[key] == Chart ==> r[key] == Table
    ensures key in modes && modes[key] == Table ==> r[key] == Chart
    ensures key !in modes ==> r[key] == Chart
    ensures forall k :: k in modes && k != key ==> r[k] == modes[k]
  {
    modes[key := if key in modes && modes[key] == Chart then Table else Chart]
  }

  /** Flipping a present key twice restores the modes. */
  lemma ToggleTwiceRestores(modes: map<string, ViewMode>, key: string)
    requires key in modes
    ensures ToggleViewMode(ToggleViewMode(modes, key), key) == modes
  {
  }

  // ---------------------------------------------------------------------
  // The loading gate and the latest prediction

  /** The gate `!data || !data.tempHumData || ... || !data.predictionData`
      lets rendering proceed. A number or any other non-bundle value has no
      metric properties and keeps the panel loading. It admits exactly what
      the dashboard component's gate admits, but tests `data` first, so a
      `null` keeps the panel loading where that component throws. */
  predicate PassesGate(data: Json)
    ensures PassesGate(data) <==> Dashboard.Gate(data) == Dashboard.Ready
    ensures data.JNull? ==> !PassesGate(data) && Dashboard.Gate(data) == Dashboard.RenderError
  {
    data.JBundle? && AllPresent(data.metrics)
  }

  /** `predictionData[predictionData.length - 1]` as written: the read
      gives `undefined` (here `None`) for an empty list, and reading
      `.water` of it then throws. */
  function LatestPredictionAsWritten(predictionData: Series): (r: Option<Sample>)
    ensures r.None? <==> predictionData == []
    ensures r.Some? ==> r.value == predictionData[|predictionData| - 1] && r.value in predictionData
  {
    var latestIndex := |predictionData| - 1;
    if 0 <= latestIndex < |predictionData| then Some(predictionData[latestIndex]) else None
  }

  /** The gate lets through a bundle whose prediction list is empty, and the
      latest-prediction read then has no element to give. */
  lemma EmptyPredictionPassesGate()
    ensures var data := JBundle(Metrics(Some([]), Some([]), Some([]), Some([]), Some([]), Some([])));
      PassesGate(data) && LatestPredictionAsWritten(data.metrics.prediction.value) == None
  {
  }

  /** What the panel shows. */
  datatype Panel = Loading | Showing(latest: Sample)

  /** The panel with the gate extended to an empty prediction list. */
  function Render(data: Json): (p: Panel)
    ensures p.Showing? <==> PassesGate(data) && |data.metrics.prediction.value| > 0
    ensures p.Showing? ==> var pred := data.metrics.prediction.value;
      p.latest == pred[|pred| - 1] && LatestPredictionAsWritten(pred) == Some(p.latest)
  {
    if PassesGate(data) && |data.metrics.prediction.value| > 0 then
      Showing(data.metrics.prediction.value[|data.metrics.prediction.value| - 1])
    else Loading
  }

  /** Whenever the corrected panel renders, the read as written yields an
      element: the two agree on every input the corrected gate admits. */
  lemma RenderAgreesWithSourceWhenShowing(data: Json)
    requires Render(data).Showing?
    ensures LatestPredictionAsWritten(data.metrics.prediction.value) == Some(Render(data).latest)
  {
  }
}
