/** The draws the renderer issues every frame over the static table: the
    table outline as a triangle fan, the mid line, and the two markers. */
module DrawPlan {
  import opened Gl
  import Scene

  /** The three draws of one frame, in the order they are issued. */
  const Frame: seq<Draw> := [Draw(TriangleFan, 0, 6), Draw(Lines, 6, 2), Draw(Points, 8, 2)]

  /** The record indices `lo`, `lo + 1`, ..., `lo + n - 1`. */
  function Span(lo: nat, n: nat): seq<nat>
  {
    seq(n, i => lo + i)
  }

  /** The record indices a list of draws makes the pipeline read, in order. */
  function Consumed(plan: seq<Draw>): seq<nat>
  {
    if plan == [] then [] else Span(plan[0].first, plan[0].count) + Consumed(plan[1..])
  }

  /** The number of records a list of draws reads. */
  function Total(plan: seq<Draw>): nat
  {
    if plan == [] then 0 else plan[0].count + Total(plan[1..])
  }

  /** Each draw starts where the previous one stopped, the first at `start`. */
  predicate Contiguous(plan: seq<Draw>, start: nat)
  {
    plan == [] || (plan[0].first == start && Contiguous(plan[1..], start + plan[0].count))
  }

  /** The record ranges of any two draws do not overlap. */
  predicate Disjoint(plan: seq<Draw>)
  {
    forall i, j :: 0 <= i < j < |plan| ==>
      plan[i].first + plan[i].count <= plan[j].first || plan[j].first + plan[j].count <= plan[i].first
  }

  /** Contiguous draws read exactly the records `start` .. `start + Total - 1`,
      each once, in increasing order. */
  lemma {:induction false} ContiguousReadsSpan(plan: seq<Draw>, start: nat)
    requires Contiguous(plan, start)
    ensures Consumed(plan) == Span(start, Total(plan))
  {
    if plan != [] {
      ContiguousReadsSpan(plan[1..], start + plan[0].count);
      assert Span(start, plan[0].count) + Span(start + plan[0].count, Total(plan[1..]))
        == Span(start, Total(plan));
    }
  }

  /** Contiguous draws stay within `start` .. `start + Total` and each one
      ends before the next begins. */
  lemma {:induction false} ContiguousIsOrdered(plan: seq<Draw>, start: nat)
    requires Contiguous(plan, start)
    ensures forall i :: 0 <= i < |plan| ==> start <= plan[i].first && plan[i].first + plan[i].count <= start + Total(plan)
    ensures forall i, j :: 0 <= i < j < |plan| ==> plan[i].first + plan[i].count <= plan[j].first
    ensures Disjoint(plan)
  {
    if plan != [] {
      var rest := plan[1..];
      ContiguousIsOrdered(rest, start + plan[0].count);
      assert forall i :: 1 <= i < |plan| ==> plan[i] == rest[i - 1];
    }
  }

  /** The frame's draws are a fan, then lines, then points; they are
      contiguous and disjoint, and together read every record of the table
      exactly once, so none reaches past its end. */
  lemma FrameCoversTable()
    ensures |Frame| == 3
    ensures Frame[0].mode == TriangleFan && Frame[1].mode == Lines && Frame[2].mode == Points
    ensures Contiguous(Frame, 0) && Disjoint(Frame)
    ensures Total(Frame) == Scene.RecordCount == |Scene.Vertices|
    ensures Consumed(Frame) == Span(0, |Scene.Vertices|)
    ensures forall d :: d in Frame ==> d.first + d.count <= |Scene.Vertices|
  {
    assert Contiguous(Frame, 0);
    ContiguousReadsSpan(Frame, 0);
    ContiguousIsOrdered(Frame, 0);
  }
}
