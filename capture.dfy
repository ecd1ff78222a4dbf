/** The polygon drawing layer (`PolygonDrawing` in frontend/src/App.jsx): map
    clicks accumulate a draft of `[lat, lng]` vertices, and a double-click
    commits the draft once it has enough of them. */
module Capture {
  import opened Wrappers
  import opened Geo

  /** The fewest vertices a double-click will commit. */
  const MinVertices: nat := 3

  /** The two map events the drawing layer listens to. */
  datatype MapEvent = Clicked(at: Pair) | DoubleClicked

  /** The draft after one event, and the polygon handed to
      `onPolygonComplete`, if any. */
  datatype StepResult = StepResult(draft: seq<Pair>, commit: Option<seq<Pair>>)

  /** A step loses no vertex: what it commits followed by the new draft is the
      old draft followed by the clicked point, if any; a commit has at least
      three vertices and empties the draft. */
  function Step(draft: seq<Pair>, e: MapEvent): (r: StepResult)
    ensures (if r.commit.Some? then r.commit.value else []) + r.draft
      == draft + (if e.Clicked? then [e.at] else [])
    ensures r.commit.Some? ==> |r.commit.value| >= MinVertices && r.draft == []
  {
    match e
    case Clicked(p) => StepResult(draft + [p], None)
    case DoubleClicked =>
      if |draft| >= MinVertices then StepResult([], Some(draft)) else StepResult(draft, None)
  }

  /** The final draft and the polygons committed, in order, over a run of events. */
  datatype Trace = Trace(draft: seq<Pair>, commits: seq<seq<Pair>>)

  function Run(draft: seq<Pair>, events: seq<MapEvent>): Trace
    decreases |events|
  {
    if events == [] then Trace(draft, [])
    else
      var s := Step(draft, events[0]);
      var rest := Run(s.draft, events[1..]);
      Trace(rest.draft, (if s.commit.Some? then [s.commit.value] else []) + rest.commits)
  }

  /** The clicked points of a run of events, in click order. */
  function ClickedPoints(events: seq<MapEvent>): seq<Pair>
    decreases |events|
  {
    if events == [] then []
    else (if events[0].Clicked? then [events[0].at] else []) + ClickedPoints(events[1..])
  }

  function Flatten(ss: seq<seq<Pair>>): seq<Pair>
    decreases |ss|
  {
    if ss == [] then [] else ss[0] + Flatten(ss[1..])
  }

  /** One double-click commits exactly the current draft when it has at least
      three vertices and resets it; otherwise it commits nothing and leaves
      the draft as it is. A click appends and never commits. */
  lemma StepCommitsIffEnoughVertices(draft: seq<Pair>, e: MapEvent)
    ensures Step(draft, e).commit.Some? <==> e.DoubleClicked? && |draft| >= MinVertices
    ensures Step(draft, e).commit.Some? ==> Step(draft, e) == StepResult([], Some(draft))
    ensures e.DoubleClicked? && |draft| < MinVertices ==> Step(draft, e) == StepResult(draft, None)
    ensures e.Clicked? ==> Step(draft, e).draft == draft + [e.at]
  {
  }

  /** No vertex is lost or reordered: the committed polygons, followed by what
      is still being drawn, are the starting draft followed by every clicked
      point in click order. */
  lemma {:induction false} RunKeepsEveryClick(draft: seq<Pair>, events: seq<MapEvent>)
    ensures Flatten(Run(draft, events).commits) + Run(draft, events).draft == draft + ClickedPoints(events)
    decreases |events|
  {
    if events != [] {
      var s := Step(draft, events[0]);
      var rest := Run(s.draft, events[1..]);
      RunKeepsEveryClick(s.draft, events[1..]);
      FlattenAppend(if s.commit.Some? then [s.commit.value] else [], rest.commits);
      match events[0]
      case Clicked(p) =>
        assert ClickedPoints(events) == [p] + ClickedPoints(events[1..]);
        assert draft + ClickedPoints(events) == s.draft + ClickedPoints(events[1..]);
      case DoubleClicked =>
        assert ClickedPoints(events) == ClickedPoints(events[1..]);
        if s.commit.Some? {
          assert Flatten([draft]) == draft;
        }
    }
  }

  lemma {:induction false} FlattenAppend(xs: seq<seq<Pair>>, ys: seq<seq<Pair>>)
    ensures Flatten(xs + ys) == Flatten(xs) + Flatten(ys)
    decreases |xs|
  {
    if xs == [] {
      assert xs + ys == ys;
    } else {
      assert (xs + ys)[0] == xs[0];
      assert (xs + ys)[1..] == xs[1..] + ys;
      FlattenAppend(xs[1..], ys);
    }
  }

  /** Every committed polygon has at least three vertices, whatever the events. */
  lemma {:induction false} RunCommitsOnlyPolygons(draft: seq<Pair>, events: seq<MapEvent>)
    ensures forall i :: 0 <= i < |Run(draft, events).commits| ==> |Run(draft, events).commits[i]| >= MinVertices
    decreases |events|
  {
    if events != [] {
      var s := Step(draft, events[0]);
      RunCommitsOnlyPolygons(s.draft, events[1..]);
    }
  }

  /** A run that starts with a click commits what the rest of the run commits
      from the extended draft. */
  lemma RunAfterClick(draft: seq<Pair>, p: Pair, events: seq<MapEvent>)
    ensures Run(draft, [Clicked(p)] + events) == Run(draft + [p], events)
  {
    var es := [Clicked(p)] + events;
    assert es[0] == Clicked(p) && es[1..] == events;
  }

  /** Two clicks and a double-click commit nothing and keep both vertices. */
  lemma TwoVerticesNeverCommit(a: Pair, b: Pair)
    ensures Run([], [Clicked(a), Clicked(b), DoubleClicked]) == Trace([a, b], [])
  {
    RunAfterClick([], a, [Clicked(b), DoubleClicked]);
    RunAfterClick([a], b, [DoubleClicked]);
    assert [a] + [b] == [a, b];
    assert [DoubleClicked][1..] == [];
  }

  /** Three clicks and a double-click commit exactly those points, in click order. */
  lemma ThreeVerticesCommitInOrder(a: Pair, b: Pair, c: Pair)
    ensures Run([], [Clicked(a), Clicked(b), Clicked(c), DoubleClicked]) == Trace([], [[a, b, c]])
  {
    var e3 := [DoubleClicked];
    var e2 := [Clicked(c)] + e3;
    var e1 := [Clicked(b)] + e2;
    var e0 := [Clicked(a)] + e1;
    assert e0 == [Clicked(a), Clicked(b), Clicked(c), DoubleClicked];
    RunAfterClick([], a, e1);
    RunAfterClick([a], b, e2);
    RunAfterClick([a, b], c, e3);
    assert [] + [a] == [a] && [a] + [b] == [a, b] && [a, b] + [c] == [a, b, c];
    assert e3[1..] == [];
    var s := Step([a, b, c], DoubleClicked);
    assert s == StepResult([], Some([a, b, c]));
    assert Run([a, b, c], e3) == Trace([], [[a, b, c]] + Run([], []).commits);
  }

  /** The drawing layer's state: the `positions` draft. */
  class PolygonDrawing {
    var positions: seq<Pair>

    constructor ()
      ensures positions == []
    {
      positions := [];
    }

    /** A map click at `p`. */
    method Click(p: Pair)
      modifies this
      ensures positions == old(positions) + [p]
      ensures positions == Step(old(positions), Clicked(p)).draft
    {
      positions := positions + [p];
    }

    /** A map double-click; `committed` is what is passed to `onPolygonComplete`. */
    method DoubleClick() returns (committed: Option<seq<Pair>>)
      modifies this
      ensures StepResult(positions, committed) == Step(old(positions), DoubleClicked)
      ensures |old(positions)| >= MinVertices ==> committed == Some(old(positions)) && positions == []
      ensures |old(positions)| < MinVertices ==> committed == None && positions == old(positions)
    {
      if |positions| >= MinVertices {
        committed := Some(positions);
        positions := [];
      } else {
        committed := None;
      }
    }
  }
}
