/**
 * The logic of the `Sain` composable (both overloads): turning drag events
 * into lines, refreshing the stored signature when the pad is drawn, and the
 * `CLEAR` / `COMPLETE` dispatch of the action buttons.
 */
module SainWidget {
  import opened Wrappers
  import opened Geometry
  import opened SignatureLines
  import opened SignatureStates
  import SainActions

  /**
   * The line one drag event adds: from `position - dragAmount` to
   * `position`, so the line spans exactly the movement of that event.
   */
  function DragToLine(position: Offset, dragAmount: Offset): (l: SignatureLine)
    ensures l.end == position
    ensures l.end.x - l.start.x == dragAmount.x && l.end.y - l.start.y == dragAmount.y
    ensures l.IsPoint() <==> dragAmount == Offset(0, 0)
  {
    SignatureLine(position.Minus(dragAmount), position)
  }

  /** The drag callback: exactly one line is appended and the signature is left alone. */
  method OnDrag<Image>(state: SignatureState<Image>, position: Offset, dragAmount: Offset)
    modifies state
    ensures state.lines == old(state.lines) + [DragToLine(position, dragAmount)]
    ensures state.signature == old(state.signature)
  {
    var line := DragToLine(position, dragAmount);
    state.AddSignatureLine(line);
  }

  /** One movement reported by the gesture detector. */
  datatype DragEvent = DragEvent(position: Offset, dragAmount: Offset)

  /** The lines a run of drag events appends, one per event, in order. */
  function DragLines(events: seq<DragEvent>): (lines: seq<SignatureLine>)
    ensures |lines| == |events|
    ensures forall i :: 0 <= i < |events| ==>
      lines[i].end == events[i].position &&
      lines[i].end.x - lines[i].start.x == events[i].dragAmount.x &&
      lines[i].end.y - lines[i].start.y == events[i].dragAmount.y
  {
    if events == [] then []
    else [DragToLine(events[0].position, events[0].dragAmount)] + DragLines(events[1..])
  }

  /**
   * The events a pointer that touches down at `points[0]` and then moves
   * through `points[1]`, `points[2]`, ... produces: each reports the new
   * position and the movement since the previous one.
   */
  function PathEvents(points: seq<Offset>): (events: seq<DragEvent>)
    ensures |events| == if points == [] then 0 else |points| - 1
  {
    if |points| < 2 then []
    else [DragEvent(points[1], points[1].Minus(points[0]))] + PathEvents(points[1..])
  }

  /** The segments joining consecutive points of a pointer path. */
  function Segments(points: seq<Offset>): (segments: seq<SignatureLine>)
    ensures |segments| == if points == [] then 0 else |points| - 1
    ensures forall i :: 0 <= i < |segments| ==> segments[i] == SignatureLine(points[i], points[i + 1])
  {
    if |points| < 2 then []
    else [SignatureLine(points[0], points[1])] + Segments(points[1..])
  }

  /**
   * Following a pointer path, the lines appended join its consecutive
   * points: the drag rule recovers each previous point from the position and
   * the movement.  A tap, with no movement, appends nothing.
   */
  lemma {:induction false} PathLinesAreSegments(points: seq<Offset>)
    ensures DragLines(PathEvents(points)) == Segments(points)
    ensures |points| <= 1 ==> DragLines(PathEvents(points)) == []
  {
    if |points| >= 2 {
      PathLinesAreSegments(points[1..]);
      assert DragToLine(points[1], points[1].Minus(points[0])) == SignatureLine(points[0], points[1]);
    }
  }

  /**
   * The draw pass: the pad is rendered from the current lines and the result
   * becomes the stored signature.  `render` stands for `toImageBitmap` with
   * the pad's size, colour and thickness fixed.
   */
  method Redraw<Image>(state: SignatureState<Image>, render: seq<SignatureLine> -> Image)
    modifies state
    ensures state.signature == Some(render(old(state.lines)))
    ensures state.lines == old(state.lines)
  {
    var snapshot := state.SignatureLines();
    state.UpdateSignature(render(snapshot));
  }

  /** What the `actions` callback hands to the host. */
  datatype Callback<Image> = NoCallback | OnComplete(signature: Option<Image>)

  /**
   * The value `COMPLETE` passes to `onComplete`: the stored signature when
   * there are lines, `null` when there are none.
   */
  function CompleteResult<Image>(lines: seq<SignatureLine>, signature: Option<Image>): (r: Option<Image>)
    ensures r == None <==> lines == [] || signature == None
    ensures r != None ==> r == signature
  {
    if lines != [] then signature else None
  }

  /**
   * The `when` over the action: `CLEAR` empties the lines and calls nothing
   * else; `COMPLETE` changes nothing and calls `onComplete`.
   */
  method HandleAction<Image>(state: SignatureState<Image>, action: SainActions.SignatureAction)
    returns (callback: Callback<Image>)
    modifies state
    ensures state.signature == old(state.signature)
    ensures action == SainActions.Clear ==> callback == NoCallback && state.lines == []
    ensures action == SainActions.Complete ==>
      && callback == OnComplete(CompleteResult(old(state.lines), old(state.signature)))
      && state.lines == old(state.lines)
  {
    match action
    case Clear =>
      state.ClearSignatureLines();
      callback := NoCallback;
    case Complete =>
      var snapshot := state.SignatureLines();
      callback := OnComplete(CompleteResult(snapshot, state.signature));
  }

  /**
   * A draw pass followed by `COMPLETE`: the host receives the rendering of
   * the current lines if anything was drawn and `null` otherwise, and the
   * lines are kept.
   */
  method CompleteAfterRedraw<Image>(state: SignatureState<Image>, render: seq<SignatureLine> -> Image)
    returns (callback: Callback<Image>)
    modifies state
    ensures callback == OnComplete(if old(state.lines) != [] then Some(render(old(state.lines))) else None)
    ensures state.lines == old(state.lines)
    ensures state.signature == Some(render(old(state.lines)))
  {
    Redraw(state, render);
    callback := HandleAction(state, SainActions.Complete);
  }

  /**
   * A drawing session: touch down at (0,0), move to (10,10) and on to (20,5),
   * redraw, complete, then clear.
   */
  method DrawCompleteClear<Image>(render: seq<SignatureLine> -> Image)
  {
    var state := new SignatureState<Image>();
    var first := SignatureLine(Offset(0, 0), Offset(10, 10));
    var second := SignatureLine(Offset(10, 10), Offset(20, 5));
    OnDrag(state, Offset(10, 10), Offset(10, 10));
    assert state.lines == [first];
    OnDrag(state, Offset(20, 5), Offset(10, -5));
    assert state.lines == [first, second];
    Redraw(state, render);
    var done := HandleAction(state, SainActions.Complete);
    assert done == OnComplete(Some(render([first, second])));
    var cleared := HandleAction(state, SainActions.Clear);
    assert state.lines == [];
    done := HandleAction(state, SainActions.Complete);
    assert done == OnComplete(None);
  }
}
