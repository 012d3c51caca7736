/** Properties of whole gestures: sequences of handler calls, as the window's
    mouse listeners deliver them, run through the step functions of
    `ResizeHandlers`. */
module ResizeProperties {
  import opened FormTypes
  import opened ResizeHandlers

  /** One handler call. */
  datatype Event =
    | StartEvent(controlId: string, direction: string, wrapper: Option<Size>)
    | MoveEvent(px: int, py: int)
    | EndEvent

  function Step(s: Session, hasPreview: bool, e: Event): Session
  {
    match e
    case StartEvent(id, direction, wrapper) => Start(s, hasPreview, id, direction, wrapper)
    case MoveEvent(px, py) => Move(s, hasPreview, px, py)
    case EndEvent => End(s)
  }

  /** The session after the events, in order. */
  function Run(s: Session, hasPreview: bool, events: seq<Event>): Session
    decreases |events|
  {
    if events == [] then s else Run(Step(s, hasPreview, events[0]), hasPreview, events[1..])
  }

  predicate AllMoves(events: seq<Event>)
  {
    forall i | 0 <= i < |events| :: events[i].MoveEvent?
  }

  /** No sequence of calls adds or removes a control. */
  lemma {:induction false} RunKeepsControls(s: Session, hasPreview: bool, events: seq<Event>)
    ensures Run(s, hasPreview, events).model.Keys == s.model.Keys
    decreases |events|
  {
    if events != [] {
      RunKeepsControls(Step(s, hasPreview, events[0]), hasPreview, events[1..]);
    }
  }

  /** A control that is not being edited and that no call starts a gesture on
      is left exactly as it was. */
  lemma {:induction false} RunKeepsOtherControls(s: Session, hasPreview: bool, events: seq<Event>, k: string)
    requires k in s.model
    requires s.state.editingControlId != Some(k)
    requires forall i | 0 <= i < |events| :: !(events[i].StartEvent? && events[i].controlId == k)
    ensures k in Run(s, hasPreview, events).model
    ensures Run(s, hasPreview, events).model[k] == s.model[k]
    decreases |events|
  {
    if events != [] {
      var next := Step(s, hasPreview, events[0]);
      assert !(events[0].StartEvent? && events[0].controlId == k);
      assert next.model[k] == s.model[k];
      forall i | 0 <= i < |events[1..]|
        ensures !(events[1..][i].StartEvent? && events[1..][i].controlId == k)
      {
        assert events[1..][i] == events[i + 1];
      }
      RunKeepsOtherControls(next, hasPreview, events[1..], k);
    }
  }

  /** Moves delivered while the move guard is closed change nothing at all. */
  lemma {:induction false} DisabledMovesAreNoOps(s: Session, hasPreview: bool, moves: seq<Event>)
    requires AllMoves(moves)
    requires !MoveEnabled(s, hasPreview)
    ensures Run(s, hasPreview, moves) == s
    decreases |moves|
  {
    if moves != [] {
      assert moves[0].MoveEvent?;
      assert AllMoves(moves[1..]) by {
        forall i | 0 <= i < |moves[1..]| ensures moves[1..][i].MoveEvent? {
          assert moves[1..][i] == moves[i + 1];
        }
      }
      DisabledMovesAreNoOps(s, hasPreview, moves[1..]);
    }
  }

  /** After `handleResizeEnd`, any number of moves leave the form untouched. */
  lemma MovesAfterEndAreNoOps(s: Session, hasPreview: bool, moves: seq<Event>)
    requires AllMoves(moves)
    ensures Run(s, hasPreview, [EndEvent] + moves) == End(s)
  {
    assert ([EndEvent] + moves)[1..] == moves;
    DisabledMovesAreNoOps(End(s), hasPreview, moves);
  }

  /** The empty id is falsy: a gesture started on a control whose id is ""
      never moves it. */
  lemma EmptyIdNeverMoves(s: Session, hasPreview: bool, direction: string, wrapper: Option<Size>, moves: seq<Event>)
    requires "" in s.model && hasPreview
    requires AllMoves(moves)
    ensures Run(s, hasPreview, [StartEvent("", direction, wrapper)] + moves).model == s.model
  {
    var started := Start(s, hasPreview, "", direction, wrapper);
    assert ([StartEvent("", direction, wrapper)] + moves)[1..] == moves;
    assert !MoveEnabled(started, hasPreview);
    DisabledMovesAreNoOps(started, hasPreview, moves);
  }

  /** A second move overwrites the first completely: each move is computed
      from the values captured at the start, not from the previous move. */
  lemma MoveOverwrites(s: Session, hasPreview: bool, px1: int, py1: int, px2: int, py2: int)
    ensures Move(Move(s, hasPreview, px1, py1), hasPreview, px2, py2) == Move(s, hasPreview, px2, py2)
  {
    if MoveEnabled(s, hasPreview) {
      var id := s.state.editingControlId.value;
      var c := s.model[id];
      var b1 := MoveBox(s.state.resizeDirection, s.state.initialSize, s.state.initialPosition, px1, py1);
      var b2 := MoveBox(s.state.resizeDirection, s.state.initialSize, s.state.initialPosition, px2, py2);
      assert Resized(Resized(c, b1), b2).style == Resized(c, b2).style;
    }
  }

  /** What a run of moves commits is what its last move alone commits. */
  lemma {:induction false} LastMoveWins(s: Session, hasPreview: bool, moves: seq<Event>, px: int, py: int)
    requires AllMoves(moves)
    ensures Run(s, hasPreview, moves + [MoveEvent(px, py)]) == Move(s, hasPreview, px, py)
    decreases |moves|
  {
    if moves == [] {
      assert moves + [MoveEvent(px, py)] == [MoveEvent(px, py)];
    } else {
      var m := moves[0];
      var next := Move(s, hasPreview, m.px, m.py);
      assert (moves + [MoveEvent(px, py)])[1..] == moves[1..] + [MoveEvent(px, py)];
      assert AllMoves(moves[1..]) by {
        forall i | 0 <= i < |moves[1..]| ensures moves[1..][i].MoveEvent? {
          assert moves[1..][i] == moves[i + 1];
        }
      }
      LastMoveWins(next, hasPreview, moves[1..], px, py);
      MoveOverwrites(s, hasPreview, m.px, m.py, px, py);
    }
  }

  /** A gesture that starts on control `id` and moves any number of times
      commits a box that respects the floors on every axis its direction names,
      and keeps the captured size on the others. */
  lemma GestureRespectsFloors(s: Session, hasPreview: bool, id: string, direction: string, size: Size,
                              moves: seq<Event>, px: int, py: int)
    requires id in s.model && id != "" && hasPreview
    requires AllMoves(moves)
    ensures var r := Run(Start(s, hasPreview, id, direction, Some(size)), hasPreview, moves + [MoveEvent(px, py)]);
      id in r.model && "width" in r.model[id].style && "height" in r.model[id].style &&
      r.model[id].style["width"].Px? && r.model[id].style["height"].Px? &&
      (('e' in direction || 'w' in direction) ==> r.model[id].style["width"].pixels >= MinWidth) &&
      (('n' in direction || 's' in direction) ==> r.model[id].style["height"].pixels >= MinHeight) &&
      (!('e' in direction || 'w' in direction) ==> r.model[id].style["width"].pixels == size.width) &&
      (!('n' in direction || 's' in direction) ==> r.model[id].style["height"].pixels == size.height)
  {
    var started := Start(s, hasPreview, id, direction, Some(size));
    LastMoveWins(started, hasPreview, moves, px, py);
    assert MoveEnabled(started, hasPreview);
  }

  /** A gesture whose direction has neither `w` nor `n` (e, s, se) leaves the
      control where it was; with both (nw) the top-left corner lands on the
      pointer and, while neither floor applies, the bottom-right corner stays
      where it was. */
  lemma GestureFixedEdges(s: Session, hasPreview: bool, id: string, direction: string, size: Size,
                          moves: seq<Event>, px: int, py: int)
    requires id in s.model && id != "" && hasPreview
    requires AllMoves(moves)
    ensures var r := Run(Start(s, hasPreview, id, direction, Some(size)), hasPreview, moves + [MoveEvent(px, py)]);
      var p := StoredPoint(s.model[id]);
      id in r.model && "width" in r.model[id].style && "height" in r.model[id].style &&
      (!('w' in direction) ==> StoredPoint(r.model[id]).x == p.x) &&
      (!('n' in direction) ==> StoredPoint(r.model[id]).y == p.y) &&
      ('w' in direction ==> StoredPoint(r.model[id]).x == px) &&
      ('n' in direction ==> StoredPoint(r.model[id]).y == py) &&
      ('w' in direction && size.width - (px - p.x) >= MinWidth ==>
         r.model[id].style["width"] == Px(p.x + size.width - px)) &&
      ('n' in direction && size.height - (py - p.y) >= MinHeight ==>
         r.model[id].style["height"] == Px(p.y + size.height - py))
  {
    var started := Start(s, hasPreview, id, direction, Some(size));
    LastMoveWins(started, hasPreview, moves, px, py);
    assert MoveEnabled(started, hasPreview);
  }

  /** Starting a gesture while another is active abandons the first: no
      later move touches the first control again. */
  lemma RestartReplacesGesture(s: Session, hasPreview: bool, id: string, direction: string, size: Size, k: string,
                               moves: seq<Event>)
    requires s.state.isResizing
    requires id in s.model && hasPreview && k in s.model && k != id
    requires AllMoves(moves)
    ensures var r := Run(s, hasPreview, [StartEvent(id, direction, Some(size))] + moves);
      k in r.model && r.model[k] == s.model[k]
  {
    var events := [StartEvent(id, direction, Some(size))] + moves;
    assert events[1..] == moves;
    RunKeepsOtherControls(Start(s, hasPreview, id, direction, Some(size)), hasPreview, moves, k);
  }

  /** Control "a" at (10, 10) with z-index 1 is rendered 120 by 60; a
      south-east gesture whose pointer ends 30 right of and 20 below the
      original corner commits 150 by 80 and keeps the position. */
  lemma SouthEastScenario(a: Control)
    requires a.position == Some(Position(Some(10), Some(10), Some(1)))
    ensures var r := Run(Session(BuilderState(None, false, None, Size(0, 0), Point(0, 0)), map["a" := a]), true,
                         [StartEvent("a", "se", Some(Size(120, 60))), MoveEvent(160, 90), EndEvent]);
      r.model["a"].style["width"] == Px(150) && r.model["a"].style["height"] == Px(80) &&
      r.model["a"].position == a.position && !r.state.isResizing
  {
    var s0 := Session(BuilderState(None, false, None, Size(0, 0), Point(0, 0)), map["a" := a]);
    var s1 := Start(s0, true, "a", "se", Some(Size(120, 60)));
    assert s1.state.initialPosition == Point(10, 10);
    assert 'e' in "se" && 's' in "se" && 'w' !in "se" && 'n' !in "se";
    var s2 := Move(s1, true, 160, 90);
    assert MoveEnabled(s1, true);
    assert MoveBox(Some("se"), Size(120, 60), Point(10, 10), 160, 90) == Box(10, 10, 150, 80);
  }
}
