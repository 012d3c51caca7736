/** The interactive resize controller: a gesture starts on one control's
    handle, each pointer move recomputes that control's position and size from
    the values captured at the start, and the gesture ends on release.

    The pure functions `Start`, `Move` and `End` say what one handler call does
    to a `Session` (the builder state and the form's control map); the class
    `ResizeController` performs the same calls step by step on the shared
    objects and is proved to agree with them. */
module ResizeHandlers {
  import opened FormTypes

  /** Smallest width and height a resize commits. */
  const MinWidth := 100
  const MinHeight := 40

  /** `Math.max(floor, v)`: the requested size, raised to the floor. */
  function AtLeast(floor: int, v: int): (r: int)
    ensures r >= floor && r >= v
    ensures r == floor || r == v
  {
    if v < floor then floor else v
  }

  /** `direction?.includes(c)`: false when there is no direction. */
  function Includes(direction: Option<string>, c: char): (b: bool)
    // `includes` finds the letter at some index of the direction string
    ensures b <==> direction.Some? && exists i | 0 <= i < |direction.value| :: direction.value[i] == c
  {
    direction.Some? && c in direction.value
  }

  /** A control's committed box after a move. */
  datatype Box = Box(x: int, y: int, width: int, height: int)

  /** The box a move commits, from the direction, the size and position
      captured at the start, and the pointer (px, py) relative to the preview
      surface.  A `w` handle overrides what an `e` handle set, an `n` handle
      what an `s` handle set. */
  function MoveBox(direction: Option<string>, size: Size, pos: Point, px: int, py: int): (b: Box)
    // floors
    ensures Includes(direction, 'e') || Includes(direction, 'w') ==> b.width >= MinWidth
    ensures Includes(direction, 'n') || Includes(direction, 's') ==> b.height >= MinHeight
    // an axis no handle letter names keeps its captured value
    ensures !Includes(direction, 'e') && !Includes(direction, 'w') ==> b.width == size.width
    ensures !Includes(direction, 'n') && !Includes(direction, 's') ==> b.height == size.height
    ensures !Includes(direction, 'w') ==> b.x == pos.x
    ensures !Includes(direction, 'n') ==> b.y == pos.y
    // e / s: the left / top edge stays and the right / bottom edge follows the pointer down to the floor
    ensures Includes(direction, 'e') && !Includes(direction, 'w') ==>
      if px - pos.x >= MinWidth then b.x + b.width == px else b.width == MinWidth
    ensures Includes(direction, 's') && !Includes(direction, 'n') ==>
      if py - pos.y >= MinHeight then b.y + b.height == py else b.height == MinHeight
    // w / n: the left / top edge follows the pointer; the opposite edge stays only while unclamped
    ensures Includes(direction, 'w') ==> b.x == px
    ensures Includes(direction, 'n') ==> b.y == py
    ensures Includes(direction, 'w') && size.width - (px - pos.x) >= MinWidth ==>
      b.x + b.width == pos.x + size.width
    ensures Includes(direction, 'w') && size.width - (px - pos.x) < MinWidth ==>
      b.width == MinWidth && b.x + b.width > pos.x + size.width
    ensures Includes(direction, 'n') && size.height - (py - pos.y) >= MinHeight ==>
      b.y + b.height == pos.y + size.height
    ensures Includes(direction, 'n') && size.height - (py - pos.y) < MinHeight ==>
      b.height == MinHeight && b.y + b.height > pos.y + size.height
  {
    var dx := px - pos.x;
    var dy := py - pos.y;
    Box(
      if Includes(direction, 'w') then pos.x + dx else pos.x,
      if Includes(direction, 'n') then pos.y + dy else pos.y,
      if Includes(direction, 'w') then AtLeast(MinWidth, size.width - dx)
      else if Includes(direction, 'e') then AtLeast(MinWidth, dx)
      else size.width,
      if Includes(direction, 'n') then AtLeast(MinHeight, size.height - dy)
      else if Includes(direction, 's') then AtLeast(MinHeight, dy)
      else size.height)
  }

  /** `position?.zIndex || 1`. */
  function KeptZIndex(position: Option<Position>): (z: int)
    ensures z != 0
    ensures position.Some? && OrElse(position.value.zIndex, 0) != 0 ==> Some(z) == position.value.zIndex
    ensures !(position.Some? && OrElse(position.value.zIndex, 0) != 0) ==> z == 1
  {
    if position.Some? then OrElse(position.value.zIndex, 1) else 1
  }

  /** The control with the box written into its position and style. */
  function Resized(control: Control, b: Box): (c: Control)
    ensures StoredPoint(c) == Point(b.x, b.y)
    ensures c.position.Some? && c.position.value.x == Some(b.x) && c.position.value.y == Some(b.y)
    ensures c.position.value.zIndex == Some(KeptZIndex(control.position))
    // a truthy zIndex is kept; a missing or zero one becomes 1
    ensures control.position.Some? && OrElse(control.position.value.zIndex, 0) != 0 ==>
      c.position.value.zIndex == control.position.value.zIndex
    ensures !(control.position.Some? && OrElse(control.position.value.zIndex, 0) != 0) ==>
      c.position.value.zIndex == Some(1)
    ensures c.style.Keys == control.style.Keys + {"width", "height"}
    ensures c.style["width"] == Px(b.width) && c.style["height"] == Px(b.height)
    ensures forall k | k in control.style && k != "width" && k != "height" :: c.style[k] == control.style[k]
    // every attribute other than position and style is kept
    ensures c.(position := control.position, style := control.style) == control
  {
    control.(
      position := Some(Position(Some(b.x), Some(b.y), Some(KeptZIndex(control.position)))),
      style := control.style["width" := Px(b.width)]["height" := Px(b.height)])
  }

  /** What the handlers see: the builder state and the form's control map. */
  datatype Session = Session(state: BuilderState, model: map<string, Control>)

  /** `startResize(controlId, direction)`: `hasPreview` says whether a preview
      surface exists; `wrapper` is the rendered size of the control's wrapper
      element, or None when the handle has no wrapper, in which case reading its
      size throws after the first three fields were already set. */
  function Start(s: Session, hasPreview: bool, controlId: string, direction: string, wrapper: Option<Size>): (r: Session)
    ensures r.model == s.model
    ensures controlId !in s.model || !hasPreview ==> r == s
    ensures controlId in s.model && hasPreview ==>
      r.state.editingControlId == Some(controlId) && r.state.isResizing &&
      r.state.resizeDirection == Some(direction)
    ensures controlId in s.model && hasPreview && wrapper.Some? ==>
      r.state.initialSize == wrapper.value && r.state.initialPosition == StoredPoint(s.model[controlId])
    ensures wrapper.None? ==>
      r.state.initialSize == s.state.initialSize && r.state.initialPosition == s.state.initialPosition
  {
    if controlId !in s.model || !hasPreview then s
    else
      var begun := s.state.(editingControlId := Some(controlId), isResizing := true, resizeDirection := Some(direction));
      match wrapper
      case None => Session(begun, s.model)
      case Some(size) =>
        Session(begun.(initialSize := size, initialPosition := StoredPoint(s.model[controlId])), s.model)
  }

  /** The guard of `handleResizeMove`. */
  function MoveEnabled(s: Session, hasPreview: bool): (b: bool)
    // each failed test closes the guard
    ensures !s.state.isResizing ==> !b
    ensures s.state.editingControlId.None? || s.state.editingControlId == Some("") ==> !b
    ensures s.state.editingControlId.Some? && s.state.editingControlId.value !in s.model ==> !b
    ensures !hasPreview ==> !b
    // an open guard names a control of the model
    ensures b ==> s.state.editingControlId.Some? && s.state.editingControlId.value in s.model
    // and the guard is open when all four tests pass
    ensures (s.state.isResizing && s.state.editingControlId.Some? && s.state.editingControlId.value != "" &&
             s.state.editingControlId.value in s.model && hasPreview) ==> b
  {
    s.state.isResizing && IsSetId(s.state.editingControlId) &&
    s.state.editingControlId.value in s.model && hasPreview
  }

  /** `handleResizeMove` with the pointer at (px, py) relative to the preview surface. */
  function Move(s: Session, hasPreview: bool, px: int, py: int): (r: Session)
    ensures r.state == s.state
    ensures r.model.Keys == s.model.Keys
    ensures !MoveEnabled(s, hasPreview) ==> r == s
    ensures forall k | k in s.model && !(MoveEnabled(s, hasPreview) && k == s.state.editingControlId.value) ::
      r.model[k] == s.model[k]
    ensures MoveEnabled(s, hasPreview) ==>
      var id := s.state.editingControlId.value;
      r.model[id] == Resized(s.model[id], MoveBox(s.state.resizeDirection, s.state.initialSize, s.state.initialPosition, px, py))
  {
    if !MoveEnabled(s, hasPreview) then s
    else
      var id := s.state.editingControlId.value;
      var b := MoveBox(s.state.resizeDirection, s.state.initialSize, s.state.initialPosition, px, py);
      Session(s.state, s.model[id := Resized(s.model[id], b)])
  }

  /** `handleResizeEnd`. */
  function End(s: Session): (r: Session)
    ensures !r.state.isResizing && r.state.resizeDirection == None
    ensures r.model == s.model
    ensures r.state.editingControlId == s.state.editingControlId
    ensures r.state.initialSize == s.state.initialSize && r.state.initialPosition == s.state.initialPosition
  {
    Session(s.state.(isResizing := false, resizeDirection := None), s.model)
  }

  /** The handlers made by `createResizeHandlers` over one builder state, one
      form and a preview surface that is present or not for their lifetime. */
  class ResizeController {
    const formState: FormBuilderState
    const form: Form
    const hasPreview: bool

    constructor (formState: FormBuilderState, form: Form, hasPreview: bool)
      ensures this.formState == formState && this.form == form && this.hasPreview == hasPreview
    {
      this.formState := formState;
      this.form := form;
      this.hasPreview := hasPreview;
    }

    function Snapshot(): Session
      reads formState, form
    {
      Session(formState.Value(), form.model)
    }

    /** `startResize`; `thrown` is true when the handle has no wrapper element
        and the handler stops with an error part way. */
    method StartResize(controlId: string, direction: string, wrapper: Option<Size>) returns (thrown: bool)
      modifies formState
      ensures Snapshot() == Start(old(Snapshot()), hasPreview, controlId, direction, wrapper)
      ensures thrown <==> controlId in form.model && hasPreview && wrapper.None?
    {
      if controlId !in form.model || !hasPreview {
        return false;
      }
      formState.editingControlId := Some(controlId);
      formState.isResizing := true;
      formState.resizeDirection := Some(direction);
      var control := form.model[controlId];
      if wrapper.None? {
        return true;
      }
      formState.initialSize := Size(wrapper.value.width, wrapper.value.height);
      formState.initialPosition := StoredPoint(control);
      thrown := false;
    }

    /** `handleResizeMove`; (px, py) is the pointer minus the preview surface's origin. */
    method HandleResizeMove(px: int, py: int)
      modifies form
      ensures Snapshot() == Move(old(Snapshot()), hasPreview, px, py)
    {
      if !formState.isResizing || !IsSetId(formState.editingControlId) ||
         formState.editingControlId.value !in form.model || !hasPreview {
        return;
      }
      var id := formState.editingControlId.value;
      var control := form.model[id];
      var newWidth := formState.initialSize.width;
      var newHeight := formState.initialSize.height;
      var newX := formState.initialPosition.x;
      var newY := formState.initialPosition.y;

      if Includes(formState.resizeDirection, 'e') {
        newWidth := AtLeast(MinWidth, px - formState.initialPosition.x);
      }
      if Includes(formState.resizeDirection, 's') {
        newHeight := AtLeast(MinHeight, py - formState.initialPosition.y);
      }
      if Includes(formState.resizeDirection, 'w') {
        var deltaX := px - formState.initialPosition.x;
        newWidth := AtLeast(MinWidth, formState.initialSize.width - deltaX);
        newX := formState.initialPosition.x + deltaX;
      }
      if Includes(formState.resizeDirection, 'n') {
        var deltaY := py - formState.initialPosition.y;
        newHeight := AtLeast(MinHeight, formState.initialSize.height - deltaY);
        newY := formState.initialPosition.y + deltaY;
      }

      form.model := form.model[id := Resized(control, Box(newX, newY, newWidth, newHeight))];
    }

    /** `handleResizeEnd`. */
    method HandleResizeEnd()
      modifies formState`isResizing, formState`resizeDirection
      ensures Snapshot() == End(old(Snapshot()))
    {
      formState.isResizing := false;
      formState.resizeDirection := None;
    }
  }
}
