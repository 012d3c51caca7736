/** The records the resize handlers work on: a form's control map, the
    controls themselves, and the builder's gesture state.  Only the shapes the
    handlers read or write are kept; pixels are whole numbers. */
module FormTypes {

  datatype Option<+T> = None | Some(value: T)

  /** JavaScript's `n || fallback` on an optional number: absent and 0 are
      both falsy, so both give the fallback. */
  function OrElse(n: Option<int>, fallback: int): int
  {
    if n.Some? && n.value != 0 then n.value else fallback
  }

  /** JavaScript truthiness of an optional string id: absent and "" are falsy. */
  predicate IsSetId(id: Option<string>)
  {
    id.Some? && id.value != ""
  }

  datatype FieldType = Text | Checkbox | Select | Radio

  datatype ChoiceOption = ChoiceOption(value: string, caption: string)

  datatype FieldValue = StringValue(s: string) | NumberValue(n: int) | BooleanValue(b: bool)

  /** A style entry: the resize handlers write `${n}px`, other writers any text. */
  datatype CssValue = Px(pixels: int) | Literal(text: string)

  /** A control's stored position; every part may be missing. */
  datatype Position = Position(x: Option<int>, y: Option<int>, zIndex: Option<int>)

  /** One control of the form's model.  A missing `style` object is the empty map. */
  datatype Control = Control(
    id: string,
    fieldType: FieldType,
    caption: string,  // the source's `label` (a Dafny keyword)
    placeholder: Option<string>,
    required: Option<bool>,
    options: Option<seq<ChoiceOption>>,
    value: Option<FieldValue>,
    position: Option<Position>,
    style: map<string, CssValue>)

  datatype Size = Size(width: int, height: int)

  datatype Point = Point(x: int, y: int)

  /** The position a control is read back at: `position?.x || 0`, `position?.y || 0`. */
  function StoredPoint(control: Control): (p: Point)
    // `|| 0` on a number: a stored coordinate (0 included) is read as it is, a missing one as 0
    ensures control.position.Some? && control.position.value.x.Some? ==> p.x == control.position.value.x.value
    ensures control.position.Some? && control.position.value.y.Some? ==> p.y == control.position.value.y.value
    ensures control.position.None? || control.position.value.x.None? ==> p.x == 0
    ensures control.position.None? || control.position.value.y.None? ==> p.y == 0
  {
    match control.position
    case None => Point(0, 0)
    case Some(p) => Point(OrElse(p.x, 0), OrElse(p.y, 0))
  }

  /** A value copy of the builder's gesture state. */
  datatype BuilderState = BuilderState(
    editingControlId: Option<string>,
    isResizing: bool,
    resizeDirection: Option<string>,
    initialSize: Size,
    initialPosition: Point)

  /** A form; the handlers replace `model` as a whole. */
  class Form {
    var model: map<string, Control>

    constructor (model: map<string, Control>)
      ensures this.model == model
    {
      this.model := model;
    }
  }

  /** The builder state shared by the handlers, updated field by field. */
  class FormBuilderState {
    var editingControlId: Option<string>
    var isResizing: bool
    var resizeDirection: Option<string>
    var initialSize: Size
    var initialPosition: Point

    /** An idle state: no control edited, no gesture. */
    constructor ()
      ensures Value() == BuilderState(None, false, None, Size(0, 0), Point(0, 0))
    {
      editingControlId := None;
      isResizing := false;
      resizeDirection := None;
      initialSize := Size(0, 0);
      initialPosition := Point(0, 0);
    }

    function Value(): BuilderState
      reads this
    {
      BuilderState(editingControlId, isResizing, resizeDirection, initialSize, initialPosition)
    }
  }
}
