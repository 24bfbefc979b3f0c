/**
 * The widget records of tkimgloader: three string-valued enumerations and a
 * widget with an id, a validated category and type, and a mutable integer
 * position. Text and image-button widgets are widgets whose category and type
 * are fixed; an image button also carries a validated button type.
 */
module Widgets {
  import opened Wrappers

  /** Where a widget lives: drawn on the canvas or floating above it. */
  datatype WidgetCategory = Canvas | Floating {
    function Value(): (s: string) {
      match this
      case Canvas => "Canvas"
      case Floating => "Floating"
    }
  }

  /** The kind of a widget; its value prefixes the widget's registry key. */
  datatype WidgetType = Button | Text {
    function Value(): (s: string) {
      match this
      case Button => "Button"
      case Text => "Text"
    }
  }

  /** RELEASE: the image reverts when the button is released; SWITCH: it stays. */
  datatype ButtonType = Release | Switch {
    function Value(): (s: string) {
      match this
      case Release => "Release"
      case Switch => "Switch"
    }
  }

  /** The enumerations are declared unique: no two members share a value. */
  lemma EnumValuesUnique(c1: WidgetCategory, c2: WidgetCategory, t1: WidgetType, t2: WidgetType,
                         b1: ButtonType, b2: ButtonType)
    ensures c1.Value() == c2.Value() <==> c1 == c2
    ensures t1.Value() == t2.Value() <==> t1 == t2
    ensures b1.Value() == b2.Value() <==> b1 == b2
  {
  }

  /**
   * Whatever a caller may pass where an enumeration member is expected,
   * as far as an isinstance test can tell the values apart.
   */
  datatype PyValue =
    | PyNone
    | PyStr(s: string)
    | PyInt(i: int)
    | PyCategory(category: WidgetCategory)
    | PyType(widgetType: WidgetType)
    | PyButtonType(buttonType: ButtonType)

  /** The ValueError raised by a validating setter, with the rejected value. */
  datatype ValueError =
    | InvalidCategory(rejected: PyValue)
    | InvalidType(rejected: PyValue)
    | InvalidButtonType(rejected: PyValue)

  /** The category setter's check: only a WidgetCategory member is accepted. */
  function CheckCategory(v: PyValue): (r: Result<WidgetCategory, ValueError>)
    ensures r.Success? <==> v.PyCategory?
    ensures r.Success? ==> v == PyCategory(r.value)
    ensures r.Failure? ==> r.error == InvalidCategory(v)
  {
    if v.PyCategory? then Success(v.category) else Failure(InvalidCategory(v))
  }

  /** The type setter's check: only a WidgetType member is accepted. */
  function CheckType(v: PyValue): (r: Result<WidgetType, ValueError>)
    ensures r.Success? <==> v.PyType?
    ensures r.Success? ==> v == PyType(r.value)
    ensures r.Failure? ==> r.error == InvalidType(v)
  {
    if v.PyType? then Success(v.widgetType) else Failure(InvalidType(v))
  }

  /** The button-type setter's check: only a ButtonType member is accepted. */
  function CheckButtonType(v: PyValue): (r: Result<ButtonType, ValueError>)
    ensures r.Success? <==> v.PyButtonType?
    ensures r.Success? ==> v == PyButtonType(r.value)
    ensures r.Failure? ==> r.error == InvalidButtonType(v)
  {
    if v.PyButtonType? then Success(v.buttonType) else Failure(InvalidButtonType(v))
  }

  /**
   * The checks a new widget goes through: the category is set (and checked)
   * before the type, so a widget with both wrong reports the category.
   */
  function CheckWidget(category: PyValue, widgetType: PyValue): (r: Result<(WidgetCategory, WidgetType), ValueError>)
    ensures r.Success? <==> category.PyCategory? && widgetType.PyType?
    ensures r.Success? ==> r.value == (category.category, widgetType.widgetType)
    ensures !category.PyCategory? ==> r == Failure(InvalidCategory(category))
    ensures category.PyCategory? && !widgetType.PyType? ==> r == Failure(InvalidType(widgetType))
  {
    var c :- CheckCategory(category);
    var t :- CheckType(widgetType);
    Success((c, t))
  }

  /** A point on the canvas. */
  datatype Position = Position(x: int, y: int) {
    /** The point reached by a relative move. */
    function MovedBy(dx: int, dy: int): (p: Position) {
      Position(x + dx, y + dy)
    }
  }

  /** Moving back by the opposite deltas restores the position. */
  lemma MovedByInverse(p: Position, dx: int, dy: int)
    ensures p.MovedBy(dx, dy).MovedBy(-dx, -dy) == p
  {
  }

  /** Two relative moves compose into one by the summed deltas. */
  lemma MovedByComposes(p: Position, dx1: int, dy1: int, dx2: int, dy2: int)
    ensures p.MovedBy(dx1, dy1).MovedBy(dx2, dy2) == p.MovedBy(dx1 + dx2, dy1 + dy2)
  {
  }

  class Widget {
    var id: string
    var category: WidgetCategory
    var widgetType: WidgetType
    var posX: int
    var posY: int
    /** The validated button type; present exactly for an image button. */
    var buttonType: Option<ButtonType>

    function Pos(): (p: Position)
      reads this
    {
      Position(posX, posY)
    }

    /** A widget built from an already validated category and type. */
    constructor (id: string, category: WidgetCategory, widgetType: WidgetType, posX: int, posY: int)
      ensures this.id == id && this.category == category && this.widgetType == widgetType
      ensures Pos() == Position(posX, posY)
      ensures buttonType == None
    {
      this.id := id;
      this.category := category;
      this.widgetType := widgetType;
      this.posX := posX;
      this.posY := posY;
      this.buttonType := None;
    }

    /**
     * The widget constructor as callers see it: any value may be passed for
     * the category and the type, and a wrong one raises a ValueError.
     */
    static method New(id: string, category: PyValue, widgetType: PyValue, posX: int, posY: int)
      returns (r: Result<Widget, ValueError>)
      ensures r.Failure? <==> CheckWidget(category, widgetType).Failure?
      ensures r.Failure? ==> r.error == CheckWidget(category, widgetType).error
      ensures r.Success? ==> && fresh(r.value)
                             && r.value.id == id
                             && PyCategory(r.value.category) == category
                             && PyType(r.value.widgetType) == widgetType
                             && r.value.Pos() == Position(posX, posY)
                             && r.value.buttonType == None
    {
      var checked := CheckWidget(category, widgetType);
      if checked.Failure? {
        return Failure(checked.error);
      }
      var w := new Widget(id, checked.value.0, checked.value.1, posX, posY);
      return Success(w);
    }

    /** A text widget: always on the canvas, always of type Text. */
    constructor CanvasText(textId: string, posX: int, posY: int)
      ensures id == textId && category == Canvas && widgetType == Text
      ensures Pos() == Position(posX, posY)
      ensures buttonType == None
    {
      id := textId;
      category := Canvas;
      widgetType := Text;
      this.posX := posX;
      this.posY := posY;
      buttonType := None;
    }

    /** An image button with an already validated button type. */
    constructor CanvasImageButton(buttonId: string, buttonType: ButtonType, posX: int, posY: int)
      ensures id == buttonId && category == Canvas && widgetType == Button
      ensures Pos() == Position(posX, posY)
      ensures this.buttonType == Some(buttonType)
    {
      id := buttonId;
      category := Canvas;
      widgetType := Button;
      this.posX := posX;
      this.posY := posY;
      this.buttonType := Some(buttonType);
    }

    /** The image-button constructor as callers see it: a wrong button type raises a ValueError. */
    static method NewCanvasImageButton(buttonId: string, buttonType: PyValue, posX: int, posY: int)
      returns (r: Result<Widget, ValueError>)
      ensures r.Failure? <==> !buttonType.PyButtonType?
      ensures r.Failure? ==> r.error == InvalidButtonType(buttonType)
      ensures r.Success? ==> && fresh(r.value)
                             && r.value.id == buttonId
                             && r.value.category == Canvas
                             && r.value.widgetType == Button
                             && r.value.Pos() == Position(posX, posY)
                             && r.value.buttonType == Some(buttonType.buttonType)
    {
      var checked := CheckButtonType(buttonType);
      if checked.Failure? {
        return Failure(checked.error);
      }
      var w := new Widget.CanvasImageButton(buttonId, checked.value, posX, posY);
      return Success(w);
    }

    /** The validating category setter: a rejected value leaves the category as it was. */
    method SetCategory(v: PyValue) returns (err: Option<ValueError>)
      modifies this`category
      ensures err.None? <==> v.PyCategory?
      ensures err.Some? ==> err.value == InvalidCategory(v) && category == old(category)
      ensures err.None? ==> PyCategory(category) == v
    {
      var checked := CheckCategory(v);
      if checked.Failure? {
        return Some(checked.error);
      }
      category := checked.value;
      return None;
    }

    /** The validating type setter: a rejected value leaves the type as it was. */
    method SetWidgetType(v: PyValue) returns (err: Option<ValueError>)
      modifies this`widgetType
      ensures err.None? <==> v.PyType?
      ensures err.Some? ==> err.value == InvalidType(v) && widgetType == old(widgetType)
      ensures err.None? ==> PyType(widgetType) == v
    {
      var checked := CheckType(v);
      if checked.Failure? {
        return Some(checked.error);
      }
      widgetType := checked.value;
      return None;
    }

    /** The validating button-type setter, which only an image button has. */
    method SetButtonType(v: PyValue) returns (err: Option<ValueError>)
      requires buttonType.Some?
      modifies this`buttonType
      ensures err.None? <==> v.PyButtonType?
      ensures err.Some? ==> err.value == InvalidButtonType(v) && buttonType == old(buttonType)
      ensures err.None? ==> buttonType == Some(v.buttonType)
    {
      var checked := CheckButtonType(v);
      if checked.Failure? {
        return Some(checked.error);
      }
      buttonType := Some(checked.value);
      return None;
    }

    /** Absolute move: the position becomes exactly the given point; nothing else changes. */
    method MoveTo(posX: int, posY: int)
      modifies this`posX, this`posY
      ensures Pos() == Position(posX, posY)
      ensures id == old(id) && category == old(category) && widgetType == old(widgetType)
    {
      this.posX := posX;
      this.posY := posY;
    }

    /** Relative move: the deltas are added to the position; nothing else changes. */
    method MoveBy(x: int, y: int)
      modifies this`posX, this`posY
      ensures Pos() == old(Pos()).MovedBy(x, y)
      ensures id == old(id) && category == old(category) && widgetType == old(widgetType)
    {
      posX := posX + x;
      posY := posY + y;
    }
  }
}
