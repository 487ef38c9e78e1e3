/**
 * The cursor names the backend asks the cursor theme for: the application
 * cursors of get_cursor_for_type and the border cursors that
 * pointer_handle_motion shows over a resize edge.
 */
module Cursors {
  import opened Decoration

  /** OS_Cursor. */
  datatype Cursor = Pointer | IBar | LeftRight | UpDown | DownRight | UpRight | UpDownLeftRight | HandPoint | Disabled

  /** get_cursor_for_type. */
  function ThemeCursorName(c: Cursor): (name: string)
    ensures name == "left_ptr" <==> c == Pointer
  {
    match c
    case Pointer => "left_ptr"
    case IBar => "text"
    case LeftRight => "ew-resize"
    case UpDown => "ns-resize"
    case DownRight => "nwse-resize"
    case UpRight => "nesw-resize"
    case UpDownLeftRight => "all-scroll"
    case HandPoint => "hand2"
    case Disabled => "not-allowed"
  }

  /** The cursor name pointer_handle_motion picks for a resize edge ("left_ptr" by default). */
  function BorderCursorName(e: Edge): (name: string)
    ensures name == "left_ptr" <==> e == None
  {
    match e
    case Top => "top_side"
    case Bottom => "bottom_side"
    case Left => "left_side"
    case TopLeft => "top_left_corner"
    case BottomLeft => "bottom_left_corner"
    case Right => "right_side"
    case TopRight => "top_right_corner"
    case BottomRight => "bottom_right_corner"
    case None => "left_ptr"
  }

  /** Distinct application cursors ask for distinct theme cursors. */
  lemma ThemeCursorNamesDistinct(c1: Cursor, c2: Cursor)
    requires ThemeCursorName(c1) == ThemeCursorName(c2)
    ensures c1 == c2
  {
  }

  /** Distinct edges show distinct border cursors, none of them an application cursor. */
  lemma BorderCursorNamesDistinct(e1: Edge, e2: Edge, c: Cursor)
    requires e1 != None && e2 != None
    ensures BorderCursorName(e1) == BorderCursorName(e2) ==> e1 == e2
    ensures BorderCursorName(e1) != ThemeCursorName(c)
  {
  }
}
