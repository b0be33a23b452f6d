/**
  The SwiftUI colours the core hands to the views, as tags. `Opacity(c, a)`
  stands for `c.opacity(a)`.
 */
module Colors {

  datatype Color =
    | Blue
    | Green
    | Purple
    | Gray
    | Orange
    | Separator
    | Opacity(base: Color, alpha: real)
}
