/** Bootstrap colours and their background utility classes (src/color.rs). */
module Colors {

  datatype Color = Primary | Secondary | Success | Danger | Warning | Info | Light | Dark

  /** `Color::as_background`: the `bg-` utility class of the colour. */
  function AsBackground(c: Color): (r: string)
    ensures |r| > 3 && r[..3] == "bg-"
  {
    match c
    case Primary => "bg-primary"
    case Secondary => "bg-secondary"
    case Success => "bg-success"
    case Danger => "bg-danger"
    case Warning => "bg-warning"
    case Info => "bg-info"
    case Light => "bg-light"
    case Dark => "bg-dark"
  }

  /** The eight classes are pairwise distinct. */
  lemma AsBackgroundInjective(a: Color, b: Color)
    ensures AsBackground(a) == AsBackground(b) ==> a == b
  {
  }
}
