/** A colour as both controllers take it: three channel intensities. */
module Colors {

  datatype Color = Color(red: int, green: int, blue: int)

  /** The channels in order, as `list(color)` gives them. */
  function Channels(c: Color): seq<int> {
    [c.red, c.green, c.blue]
  }

  /** `min(color)` */
  function Min3(c: Color): (m: int)
    ensures m <= c.red && m <= c.green && m <= c.blue
    ensures m == c.red || m == c.green || m == c.blue
  {
    if c.red <= c.green && c.red <= c.blue then c.red
    else if c.green <= c.blue then c.green
    else c.blue
  }

  /** `max(color)` */
  function Max3(c: Color): (m: int)
    ensures m >= c.red && m >= c.green && m >= c.blue
    ensures m == c.red || m == c.green || m == c.blue
  {
    if c.red >= c.green && c.red >= c.blue then c.red
    else if c.green >= c.blue then c.green
    else c.blue
  }

  /** The check `min(color) < 0 or max(color) > 255` passes exactly when every channel is a byte. */
  predicate ValidColor(c: Color): (ok: bool)
    ensures ok <==> 0 <= c.red <= 255 && 0 <= c.green <= 255 && 0 <= c.blue <= 255
  {
    !(Min3(c) < 0 || Max3(c) > 255)
  }
}
