/** Values the app takes from the Swift standard library and Foundation. */
module Foundation {

  /** Swift's `Optional`: `None` is `nil`. */
  datatype Option<+T> = None | Some(value: T)

  /** A URL, compared by value; its text is never parsed. */
  datatype Url = Url(text: string)

  /** The one address every "...ButtonTapped" method opens. */
  const GoogleUrl: Url := Url("https://google.com")

  /** Swift's `Int` on a 64-bit platform; arithmetic that leaves it traps. */
  const IntMin: int := -0x8000_0000_0000_0000
  const IntMax: int := 0x7FFF_FFFF_FFFF_FFFF
  type SwiftInt = x: int | IntMin <= x <= IntMax
}
