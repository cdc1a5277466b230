/**
 * The layout-free description of what the result card displays. Class names,
 * icons, emoji and spacing are dropped; what remains is the semantic tone of
 * each primitive and the JSON value it shows (React renders a string or a
 * number as text and `null`/`undefined`/booleans as nothing, so the value is
 * kept as it is).
 */
module Presentation {
  import opened Options
  import opened JsValue

  /** The semantic variant of a badge, a list-item icon or a score colour;
      the score indicator's 'destructive' colour is `Error`. */
  datatype Tone = Default | Success | Warning | Error

  /** The `{+}{impact}%` badge of a contributing factor. */
  datatype ImpactBadge = ImpactBadge(tone: Tone, sign: string, impact: Json)

  /** What a guarded child `{cond && <element>}` renders: nothing, the
      element, or, when the guard stopped at the number `0`, the text "0"
      (React renders the number 0, but no other falsy value). */
  datatype Guarded<+T> = Omitted | Element(element: T) | StrayZero

  datatype Item =
    | ScoreIndicator(caption: string, percentage: int, tone: Tone)
    | VerdictPanel(verdict: Json)
    | Badge(tone: Tone, content: Json)
    | ListItem(tone: Tone, content: Json)
    | NumberedItem(number: nat, content: Json)
    | BreakdownCell(caption: string, value: Json)
    | FactorItem(name: Json, badge: Guarded<ImpactBadge>, description: Guarded<Json>)
    | Alert(message: Json)
    | RawDump(data: Json)

  /** A titled `Section`, or an untitled group such as the score overview. */
  datatype Block = Block(title: Option<string>, items: seq<Item>)

  /** What `ResultCard` returns: the pulsing skeleton, nothing (`null`), or a
      card with a heading and its blocks. */
  datatype Card = Skeleton | Blank | Panel(title: string, blocks: seq<Block>)
}
