/**
 * The Tailwind colour families the dashboard uses to paint severity: the
 * metric bars (`bg-<colour>-500`), the diabetes status text and the badges.
 */
module Styles {

  datatype Colour = Blue | Red | Yellow | Emerald | Orange | Slate

  /** A pill or a coloured word: its text and its colour family. */
  datatype Badge = Badge(text: string, colour: Colour)
}
