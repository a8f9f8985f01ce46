/** Values shared by the web client, the game service and the bot. */
module Basics {

  /** A value that may be absent (`null` / `None` in the source). */
  datatype Option<+T> = None | Some(value: T)

  /** The two faces of the coin. */
  datatype Side = Heads | Tails

  /** The name a side has on the wire and in the client's state: 'heads' or 'tails'. */
  function SideName(s: Side): (name: string)
    ensures name == "heads" <==> s == Heads
    ensures name == "tails" <==> s == Tails
  {
    match s
    case Heads => "heads"
    case Tails => "tails"
  }
}
