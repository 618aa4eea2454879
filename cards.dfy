/** Playing cards as the game rules see them: a suit and a value.
    The face-up flag and the sprite position of a card play no part in the
    rules and are not modelled. */
module Cards {

  /** The four suits of the deck. */
  datatype Suit = Clubs | Diamonds | Hearts | Spades

  /** A card. Values are compared with `>`; their concrete range comes from
      the deck configuration and is kept open here. */
  datatype Card = Card(suit: Suit, value: int)
}
