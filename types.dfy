/** The card record shared by the deck builder, the preview and the PDF layout. */
module Types {

  /** A card id, printed as "card-<index>-<stamp>": the card's position in the
      run that made it and the clock reading taken for it. */
  datatype CardId = CardId(index: nat, stamp: int)

  /** One printable card: its id and its concepts, top to bottom. */
  datatype GameCard = GameCard(id: CardId, concepts: seq<string>)
}
