/** Playing cards as structured values. The program names a card by a string
    "<rank>_of_<suit>" and recovers the rank with split('_')[0]; here the rank
    and the suit are fields, so no parsing is needed. */
module Cards {

  datatype Suit = Clubs | Diamonds | Hearts | Spades

  datatype Rank =
    | Two | Three | Four | Five | Six | Seven | Eight | Nine | Ten
    | Jack | Queen | King | Ace

  datatype Card = Card(rank: Rank, suit: Suit)
}
