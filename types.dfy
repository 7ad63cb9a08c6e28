/** The records shared by the price feed, the form and the selector. */
module Types {

  /** A raw price record of the feed; its ISO date is given as epoch milliseconds. */
  datatype TokenPrice = TokenPrice(currency: string, date: int, price: real)

  /** A processed token: its currency symbol, USD price and icon URL. */
  datatype Token = Token(currency: string, price: real, icon: string)
}
