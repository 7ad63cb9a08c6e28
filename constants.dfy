/** Application-wide constants used by the modelled code. */
module Constants {

  /** Base URL of the token icon host. */
  const TOKEN_ICONS_BASE: string := "https://raw.githubusercontent.com/Switcheo/token-icons/main/tokens"

  /** Amounts at or below this value are not swapped. */
  const MIN_AMOUNT: real := 0.0
}
