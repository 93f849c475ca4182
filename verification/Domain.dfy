/** What the Rust engine and the Go control plane share. */
module Domain {
  datatype Side = Buy | Sell

  /** How contested an order's place in the book is. */
  datatype CompetitionState = Normal | Competitive | Saturated

  function Opposite(side: Side): Side {
    if side == Buy then Sell else Buy
  }

  function Sign(side: Side): real {
    if side == Buy then 1.0 else -1.0
  }

  function Signed(side: Side, quantity: real): real {
    Sign(side) * quantity
  }
}
