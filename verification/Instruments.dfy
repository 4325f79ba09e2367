/** Contract terms the broker and the ledger read: `sigmaloop/domain/instrument.py`. */
module Instruments {
  import opened Types

  datatype Listing = Shares(delistedOn: Option<int>) | Contract(expiry: int)

  datatype RawInstrument = RawInstrument(
    multiplier: real, tick: real, lot: real, tradeable: bool, shortable: bool, listing: Listing)
  {
    /** A share stops trading on its delisting date, a contract after its expiry date. */
    predicate IsExpired(at: Time) {
      match listing
      case Shares(None) => false
      case Shares(Some(day)) => Day(at) >= day
      case Contract(day) => Day(at) > day
    }
  }

  /** An instrument as its constructor admits it. */
  type Instrument = i: RawInstrument
    | i.multiplier > 0.0 && i.tick > 0.0 && i.lot > 0.0
    witness RawInstrument(1.0, 0.01, 1.0, true, true, Shares(None))
}
