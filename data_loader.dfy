/** The market tick record consumed by the strategies and the engine.
    File loading, date parsing and the instrument loaders are not part of this model. */
module DataLoader {

  /** A point in time. Only ever copied and compared, so it is kept opaque. */
  datatype Timestamp = Timestamp(instant: int)

  /** The frozen `MarketDataPoint` dataclass: one timestamped price observation. */
  datatype MarketDataPoint = MarketDataPoint(timestamp: Timestamp, symbol: string, price: real)
}
