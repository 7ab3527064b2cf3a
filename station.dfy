/** The already-validated station settings the weather pipeline branches on. */
module Station {

  /** `station['provider']`, one of the three values the configuration accepts. */
  datatype Provider = Nrcs | MesoWest | Python

  /** `station['units']`: only the exact string `metric` selects metric behaviour;
      every other value (the API's `english`) behaves as `English`. */
  datatype UnitSystem = English | Metric

  /** `station['wind_mode']`. */
  datatype WindMode = Normal | Average
}
