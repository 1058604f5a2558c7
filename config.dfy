/** The bot's fixed settings: the model file, the pause between cycles, the confidence
    threshold and the instruments, in the order a cycle visits them. */
module Config {

  /** An instrument: its display name and the symbol the quote service knows it by. */
  datatype Asset = Asset(name: string, ticker: string)

  const ModelPath: string := "modelo_trained_rf_pro.pkl"
  const PauseHours: nat := 4
  const Threshold: real := 0.55

  const Universe: seq<Asset> := [
    Asset("Apple Inc", "AAPL"),
    Asset("Tesla Inc", "TSLA"),
    Asset("CoroWare Inc", "COWI"),
    Asset("SPDR S&P 500 ETF Trust", "SPY"),
    Asset("Direxion Semiconductor Bear 3X", "SOXS"),
    Asset("UltraPro Short QQQ", "SQQQ"),
    Asset("GraniteShares COIN 1.5x ETF", "CONL"),
    Asset("Gold Spot USD", "XAU/USD"),
    Asset("Gold Spot Euro", "XAU/EUR"),
    Asset("Gold Spot SGD", "XAU/SGD"),
    Asset("Copper Pound USD", "XG/USD"),
    Asset("Silver Spot AUD", "XAG/AUD")
  ]

  /** Twelve instruments, no name listed twice (they are the keys of a dictionary). */
  lemma UniverseNamesDistinct()
    ensures |Universe| == 12
    ensures forall i, j :: 0 <= i < j < |Universe| ==> Universe[i].name != Universe[j].name
  {
  }
}
