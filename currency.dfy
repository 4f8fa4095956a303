/** `getCurrencySymbol`, written identically in Dashboard.jsx, App.jsx and both
    CoinDetails.jsx files; modelled once. */
module Currency {

  /** brl shows "R$", eur shows "€", every other code (usd included) shows "$". */
  function CurrencySymbol(cur: string): (r: string)
    ensures r == "R$" <==> cur == "brl"
    ensures r == "€" <==> cur == "eur"
    ensures r == "$" <==> cur != "brl" && cur != "eur"
  {
    if cur == "brl" then "R$" else if cur == "eur" then "€" else "$"
  }
}
