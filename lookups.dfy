/**
 * The two display lookups over fixed tables: the name of a level, and the
 * symbol of a currency code.
 */
module Lookups {

  /** `LEVEL_NAMES`, level 1 first. */
  const LevelNames: seq<string> := [
    "Fresh Wallet",
    "Cash Curious",
    "Money Mover",
    "Spend Smart",
    "Stack Builder",
    "Cash Controller",
    "Bag Secured",
    "Money Boss",
    "Wealth Plug",
    "Big Brain Finance"
  ]

  /** JavaScript's `a % n` for a positive `n`: the remainder takes the sign of
      `a` (it truncates toward zero, unlike Dafny's `%`). */
  function JsRem(a: int, n: int): (r: int)
    requires n > 0
    ensures a >= 0 ==> 0 <= r < n
    ensures a < 0 ==> -n < r <= 0
    ensures a >= 0 ==> r == a % n
  {
    if a >= 0 then a % n else -((-a) % n)
  }

  /** Truncation is symmetric about zero: negating the dividend negates the
      remainder. */
  lemma JsRemOdd(a: int, n: int)
    requires n > 0
    ensures JsRem(-a, n) == -JsRem(a, n)
  {
  }

  /** `LEVEL_NAMES[(level - 1) % LEVEL_NAMES.length] || LEVEL_NAMES[0]`: a
      negative index reads `undefined` and falls back to the first name. */
  function LevelName(level: int): (name: string)
    ensures name in LevelNames
    ensures level >= 1 ==> name == LevelNames[(level - 1) % |LevelNames|]
    ensures level <= 0 ==> name == "Fresh Wallet"
  {
    var i := JsRem(level - 1, |LevelNames|);
    if 0 <= i < |LevelNames| && LevelNames[i] != "" then LevelNames[i] else LevelNames[0]
  }

  /** Levels 1 to 10 each have their own name, and the names repeat every ten
      levels above that. */
  lemma LevelNamesCycle(level: int)
    requires level >= 1
    ensures level <= 10 ==> LevelName(level) == LevelNames[level - 1]
    ensures LevelName(level + 10) == LevelName(level)
  {
  }

  /** `CURRENCY_SYMBOLS`, as the characters stored in the source file (the
      non-ASCII symbols appear there as UTF-8 bytes read back as Mac Roman,
      e.g. EUR is U+201A U+00C7 U+00A8 rather than U+20AC). */
  const CurrencySymbols: map<string, string> := map[
    "USD" := "$",
    "EUR" := "\U{201A}\U{00C7}\U{00A8}",
    "GBP" := "\U{00AC}\U{00A3}",
    "JPY" := "\U{00AC}\U{2022}",
    "INR" := "\U{201A}\U{00C7}\U{03C0}",
    "CAD" := "C$",
    "AUD" := "A$",
    "CNY" := "\U{00AC}\U{2022}",
    "CHF" := "Fr"
  ]

  /** `CURRENCY_SYMBOLS[code] || fallback`. */
  function CurrencySymbol(code: string, fallback: string): (symbol: string)
    ensures code in CurrencySymbols ==> symbol == CurrencySymbols[code] && symbol != ""
    ensures code !in CurrencySymbols ==> symbol == fallback
  {
    if code in CurrencySymbols && CurrencySymbols[code] != "" then CurrencySymbols[code] else fallback
  }

  /** The symbol the user-stats card shows: an unknown code stands for itself. */
  function StatsSymbol(code: string): (symbol: string)
    ensures code in CurrencySymbols ==> symbol == CurrencySymbols[code]
    ensures code !in CurrencySymbols ==> symbol == code
  {
    CurrencySymbol(code, code)
  }

  /** The symbol the dashboard, charts, transactions and subscriptions show: an
      unknown code shows as '$'. */
  function ViewSymbol(code: string): (symbol: string)
    ensures code in CurrencySymbols ==> symbol == CurrencySymbols[code]
    ensures code !in CurrencySymbols ==> symbol == "$"
  {
    CurrencySymbol(code, "$")
  }

  /** The two places agree exactly on the known codes (and on the code "$"). */
  lemma SymbolsAgree(code: string)
    ensures StatsSymbol(code) == ViewSymbol(code) <==> code in CurrencySymbols || code == "$"
  {
  }
}
