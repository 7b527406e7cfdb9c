/** The strict whitelist of the trading engine, and the notations a symbol may arrive in. */
module Symbols {
  import opened Text

  type Ticker = string
  type Pair = string

  const WHITELIST: map<Ticker, Pair> := map[
    "BTC" := "PF_XBTUSD", "ETH" := "PF_ETHUSD", "SOL" := "PF_SOLUSD", "XRP" := "PF_XRPUSD",
    "DOGE" := "PF_DOGEUSD", "AVAX" := "PF_AVAXUSD", "LINK" := "PF_LINKUSD", "MATIC" := "PF_MATICUSD"]

  predicate IsSeparator(c: char) {
    c == '/' || c == '-' || c == ':'
  }

  /** No separator in it, whatever its case. */
  predicate IsBare(s: string) {
    forall i :: 0 <= i < |s| ==> !IsSeparator(s[i])
  }

  /** What comes before the first such character, all of it when there is none. */
  function UpTo(s: string, sep: char): string {
    if s == [] || s[0] == sep then [] else [s[0]] + UpTo(s[1..], sep)
  }

  lemma {:induction false} UpToStops(s: string, sep: char)
    ensures var r := UpTo(s, sep); r <= s && sep !in r && (|r| < |s| ==> s[|r|] == sep)
    decreases |s|
  {
    if s != [] && s[0] != sep {
      var r := UpTo(s[1..], sep);
      UpToStops(s[1..], sep);
      assert [s[0]] + r <= [s[0]] + s[1..] == s;
    }
  }

  /** The base ticker of "BTC", "btc/usdt" or "BTC-PERP": a slash is looked for first, then a dash, then a colon. */
  function Normalize(symbol: string): Ticker {
    Cut(Upper(symbol))
  }

  const SEPARATORS := "/-:"

  /** Up to the first of these separators, from the i-th on, that occurs at all. */
  function CutFrom(base: string, i: nat): Ticker
    requires i <= |SEPARATORS|
    decreases |SEPARATORS| - i
  {
    if i == |SEPARATORS| then base
    else if SEPARATORS[i] in base then UpTo(base, SEPARATORS[i])
    else CutFrom(base, i + 1)
  }

  function Cut(base: string): Ticker {
    CutFrom(base, 0)
  }

  predicate Tradable(symbol: string) {
    Normalize(symbol) in WHITELIST
  }

  function PairOf(symbol: string): Pair
    requires Tradable(symbol)
  {
    WHITELIST[Normalize(symbol)]
  }

  // ---------- Which notations denote which ticker ----------

  lemma UpperKeepsSeparators(s: string)
    ensures IsBare(Upper(s)) <==> IsBare(s)
    ensures forall c :: IsSeparator(c) ==> (c in Upper(s) <==> c in s)
  {
    UpperEach(s);
    forall c | IsSeparator(c) ensures c in Upper(s) <==> c in s {
      assert c in Upper(s) ==> exists i :: 0 <= i < |s| && UpperChar(s[i]) == c;
      if c in s {
        var i :| 0 <= i < |s| && s[i] == c;
        assert Upper(s)[i] == c;
      }
    }
    forall i | 0 <= i < |s| ensures IsSeparator(Upper(s)[i]) <==> IsSeparator(s[i]) {
    }
  }

  lemma BareIsWhole(symbol: string)
    requires IsBare(symbol)
    ensures Normalize(symbol) == Upper(symbol)
  {
    UpperKeepsSeparators(symbol);
  }

  lemma {:induction false} UpToFirst(before: string, sep: char, after: string)
    requires sep !in before
    ensures UpTo(before + [sep] + after, sep) == before
    decreases |before|
  {
    if before != [] {
      assert (before + [sep] + after)[1..] == before[1..] + [sep] + after;
      UpToFirst(before[1..], sep, after);
    }
  }

  /** The separators looked for before this one. */
  predicate RanksBefore(c: char, sep: char) {
    (c == '/' && sep != '/') || (c == '-' && sep == ':')
  }

  /** Pair notation: a bare ticker, a separator and anything after it denote that ticker exactly when nothing after it
      is a separator that is looked for earlier. */
  lemma PairNotationIff(ticker: string, sep: char, quote: string)
    requires IsBare(ticker) && IsSeparator(sep)
    ensures Normalize(ticker + [sep] + quote) == Upper(ticker) <==> forall c :: RanksBefore(c, sep) ==> c !in quote
  {
    UpperPair(ticker, sep, quote);
    UpperKeepsSeparators(ticker);
    UpperKeepsSeparators(quote);
    PairCut(Upper(ticker), sep, Upper(quote));
  }

  lemma UpperPair(ticker: string, sep: char, quote: string)
    requires IsSeparator(sep)
    ensures Upper(ticker + [sep] + quote) == Upper(ticker) + [sep] + Upper(quote)
  {
    UpperAppend(ticker + [sep], quote);
    UpperAppend(ticker, [sep]);
  }

  /** The same of letters already in upper case: the cut is at this separator unless an earlier one occurs. */
  lemma PairCut(ticker: string, sep: char, quote: string)
    requires IsBare(ticker) && IsSeparator(sep)
    ensures Cut(ticker + [sep] + quote) == ticker <==> forall c :: RanksBefore(c, sep) ==> c !in quote
  {
    UpToFirst(ticker, sep, quote);
    EarlierSeparatorCutsLater(ticker, sep, quote, '/');
    EarlierSeparatorCutsLater(ticker, sep, quote, '-');
    SeparatorsInPair(ticker, sep, quote);
  }

  lemma SeparatorsInPair(ticker: string, sep: char, quote: string)
    requires IsBare(ticker) && IsSeparator(sep)
    ensures forall c :: IsSeparator(c) ==> (c in ticker + [sep] + quote <==> c == sep || c in quote)
  {
  }

  /** Cutting at an earlier separator found after this one leaves more than the ticker. */
  lemma EarlierSeparatorCutsLater(ticker: string, sep: char, quote: string, c: char)
    requires IsBare(ticker) && IsSeparator(c)
    ensures c != sep ==> |UpTo(ticker + [sep] + quote, c)| > |ticker|
  {
    var s := ticker + [sep] + quote;
    UpToStops(s, c);
    assert s[|ticker|] == sep;
    forall i | 0 <= i < |ticker| ensures s[i] != c {
      assert s[i] == ticker[i];
    }
  }

  /** Normalising again changes nothing exactly when no separator is left. */
  lemma NormalizeTwiceIff(symbol: string)
    ensures Normalize(Normalize(symbol)) == Normalize(symbol) <==> IsBare(Normalize(symbol))
  {
    NormalIsUpper(symbol);
    CutIsWholeIff(Normalize(symbol));
  }

  lemma NormalIsUpper(symbol: string)
    ensures Upper(Normalize(symbol)) == Normalize(symbol)
  {
    var base, n := Upper(symbol), |Normalize(symbol)|;
    CutIsPrefix(base);
    UpperEach(symbol);
    UpperOfPrefix(base, n);
    assert base[..n] == Cut(base);
  }

  lemma CutIsPrefix(base: string)
    ensures Cut(base) <= base
  {
    UpToStops(base, '/');
    UpToStops(base, '-');
    UpToStops(base, ':');
  }

  lemma CutIsWholeIff(base: string)
    ensures Cut(base) == base <==> IsBare(base)
  {
    UpToStops(base, '/');
    UpToStops(base, '-');
    UpToStops(base, ':');
    assert forall i :: 0 <= i < |base| ==> base[i] in base;
  }

  lemma UpperOfPrefix(s: string, k: nat)
    requires k <= |s| && forall i :: 0 <= i < |s| ==> UpperChar(s[i]) == s[i]
    ensures Upper(s[..k]) == s[..k]
  {
    AlreadyUpper(s[..k]);
  }

  lemma AlreadyUpper(s: string)
    requires forall i :: 0 <= i < |s| ==> UpperChar(s[i]) == s[i]
    ensures Upper(s) == s
  {
    UpperEach(s);
  }

  /** Tickers stand for themselves: what is listed is listed in every notation that denotes it. */
  lemma TickersAreNormal(ticker: Ticker)
    requires ticker in WHITELIST
    ensures Normalize(ticker) == ticker && Tradable(ticker) && PairOf(ticker) == WHITELIST[ticker]
  {
    TickersAreUpper(ticker);
    BareIsWhole(ticker);
  }

  lemma TickersAreUpper(ticker: Ticker)
    requires ticker in WHITELIST
    ensures Upper(ticker) == ticker && IsBare(ticker)
  {
    TickersAreLetters(ticker);
    LettersAreUpper(ticker);
  }

  predicate AllLetters(s: string) {
    forall i :: 0 <= i < |s| ==> 'A' <= s[i] <= 'Z'
  }

  lemma LettersAreUpper(s: string)
    requires AllLetters(s)
    ensures Upper(s) == s && IsBare(s)
  {
    AlreadyUpper(s);
  }

  lemma TickersAreLetters(ticker: Ticker)
    requires ticker in WHITELIST
    ensures AllLetters(ticker)
  {
    assert ticker in {"BTC", "ETH", "SOL", "XRP", "DOGE", "AVAX", "LINK", "MATIC"};
  }
}
