/** From the stored feature dictionary to the scorer's features: one mapping for the live consumer and the replay. */
module FeatureMap {
  import opened Scoring
  import opened Wrappers

  datatype FeatureKey =
    | PriceChangePct24h | VolumeSpikeRatio | LiquidityUsd | Volume24hUsd | SentimentKey | SocialGrowthKey | HasNews
    | MarketSentimentKey | FundingRate8h | LongShortAccountRatio | OpenInterestChangePct24h
    | TvlChangePct7d | FeesChangePct7d | NextUnlockPctSupply | NextUnlockAt | HasUnlockSchedule
    | CommitRatio4w | PrRatio4w | DaysSincePush | StarGrowthPct7d | AllReposArchived
    | OtherKey(name: string)

  /** A stored value. A date is the instant its text denotes, in seconds, if it denotes one. */
  datatype Reading = Number(n: real) | Whole(i: int) | Truth(b: bool) | Date(instant: Option<int>)

  type Raw = map<FeatureKey, Reading>

  const SECONDS_PER_DAY: real := 86400.0

  function NumberAt(raw: Raw, k: FeatureKey): Option<real> {
    if k in raw && raw[k].Number? then Some(raw[k].n) else None
  }

  function WholeAt(raw: Raw, k: FeatureKey): Option<int> {
    if k in raw && raw[k].Whole? then Some(raw[k].i) else None
  }

  predicate TruthAt(raw: Raw, k: FeatureKey) {
    k in raw && raw[k].Truth? && raw[k].b
  }

  function NonZero(v: Option<real>): Option<real> {
    if v.Some? && v.value != 0.0 then v else None
  }

  /** The measured liquidity, else the day's volume in its stead; a zero of either is no reading. */
  function LiquidityFrom(raw: Raw): Option<real> {
    var measured := NonZero(NumberAt(raw, LiquidityUsd));
    if measured.Some? then measured else NonZero(NumberAt(raw, Volume24hUsd))
  }

  function UnlockAt(raw: Raw): Option<int> {
    if NextUnlockAt in raw && raw[NextUnlockAt].Date? then raw[NextUnlockAt].instant else None
  }

  /** Days from the reference instant to the stored date; a date already past is a stale reading. */
  function UnlockDays(raw: Raw, now: int): Option<real> {
    var at := UnlockAt(raw);
    if at.None? || at.value < now then None else Some((at.value - now) as real / SECONDS_PER_DAY)
  }

  function FeaturesFrom(raw: Raw, now: int): Features {
    Features(
      NumberAt(raw, PriceChangePct24h),
      NumberAt(raw, VolumeSpikeRatio),
      LiquidityFrom(raw),
      NumberAt(raw, SentimentKey),
      NumberAt(raw, SocialGrowthKey),
      if TruthAt(raw, HasNews) then Some(1.0) else None,
      NumberAt(raw, MarketSentimentKey),
      NumberAt(raw, FundingRate8h),
      NumberAt(raw, LongShortAccountRatio),
      NumberAt(raw, OpenInterestChangePct24h),
      NumberAt(raw, TvlChangePct7d),
      NumberAt(raw, FeesChangePct7d),
      NumberAt(raw, NextUnlockPctSupply),
      UnlockDays(raw, now),
      TruthAt(raw, HasUnlockSchedule),
      NumberAt(raw, CommitRatio4w),
      NumberAt(raw, PrRatio4w),
      WholeAt(raw, DaysSincePush),
      NumberAt(raw, StarGrowthPct7d),
      TruthAt(raw, AllReposArchived))
  }

  lemma DaysInjective(at: int, now: int, later: int)
    ensures (at - now) as real / SECONDS_PER_DAY == (at - later) as real / SECONDS_PER_DAY ==> now == later
  {
  }

  /** Replaying a row by another clock gives the same features exactly when no unlock date is stored, or the clocks
      agree, or the date is past by both. */
  lemma SameFeaturesIff(raw: Raw, now: int, later: int)
    ensures FeaturesFrom(raw, now) == FeaturesFrom(raw, later)
      <==> UnlockAt(raw).None? || now == later || (UnlockAt(raw).value < now && UnlockAt(raw).value < later)
  {
    if UnlockAt(raw).Some? {
      DaysInjective(UnlockAt(raw).value, now, later);
    }
  }

  /** The scorer's worst liquidity, a measured zero, never comes out of the mapping. */
  lemma ZeroLiquidityIsNoReading(raw: Raw, now: int)
    ensures FeaturesFrom(raw, now).liquidity != Some(0.0)
    ensures FeaturesFrom(raw, now).liquidity.None?
      <==> NonZero(NumberAt(raw, LiquidityUsd)).None? && NonZero(NumberAt(raw, Volume24hUsd)).None?
  {
  }

  // ---------- Which key feeds which reading ----------

  /** The dictionary holds this number, this integer, or true under the key. */
  predicate Holds(raw: Raw, k: FeatureKey, reading: Reading) {
    k in raw && raw[k] == reading
  }

  /** The reading is exactly the number the dictionary holds under this key, if it holds one there. */
  ghost predicate FedBy(reading: Option<real>, raw: Raw, k: FeatureKey) {
    forall v :: reading == Some(v) <==> Holds(raw, k, Number(v))
  }

  /** Each reading is fed by its own key: market, people and derivatives. */
  lemma MarketKeysFeed(raw: Raw, now: int)
    ensures var f := FeaturesFrom(raw, now);
            && FedBy(f.priceChange, raw, PriceChangePct24h) && FedBy(f.volumeSpike, raw, VolumeSpikeRatio)
            && FedBy(f.sentiment, raw, SentimentKey) && FedBy(f.socialGrowth, raw, SocialGrowthKey)
            && FedBy(f.marketSentiment, raw, MarketSentimentKey)
            && f.newsImpact == (if Holds(raw, HasNews, Truth(true)) then Some(1.0) else None)
            && FedBy(f.funding, raw, FundingRate8h) && FedBy(f.longShortRatio, raw, LongShortAccountRatio)
            && FedBy(f.openInterestChange, raw, OpenInterestChangePct24h)
  {
  }

  /** Fundamentals, the unlock and development likewise. */
  lemma ProjectKeysFeed(raw: Raw, now: int)
    ensures var f := FeaturesFrom(raw, now);
            && FedBy(f.tvlChange, raw, TvlChangePct7d) && FedBy(f.feesChange, raw, FeesChangePct7d)
            && FedBy(f.unlockPct, raw, NextUnlockPctSupply)
            && (f.hasUnlockSchedule <==> Holds(raw, HasUnlockSchedule, Truth(true)))
            && FedBy(f.commitRatio, raw, CommitRatio4w) && FedBy(f.prRatio, raw, PrRatio4w) && FedBy(f.starGrowth, raw, StarGrowthPct7d)
            && (forall n :: f.daysSincePush == Some(n) <==> Holds(raw, DaysSincePush, Whole(n)))
            && (f.allArchived <==> Holds(raw, AllReposArchived, Truth(true)))
  {
  }

  /** The liquidity is the measured one unless that is missing or zero; then the day's volume, unless that is. */
  lemma LiquidityIsFed(raw: Raw, now: int, v: real)
    ensures Holds(raw, LiquidityUsd, Number(v)) && v != 0.0 ==> FeaturesFrom(raw, now).liquidity == Some(v)
    ensures LiquidityUsd !in raw && Holds(raw, Volume24hUsd, Number(v)) && v != 0.0 ==> FeaturesFrom(raw, now).liquidity == Some(v)
    ensures Holds(raw, LiquidityUsd, Number(0.0)) && Holds(raw, Volume24hUsd, Number(v)) && v != 0.0 ==>
              FeaturesFrom(raw, now).liquidity == Some(v)
  {
  }

  /** The unlock counts in days from now; a date already past is no reading. */
  lemma UnlockIsDated(raw: Raw, now: int, at: int)
    ensures Holds(raw, NextUnlockAt, Date(Some(at))) ==>
              FeaturesFrom(raw, now).unlockDays == (if at < now then None else Some((at - now) as real / 86_400.0))
    ensures NextUnlockAt !in raw || raw[NextUnlockAt] == Date(None) ==> FeaturesFrom(raw, now).unlockDays == None
  {
  }
}
