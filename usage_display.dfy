/** The usage card of src/components/UsageDisplay.tsx: the feature lookups and, per
    usage entry, whether it is unlimited, how full its progress bar is, and whether
    the limit-reached notice shows. Numbers are JavaScript numbers: a finite value
    (without rounding), infinity, or NaN. */
module UsageDisplay {
  import opened Common
  import Text

  const KnownFeatures: seq<string> := ["article-generator", "image-generator", "background-remover", "resume-analyzer"]

  /** `getFeatureIcon`: the article icon for anything it does not know. */
  function FeatureIcon(feature: string): (r: Icon)
    ensures feature !in KnownFeatures ==> r == FileTextIcon
    ensures r in {FileTextIcon, ImageIcon, ScissorsIcon, FileUserIcon}
  {
    if feature == "article-generator" then FileTextIcon
    else if feature == "image-generator" then ImageIcon
    else if feature == "background-remover" then ScissorsIcon
    else if feature == "resume-analyzer" then FileUserIcon
    else FileTextIcon
  }

  /** `getFeatureLabel`: a display name for the four known keys, the key itself
      for any other. */
  function FeatureLabel(feature: string): (r: string)
    ensures feature in KnownFeatures <==> r != feature
  {
    if feature == "article-generator" then "Article Generator"
    else if feature == "image-generator" then "Image Generator"
    else if feature == "background-remover" then "Background Remover"
    else if feature == "resume-analyzer" then "Resume Analyzer"
    else feature
  }

  /** The four known features get four different labels and, except for the article
      icon that doubles as the fallback, four different icons. */
  lemma KnownFeaturesDistinct(f: string, g: string)
    requires f in KnownFeatures && g in KnownFeatures && f != g
    ensures FeatureLabel(f) != FeatureLabel(g)
    ensures FeatureIcon(f) != FeatureIcon(g)
  {
  }

  datatype Number = Finite(x: real) | Infinity | NaN

  /** A `string | number` field of a usage entry. */
  datatype Value = Str(s: string) | Num(n: Number)

  /** `limit === 'Unlimited' || limit === Infinity`. */
  predicate IsUnlimited(limit: Value)
  {
    limit == Str("Unlimited") || limit == Num(Infinity)
  }

  /** `Number(v)`: a number is itself; text is trimmed, and then empty text is 0,
      decimal digits are their value, "Infinity" is infinity, and anything else is
      NaN. */
  function ToNumber(v: Value): (r: Number)
    ensures v.Num? ==> r == v.n
    ensures v.Str? && Text.IsBlank(v.s) ==> r == Finite(0.0)
    ensures v.Str? && Text.Trim(v.s) == "Infinity" ==> r == Infinity
  {
    match v
    case Num(n) => n
    case Str(s) =>
      var t := Text.Trim(s);
      if t == "" then Finite(0.0)
      else if forall i :: 0 <= i < |t| ==> Text.IsDigit(t[i]) then Finite(Text.ParseNat(t) as real)
      else if t == "Infinity" then Infinity
      else NaN
  }

  /** The progress bar's value: a number, or NaN. */
  datatype Percent = Percent(value: real) | NaNPercent

  /** `Math.min(100, (used / Number(limit)) * 100)` under JavaScript arithmetic:
      dividing a positive count by zero gives infinity and so 100, zero by zero
      gives NaN, and any count over infinity gives 0. */
  function Quota(used: nat, limit: Number): (r: Percent)
  {
    match limit
    case NaN => NaNPercent
    case Infinity => Percent(0.0)
    case Finite(x) =>
      if x == 0.0 then (if used == 0 then NaNPercent else Percent(100.0))
      else
        var p := (used as real / x) * 100.0;
        Percent(if p < 100.0 then p else 100.0)
  }

  /** The per-entry `percentage`: 0 for an unlimited entry. */
  function Percentage(used: nat, limit: Value): (r: Percent)
    ensures IsUnlimited(limit) ==> r == Percent(0.0)
    ensures r.Percent? ==> r.value <= 100.0
    ensures r.NaNPercent? <==>
              (!IsUnlimited(limit) && (ToNumber(limit) == NaN || (ToNumber(limit) == Finite(0.0) && used == 0)))
    ensures ToNumber(limit).Finite? && ToNumber(limit).x > 0.0 && !IsUnlimited(limit) ==>
              r.Percent? && 0.0 <= r.value
    ensures ToNumber(limit).Finite? && 0.0 < ToNumber(limit).x <= used as real && !IsUnlimited(limit) ==>
              r == Percent(100.0)
  {
    if IsUnlimited(limit) then Percent(0.0) else Quota(used, ToNumber(limit))
  }

  /** Against a positive limit, using more never shrinks the bar. */
  lemma PercentageMonotone(used: nat, more: nat, limit: Value)
    requires used <= more
    requires !IsUnlimited(limit) && ToNumber(limit).Finite? && ToNumber(limit).x > 0.0
    ensures Percentage(used, limit).value <= Percentage(more, limit).value
  {
    var x := ToNumber(limit).x;
    QuotientMonotone(used as real, more as real, x);
  }

  lemma QuotientMonotone(a: real, b: real, x: real)
    requires a <= b && x > 0.0
    ensures a / x * 100.0 <= b / x * 100.0
  {
    assert b / x - a / x == (b - a) / x;
  }

  /** The limit-reached notice: a limited entry whose `remaining` is the number 0
      (the text "0" does not count, as the comparison is strict). */
  predicate LimitReached(limit: Value, remaining: Value)
  {
    !IsUnlimited(limit) && remaining == Num(Finite(0.0))
  }

  datatype UsageItem = UsageItem(feature: string, used: nat, limit: Value, remaining: Value, isPremium: bool)
  datatype UsageResponse = UsageResponse(usage: seq<UsageItem>, isPremium: bool, resetTime: string)

  /** The right-hand side of an entry's header: the "Unlimited" tag, or `used/limit`. */
  datatype Counter = UnlimitedTag | Fraction(used: nat, limit: Value)

  /** What one entry shows. */
  datatype ItemView = ItemView(icon: Icon, caption: string, counter: Counter,
                               progress: Option<Percent>, limitNotice: bool)

  datatype UsageView =
    | LoadingCard
    | ErrorCard
    | UsageCard(planText: string, premiumBadge: bool, items: seq<ItemView>, resetNote: bool)

  /** One entry's row: its icon and label, the "Unlimited" tag or `used/limit`, the
      bar only for a limited entry, and the limit notice. */
  function ItemViewOf(item: UsageItem): (v: ItemView)
    ensures v.icon == FeatureIcon(item.feature) && v.caption == FeatureLabel(item.feature)
    ensures v.counter.UnlimitedTag? <==> IsUnlimited(item.limit)
    ensures v.counter.Fraction? ==> v.counter == Fraction(item.used, item.limit)
    ensures v.progress.None? <==> IsUnlimited(item.limit)
    ensures v.progress.Some? ==> v.progress.value == Percentage(item.used, item.limit)
    ensures v.limitNotice <==> LimitReached(item.limit, item.remaining)
  {
    var unlimited := IsUnlimited(item.limit);
    ItemView(FeatureIcon(item.feature), FeatureLabel(item.feature),
             if unlimited then UnlimitedTag else Fraction(item.used, item.limit),
             if unlimited then None else Some(Percentage(item.used, item.limit)),
             !unlimited && item.remaining == Num(Finite(0.0)))
  }

  /** The card: a loading card, an error card, or the plan, one row per entry in
      order, and the daily-reset note for free accounts only. */
  function Render(isLoading: bool, failed: bool, data: UsageResponse): (r: UsageView)
    ensures r.LoadingCard? <==> isLoading
    ensures r.ErrorCard? <==> !isLoading && failed
    ensures r.UsageCard? ==> |r.items| == |data.usage|
    ensures r.UsageCard? ==> (r.resetNote <==> !data.isPremium) && (r.premiumBadge <==> data.isPremium)
    ensures r.UsageCard? ==> forall i :: 0 <= i < |r.items| ==>
              && (r.items[i].progress.None? <==> IsUnlimited(data.usage[i].limit))
              && (r.items[i].counter.UnlimitedTag? <==> IsUnlimited(data.usage[i].limit))
              && (r.items[i].limitNotice <==> LimitReached(data.usage[i].limit, data.usage[i].remaining))
              && r.items[i].icon == FeatureIcon(data.usage[i].feature)
              && r.items[i].caption == FeatureLabel(data.usage[i].feature)
              && (r.items[i].progress.Some? ==>
                    r.items[i].progress == Some(Percentage(data.usage[i].used, data.usage[i].limit)))
              && (r.items[i].progress.Some? && r.items[i].progress.value.Percent? ==>
                    r.items[i].progress.value.value <= 100.0)
  {
    if isLoading then LoadingCard
    else if failed then ErrorCard
    else
      var plan := if data.isPremium then "Unlimited Premium Access" else "Free Plan Limits";
      UsageCard(plan, data.isPremium,
                seq(|data.usage|, i requires 0 <= i < |data.usage| => ItemViewOf(data.usage[i])),
                !data.isPremium)
  }
}
