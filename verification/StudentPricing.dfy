/** Pricing by the number of students: what a plan's configuration may say, and the charge. */
module StudentPricing {
  import opened Common

  const MAX_SAFE_INTEGER := 0x1F_FFFF_FFFF_FFFF

  // ---------------------------------------------------------------- configuration

  /** A number field as it may be stored: absent, something else, or a finite number. */
  datatype RawNumber = Missing | NotANumber | Number(r: real)

  /** A tier's threshold as it may be stored. */
  datatype RawThreshold = Null | NotAnInteger | Whole(n: int)

  datatype RawTier = RawTier(upTo: RawThreshold, unitPrice: RawNumber)

  datatype RawPricing =
    | Absent
    | Malformed
    | Raw(mode: string, billingPeriod: string, minimumAmount: RawNumber, perStudentRate: RawNumber, tiers: Option<seq<RawTier>>)

  /** A tier covers the students above the threshold before it; None means without end. */
  datatype Tier = Tier(upTo: Option<int>, unitPrice: real)

  datatype Pricing =
    | Fixed
    | PerStudent(billingPeriod: string, minimumAmount: real, rate: real)
    | Tiered(billingPeriod: string, minimumAmount: real, tiers: seq<Tier>)

  datatype PricingError = InvalidConfiguration | InvalidMode | PeriodRequired | InvalidMinimum | InvalidRate | TiersRequired
                        | InvalidTierRate | ThresholdsMustIncrease | UnlimitedMustBeLast | LastMustBeUnlimited
                        | InvalidCount | NotCovered | FixedPrices

  predicate NonNegative(n: RawNumber) {
    n.Number? && n.r >= 0.0
  }

  function TierOf(t: RawTier): Tier {
    Tier(if t.upTo.Whole? then Some(t.upTo.n) else None, if t.unitPrice.Number? then t.unitPrice.r else 0.0)
  }

  /** One to twenty tiers: the last one without end, the others with safe thresholds that increase
      from above zero, and no rate below zero. */
  ghost predicate TiersAcceptable(tiers: seq<RawTier>) {
    && 1 <= |tiers| <= 20
    && (forall i :: 0 <= i < |tiers| ==> NonNegative(tiers[i].unitPrice))
    && tiers[|tiers| - 1].upTo.Null?
    && (forall i :: 0 <= i < |tiers| - 1 ==> tiers[i].upTo.Whole? && 0 < tiers[i].upTo.n <= MAX_SAFE_INTEGER)
    && (forall i, j :: 0 <= i < j < |tiers| - 1 ==> tiers[i].upTo.n < tiers[j].upTo.n)
  }

  ghost predicate Acceptable(raw: RawPricing) {
    match raw
    case Absent => true
    case Malformed => false
    case Raw(mode, period, minimum, rate, tiers) =>
      mode == "fixed" ||
      (&& mode in {"per_student", "tiered"} && period in {"monthly", "termly", "yearly"} && (minimum.Missing? || NonNegative(minimum))
       && if mode == "per_student" then NonNegative(rate) else tiers.Some? && TiersAcceptable(tiers.value))
  }

  function MinimumOf(n: RawNumber): real {
    if n.Number? then n.r else 0.0
  }

  /** What an acceptable configuration means. */
  function Meaning(raw: RawPricing): Pricing {
    match raw
    case Absent => Fixed
    case Malformed => Fixed
    case Raw(mode, period, minimum, rate, tiers) =>
      if mode == "per_student" then PerStudent(period, MinimumOf(minimum), MinimumOf(rate))
      else if mode == "tiered" && tiers.Some? then
        Tiered(period, MinimumOf(minimum), seq(|tiers.value|, i requires 0 <= i < |tiers.value| => TierOf(tiers.value[i])))
      else Fixed
  }

  /** Why tiers are refused. */
  ghost predicate TiersRefused(tiers: seq<RawTier>, e: PricingError) {
    match e
    case TiersRequired => !(1 <= |tiers| <= 20)
    case InvalidTierRate => exists i :: 0 <= i < |tiers| && !NonNegative(tiers[i].unitPrice)
    case ThresholdsMustIncrease =>
      exists i :: && 0 <= i < |tiers| && !tiers[i].upTo.Null?
                  && !(tiers[i].upTo.Whole? && 0 < tiers[i].upTo.n <= MAX_SAFE_INTEGER &&
                       (i > 0 && tiers[i - 1].upTo.Whole? ==> tiers[i - 1].upTo.n < tiers[i].upTo.n))
    case UnlimitedMustBeLast => exists i :: 0 <= i < |tiers| - 1 && tiers[i].upTo.Null?
    case LastMustBeUnlimited => tiers != [] && !tiers[|tiers| - 1].upTo.Null?
    case _ => false
  }

  ghost predicate Refused(raw: RawPricing, e: PricingError) {
    match raw
    case Absent => false
    case Malformed => e == InvalidConfiguration
    case Raw(mode, period, minimum, rate, tiers) =>
      match e
      case InvalidMode => mode !in {"fixed", "per_student", "tiered"}
      case PeriodRequired => period !in {"monthly", "termly", "yearly"}
      case InvalidMinimum => !minimum.Missing? && !NonNegative(minimum)
      case InvalidRate => mode == "per_student" && !NonNegative(rate)
      case _ => mode == "tiered" && if tiers.None? then e == TiersRequired else TiersRefused(tiers.value, e)
  }

  /** The walk over the tiers with the last threshold seen. */
  method ParseTiers(raw: seq<RawTier>) returns (r: Result<seq<Tier>, PricingError>)
    ensures r.Ok? <==> TiersAcceptable(raw)
    ensures r.Ok? ==> r.value == seq(|raw|, i requires 0 <= i < |raw| => TierOf(raw[i]))
    ensures r.Err? ==> TiersRefused(raw, r.error)
  {
    if |raw| == 0 || |raw| > 20 {
      return Err(TiersRequired);
    }
    var last, tiers := 0, [];
    for i := 0 to |raw|
      invariant |tiers| == i && forall k :: 0 <= k < i ==> tiers[k] == TierOf(raw[k]) && NonNegative(raw[k].unitPrice)
      invariant forall k :: 0 <= k < i && k < |raw| - 1 ==> raw[k].upTo.Whole? && 0 < raw[k].upTo.n <= MAX_SAFE_INTEGER
      invariant forall j, k :: 0 <= j < k < i && k < |raw| - 1 ==> raw[j].upTo.n < raw[k].upTo.n
      invariant forall k :: 0 <= k < i ==> !raw[k].upTo.NotAnInteger?
      invariant 0 < i < |raw| ==> last == raw[i - 1].upTo.n
      invariant i == 0 ==> last == 0
    {
      var tier := raw[i];
      if !NonNegative(tier.unitPrice) {
        return Err(InvalidTierRate);
      }
      if !tier.upTo.Null? && !(tier.upTo.Whole? && -MAX_SAFE_INTEGER <= tier.upTo.n <= MAX_SAFE_INTEGER && tier.upTo.n > last) {
        return Err(ThresholdsMustIncrease);
      }
      if tier.upTo.Null? && i != |raw| - 1 {
        return Err(UnlimitedMustBeLast);
      }
      if tier.upTo.Whole? {
        last := tier.upTo.n;
      }
      tiers := tiers + [TierOf(tier)];
    }
    if tiers[|raw| - 1].upTo.Some? {
      return Err(LastMustBeUnlimited);
    }
    return Ok(tiers);
  }

  method ParseStudentPricing(raw: RawPricing) returns (r: Result<Pricing, PricingError>)
    ensures r.Ok? <==> Acceptable(raw)
    ensures r.Ok? ==> r.value == Meaning(raw)
    ensures r.Err? ==> Refused(raw, r.error)
  {
    if raw.Absent? {
      return Ok(Fixed);
    }
    if raw.Malformed? {
      return Err(InvalidConfiguration);
    }
    if raw.mode !in {"fixed", "per_student", "tiered"} {
      return Err(InvalidMode);
    }
    if raw.mode == "fixed" {
      return Ok(Fixed);
    }
    if raw.billingPeriod !in {"monthly", "termly", "yearly"} {
      return Err(PeriodRequired);
    }
    if !raw.minimumAmount.Missing? && !NonNegative(raw.minimumAmount) {
      return Err(InvalidMinimum);
    }
    if raw.mode == "per_student" {
      if !NonNegative(raw.perStudentRate) {
        return Err(InvalidRate);
      }
      return Ok(PerStudent(raw.billingPeriod, MinimumOf(raw.minimumAmount), raw.perStudentRate.r));
    }
    if raw.tiers.None? {
      return Err(TiersRequired);
    }
    var tiers := ParseTiers(raw.tiers.value);
    if tiers.Err? {
      return Err(tiers.error);
    }
    return Ok(Tiered(raw.billingPeriod, MinimumOf(raw.minimumAmount), tiers.value));
  }

  // ---------------------------------------------------------------- the charge, student by student

  /** The rate of the tier that the k-th student falls in. */
  function RateOf(tiers: seq<Tier>, k: int): real {
    if tiers == [] then 0.0
    else if tiers[0].upTo.None? || k <= tiers[0].upTo.value then tiers[0].unitPrice
    else RateOf(tiers[1..], k)
  }

  /** What the first n students cost, each at its own rate. */
  function SumOfRates(tiers: seq<Tier>, n: nat): real {
    if n == 0 then 0.0 else SumOfRates(tiers, n - 1) + RateOf(tiers, n)
  }

  /** Thresholds above zero that increase, and one last tier without end. */
  ghost predicate Increasing(tiers: seq<Tier>, from: int) {
    && tiers != []
    && (forall i :: 0 <= i < |tiers| ==> tiers[i].unitPrice >= 0.0)
    && if |tiers| == 1 then tiers[0].upTo.None?
       else tiers[0].upTo.Some? && tiers[0].upTo.value > from && Increasing(tiers[1..], tiers[0].upTo.value)
  }

  ghost predicate WellFormed(p: Pricing) {
    match p
    case Fixed => true
    case PerStudent(_, minimum, rate) => minimum >= 0.0 && rate >= 0.0
    case Tiered(_, minimum, tiers) => minimum >= 0.0 && Increasing(tiers, 0)
  }

  lemma {:induction false} RawTiersIncrease(raw: seq<RawTier>, tiers: seq<Tier>, k: nat)
    requires TiersAcceptable(raw) && |tiers| == |raw| && forall i :: 0 <= i < |raw| ==> tiers[i] == TierOf(raw[i])
    requires k < |tiers|
    ensures Increasing(tiers[k..], if k == 0 then 0 else raw[k - 1].upTo.n)
    decreases |tiers| - k
  {
    if k < |tiers| - 1 {
      RawTiersIncrease(raw, tiers, k + 1);
      assert tiers[k..][1..] == tiers[k + 1..];
    }
  }

  function StoredTier(t: Tier): RawTier {
    RawTier(if t.upTo.Some? then Whole(t.upTo.value) else Null, Number(t.unitPrice))
  }

  /** A price as a plan stores it. */
  function Stored(p: Pricing): RawPricing {
    match p
    case Fixed => Raw("fixed", "", Missing, Missing, None)
    case PerStudent(period, minimum, rate) => Raw("per_student", period, Number(minimum), Number(rate), None)
    case Tiered(period, minimum, tiers) =>
      Raw("tiered", period, Number(minimum), Missing, Some(seq(|tiers|, i requires 0 <= i < |tiers| => StoredTier(tiers[i]))))
  }

  /** What a plan can store: a known period, at most 20 tiers and safe thresholds. */
  ghost predicate Storable(p: Pricing) {
    && WellFormed(p) && (!p.Fixed? ==> p.billingPeriod in {"monthly", "termly", "yearly"})
    && (p.Tiered? ==> |p.tiers| <= 20 && forall t :: t in p.tiers && t.upTo.Some? ==> t.upTo.value <= MAX_SAFE_INTEGER)
  }

  /** An acceptable configuration is in a known mode and means a price that a plan can store; without a
      minimum there is none. */
  lemma AcceptableIsStorable(raw: RawPricing)
    requires Acceptable(raw)
    ensures Storable(Meaning(raw))
    ensures raw.Raw? ==>
              && raw.mode in {"fixed", "per_student", "tiered"} && (Meaning(raw).Fixed? <==> raw.mode == "fixed")
              && (raw.mode != "fixed" && raw.minimumAmount.Missing? ==> Meaning(raw).minimumAmount == 0.0)
  {
    if Meaning(raw).Tiered? {
      RawTiersIncrease(raw.tiers.value, Meaning(raw).tiers, 0);
      assert Meaning(raw).tiers[0..] == Meaning(raw).tiers;
    }
  }

  lemma {:induction false} TiersIncrease(tiers: seq<Tier>, from: int)
    requires Increasing(tiers, from)
    ensures forall i :: 0 <= i < |tiers| ==> (tiers[i].upTo.None? <==> i == |tiers| - 1)
    ensures forall i :: 0 <= i < |tiers| - 1 ==> tiers[i].upTo.value > from
    ensures forall i, j :: 0 <= i < j < |tiers| - 1 ==> tiers[i].upTo.value < tiers[j].upTo.value
  {
    if |tiers| > 1 {
      var rest := tiers[1..];
      TiersIncrease(rest, tiers[0].upTo.value);
      assert forall i :: 0 < i < |tiers| ==> tiers[i] == rest[i - 1];
    }
  }

  /** A stored price is accepted and means itself. */
  lemma StoredPriceRoundTrip(p: Pricing)
    requires Storable(p)
    ensures Acceptable(Stored(p)) && Meaning(Stored(p)) == p
  {
    if p.Tiered? {
      TiersIncrease(p.tiers, 0);
      var raw := Stored(p).tiers.value;
      forall i | 0 <= i < |raw| ensures raw[i] == StoredTier(p.tiers[i]) && TierOf(raw[i]) == p.tiers[i] && p.tiers[i] in p.tiers {
      }
      assert TiersAcceptable(raw);
    }
  }

  lemma {:induction false} SumAtOneRate(tiers: seq<Tier>, m: nat, n: nat, rate: real)
    requires m <= n && forall k :: m < k <= n ==> RateOf(tiers, k) == rate
    ensures SumOfRates(tiers, n) == SumOfRates(tiers, m) + (n - m) as real * rate
  {
    if m < n {
      SumAtOneRate(tiers, m, n - 1, rate);
    }
  }

  // ---------------------------------------------------------------- the charge, tier by tier

  function Max(a: real, b: real): real {
    if a >= b then a else b
  }

  /** Math.round(x * 100) / 100. */
  function Cents(x: real): real {
    (x * 100.0 + 0.5).Floor as real / 100.0
  }

  /** The price before the minimum charge. */
  function Due(p: Pricing, students: nat): real
    requires !p.Fixed?
  {
    if p.PerStudent? then students as real * p.rate else SumOfRates(p.tiers, students)
  }

  /** The charge that the count is meant to give. */
  function Charge(p: Pricing, students: nat): real
    requires !p.Fixed?
  {
    Cents(Max(Due(p, students), p.minimumAmount))
  }

  lemma {:induction false} RateInTier(tiers: seq<Tier>, i: nat, k: int, from: int)
    requires Increasing(tiers, from) && i < |tiers| && (i > 0 ==> tiers[i - 1].upTo.Some?)
    requires k > (if i == 0 then from else tiers[i - 1].upTo.value)
    requires tiers[i].upTo.None? || k <= tiers[i].upTo.value
    ensures RateOf(tiers, k) == tiers[i].unitPrice
  {
    if i > 0 {
      ThresholdsAbove(tiers, i - 1, from);
      RateInTier(tiers[1..], i - 1, k, tiers[0].upTo.value);
    }
  }

  lemma {:induction false} ThresholdsAbove(tiers: seq<Tier>, i: nat, from: int)
    requires Increasing(tiers, from) && i < |tiers|
    ensures tiers[i].upTo.None? <==> i == |tiers| - 1
    ensures i < |tiers| - 1 ==> tiers[i].upTo.value > from && tiers[i].upTo.value >= tiers[0].upTo.value
    ensures 0 < i < |tiers| - 1 ==> tiers[i - 1].upTo.Some? && tiers[i].upTo.value > tiers[i - 1].upTo.value
  {
    if i > 0 {
      ThresholdsAbove(tiers[1..], i - 1, tiers[0].upTo.value);
    }
  }

  function Least(a: int, b: int): int {
    if a <= b then a else b
  }

  /** Where the tiers up to i have brought the count: everyone, or the threshold before tier i. */
  function Reached(tiers: seq<Tier>, i: nat, students: int): int
    requires i <= |tiers|
  {
    if i == 0 then 0
    else if tiers[i - 1].upTo.None? then students
    else Least(students, tiers[i - 1].upTo.value)
  }

  lemma NextTierCharges(tiers: seq<Tier>, i: nat, students: nat)
    requires Increasing(tiers, 0) && i < |tiers| && 0 <= Reached(tiers, i, students) < students
    ensures Reached(tiers, i, students) < Reached(tiers, i + 1, students) <= students
    ensures SumOfRates(tiers, Reached(tiers, i + 1, students)) ==
            SumOfRates(tiers, Reached(tiers, i, students)) +
            (Reached(tiers, i + 1, students) - Reached(tiers, i, students)) as real * tiers[i].unitPrice
  {
    var m, n := Reached(tiers, i, students), Reached(tiers, i + 1, students);
    ThresholdsAbove(tiers, i, 0);
    if i > 0 {
      ThresholdsAbove(tiers, i - 1, 0);
    }
    forall k | m < k <= n ensures RateOf(tiers, k) == tiers[i].unitPrice {
      RateInTier(tiers, i, k, 0);
    }
    SumAtOneRate(tiers, m, n, tiers[i].unitPrice);
  }

  /** The quote loop: for any well-formed price and 1 to 1,000,000 students it does not fail, and
      before the minimum charge a tiered price is the sum over the students of the rate of the tier
      that each falls in. */
  method CalculateStudentQuote(p: Pricing, students: int) returns (r: Result<real, PricingError>)
    requires WellFormed(p)
    ensures r.Ok? <==> 1 <= students <= 1_000_000 && !p.Fixed?
    ensures r.Ok? ==> r.value == Charge(p, students)
    ensures r.Err? ==> r.error == if 1 <= students <= 1_000_000 then FixedPrices else InvalidCount
  {
    if students < 1 || students > 1_000_000 {
      return Err(InvalidCount);
    }
    if p.Fixed? {
      return Err(FixedPrices);
    }
    var amount := 0.0;
    if p.PerStudent? {
      amount := students as real * p.rate;
    } else {
      var covered, i := 0, 0;
      while i < |p.tiers| && covered < students
        invariant 0 <= i <= |p.tiers| && 0 <= covered <= students
        invariant covered == Reached(p.tiers, i, students)
        invariant amount == SumOfRates(p.tiers, covered)
      {
        var tier := p.tiers[i];
        NextTierCharges(p.tiers, i, students);
        var next := if tier.upTo.None? then students else Least(students, tier.upTo.value);
        amount := amount + (if next > covered then next - covered else 0) as real * tier.unitPrice;
        covered, i := next, i + 1;
      }
      ThresholdsAbove(p.tiers, |p.tiers| - 1, 0);
      if covered < students {
        assert false;
        return Err(NotCovered);
      }
    }
    assert amount == Due(p, students);
    return Ok(Cents(Max(amount, p.minimumAmount)));
  }

  // ---------------------------------------------------------------- what the charge promises

  lemma {:induction false} RateNotNegative(tiers: seq<Tier>, from: int, k: int)
    requires Increasing(tiers, from)
    ensures RateOf(tiers, k) >= 0.0
  {
    if |tiers| > 1 {
      RateNotNegative(tiers[1..], tiers[0].upTo.value, k);
    }
  }

  lemma {:induction false} SumGrows(tiers: seq<Tier>, m: nat, n: nat)
    requires Increasing(tiers, 0) && m <= n
    ensures SumOfRates(tiers, m) <= SumOfRates(tiers, n)
    decreases n
  {
    if m < n {
      SumGrows(tiers, m, n - 1);
      RateNotNegative(tiers, 0, n);
    }
  }

  lemma FloorGrows(u: real, v: real)
    requires u <= v
    ensures u.Floor <= v.Floor
  {
  }

  lemma Hundredths(a: int, b: int)
    requires a <= b
    ensures a as real / 100.0 <= b as real / 100.0
  {
  }

  /** Rounding to cents is monotone, */
  lemma CentsGrow(x: real, y: real)
    requires x <= y
    ensures Cents(x) <= Cents(y)
  {
    FloorGrows(x * 100.0 + 0.5, y * 100.0 + 0.5);
    Hundredths((x * 100.0 + 0.5).Floor, (y * 100.0 + 0.5).Floor);
  }

  /** moves a price by half a cent at most, */
  lemma CentsNearest(x: real)
    ensures x - 0.005 < Cents(x) <= x + 0.005
  {
    var n := (x * 100.0 + 0.5).Floor;
    assert Cents(x) * 100.0 == n as real;
  }

  lemma FloorOfWhole(n: int)
    ensures (n as real + 0.5).Floor == n
  {
  }

  /** and keeps whole cents. */
  lemma CentsKeepWhole(n: int)
    ensures Cents(n as real / 100.0) == n as real / 100.0
  {
    var x := n as real / 100.0;
    assert x * 100.0 == n as real;
    FloorOfWhole(n);
  }

  lemma ProductGrows(a: real, b: real, rate: real)
    requires a <= b && rate >= 0.0
    ensures a * rate <= b * rate
  {
  }

  /** More students never cost less, minimum charge and rounding included. */
  lemma ChargeGrows(p: Pricing, m: nat, n: nat)
    requires WellFormed(p) && !p.Fixed? && m <= n
    ensures Charge(p, m) <= Charge(p, n)
  {
    if p.Tiered? {
      SumGrows(p.tiers, m, n);
    } else {
      ProductGrows(m as real, n as real, p.rate);
    }
    CentsGrow(Max(Due(p, m), p.minimumAmount), Max(Due(p, n), p.minimumAmount));
  }

  /** The tiers with the one at i split at a threshold inside it, both parts at the same rate. */
  function SplitAt(tiers: seq<Tier>, i: nat, threshold: int): seq<Tier>
    requires i < |tiers|
  {
    tiers[..i] + [Tier(Some(threshold), tiers[i].unitPrice)] + tiers[i..]
  }

  /** The threshold lies inside tier i. */
  ghost predicate Inside(tiers: seq<Tier>, i: nat, threshold: int, from: int)
    requires i < |tiers| && Increasing(tiers, from)
  {
    ThresholdsAbove(tiers, if i > 0 then i - 1 else 0, from);
    && threshold > (if i > 0 then tiers[i - 1].upTo.value else from)
    && (tiers[i].upTo.Some? ==> threshold < tiers[i].upTo.value)
  }

  lemma {:induction false} SplitKeepsRates(tiers: seq<Tier>, i: nat, threshold: int, from: int, k: int)
    requires Increasing(tiers, from) && i < |tiers| && Inside(tiers, i, threshold, from)
    ensures Increasing(SplitAt(tiers, i, threshold), from)
    ensures RateOf(SplitAt(tiers, i, threshold), k) == RateOf(tiers, k)
  {
    var split := SplitAt(tiers, i, threshold);
    if i == 0 {
      assert split[1..] == tiers;
    } else {
      SplitKeepsRates(tiers[1..], i - 1, threshold, tiers[0].upTo.value, k);
      assert split[1..] == SplitAt(tiers[1..], i - 1, threshold);
      assert split[0] == tiers[0];
    }
  }

  lemma {:induction false} SameRatesSameSum(a: seq<Tier>, b: seq<Tier>, n: nat)
    requires forall k :: RateOf(a, k) == RateOf(b, k)
    ensures SumOfRates(a, n) == SumOfRates(b, n)
  {
    if n > 0 {
      SameRatesSameSum(a, b, n - 1);
    }
  }

  /** Splitting a tier at any threshold inside it, at the same rate, changes no charge. */
  lemma SplitKeepsCharge(p: Pricing, i: nat, threshold: int, students: nat)
    requires WellFormed(p) && p.Tiered? && i < |p.tiers| && Inside(p.tiers, i, threshold, 0)
    ensures WellFormed(p.(tiers := SplitAt(p.tiers, i, threshold)))
    ensures Charge(p.(tiers := SplitAt(p.tiers, i, threshold)), students) == Charge(p, students)
  {
    var split := SplitAt(p.tiers, i, threshold);
    forall k ensures Increasing(split, 0) && RateOf(split, k) == RateOf(p.tiers, k) {
      SplitKeepsRates(p.tiers, i, threshold, 0, k);
    }
    SameRatesSameSum(split, p.tiers, students);
    forall j | 0 <= j < |split| ensures split[j].unitPrice >= 0.0 {
      assert split[j].unitPrice == (if j <= i then p.tiers[j] else p.tiers[j - 1]).unitPrice;
    }
  }

  /** A single tier without end is per-student pricing. */
  lemma OneTierIsPerStudent(period: string, minimum: real, rate: real, students: nat)
    ensures Charge(Tiered(period, minimum, [Tier(None, rate)]), students) == Charge(PerStudent(period, minimum, rate), students)
  {
    var tiers := [Tier(None, rate)];
    assert forall k :: RateOf(tiers, k) == rate;
    SumAtOneRate(tiers, 0, students, rate);
    assert Due(Tiered(period, minimum, tiers), students) == Due(PerStudent(period, minimum, rate), students);
  }

  /** The charge is the larger of the minimum and what the students cost at their rates, to the nearest
      cent. */
  lemma ChargeIsNearest(p: Pricing, students: nat) returns (cents: int)
    requires !p.Fixed?
    ensures var rates := if p.PerStudent? then students as real * p.rate else SumOfRates(p.tiers, students);
            var price := if rates >= p.minimumAmount then rates else p.minimumAmount;
            Charge(p, students) == cents as real / 100.0 && price - 0.005 < Charge(p, students) <= price + 0.005
  {
    cents := (Max(Due(p, students), p.minimumAmount) * 100.0 + 0.5).Floor;
    CentsNearest(Max(Due(p, students), p.minimumAmount));
  }

  /** The charge is never below the minimum by more than the rounding, nor below it at all when the
      minimum is in whole cents. */
  lemma ChargeCoversMinimum(p: Pricing, students: nat, cents: int)
    requires !p.Fixed?
    ensures Charge(p, students) > p.minimumAmount - 0.005
    ensures p.minimumAmount == cents as real / 100.0 ==> Charge(p, students) >= p.minimumAmount
  {
    var due := Max(Due(p, students), p.minimumAmount);
    CentsNearest(due);
    CentsGrow(p.minimumAmount, due);
    CentsKeepWhole(cents);
  }
}
