/** The money of a subscription quote: proration credit, discount, tax and the amount due. */
module QuoteMoney {
  import opened Common

  function Max(a: real, b: real): real {
    if a >= b then a else b
  }

  function Min(a: real, b: real): real {
    if a <= b then a else b
  }

  function MaxInt(a: int, b: int): int {
    if a >= b then a else b
  }

  function MinInt(a: int, b: int): int {
    if a <= b then a else b
  }

  /** A share of an amount, rounded down. */
  function FloorShare(amount: real, share: real): int {
    (amount * share).Floor
  }

  // ---------------------------------------------------------------- the calculator

  datatype Cycle = Monthly | Termly | Yearly | Manual

  datatype Prices = Prices(monthly: nat, termly: nat, yearly: nat)

  function PriceForCycle(p: Prices, cycle: Cycle): nat {
    match cycle
    case Monthly => p.monthly
    case Termly => p.termly
    case Yearly => p.yearly
    case Manual => 0
  }

  /** A period in milliseconds. */
  datatype Period = Period(start: int, end: int)

  datatype Proration = Proration(total: int, remaining: int, elapsed: int, ratio: real, credit: int)

  function CalculateProration(period: Period, effectiveAt: int, amount: int): Proration {
    var total := MaxInt(1, period.end - period.start);
    var effective := MinInt(period.end, MaxInt(period.start, effectiveAt));
    var remaining := MaxInt(0, period.end - effective);
    var ratio := remaining as real / total as real;
    Proration(total, remaining, total - remaining, ratio, MaxInt(0, FloorShare(amount as real, ratio)))
  }

  /** A percentage between 0 and 100, as a share. */
  function Percent(value: real): (share: real)
    ensures 0.0 <= share <= 1.0
  {
    Min(100.0, Max(0.0, value)) / 100.0
  }

  datatype Discount = NoDiscount | Free | FixedAmount(value: real) | Percentage(value: real) | OtherDiscount

  function ApplyDiscount(amount: real, d: Discount): real {
    match d
    case NoDiscount => 0.0
    case Free => Max(0.0, amount)
    case FixedAmount(value) => Min(amount, Max(0.0, value))
    case Percentage(value) => FloorShare(amount, Percent(value)) as real
    case OtherDiscount => 0.0
  }

  datatype Money = Money(base: real, credit: real, discount: real, tax: real, amountDue: real)

  function MoneyOf(base: real, credit: real, discount: real, tax: real): Money {
    var c, d, t := Max(0.0, credit), Max(0.0, discount), Max(0.0, tax);
    Money(base, c, d, t, Max(0.0, base - c - d + t))
  }

  // ---------------------------------------------------------------- the quote

  /** What a quote is computed from. The proration concerns an immediate upgrade of a subscription
      that has a period. */
  datatype Terms = Terms(list: nat, offerPrice: Option<nat>, overridePrice: Option<nat>, discount: Discount, taxRatePercent: real,
                         immediateUpgrade: bool, period: Option<Period>, prices: Prices, cycle: Cycle)

  function BaseAmount(t: Terms): nat {
    if t.overridePrice.Some? then t.overridePrice.value
    else if t.offerPrice.Some? then t.offerPrice.value
    else t.list
  }

  function Credit(t: Terms, effectiveAt: int): int {
    if t.immediateUpgrade && t.period.Some?
    then CalculateProration(t.period.value, effectiveAt, PriceForCycle(t.prices, t.cycle)).credit
    else 0
  }

  function BeforeTax(t: Terms, effectiveAt: int): real {
    Max(0.0, BaseAmount(t) as real - Credit(t, effectiveAt) as real - ApplyDiscount(BaseAmount(t) as real, t.discount))
  }

  function TaxOn(beforeTax: real, ratePercent: real): int {
    FloorShare(beforeTax, Percent(ratePercent))
  }

  function Quote(t: Terms, effectiveAt: int): Money {
    MoneyOf(BaseAmount(t) as real, Credit(t, effectiveAt) as real, ApplyDiscount(BaseAmount(t) as real, t.discount),
            TaxOn(BeforeTax(t, effectiveAt), t.taxRatePercent) as real)
  }

  // ---------------------------------------------------------------- shares and floors

  /** A share between nothing and all of a non-negative amount stays between the two when floored. */
  lemma FlooredShare(amount: real, share: real)
    requires amount >= 0.0 && 0.0 <= share <= 1.0
    ensures 0.0 <= FloorShare(amount, share) as real <= amount
  {
    NonNegativeProduct(amount, share);
    NonNegativeProduct(amount, 1.0 - share);
    assert amount * (1.0 - share) == amount - amount * share;
    FloorBelow(amount * share, amount);
  }

  lemma NonNegativeProduct(a: real, b: real)
    requires a >= 0.0 && b >= 0.0
    ensures a * b >= 0.0
  {
  }

  lemma FloorBelow(x: real, bound: real)
    requires 0.0 <= x <= bound
    ensures 0.0 <= x.Floor as real <= bound
  {
  }

  lemma ProductGrows(a: real, b: real, amount: real)
    requires a <= b && amount >= 0.0
    ensures amount * a <= amount * b
  {
  }

  lemma FloorGrows(u: real, v: real)
    requires u <= v
    ensures u.Floor <= v.Floor
  {
  }

  lemma QuotientGrows(a: int, b: int, total: int)
    requires a <= b && total > 0
    ensures a as real / total as real <= b as real / total as real
  {
  }

  lemma QuotientIsShare(a: int, total: int)
    requires 0 <= a <= total && total > 0
    ensures 0.0 <= a as real / total as real <= 1.0
  {
    QuotientGrows(0, a, total);
    QuotientGrows(a, total, total);
  }

  // ---------------------------------------------------------------- proration

  /** Elapsed and remaining time make up the total, and the credit is a whole amount between nothing
      and the current price: everything before the period, nothing after it. */
  lemma ProrationSound(period: Period, effectiveAt: int, amount: nat)
    ensures var p := CalculateProration(period, effectiveAt, amount);
            && p.elapsed + p.remaining == p.total && 0 <= p.elapsed && 0 <= p.remaining
            && 0 <= p.credit <= amount
            && (period.start < period.end && effectiveAt <= period.start ==> p.credit == amount)
            && (effectiveAt >= period.end || period.end <= period.start ==> p.credit == 0)
  {
    var p := CalculateProration(period, effectiveAt, amount);
    QuotientIsShare(p.remaining, p.total);
    FlooredShare(amount as real, p.ratio);
    if p.remaining == p.total {
      WholeShare(amount, p.total);
    }
  }

  /** The times are those of the period: inside it what remains is the time to its end. */
  lemma ProrationTimes(period: Period, effectiveAt: int, amount: int)
    ensures var p := CalculateProration(period, effectiveAt, amount);
            && p.total == (if period.start < period.end then period.end - period.start else 1)
            && (period.start <= effectiveAt <= period.end ==> p.remaining == period.end - effectiveAt)
            && (effectiveAt < period.start < period.end ==> p.remaining == period.end - period.start)
            && (effectiveAt > period.end ==> p.remaining == 0)
            && p.ratio * p.total as real == p.remaining as real
  {
  }

  lemma WholeShare(amount: int, total: int)
    requires total > 0
    ensures FloorShare(amount as real, total as real / total as real) == amount
  {
    assert total as real / total as real == 1.0;
    assert amount as real * 1.0 == amount as real;
  }

  /** The credit is the exact share of the price, rounded down: as whole numbers, price times
      remaining time divided by total time. */
  lemma CreditIsFlooredShare(period: Period, effectiveAt: int, amount: nat)
    ensures var p := CalculateProration(period, effectiveAt, amount);
            p.credit * p.total <= amount * p.remaining < (p.credit + 1) * p.total
  {
    var p := CalculateProration(period, effectiveAt, amount);
    ProrationSound(period, effectiveAt, amount);
    FlooredQuotient(p.credit, amount as real * p.ratio, amount, p.remaining, p.total);
  }

  /** A product that rounding has moved by less than one gives a credit that is at most one off. */
  lemma RoundedCreditWithinOne(period: Period, effectiveAt: int, amount: nat, computed: real)
    requires var exact := amount as real * CalculateProration(period, effectiveAt, amount).ratio;
             exact - 1.0 < computed < exact + 1.0
    ensures var credit := CalculateProration(period, effectiveAt, amount).credit;
            credit - 1 <= MaxInt(0, computed.Floor) <= credit + 1
  {
    ProrationSound(period, effectiveAt, amount);
  }

  lemma FlooredQuotient(credit: int, exact: real, amount: int, remaining: int, total: int)
    requires total > 0 && credit == exact.Floor && exact == amount as real * (remaining as real / total as real)
    ensures credit * total <= amount * remaining < (credit + 1) * total
  {
    ShareTimesTotal(amount, remaining, total);
    FloorTimesTotal(credit, exact, total);
    CompareWhole(credit * total, amount * remaining, (credit + 1) * total, exact * total as real);
  }

  lemma FloorTimesTotal(credit: int, exact: real, total: int)
    requires total > 0 && credit == exact.Floor
    ensures (credit * total) as real <= exact * total as real < ((credit + 1) * total) as real
  {
    assert credit as real <= exact < (credit + 1) as real;
    WholeBelow(credit, exact, total);
    WholeAbove(credit + 1, exact, total);
  }

  lemma WholeBelow(n: int, x: real, total: int)
    requires n as real <= x && total > 0
    ensures (n * total) as real <= x * total as real
  {
    TimesTotal(n as real, x, total);
    CastProduct(n, total);
  }

  lemma WholeAbove(n: int, x: real, total: int)
    requires x < n as real && total > 0
    ensures x * total as real < (n * total) as real
  {
    TimesTotalStrict(x, n as real, total);
    CastProduct(n, total);
  }

  lemma CompareWhole(a: int, b: int, c: int, x: real)
    requires a as real <= x == b as real && x < c as real
    ensures a <= b < c
  {
  }

  lemma CastProduct(a: int, b: int)
    ensures a as real * b as real == (a * b) as real
  {
  }

  lemma ShareTimesTotal(amount: int, remaining: int, total: int)
    requires total > 0
    ensures amount as real * (remaining as real / total as real) * total as real == (amount * remaining) as real
  {
    assert remaining as real / total as real * total as real == remaining as real;
  }

  lemma TimesTotal(a: real, b: real, total: int)
    requires a <= b && total > 0
    ensures a * total as real <= b * total as real
  {
  }

  lemma TimesTotalStrict(a: real, b: real, total: int)
    requires a < b && total > 0
    ensures a * total as real < b * total as real
  {
  }

  /** A later effective time never gives a larger credit. */
  lemma CreditShrinks(period: Period, at: int, later: int, amount: nat)
    requires at <= later
    ensures CalculateProration(period, later, amount).credit <= CalculateProration(period, at, amount).credit
  {
    var p, q := CalculateProration(period, at, amount), CalculateProration(period, later, amount);
    QuotientGrows(q.remaining, p.remaining, p.total);
    ProductGrows(q.ratio, p.ratio, amount as real);
    FloorGrows(amount as real * q.ratio, amount as real * p.ratio);
  }

  // ---------------------------------------------------------------- discount and tax

  lemma PercentageWithinBase(base: real, value: real)
    requires base >= 0.0
    ensures 0.0 <= ApplyDiscount(base, Percentage(value)) <= base
  {
    var share := Percent(value);
    FlooredShare(base, share);
  }

  /** A discount is never negative and never more than the base. */
  lemma DiscountWithinBase(base: real, d: Discount)
    requires base >= 0.0
    ensures 0.0 <= ApplyDiscount(base, d) <= base
  {
    match d {
      case Percentage(value) => PercentageWithinBase(base, value);
      case NoDiscount =>
      case Free =>
      case FixedAmount(_) =>
      case OtherDiscount =>
    }
  }

  /** What each kind of discount takes off: all of it, a fixed amount up to the base, or a percentage
      from 0 to 100 of it rounded down to a whole amount. */
  lemma DiscountExactly(base: real, d: Discount)
    requires base >= 0.0
    ensures var off := ApplyDiscount(base, d);
            match d
            case NoDiscount => off == 0.0
            case OtherDiscount => off == 0.0
            case Free => off == base
            case FixedAmount(value) => off == if value <= 0.0 then 0.0 else if value <= base then value else base
            case Percentage(value) =>
              var percent := if value <= 0.0 then 0.0 else if value <= 100.0 then value else 100.0;
              off == off.Floor as real && off * 100.0 <= base * percent < (off + 1.0) * 100.0
  {
    match d {
      case Percentage(value) => FloorOfPercent(base, value);
      case NoDiscount =>
      case Free =>
      case FixedAmount(_) =>
      case OtherDiscount =>
    }
  }

  lemma FloorOfPercent(amount: real, value: real)
    ensures var percent := if value <= 0.0 then 0.0 else if value <= 100.0 then value else 100.0;
            var n := FloorShare(amount, Percent(value));
            n as real * 100.0 <= amount * percent < (n as real + 1.0) * 100.0
  {
    var percent := if value <= 0.0 then 0.0 else if value <= 100.0 then value else 100.0;
    assert Percent(value) == percent / 100.0;
    assert amount * (percent / 100.0) * 100.0 == amount * percent;
  }

  lemma TaxWithinAmount(beforeTax: real, rate: real)
    requires beforeTax >= 0.0
    ensures 0.0 <= TaxOn(beforeTax, rate) as real <= beforeTax
  {
    FlooredShare(beforeTax, Percent(rate));
  }

  /** The quote's parts are consistent: the credit is at most the current price, the discount at most
      the base, and the amount due is the clipped amount before tax plus its floored tax. */
  lemma QuoteConsistent(t: Terms, effectiveAt: int)
    ensures var m := Quote(t, effectiveAt);
            && 0.0 <= m.credit <= PriceForCycle(t.prices, t.cycle) as real
            && 0.0 <= m.discount <= m.base
            && m.amountDue == BeforeTax(t, effectiveAt) + TaxOn(BeforeTax(t, effectiveAt), t.taxRatePercent) as real
            && 0.0 <= m.tax <= BeforeTax(t, effectiveAt)
            && (m.amountDue == 0.0 <==> BeforeTax(t, effectiveAt) == 0.0)
  {
    if t.immediateUpgrade && t.period.Some? {
      ProrationSound(t.period.value, effectiveAt, PriceForCycle(t.prices, t.cycle));
    }
    DiscountWithinBase(BaseAmount(t) as real, t.discount);
    TaxWithinAmount(BeforeTax(t, effectiveAt), t.taxRatePercent);
  }

  /** The list price, or the offer's, or the override's. */
  predicate PricedBy(t: Terms, base: real) {
    match (t.overridePrice, t.offerPrice)
    case (Some(price), _) => base == price as real
    case (None, Some(price)) => base == price as real
    case (None, None) => base == t.list as real
  }

  /** The whole amount of tax at this rate, rounded down. */
  predicate TaxedAt(ratePercent: real, taxed: real, tax: real) {
    var rate := if ratePercent <= 0.0 then 0.0 else if ratePercent <= 100.0 then ratePercent else 100.0;
    tax == tax.Floor as real && tax * 100.0 <= taxed * rate < (tax + 1.0) * 100.0
  }

  lemma TaxFloored(taxed: real, ratePercent: real)
    ensures TaxedAt(ratePercent, taxed, TaxOn(taxed, ratePercent) as real)
  {
    FloorOfPercent(taxed, ratePercent);
  }

  /** The credit is for the time that remains of the running period, at the price of its cycle. */
  predicate CreditedBy(t: Terms, effectiveAt: int, credit: real) {
    if t.immediateUpgrade && t.period.Some? then
      var price := match t.cycle
                   case Monthly => t.prices.monthly
                   case Termly => t.prices.termly
                   case Yearly => t.prices.yearly
                   case Manual => 0;
      credit == CalculateProration(t.period.value, effectiveAt, price).credit as real
    else credit == 0.0
  }

  lemma QuoteParts(t: Terms, effectiveAt: int)
    ensures var m := Quote(t, effectiveAt);
            var rest := m.base - m.credit - m.discount;
            && m.base == BaseAmount(t) as real && m.credit == Credit(t, effectiveAt) as real
            && m.discount == ApplyDiscount(m.base, t.discount)
            && BeforeTax(t, effectiveAt) == (if rest > 0.0 then rest else 0.0)
            && m.tax == TaxOn(BeforeTax(t, effectiveAt), t.taxRatePercent) as real
            && m.amountDue == BeforeTax(t, effectiveAt) + m.tax
  {
    QuoteConsistent(t, effectiveAt);
    if t.immediateUpgrade && t.period.Some? {
      ProrationSound(t.period.value, effectiveAt, PriceForCycle(t.prices, t.cycle));
    }
    DiscountWithinBase(BaseAmount(t) as real, t.discount);
    TaxWithinAmount(BeforeTax(t, effectiveAt), t.taxRatePercent);
  }

  /** What a quote says, from its terms: the base, the credit, the discount on the base, the tax on
      what is left, and their sum. */
  lemma QuoteExactly(t: Terms, effectiveAt: int)
    ensures var m := Quote(t, effectiveAt);
            var rest := m.base - m.credit - m.discount;
            var taxed := if rest > 0.0 then rest else 0.0;
            && PricedBy(t, m.base) && CreditedBy(t, effectiveAt, m.credit) && m.discount == ApplyDiscount(m.base, t.discount)
            && TaxedAt(t.taxRatePercent, taxed, m.tax) && m.amountDue == taxed + m.tax
  {
    QuoteParts(t, effectiveAt);
    TaxFloored(BeforeTax(t, effectiveAt), t.taxRatePercent);
  }

  lemma FlooredScaleGrows(a: real, b: real, share: real)
    requires a <= b && share >= 0.0
    ensures FloorShare(a, share) <= FloorShare(b, share)
  {
    var less, more := a * share, b * share;
    assert more - less == (b - a) * share;
    assert (b - a) * share >= 0.0;
    FloorGrows(less, more);
  }

  lemma TaxGrows(a: real, b: real, rate: real)
    requires a <= b
    ensures TaxOn(a, rate) <= TaxOn(b, rate)
  {
    FlooredScaleGrows(a, b, Percent(rate));
  }

  /** For the same terms the amount due never falls as the effective time moves later. */
  lemma AmountDueGrows(t: Terms, at: int, later: int)
    requires at <= later
    ensures Quote(t, at).amountDue <= Quote(t, later).amountDue
  {
    if t.immediateUpgrade && t.period.Some? {
      CreditShrinks(t.period.value, at, later, PriceForCycle(t.prices, t.cycle));
    }
    TaxGrows(BeforeTax(t, at), BeforeTax(t, later), t.taxRatePercent);
    QuoteConsistent(t, at);
    QuoteConsistent(t, later);
  }
}
