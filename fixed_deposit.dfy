/** The fixed-deposit calculator: simple interest at a yearly rate that
    depends only on the term. */
module FixedDeposit {

  datatype Error = InvalidPrincipal | InvalidDuration

  datatype Quote = Quote(rate: real, interest: real, total: real)

  datatype Result = Ok(quote: Quote) | Err(error: Error)

  const LongTermRate: real := 0.05
  const ShortTermRate: real := 0.03

  /** Multiplying by a positive factor keeps the order. */
  lemma ScaleKeepsOrder(p: real, a: real, b: real)
    requires 0.0 < p && a <= b
    ensures p * a <= p * b
  {
  }

  /** Simple interest on `principal` at the yearly `rate` for `months` months. */
  function Interest(principal: real, rate: real, months: int): real {
    principal * (rate * months as real) / 12.0
  }

  /** For a positive principal, the interest keeps the order of the yearly
      rate times the term. */
  lemma {:induction false} InterestKeepsOrder(p: real, ra: real, ma: int, rb: real, mb: int)
    requires 0.0 < p && ra * ma as real <= rb * mb as real
    ensures Interest(p, ra, ma) <= Interest(p, rb, mb)
  {
    ScaleKeepsOrder(p, ra * ma as real, rb * mb as real);
  }

  /** At a positive rate, the interest on a positive principal is positive,
      and it is at most a quarter of the principal while the rate times the
      term is at most three. */
  lemma {:induction false} InterestBounds(p: real, rate: real, months: int)
    requires 0.0 < p && 0.0 < rate && 1 <= months && rate * months as real <= 3.0
    ensures 0.0 < Interest(p, rate, months) <= p * 0.25
  {
    var y := rate * months as real;
    assert 0.0 < y by {
      ScaleKeepsOrder(rate, 1.0, months as real);
    }
    assert 0.0 < p * y by {
      ScaleKeepsOrder(p, 0.0, y);
      assert p * y != 0.0;
    }
    ScaleKeepsOrder(p, y, 3.0);
  }

  /** The yearly rate for a term of `months`: the long-term rate from one year on. */
  function Rate(months: int): real {
    if months >= 12 then LongTermRate else ShortTermRate
  }

  /** The yearly rate never falls as the term grows, and it is always positive. */
  lemma RateNeverFalls(shorter: int, longer: int)
    requires shorter <= longer
    ensures 0.0 < Rate(shorter) <= Rate(longer)
  {
  }

  /** Validates the principal first and then the term, and quotes the
      interest for the whole term and the amount paid back. */
  function Calculate(principal: real, months: int): (r: Result)
    ensures r.Err? <==> principal <= 0.0 || months < 1 || months > 60
    ensures r.Err? ==> (r.error == InvalidPrincipal <==> principal <= 0.0)
    ensures r.Ok? ==> r.quote.rate == Rate(months)
    ensures r.Ok? ==> r.quote.total - r.quote.interest == principal
    // a positive principal always earns something, and never more than a quarter of itself
    ensures r.Ok? ==> principal < r.quote.total <= principal * 1.25
  {
    if principal <= 0.0 then Err(InvalidPrincipal)
    else if months < 1 || months > 60 then Err(InvalidDuration)
    else
      var rate := Rate(months);
      RateNeverFalls(months, 60);
      RateTimesTermGrows(months, 60);
      InterestBounds(principal, rate, months);
      var interest := Interest(principal, rate, months);
      Ok(Quote(rate, interest, principal + interest))
  }

  /** The rate times the term grows with the term, across the step in the rate too. */
  lemma {:induction false} RateTimesTermGrows(shorter: int, longer: int)
    requires 1 <= shorter <= longer <= 60
    ensures Rate(shorter) * shorter as real <= Rate(longer) * longer as real
  {
    var s, l := shorter as real, longer as real;
    if longer < 12 {
      assert ShortTermRate * s <= ShortTermRate * l;
    } else if shorter >= 12 {
      assert LongTermRate * s <= LongTermRate * l;
    } else {
      assert ShortTermRate * s <= ShortTermRate * l <= LongTermRate * l;
    }
  }

  /** For the same principal, a longer term never earns less interest, even
      across the step from the short-term to the long-term rate. */
  lemma {:induction false} LongerTermEarnsMore(principal: real, shorter: int, longer: int)
    requires 0.0 < principal && 1 <= shorter <= longer <= 60
    ensures Calculate(principal, shorter).Ok? && Calculate(principal, longer).Ok?
    ensures Calculate(principal, shorter).quote.interest <= Calculate(principal, longer).quote.interest
  {
    RateTimesTermGrows(shorter, longer);
    InterestKeepsOrder(principal, Rate(shorter), shorter, Rate(longer), longer);
  }
}
