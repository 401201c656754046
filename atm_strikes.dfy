/**
 * At-the-money selection for the straddle chart: among the option chain's
 * positive strikes, the one nearest the underlying's price (the lower one
 * on a tie), and the first call and first put listed at that strike.
 */
module AtmStrikes {
  import opened Wrappers

  /** A chain entry's strike: absent, a number, or a value (null, text) that cannot be compared with 0. */
  datatype Strike = NoStrike | Price(value: real) | Unordered

  /** One entry of the option chain; absent fields are `NoStrike` or `None`. */
  datatype ChainOption = ChainOption(strike: Strike, optionType: Option<string>, symbol: Option<string>)

  function Distance(x: real, price: real): real
  {
    if x >= price then x - price else price - x
  }

  /** The strikes present and strictly positive, in chain order. */
  function ValidStrikes(options: seq<ChainOption>): (r: seq<real>)
    ensures forall x :: x in r <==> exists i :: 0 <= i < |options| && options[i].strike == Price(x) && x > 0.0
  {
    if options == [] then []
    else
      var init := ValidStrikes(options[..|options| - 1]);
      var last := options[|options| - 1];
      assert forall i :: 0 <= i < |options| - 1 ==> options[..|options| - 1][i] == options[i];
      init + (if last.strike.Price? && last.strike.value > 0.0 then [last.strike.value] else [])
  }

  /** `x` beats `y` as the at-the-money strike: strictly nearer, or as near and lower. */
  predicate Better(x: real, y: real, price: real)
  {
    Distance(x, price) < Distance(y, price) || (Distance(x, price) == Distance(y, price) && x < y)
  }

  /** The nearest strike, ties going to the lower one. */
  function Nearest(xs: seq<real>, price: real): (r: real)
    requires |xs| > 0
    ensures r in xs
    ensures forall x :: x in xs ==> Distance(r, price) <= Distance(x, price)
    ensures forall x :: x in xs && Distance(x, price) == Distance(r, price) ==> r <= x
  {
    if |xs| == 1 then xs[0]
    else
      var best := Nearest(xs[..|xs| - 1], price);
      var last := xs[|xs| - 1];
      assert forall x :: x in xs ==> x in xs[..|xs| - 1] || x == last;
      if Better(last, best, price) then last else best
  }

  /**
   * The nearest-with-lower-tie rule names exactly one strike: sorting the
   * distinct strikes and taking the first with the least distance, as the
   * chart does, can only give `Nearest`.
   */
  lemma NearestIsUnique(xs: seq<real>, price: real, y: real)
    requires |xs| > 0 && y in xs
    requires forall x :: x in xs ==> Distance(y, price) <= Distance(x, price)
    requires forall x :: x in xs && Distance(x, price) == Distance(y, price) ==> y <= x
    ensures y == Nearest(xs, price)
  {
    var r := Nearest(xs, price);
    assert Distance(r, price) == Distance(y, price);
  }

  predicate IsListed(o: ChainOption, optionType: string, strike: real)
  {
    o.optionType == Some(optionType) && o.strike == Price(strike)
  }

  /** The first listed option's symbol lookup: none listed, its symbol, or a lookup that raises for want of one. */
  datatype Lookup = NotListed | Found(symbol: string) | NoSymbol

  /** The symbol of the first option of the given type listed at the strike. */
  function FirstSymbol(options: seq<ChainOption>, optionType: string, strike: real): (r: Lookup)
    ensures r.NotListed? <==> forall i :: 0 <= i < |options| ==> !IsListed(options[i], optionType, strike)
    ensures !r.NotListed? ==>
      exists i :: 0 <= i < |options| && IsListed(options[i], optionType, strike)
                  && (forall j :: 0 <= j < i ==> !IsListed(options[j], optionType, strike))
                  && (r.Found? <==> options[i].symbol.Some?)
                  && (r.Found? ==> options[i].symbol == Some(r.symbol))
  {
    if options == [] then NotListed
    else if IsListed(options[0], optionType, strike) then
      (if options[0].symbol.Some? then Found(options[0].symbol.value) else NoSymbol)
    else
      assert forall j :: 1 <= j < |options| ==> options[j] == options[1..][j - 1];
      FirstSymbol(options[1..], optionType, strike)
  }

  datatype Atm = Atm(strike: Option<real>, call: Option<string>, put: Option<string>)

  /** Some entry's strike cannot be compared with 0, so collecting the strikes raises. */
  predicate HasUnorderedStrike(options: seq<ChainOption>)
  {
    exists i :: 0 <= i < |options| && options[i].strike.Unordered?
  }

  function SymbolOf(l: Lookup): Option<string>
  {
    if l.Found? then Some(l.symbol) else None
  }

  /**
   * At-the-money options at `price`. `chain` is the option chain for the
   * nearest expiry, `None` when no expiry was found or the query failed.
   * Every exception on the way (a strike that cannot be compared, a first
   * matching option without a symbol) is caught and gives no strike.
   */
  function FindAtmOptions(chain: Option<seq<ChainOption>>, price: real): (r: Atm)
    ensures r.strike.None? ==> r == Atm(None, None, None)
    ensures r.strike.None? <==>
      || chain.None? || HasUnorderedStrike(chain.value) || ValidStrikes(chain.value) == []
      || FirstSymbol(chain.value, "CE", Nearest(ValidStrikes(chain.value), price)).NoSymbol?
      || FirstSymbol(chain.value, "PE", Nearest(ValidStrikes(chain.value), price)).NoSymbol?
    ensures r.strike.Some? ==>
      && chain.Some? && r.strike.value > 0.0
      && (exists i :: 0 <= i < |chain.value| && chain.value[i].strike == Price(r.strike.value))
      && (forall i :: 0 <= i < |chain.value| && chain.value[i].strike.Price? && chain.value[i].strike.value > 0.0 ==>
            Better(r.strike.value, chain.value[i].strike.value, price) || chain.value[i].strike == Price(r.strike.value))
      && r.call == SymbolOf(FirstSymbol(chain.value, "CE", r.strike.value))
      && r.put == SymbolOf(FirstSymbol(chain.value, "PE", r.strike.value))
  {
    match chain
    case None => Atm(None, None, None)
    case Some(options) =>
      if HasUnorderedStrike(options) then Atm(None, None, None)
      else
        var strikes := ValidStrikes(options);
        if strikes == [] then Atm(None, None, None)
        else
          var closest := Nearest(strikes, price);
          var call, put := FirstSymbol(options, "CE", closest), FirstSymbol(options, "PE", closest);
          if call.NoSymbol? || put.NoSymbol? then Atm(None, None, None)
          else Atm(Some(closest), SymbolOf(call), SymbolOf(put))
  }
}
