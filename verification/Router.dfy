/** Least-cost routing: the fee of a provider for a channel, and the choice of the cheapest one. Amounts
    and rates are exact reals; the rounding to cents is spelled out. */
module Router {
  import opened Text
  import opened Wrappers

  // `Other` is any fee type the configuration may name besides the three known ones.
  datatype FeeType = Fixed | Percentage | Mixed | Other(name: string)

  datatype Fee = Fee(kind: FeeType, fixed: real, percentage: real, vatIncluded: bool)

  datatype Provider = Provider(enabled: bool, platformPct: real, fees: map<string, Fee>)

  datatype Config = Config(vatRate: real, fallback: seq<string>, providers: map<string, Provider>)

  function NormalizeChannel(raw: string): string {
    var ch := ToLower(TrimSpace(raw));
    if ch == "card" || ch == "credit_card" then "credit_card"
    else if ch == "qris" || ch == "id_qris" then "qris"
    else if ch == "virtual_account" || ch == "id_virtual_account" || ch == "bank_transfer" then "virtual_account"
    else if ch == "ewallet_gopay" || ch == "gopay" then "ewallet_gopay"
    else if ch == "ewallet_shopeepay" || ch == "shopeepay" then "ewallet_shopeepay"
    else if ch == "retail_outlet" || ch == "over_the_counter" || ch == "convenience_store" then "retail_outlet"
    else ch
  }

  // ----- Rounding -----

  // Half away from zero.
  function Round(x: real): real {
    if x >= 0.0 then (x + 0.5).Floor as real else -((-x + 0.5).Floor as real)
  }

  function ToCents(x: real): real {
    Round(x * 100.0) / 100.0
  }

  lemma RoundIsNear(x: real)
    ensures -0.5 <= Round(x) - x <= 0.5
  {
  }

  lemma RoundIsMonotone(x: real, y: real)
    requires x <= y
    ensures Round(x) <= Round(y)
  {
    if x >= 0.0 {
      FloorIsMonotone(x + 0.5, y + 0.5);
    } else if y < 0.0 {
      FloorIsMonotone(-y + 0.5, -x + 0.5);
    }
  }

  lemma FloorIsMonotone(x: real, y: real)
    requires x <= y
    ensures x.Floor <= y.Floor
  {
    assert x.Floor as real <= x && y < y.Floor as real + 1.0;
  }

  // ----- The fee of one provider -----

  // The channel's fee schedule at an enabled provider.
  function Schedule(c: Config, name: string, rawChannel: string): Option<Fee> {
    if name !in c.providers || !c.providers[name].enabled then None
    else
      var channel := NormalizeChannel(rawChannel);
      if channel in c.providers[name].fees then Some(c.providers[name].fees[channel]) else None
  }

  // An unknown fee type is read off the rates that are set.
  function BaseFee(fee: Fee, amount: real): real {
    match fee.kind
    case Fixed => fee.fixed
    case Percentage => amount * fee.percentage
    case Mixed => amount * fee.percentage + fee.fixed
    case Other(_) =>
      if fee.percentage > 0.0 && fee.fixed > 0.0 then amount * fee.percentage + fee.fixed
      else if fee.percentage > 0.0 then amount * fee.percentage
      else fee.fixed
  }

  function WithPlatform(p: Provider, base: real, amount: real): real {
    if p.platformPct > 0.0 then base + amount * p.platformPct else base
  }

  function TaxFactor(c: Config, fee: Fee): real {
    if fee.vatIncluded then 1.0 else 1.0 + if c.vatRate <= 0.0 then 0.11 else c.vatRate
  }

  function ExactFee(c: Config, name: string, rawChannel: string, amount: real): Option<real> {
    match Schedule(c, name, rawChannel)
    case None => None
    case Some(fee) => Some(TaxedFee(c, c.providers[name], fee, amount))
  }

  function TaxedFee(c: Config, p: Provider, fee: Fee, amount: real): real {
    WithPlatform(p, BaseFee(fee, amount), amount) * TaxFactor(c, fee)
  }

  function Cost(c: Config, name: string, rawChannel: string, amount: real): Option<real> {
    match ExactFee(c, name, rawChannel, amount)
    case None => None
    case Some(exact) => Some(ToCents(exact))
  }

  // Base fee by type, then the platform's share, then the tax.
  method ComputeFee(c: Config, p: Provider, fee: Fee, amount: real) returns (finalFee: real)
    ensures finalFee == TaxedFee(c, p, fee, amount)
  {
    var baseFee: real;
    match fee.kind {
      case Fixed =>
        baseFee := fee.fixed;
      case Percentage =>
        baseFee := amount * fee.percentage;
      case Mixed =>
        baseFee := amount * fee.percentage + fee.fixed;
      case Other(_) =>
        if fee.percentage > 0.0 && fee.fixed > 0.0 {
          baseFee := amount * fee.percentage + fee.fixed;
        } else if fee.percentage > 0.0 {
          baseFee := amount * fee.percentage;
        } else {
          baseFee := fee.fixed;
        }
    }
    if p.platformPct > 0.0 {
      baseFee := baseFee + amount * p.platformPct;
    }
    if fee.vatIncluded {
      return baseFee;
    }
    var vatRate := c.vatRate;
    if vatRate <= 0.0 {
      vatRate := 0.11;
    }
    return baseFee * (1.0 + vatRate);
  }

  // What a schedule asks for before platform and tax: nothing is added when the tax is in it and the
  // platform takes no share.
  predicate IsBase(fee: Fee, amount: real, base: real) {
    && (fee.kind.Fixed? ==> base == fee.fixed)
    && (fee.kind.Percentage? ==> base == amount * fee.percentage)
    && (fee.kind.Mixed? ==> base == fee.fixed + amount * fee.percentage)
    && (fee.kind.Other? && fee.percentage <= 0.0 ==> base == fee.fixed)
    && (fee.kind.Other? && fee.percentage > 0.0 ==>
          base == amount * fee.percentage + if fee.fixed > 0.0 then fee.fixed else 0.0)
  }

  /** The parts of a fee: its base, the platform's share of the amount, and a tax of 11% unless another rate
      is configured, which is not charged on a fee that includes it. */
  lemma FeeHasParts(c: Config, p: Provider, fee: Fee, amount: real, base: real)
    requires IsBase(fee, amount, base)
    ensures var untaxed := if p.platformPct > 0.0 then base + amount * p.platformPct else base;
            && (fee.vatIncluded ==> TaxedFee(c, p, fee, amount) == untaxed)
            && (!fee.vatIncluded && c.vatRate > 0.0 ==> TaxedFee(c, p, fee, amount) == untaxed * (1.0 + c.vatRate))
            && (!fee.vatIncluded && c.vatRate <= 0.0 ==> TaxedFee(c, p, fee, amount) == untaxed * 1.11)
  {
  }

  /** A provider has a cost exactly if it is configured, enabled, and has the channel; then it is the fee, taken
      to the nearest cent. */
  lemma HasCostIff(c: Config, name: string, channel: string, amount: real)
    ensures Cost(c, name, channel, amount).Some?
            <==> name in c.providers && c.providers[name].enabled && NormalizeChannel(channel) in c.providers[name].fees
    ensures Cost(c, name, channel, amount).Some? ==>
              IsToTheCent(Cost(c, name, channel, amount).value,
                          TaxedFee(c, c.providers[name], c.providers[name].fees[NormalizeChannel(channel)], amount))
  {
    if Cost(c, name, channel, amount).Some? {
      CentsAreNear(TaxedFee(c, c.providers[name], c.providers[name].fees[NormalizeChannel(channel)], amount));
    }
  }

  predicate IsToTheCent(cost: real, exact: real) {
    -0.005 <= cost - exact <= 0.005 && (cost * 100.0).Floor as real == cost * 100.0
  }

  lemma CentsAreNear(exact: real)
    ensures IsToTheCent(ToCents(exact), exact)
  {
    var x := exact * 100.0;
    var cents := if x >= 0.0 then (x + 0.5).Floor else -(-x + 0.5).Floor;
    RoundIsNear(x);
    WholeCents(cents);
    assert ToCents(exact) == cents as real / 100.0;
  }

  lemma WholeCents(cents: int)
    ensures (cents as real / 100.0 * 100.0).Floor as real == cents as real / 100.0 * 100.0
  {
    assert cents as real / 100.0 * 100.0 == cents as real;
  }

  /** Which names stand for which channel, whatever their case and the space around them. */
  lemma ChannelNames(raw: string)
    ensures var name, channel := ToLower(TrimSpace(raw)), NormalizeChannel(raw);
            && (name == "card" || name == "credit_card" ==> channel == "credit_card")
            && (name == "qris" || name == "id_qris" ==> channel == "qris")
            && (name == "virtual_account" || name == "id_virtual_account" || name == "bank_transfer" ==> channel == "virtual_account")
            && (name == "gopay" || name == "ewallet_gopay" ==> channel == "ewallet_gopay")
            && (name == "shopeepay" || name == "ewallet_shopeepay" ==> channel == "ewallet_shopeepay")
            && (name == "retail_outlet" || name == "over_the_counter" || name == "convenience_store" ==> channel == "retail_outlet")
            && (name !in ALIASES ==> channel == name)
  {
  }

  const ALIASES := {
    "card", "id_qris", "id_virtual_account", "bank_transfer", "gopay", "shopeepay", "over_the_counter", "convenience_store"}

  /** A provider that is unknown, disabled or without the channel has no cost. */
  method CalculateCost(c: Option<Config>, name: string, rawChannel: string, amount: real) returns (cost: real, ok: bool)
    ensures c.None? ==> !ok && cost == 0.0
    ensures c.Some? ==> (ok <==> Cost(c.value, name, rawChannel, amount).Some?)
    ensures ok ==> Cost(c.value, name, rawChannel, amount) == Some(cost)
    ensures !ok ==> cost == 0.0
  {
    if c.None? || name !in c.value.providers || !c.value.providers[name].enabled {
      return 0.0, false;
    }
    var p := c.value.providers[name];
    var channel := NormalizeChannel(rawChannel);
    if channel !in p.fees {
      return 0.0, false;
    }
    var finalFee := ComputeFee(c.value, p, p.fees[channel], amount);
    return ToCents(finalFee), true;
  }

  // ----- The cheapest provider -----

  predicate Supports(c: Config, name: string, channel: string, amount: real) {
    Cost(c, name, channel, amount).Some?
  }

  ghost predicate Cheapest(c: Config, names: set<string>, channel: string, amount: real, best: string, fee: real) {
    && best in names && Cost(c, best, channel, amount) == Some(fee)
    && forall n :: n in names && Supports(c, n, channel, amount) ==> fee <= Cost(c, n, channel, amount).value
  }

  // The first provider of the priority list that has the channel; else its head, at no known cost.
  function Fallback(c: Config, channel: string, amount: real): (string, real) {
    if c.fallback == [] then ("midtrans", 0.0) else FirstSupporting(c, c.fallback, channel, amount)
  }

  function FirstSupporting(c: Config, names: seq<string>, channel: string, amount: real): (string, real)
    requires c.fallback != []
  {
    if names == [] then (c.fallback[0], 0.0)
    else if Supports(c, names[0], channel, amount) then (names[0], Cost(c, names[0], channel, amount).value)
    else FirstSupporting(c, names[1..], channel, amount)
  }

  /** The fallback: midtrans without a priority list, else the first of the list that has the channel, at its
      cost, else the head of the list at no cost. */
  lemma FallbackIsFirst(c: Config, channel: string, amount: real)
    ensures c.fallback == [] ==> Fallback(c, channel, amount) == ("midtrans", 0.0)
    ensures c.fallback != [] && (forall n :: n in c.fallback ==> Cost(c, n, channel, amount).None?) ==>
              Fallback(c, channel, amount) == (c.fallback[0], 0.0)
    ensures forall i :: 0 <= i < |c.fallback| && Cost(c, c.fallback[i], channel, amount).Some?
                        && (forall j :: 0 <= j < i ==> Cost(c, c.fallback[j], channel, amount).None?) ==>
                          Fallback(c, channel, amount) == (c.fallback[i], Cost(c, c.fallback[i], channel, amount).value)
  {
    if c.fallback != [] {
      FirstOfRest(c, c.fallback, channel, amount);
    }
  }

  lemma {:induction false} FirstOfRest(c: Config, names: seq<string>, channel: string, amount: real)
    requires c.fallback != []
    ensures (forall n :: n in names ==> Cost(c, n, channel, amount).None?) ==>
              FirstSupporting(c, names, channel, amount) == (c.fallback[0], 0.0)
    ensures forall i :: 0 <= i < |names| && Cost(c, names[i], channel, amount).Some?
                        && (forall j :: 0 <= j < i ==> Cost(c, names[j], channel, amount).None?) ==>
                          FirstSupporting(c, names, channel, amount) == (names[i], Cost(c, names[i], channel, amount).value)
  {
    if names != [] {
      FirstOfRest(c, names[1..], channel, amount);
      forall i | 0 <= i < |names| && Cost(c, names[i], channel, amount).Some?
                 && (forall j :: 0 <= j < i ==> Cost(c, names[j], channel, amount).None?)
        ensures FirstSupporting(c, names, channel, amount) == (names[i], Cost(c, names[i], channel, amount).value)
      {
        if i > 0 {
          assert names[1..][i - 1] == names[i];
          assert forall j :: 0 <= j < i - 1 ==> names[1..][j] == names[j + 1];
        }
      }
    }
  }

  // The earliest of the cheapest providers in this order.
  ghost predicate IsFirstCheapest(c: Config, order: seq<string>, channel: string, amount: real, i: nat) {
    && i < |order| && Supports(c, order[i], channel, amount)
    && forall j :: 0 <= j < |order| && Supports(c, order[j], channel, amount) ==>
                     var fee, other := Cost(c, order[i], channel, amount).value, Cost(c, order[j], channel, amount).value;
                     fee <= other && (j < i ==> fee < other)
  }

  // The earliest cheapest provider and its fee; the fallback when none has the channel, and also when
  // the winner's name is empty, because the empty name stands for "none found".
  ghost predicate Chosen(c: Config, order: seq<string>, channel: string, amount: real, best: string, fee: real) {
    if exists n :: n in order && Supports(c, n, channel, amount) then
      exists i: nat :: IsFirstCheapest(c, order, channel, amount, i)
                       && (best, fee) == (if order[i] == "" then Fallback(c, channel, amount)
                                          else (order[i], Cost(c, order[i], channel, amount).value))
    else (best, fee) == Fallback(c, channel, amount)
  }

  /** Without candidates every configured provider is tried, in whatever order the map yields them. */
  method SelectBestGateway(config: Option<Config>, candidates: seq<string>, channel: string, amount: real)
    returns (best: string, fee: real)
    ensures config.None? ==> best == "midtrans" && fee == 0.0
    ensures config.Some? ==>
              exists order :: (if candidates == [] then config.value.providers.Keys == set n | n in order
                               else order == candidates)
                              && Chosen(config.value, order, channel, amount, best, fee)
  {
    if config.None? {
      return "midtrans", 0.0;
    }
    var c := config.value;
    var targets := candidates;
    if candidates == [] {
      targets := AnyOrder(c.providers.Keys);
    }
    var minCost: Option<real>;
    ghost var at: Option<nat>;
    best, minCost, at := CheapestOf(c, targets, channel, amount);
    if best == "" && c.fallback != [] {
      best, fee := FromPriorityList(c, channel, amount);
    } else if best == "" {
      best, fee := "midtrans", 0.0;
    } else {
      fee := minCost.value;
    }
    ChoiceIsChosen(c, targets, channel, amount, at, best, fee);
  }

  // The earliest cheapest of the targets, and what it costs.
  method CheapestOf(c: Config, targets: seq<string>, channel: string, amount: real)
    returns (best: string, minCost: Option<real>, ghost at: Option<nat>)
    ensures at.None? ==> best == "" && minCost.None? && forall n :: n in targets ==> !Supports(c, n, channel, amount)
    ensures at.Some? ==> IsFirstCheapest(c, targets, channel, amount, at.value) && best == targets[at.value]
                         && Cost(c, best, channel, amount) == minCost
  {
    best, minCost, at := "", None, None;
    for i := 0 to |targets|
      invariant at.None? ==> best == "" && minCost.None? && forall j :: 0 <= j < i ==> !Supports(c, targets[j], channel, amount)
      invariant at.Some? ==> at.value < i && best == targets[at.value]
                             && IsFirstCheapest(c, targets[..i], channel, amount, at.value)
                             && Cost(c, best, channel, amount) == minCost
    {
      assert targets[..i + 1] == targets[..i] + [targets[i]];
      var cost, ok := CalculateCost(Some(c), targets[i], channel, amount);
      if ok && (minCost.None? || cost < minCost.value) {
        minCost := Some(cost);
        best := targets[i];
        at := Some(i);
      }
    }
    assert targets[..|targets|] == targets;
  }

  lemma ChoiceIsChosen(c: Config, order: seq<string>, channel: string, amount: real, at: Option<nat>, best: string, fee: real)
    requires at.None? ==> forall n :: n in order ==> !Supports(c, n, channel, amount)
    requires at.Some? ==> IsFirstCheapest(c, order, channel, amount, at.value)
    requires (best, fee) == if at.None? || order[at.value] == "" then Fallback(c, channel, amount)
                            else (order[at.value], Cost(c, order[at.value], channel, amount).value)
    ensures Chosen(c, order, channel, amount, best, fee)
  {
    if at.Some? {
      assert order[at.value] in order;
    }
  }

  method FromPriorityList(c: Config, channel: string, amount: real) returns (best: string, fee: real)
    requires c.fallback != []
    ensures (best, fee) == Fallback(c, channel, amount)
  {
    for i := 0 to |c.fallback|
      invariant FirstSupporting(c, c.fallback, channel, amount) == FirstSupporting(c, c.fallback[i..], channel, amount)
    {
      var cost, ok := CalculateCost(Some(c), c.fallback[i], channel, amount);
      if ok {
        return c.fallback[i], cost;
      }
    }
    return c.fallback[0], 0.0;
  }

  // A cheapest provider of these, whatever its fee.
  ghost predicate Wins(c: Config, names: set<string>, channel: string, amount: real, winner: string) {
    Supports(c, winner, channel, amount)
    && Cheapest(c, names, channel, amount, winner, Cost(c, winner, channel, amount).value)
  }

  // What the choice of a winner returns; the empty name stands for "none found".
  function Answer(c: Config, channel: string, amount: real, winner: string): (string, real)
    requires Supports(c, winner, channel, amount)
  {
    if winner == "" then Fallback(c, channel, amount) else (winner, Cost(c, winner, channel, amount).value)
  }

  /** The answer is that of a cheapest target exactly when some target has the channel, and the fallback's
      when none has. */
  lemma ChosenIsCheapest(c: Config, order: seq<string>, channel: string, amount: real, best: string, fee: real)
    requires Chosen(c, order, channel, amount, best, fee)
    ensures var names := set n | n in order;
            if exists n :: n in order && Supports(c, n, channel, amount)
            then exists winner :: Wins(c, names, channel, amount, winner) && (best, fee) == Answer(c, channel, amount, winner)
            else (best, fee) == Fallback(c, channel, amount)
  {
    if exists n :: n in order && Supports(c, n, channel, amount) {
      var i: nat :| IsFirstCheapest(c, order, channel, amount, i)
                    && (best, fee) == (if order[i] == "" then Fallback(c, channel, amount)
                                       else (order[i], Cost(c, order[i], channel, amount).value));
      FirstCheapestWins(c, order, channel, amount, i);
    }
  }

  lemma FirstCheapestWins(c: Config, order: seq<string>, channel: string, amount: real, i: nat)
    requires IsFirstCheapest(c, order, channel, amount, i)
    ensures Wins(c, (set n | n in order), channel, amount, order[i])
  {
    forall n | n in (set m | m in order) && Supports(c, n, channel, amount)
      ensures Cost(c, order[i], channel, amount).value <= Cost(c, n, channel, amount).value
    {
      var j :| 0 <= j < |order| && order[j] == n;
    }
  }

  // The order in which a map is iterated is any order.
  method AnyOrder(names: set<string>) returns (order: seq<string>)
    ensures names == set n | n in order
  {
    var rest := names;
    order := [];
    while rest != {}
      invariant rest <= names && names - rest == set n | n in order
      decreases rest
    {
      var n :| n in rest;
      assert (set m | m in order + [n]) == (set m | m in order) + {n};
      order := order + [n];
      rest := rest - {n};
    }
  }

  /** All cheapest candidates have one rounded fee, and the exact fee of each is within a cent of every
      other candidate's. */
  lemma CheapestIsCheapest(c: Config, names: set<string>, channel: string, amount: real,
                           best: string, fee: real, other: string, otherFee: real)
    requires Cheapest(c, names, channel, amount, best, fee)
    ensures Cheapest(c, names, channel, amount, other, otherFee) ==> fee == otherFee
    ensures other in names && Supports(c, other, channel, amount) ==>
              ExactFee(c, best, channel, amount).value <= ExactFee(c, other, channel, amount).value + 0.01
  {
    RoundIsNear(ExactFee(c, best, channel, amount).value * 100.0);
    if Supports(c, other, channel, amount) {
      RoundIsNear(ExactFee(c, other, channel, amount).value * 100.0);
    }
  }

  // Whatever the order of the candidates, the fee of the choice is the same.
  ghost predicate FeeIsFixed(c: Config, names: set<string>, channel: string, amount: real) {
    forall order, other, best, fee, best', fee' ::
      (set n | n in order) == names && (set n | n in other) == names
      && Chosen(c, order, channel, amount, best, fee) && Chosen(c, other, channel, amount, best', fee')
      ==> fee == fee'
  }

  // The provider with the empty name ties for the lowest fee with another one, and the fallback costs
  // something else.
  ghost predicate IsAmbiguous(c: Config, names: set<string>, channel: string, amount: real) {
    && Wins(c, names, channel, amount, "")
    && (exists n :: n != "" && Wins(c, names, channel, amount, n))
    && Fallback(c, channel, amount).1 != Cost(c, "", channel, amount).value
  }

  lemma WinnersTie(c: Config, names: set<string>, channel: string, amount: real, winner: string, other: string)
    requires Wins(c, names, channel, amount, winner) && Wins(c, names, channel, amount, other)
    ensures Cost(c, winner, channel, amount) == Cost(c, other, channel, amount)
  {
  }

  lemma {:induction false} Enumeration(names: set<string>) returns (order: seq<string>)
    ensures forall n :: n in order <==> n in names
  {
    if names == {} {
      order := [];
    } else {
      var some :| some in names;
      var rest := Enumeration(names - {some});
      order := [some] + rest;
    }
  }

  // Put first, any of the cheapest is chosen.
  lemma FirstIsChosen(c: Config, names: set<string>, channel: string, amount: real, winner: string) returns (order: seq<string>)
    requires Wins(c, names, channel, amount, winner)
    ensures (set n | n in order) == names
    ensures var (best, fee) := Answer(c, channel, amount, winner); Chosen(c, order, channel, amount, best, fee)
  {
    var rest := Enumeration(names - {winner});
    order := [winner] + rest;
    assert forall n :: n in order <==> n in names;
    assert order[0] == winner && IsFirstCheapest(c, order, channel, amount, 0);
  }

  lemma SameNamesSameSupport(c: Config, order: seq<string>, names: set<string>, channel: string, amount: real)
    requires (set n | n in order) == names
    ensures (exists n :: n in order && Supports(c, n, channel, amount))
            <==> exists n :: n in names && Supports(c, n, channel, amount)
  {
    assert forall n :: n in order <==> n in (set m | m in order);
  }

  lemma UnambiguousFee(
    c: Config, names: set<string>, channel: string, amount: real, order: seq<string>, other: seq<string>,
    best: string, fee: real, best': string, fee': real)
    requires !IsAmbiguous(c, names, channel, amount)
    requires (set n | n in order) == names && (set n | n in other) == names
    requires Chosen(c, order, channel, amount, best, fee) && Chosen(c, other, channel, amount, best', fee')
    ensures fee == fee'
  {
    ChosenIsCheapest(c, order, channel, amount, best, fee);
    ChosenIsCheapest(c, other, channel, amount, best', fee');
    SameNamesSameSupport(c, order, names, channel, amount);
    SameNamesSameSupport(c, other, names, channel, amount);
    if exists n :: n in names && Supports(c, n, channel, amount) {
      var w :| Wins(c, names, channel, amount, w) && (best, fee) == Answer(c, channel, amount, w);
      var w' :| Wins(c, names, channel, amount, w') && (best', fee') == Answer(c, channel, amount, w');
      WinnersTie(c, names, channel, amount, w, w');
    }
  }

  /** The exact condition: the fee of the choice does not depend on the order of the candidates if and only if
      the empty name does not tie with another candidate for a fee that the fallback does not have. */
  lemma FeeIgnoresOrderIff(c: Config, names: set<string>, channel: string, amount: real)
    ensures FeeIsFixed(c, names, channel, amount) <==> !IsAmbiguous(c, names, channel, amount)
  {
    if IsAmbiguous(c, names, channel, amount) {
      var n :| n != "" && Wins(c, names, channel, amount, n);
      var order := FirstIsChosen(c, names, channel, amount, "");
      var other := FirstIsChosen(c, names, channel, amount, n);
      WinnersTie(c, names, channel, amount, "", n);
      var (best, fee) := Answer(c, channel, amount, "");
      var (best', fee') := Answer(c, channel, amount, n);
      assert Chosen(c, order, channel, amount, best, fee) && Chosen(c, other, channel, amount, best', fee') && fee != fee';
    } else {
      forall order, other, best, fee, best', fee' |
        (set n | n in order) == names && (set n | n in other) == names
        && Chosen(c, order, channel, amount, best, fee) && Chosen(c, other, channel, amount, best', fee')
        ensures fee == fee'
      {
        UnambiguousFee(c, names, channel, amount, order, other, best, fee, best', fee');
      }
    }
  }

  lemma ProductIsMonotone(low: real, high: real, factor: real)
    requires low <= high && factor >= 0.0
    ensures low * factor <= high * factor
  {
    assert high * factor - low * factor == (high - low) * factor;
    assert (high - low) * factor >= 0.0;
  }

  lemma BaseFeeIsMonotone(fee: Fee, low: real, high: real)
    requires low <= high && fee.percentage >= 0.0
    ensures BaseFee(fee, low) <= BaseFee(fee, high)
  {
    ProductIsMonotone(low, high, fee.percentage);
  }

  lemma PlatformIsMonotone(p: Provider, base: real, base': real, low: real, high: real)
    requires base <= base' && low <= high
    ensures WithPlatform(p, base, low) <= WithPlatform(p, base', high)
  {
    if p.platformPct > 0.0 {
      ProductIsMonotone(low, high, p.platformPct);
      var share, share' := low * p.platformPct, high * p.platformPct;
      assert WithPlatform(p, base, low) == base + share;
      assert WithPlatform(p, base', high) == base' + share';
      assert share <= share';
    }
  }

  lemma TaxedFeeIsMonotone(c: Config, p: Provider, fee: Fee, low: real, high: real)
    requires low <= high && fee.percentage >= 0.0
    ensures TaxedFee(c, p, fee, low) <= TaxedFee(c, p, fee, high)
  {
    BaseFeeIsMonotone(fee, low, high);
    PlatformIsMonotone(p, BaseFee(fee, low), BaseFee(fee, high), low, high);
    TaxIsMonotone(c, fee, WithPlatform(p, BaseFee(fee, low), low), WithPlatform(p, BaseFee(fee, high), high));
  }

  lemma TaxIsMonotone(c: Config, fee: Fee, low: real, high: real)
    requires low <= high
    ensures low * TaxFactor(c, fee) <= high * TaxFactor(c, fee)
  {
    var factor := TaxFactor(c, fee);
    assert factor >= 0.0;
    ProductIsMonotone(low, high, factor);
  }

  /** With a non-negative percentage the fee never falls when the amount grows. */
  lemma CostIsMonotone(c: Config, name: string, channel: string, low: real, high: real)
    requires low <= high && Schedule(c, name, channel).Some?
    requires Schedule(c, name, channel).value.percentage >= 0.0
    ensures Cost(c, name, channel, low).value <= Cost(c, name, channel, high).value
  {
    var fee, p := Schedule(c, name, channel).value, c.providers[name];
    TaxedFeeIsMonotone(c, p, fee, low, high);
    RoundIsMonotone(TaxedFee(c, p, fee, low) * 100.0, TaxedFee(c, p, fee, high) * 100.0);
  }
}
