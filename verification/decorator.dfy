/** The pizza Decorator chain: a plain base pizza wrapped in any number of
    topping decorators, each of which delegates to the pizza it wraps and adds
    a fixed label to the description and a fixed amount to the cost.

    Amounts are in integer cents: every price in the chain is a multiple of
    half a dollar, so cents represent the source's doubles exactly. */
module Decorator {

  /** One constructor per concrete class of the chain. A decorator owns the
      pizza it was built around; a datatype value cannot be changed after
      construction, just as the wrapped pizza is never reassigned. */
  datatype Pizza =
    | Base                      // BasePizza, the end of every chain
    | Cheese(inner: Pizza)      // CheeseDecorator
    | Olives(inner: Pizza)      // OlivesDecorator
    | Pepperoni(inner: Pizza)   // PepperoniDecorator

  const PlainDescription: string := "Plain Pizza"
  const CheeseLabel: string := ", Cheese"
  const OlivesLabel: string := ", Olives"
  const PepperoniLabel: string := ", Pepperoni"

  const BaseCost: int := 500
  const CheeseCost: int := 200
  const OlivesCost: int := 150
  const PepperoniCost: int := 250

  /** getDescription: the wrapped description followed by the decorator's label. */
  function Description(p: Pizza): (d: string)
    ensures PlainDescription <= d
  {
    match p
    case Base => PlainDescription
    case Cheese(inner) => Description(inner) + CheeseLabel
    case Olives(inner) => Description(inner) + OlivesLabel
    case Pepperoni(inner) => Description(inner) + PepperoniLabel
  }

  /** getCost, in cents: the wrapped cost plus the decorator's amount. */
  function Cost(p: Pizza): (c: int)
    ensures c >= BaseCost
  {
    match p
    case Base => BaseCost
    case Cheese(inner) => Cost(inner) + CheeseCost
    case Olives(inner) => Cost(inner) + OlivesCost
    case Pepperoni(inner) => Cost(inner) + PepperoniCost
  }

  // ---------------------------------------------------------------------------
  // One layer at a time

  /** The chain terminator answers constants that depend on nothing. */
  lemma BaseLayer()
    ensures Description(Base) == "Plain Pizza"
    ensures Cost(Base) == 500
  {
  }

  /** Cheese extends the wrapped description by exactly ", Cheese" (8
      characters) and raises the cost by exactly 200 cents. */
  lemma CheeseLayer(p: Pizza)
    ensures Description(p) < Description(Cheese(p))
    ensures |Description(Cheese(p))| == |Description(p)| + 8
    ensures Description(Cheese(p))[|Description(p)|..] == ", Cheese"
    ensures Cost(Cheese(p)) == Cost(p) + 200 > Cost(p)
  {
  }

  /** Olives extends the wrapped description by exactly ", Olives" (8
      characters) and raises the cost by exactly 150 cents. */
  lemma OlivesLayer(p: Pizza)
    ensures Description(p) < Description(Olives(p))
    ensures |Description(Olives(p))| == |Description(p)| + 8
    ensures Description(Olives(p))[|Description(p)|..] == ", Olives"
    ensures Cost(Olives(p)) == Cost(p) + 150 > Cost(p)
  {
  }

  /** Pepperoni extends the wrapped description by exactly ", Pepperoni" (11
      characters) and raises the cost by exactly 250 cents. */
  lemma PepperoniLayer(p: Pizza)
    ensures Description(p) < Description(Pepperoni(p))
    ensures |Description(Pepperoni(p))| == |Description(p)| + 11
    ensures Description(Pepperoni(p))[|Description(p)|..] == ", Pepperoni"
    ensures Cost(Pepperoni(p)) == Cost(p) + 250 > Cost(p)
  {
  }

  /** A second cheese layer is charged again: wrapping is additive, not idempotent. */
  lemma DoubleCheese(p: Pizza)
    ensures Cost(Cheese(Cheese(p))) == Cost(p) + 400
    ensures Description(Cheese(Cheese(p))) == Description(p) + ", Cheese, Cheese"
  {
  }

  // ---------------------------------------------------------------------------
  // Whole chains

  /** `outer` is `inner` itself or is built, layer by layer, around `inner`. */
  predicate Wraps(outer: Pizza, inner: Pizza)
  {
    outer == inner || (!outer.Base? && Wraps(outer.inner, inner))
  }

  /** Every pizza inside a chain has a description that is a prefix of the
      chain's and a cost no larger; a pizza strictly inside has a proper
      prefix and a strictly smaller cost. */
  lemma {:induction false} NestedPrefix(outer: Pizza, inner: Pizza)
    requires Wraps(outer, inner)
    ensures Description(inner) <= Description(outer)
    ensures Cost(inner) <= Cost(outer)
    ensures inner != outer ==> Description(inner) < Description(outer) && Cost(inner) < Cost(outer)
  {
    if outer != inner {
      NestedPrefix(outer.inner, inner);
      match outer
      case Cheese(p) => CheeseLayer(p);
      case Olives(p) => OlivesLayer(p);
      case Pepperoni(p) => PepperoniLayer(p);
    }
  }

  /** How many times each decorator occurs in a chain. */
  datatype Tally = Tally(cheese: nat, olives: nat, pepperoni: nat)

  function Toppings(p: Pizza): (t: Tally)
    ensures p.Base? <==> t == Tally(0, 0, 0)
  {
    match p
    case Base => Tally(0, 0, 0)
    case Cheese(inner) => var t := Toppings(inner); t.(cheese := t.cheese + 1)
    case Olives(inner) => var t := Toppings(inner); t.(olives := t.olives + 1)
    case Pepperoni(inner) => var t := Toppings(inner); t.(pepperoni := t.pepperoni + 1)
  }

  /** The cost of any chain is the base price plus the amount of every
      topping layer, each counted as often as it was applied. */
  lemma {:induction false} CostIsBasePlusToppings(p: Pizza)
    ensures var t := Toppings(p);
      Cost(p) == BaseCost + CheeseCost * t.cheese + OlivesCost * t.olives + PepperoniCost * t.pepperoni
  {
    match p
    case Base =>
    case Cheese(inner) => CostIsBasePlusToppings(inner);
    case Olives(inner) => CostIsBasePlusToppings(inner);
    case Pepperoni(inner) => CostIsBasePlusToppings(inner);
  }

  /** The description is "Plain Pizza" followed by one label per layer, so
      its length is fixed by the toppings applied. */
  lemma {:induction false} DescriptionLength(p: Pizza)
    ensures var t := Toppings(p);
      |Description(p)| == |PlainDescription| + |CheeseLabel| * t.cheese
                          + |OlivesLabel| * t.olives + |PepperoniLabel| * t.pepperoni
  {
    match p
    case Base =>
    case Cheese(inner) => DescriptionLength(inner);
    case Olives(inner) => DescriptionLength(inner);
    case Pepperoni(inner) => DescriptionLength(inner);
  }

  /** The total cost does not depend on the order in which the toppings
      were applied: only on how many of each there are. */
  lemma CostOrderIndependent(p: Pizza, q: Pizza)
    requires Toppings(p) == Toppings(q)
    ensures Cost(p) == Cost(q)
  {
    CostIsBasePlusToppings(p);
    CostIsBasePlusToppings(q);
  }

  /** The description does reflect the exact order of application: two
      chains with the same description are the same chain. */
  lemma {:induction false} DescriptionDeterminesChain(p: Pizza, q: Pizza)
    requires Description(p) == Description(q)
    ensures p == q
  {
    var d := Description(p);
    match p
    case Base =>
      LastLayer(q, d);
    case Cheese(p') =>
      CheeseLayer(p');
      LastLayer(q, d);
      CheeseLayer(q.inner);
      assert Description(q.inner) == d[..|d| - 8] == Description(p');
      DescriptionDeterminesChain(p', q.inner);
    case Olives(p') =>
      OlivesLayer(p');
      LastLayer(q, d);
      OlivesLayer(q.inner);
      assert Description(q.inner) == d[..|d| - 8] == Description(p');
      DescriptionDeterminesChain(p', q.inner);
    case Pepperoni(p') =>
      PepperoniLayer(p');
      LastLayer(q, d);
      PepperoniLayer(q.inner);
      assert Description(q.inner) == d[..|d| - 11] == Description(p');
      DescriptionDeterminesChain(p', q.inner);
  }

  /** The outermost layer of a chain can be read off the end of its description. */
  lemma LastLayer(q: Pizza, d: string)
    requires Description(q) == d
    ensures q.Base? <==> d == PlainDescription
    ensures q.Cheese? <==> |d| > |PlainDescription| && d[|d| - 8..] == CheeseLabel
    ensures q.Olives? <==> |d| > |PlainDescription| && d[|d| - 8..] == OlivesLabel
    ensures q.Pepperoni? <==> |d| > |PlainDescription| && d[|d| - 11..] == PepperoniLabel
  {
    assert CheeseLabel[2] != OlivesLabel[2];
    match q
    case Base =>
    case Cheese(p) =>
      CheeseLayer(p);
      assert d[|d| - 8..] == CheeseLabel;
      assert d[|d| - 8..][2] == 'C' != OlivesLabel[2];
      assert d[|d| - 11..][3] == ',' != PepperoniLabel[3];
    case Olives(p) =>
      OlivesLayer(p);
      assert d[|d| - 8..] == OlivesLabel;
      assert d[|d| - 8..][2] == 'O' != CheeseLabel[2];
      assert d[|d| - 11..][3] == ',' != PepperoniLabel[3];
    case Pepperoni(p) =>
      PepperoniLayer(p);
      assert d[|d| - 11..] == PepperoniLabel;
      assert d[|d| - 8..][0] == 'e' != CheeseLabel[0];
  }
}
