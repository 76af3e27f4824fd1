/** The shop's order: start from a plain pizza, wrap it in cheese, then
    olives, then pepperoni, and report the description and cost after each
    step. The console lines become a returned sequence of reports. */
module PizzaShop {
  import opened Decorator

  /** One printed line: a description and a cost in cents. */
  datatype Report = Report(description: string, cents: int)

  function ReportOf(p: Pizza): (r: Report)
    ensures PlainDescription <= r.description && r.cents >= BaseCost
  {
    Report(Description(p), Cost(p))
  }

  /** The pizza the order ends with. */
  const ShopPizza: Pizza := Pepperoni(Olives(Cheese(Base)))

  /** The four reports the order produces, in the order they are produced. */
  method TakeOrder() returns (reports: seq<Report>)
    ensures reports == [
      Report("Plain Pizza", 500),
      Report("Plain Pizza, Cheese", 700),
      Report("Plain Pizza, Cheese, Olives", 850),
      Report("Plain Pizza, Cheese, Olives, Pepperoni", 1100)
    ]
    ensures forall i :: 0 < i < |reports| ==>
      reports[i - 1].description < reports[i].description && reports[i - 1].cents < reports[i].cents
  {
    var pizza := Base;
    reports := [ReportOf(pizza)];

    pizza := Cheese(pizza);
    reports := reports + [ReportOf(pizza)];

    pizza := Olives(pizza);
    reports := reports + [ReportOf(pizza)];

    pizza := Pepperoni(pizza);
    reports := reports + [ReportOf(pizza)];

    ShopDescriptions();
  }

  /** The descriptions of the three decorated pizzas of the order, spelled out. */
  lemma ShopDescriptions()
    ensures Description(Cheese(Base)) == "Plain Pizza, Cheese"
    ensures Description(Olives(Cheese(Base))) == "Plain Pizza, Cheese, Olives"
    ensures Description(ShopPizza) == "Plain Pizza, Cheese, Olives, Pepperoni"
  {
    assert Description(Cheese(Base)) == "Plain Pizza" + ", Cheese" == "Plain Pizza, Cheese";
    assert Description(Olives(Cheese(Base))) == "Plain Pizza, Cheese" + ", Olives"
      == "Plain Pizza, Cheese, Olives";
    assert Description(ShopPizza) == "Plain Pizza, Cheese, Olives" + ", Pepperoni"
      == "Plain Pizza, Cheese, Olives, Pepperoni";
  }

  /** Any chain holding one cheese, one olives and one pepperoni layer, in
      whichever order they were wrapped, costs what the shop's order costs:
      1100 cents. Its description names the order of wrapping, so it equals
      the shop's final description only for the shop's own order. */
  lemma AnyWrappingOrder(p: Pizza)
    requires Toppings(p) == Tally(1, 1, 1)
    ensures Cost(p) == 1100
    ensures Description(p) == "Plain Pizza, Cheese, Olives, Pepperoni" <==> p == ShopPizza
  {
    CostIsBasePlusToppings(p);
    ShopDescriptions();
    if Description(p) == Description(ShopPizza) {
      DescriptionDeterminesChain(p, ShopPizza);
    }
  }
}
