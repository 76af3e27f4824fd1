# Pizza decorator chain, in Dafny

This project models the Decorator pattern example of the Design-Patterns
repository: a `BasePizza` that ends every chain, and three topping
decorators (`CheeseDecorator`, `OlivesDecorator`, `PepperoniDecorator`),
each of which wraps exactly one pizza and answers `getDescription` and
`getCost` by asking the wrapped pizza and adding its own label and price.
`PizzaShop.main` builds one chain step by step and prints a line after
each step.

- `decorator.dfy`, module `Decorator`: the chain as the recursive datatype
  `Pizza = Base | Cheese(inner) | Olives(inner) | Pepperoni(inner)`, one
  constructor per class, with `Description` and `Cost` as structural
  recursion. The wrapped pizza of a decorator is fixed when it is built,
  because a datatype value cannot change. Costs are integer cents (500, 200,
  150, 250); every price in the source is a multiple of 0.50, so the
  source's `double` values are exact and cents represent them faithfully.
- `pizza_shop.dfy`, module `PizzaShop`: `main` as the method `TakeOrder`,
  which reassigns a local pizza step by step and appends one report
  (description, cents) per printed line.

## Model

| member | source | states |
|---|---|---|
| Decorator.BaseLayer | decoratorpattern/BasePizza.java:3-12 | the plain pizza's description is exactly "Plain Pizza" and its cost exactly 500 cents, whatever else exists |
| Decorator.Description | decoratorpattern/BasePizza.java:5-7 | every chain ends in the base, so every description starts with "Plain Pizza" |
| Decorator.Cost | decoratorpattern/BasePizza.java:10-12 | decorators only add positive amounts, so every chain costs at least the base's 500 cents |
| Decorator.CheeseLayer | decoratorpattern/CheeseDecorator.java:9-17 | the wrapped description is a proper prefix of the Cheese description, which is exactly 8 characters longer and ends in ", Cheese"; the cost is the wrapped cost plus 200 cents, so strictly greater |
| Decorator.OlivesLayer | decoratorpattern/OliveDecorator.java:9-17 | the wrapped description is a proper prefix of the Olives description, which is exactly 8 characters longer and ends in ", Olives"; the cost is the wrapped cost plus 150 cents, so strictly greater |
| Decorator.PepperoniLayer | decoratorpattern/PepperoniDecorator.java:9-17 | the wrapped description is a proper prefix of the Pepperoni description, which is exactly 11 characters longer and ends in ", Pepperoni"; the cost is the wrapped cost plus 250 cents, so strictly greater |
| Decorator.DoubleCheese | decoratorpattern/CheeseDecorator.java:15-17 | wrapping cheese twice adds 400 cents and the label twice: the decorator is additive, not idempotent |
| Decorator.NestedPrefix | decoratorpattern/CheeseDecorator.java:5-12 | for any pizza anywhere inside a chain, its description is a prefix of the chain's and its cost is no larger; strictly inside means a proper prefix and a strictly smaller cost |
| Decorator.CostIsBasePlusToppings | decoratorpattern/BasePizza.java:10-12 | the cost of any chain is 500 plus 200 per cheese, 150 per olives and 250 per pepperoni layer |
| Decorator.DescriptionLength | decoratorpattern/BasePizza.java:5-7 | the description's length is 11 plus 8 per cheese, 8 per olives and 11 per pepperoni layer |
| Decorator.CostOrderIndependent | decoratorpattern/PizzaShop.java:10-18 | two chains with the same number of each topping cost the same, whatever order the toppings were wrapped in |
| Decorator.LastLayer | decoratorpattern/BasePizza.java:5-7 | the outermost layer of a chain is the base exactly when the description is "Plain Pizza", and otherwise is the decorator whose label (CheeseDecorator.java:11, OliveDecorator.java:11, PepperoniDecorator.java:11) ends the description |
| Decorator.DescriptionDeterminesChain | decoratorpattern/PizzaShop.java:10-18 | two chains with the same description are the same chain: the description records the exact order of wrapping |
| PizzaShop.ReportOf | decoratorpattern/PizzaShop.java:7 | a printed line's description starts with "Plain Pizza" and its cost is at least 500 cents |
| PizzaShop.TakeOrder | decoratorpattern/PizzaShop.java:4-20 | the order reports exactly "Plain Pizza" 500, "Plain Pizza, Cheese" 700, "Plain Pizza, Cheese, Olives" 850 and "Plain Pizza, Cheese, Olives, Pepperoni" 1100, and each description is a proper prefix of the next and each cost strictly greater than the one before |
| PizzaShop.ShopDescriptions | decoratorpattern/PizzaShop.java:10-19 | after cheese, olives and pepperoni are wrapped in turn, the descriptions are exactly "Plain Pizza, Cheese", "Plain Pizza, Cheese, Olives" and "Plain Pizza, Cheese, Olives, Pepperoni" |
| PizzaShop.AnyWrappingOrder | decoratorpattern/PizzaShop.java:10-18 | any chain of one cheese, one olives and one pepperoni layer costs 1100 cents in whatever order they were wrapped, and it has the shop's final description only if it was wrapped in the shop's order |

## Left out

- Console output: `System.out.println` and the rendering of a `double` as text (`5.0`, `8.5`) are not modelled; each printed line is a report holding the description and the cost in cents.
- Floating point: costs are integer cents; every amount in the chain is an exact binary fraction, so no rounding can occur in the source for these chains.
- `ToppingDecorator` and the decorator example's `Pizza` interface are not separate types here; their role (hold the wrapped pizza, declare `getDescription` and `getCost`) is taken by the `Pizza` datatype.
- Open extension and null: the datatype is closed over the four classes shown, so a decorator built around `null` (which throws `NullPointerException` when asked for its description or cost) or around some other implementation of the `Pizza` interface is not modelled; the "starts with Plain Pizza" and "at least 500 cents" guarantees of `Description` and `Cost` hold for chains built from these four classes only.
- The Strategy example (`Vehicle`, `Passenger`, `Sports`, `OffloadVehicle`): `Vehicle.drive()` (`StrategyDesignPattern/WithStrategyPattern/Vehicle.java:13-15`) returns nothing and only delegates to the stored strategy object, whose classes are not part of this model; there is no computed result to state properties about.
- The Factory-Method `Pizza` interface: four `void` methods with no implementation, so no behaviour to model.
