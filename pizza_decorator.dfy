/** Pizza descriptions built by decorators: each topping wraps another
    pizza and extends that pizza's description. */
module PizzaDecorator {

  datatype Pizza =
    | MargheritaPizza
    | HawaiianPizza
    | PepperoniPizza
    | Toppings(pizza: Pizza)
    | MushroomToppings(pizza: Pizza)
    | ExtraCheese(pizza: Pizza)

  predicate IsDecorator(p: Pizza)
  {
    p.Toppings? || p.MushroomToppings? || p.ExtraCheese?
  }

  /** Pizza::description, dispatched on the concrete class. */
  function Description(p: Pizza): string
  {
    match p
    case MargheritaPizza => "Margherita Pizza"
    case HawaiianPizza => "Hawaiian Pizza"
    case PepperoniPizza => "Pepperoni Pizza"
    case Toppings(inner) => Description(inner)
    case MushroomToppings(inner) => Description(inner) + " with mushroom toppings"
    case ExtraCheese(inner) => Description(inner) + " with extra cheese"
  }

  /** The text a decorator adds after the description it wraps. */
  function Suffix(p: Pizza): string
    requires IsDecorator(p)
  {
    match p
    case Toppings(_) => ""
    case MushroomToppings(_) => " with mushroom toppings"
    case ExtraCheese(_) => " with extra cheese"
  }

  /** The three plain pizzas. */
  lemma BaseDescriptions()
    ensures Description(MargheritaPizza) == "Margherita Pizza"
    ensures Description(HawaiianPizza) == "Hawaiian Pizza"
    ensures Description(PepperoniPizza) == "Pepperoni Pizza"
  {
  }

  /** A decorator keeps the wrapped description and adds its own suffix:
      none for Toppings, one each for MushroomToppings and ExtraCheese. */
  lemma DecoratorAppendsSuffix(p: Pizza)
    requires IsDecorator(p)
    ensures Description(p) == Description(p.pizza) + Suffix(p)
    ensures p.Toppings? ==> Description(p) == Description(p.pizza)
  {
  }

  /** `outer` wraps `inner`, directly or through further decorators. */
  predicate Wraps(outer: Pizza, inner: Pizza)
    decreases outer
  {
    IsDecorator(outer) && (outer.pizza == inner || Wraps(outer.pizza, inner))
  }

  /** Decoration only extends: any pizza wrapped, at any depth, has a
      description that begins the outer one. */
  lemma {:induction false} WrappedDescriptionIsPrefix(outer: Pizza, inner: Pizza)
    requires Wraps(outer, inner)
    ensures Description(inner) <= Description(outer)
    decreases outer
  {
    DecoratorAppendsSuffix(outer);
    if outer.pizza != inner {
      WrappedDescriptionIsPrefix(outer.pizza, inner);
    }
  }

  /** The plain pizza at the bottom of a stack of decorators. */
  function BasePizza(p: Pizza): (b: Pizza)
    ensures !IsDecorator(b)
    ensures b == p || Wraps(p, b)
    decreases p
  {
    if IsDecorator(p) then BasePizza(p.pizza) else p
  }

  /** Every description begins with the name of its plain pizza. */
  lemma BaseNameIsPrefix(p: Pizza)
    ensures Description(BasePizza(p)) <= Description(p)
  {
    if BasePizza(p) != p {
      WrappedDescriptionIsPrefix(p, BasePizza(p));
    }
  }

  /** The decorated pizzas of the program's main, one lemma each. */
  lemma MushroomPepperoniScenario()
    ensures Description(MushroomToppings(PepperoniPizza)) == "Pepperoni Pizza with mushroom toppings"
  {
    assert Description(PepperoniPizza) == "Pepperoni Pizza";
  }

  lemma CheeseHawaiianScenario()
    ensures Description(ExtraCheese(HawaiianPizza)) == "Hawaiian Pizza with extra cheese"
  {
    assert Description(HawaiianPizza) == "Hawaiian Pizza";
  }

  lemma CheeseMushroomPepperoniScenario()
    ensures Description(ExtraCheese(MushroomToppings(PepperoniPizza)))
              == "Pepperoni Pizza with mushroom toppings with extra cheese"
  {
    MushroomPepperoniScenario();
    assert Description(ExtraCheese(MushroomToppings(PepperoniPizza)))
             == "Pepperoni Pizza with mushroom toppings" + " with extra cheese";
  }
}
