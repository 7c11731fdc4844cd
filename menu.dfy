/** The Menu screen: the customer browses one course at a time and adds dishes
    to a cart, while a separately stored running total is incremented. */
module Menu {
  import opened Dishes

  // The Menu screen's items carry no course field; the model fills `course`
  // with the name of the group the item is listed under.
  const FriedPotato := Dish("1", "Fried Potato", "Crispy fried potatoes", 150, "Starters")
  const RolledBread := Dish("2", "Rolled Bread with Baked Beans", "Fresh bread rolls served with baked beans", 300, "Starters")
  const Spaghetti := Dish("3", "Spaghetti", "Delicious spaghetti with tomato sauce", 750, "Mains")
  const PapCabbageChicken := Dish("4", "Pap, Cabbage, and Chicken", "Traditional dish with pap, cabbage, and grilled chicken", 1500, "Mains")
  const ChocolateIceCream := Dish("5", "Chocolate Ice Cream", "Rich chocolate ice cream", 850, "Desserts")
  const ChocolateCake := Dish("6", "Chocolate Cake", "Decadent chocolate cake", 600, "Desserts")

  /** The screen's menu, which it never updates. */
  const MenuData: seq<CourseGroup> := [
    CourseGroup("Starters", [FriedPotato, RolledBread]),
    CourseGroup("Mains", [Spaghetti, PapCabbageChicken]),
    CourseGroup("Desserts", [ChocolateIceCream, ChocolateCake])
  ]

  /** The screen's component state. */
  class MenuScreen {
    var cart: seq<Dish>
    var selectedCourse: string
    var totalPrice: int

    /** The running total agrees with the cart it summarises. */
    ghost predicate Valid()
      reads this
    {
      totalPrice == SumPrices(cart)
    }

    /** Initial state: empty cart, total 0, the first group's course selected. */
    constructor ()
      ensures Valid()
      ensures cart == [] && totalPrice == 0
      ensures selectedCourse == MenuData[0].course == "Starters"
      ensures FilteredMenu() == [FriedPotato, RolledBread]
    {
      cart := [];
      totalPrice := 0;
      selectedCourse := MenuData[0].course;
    }

    /** Appends `item` to the cart and adds its price to the running total;
        duplicates become separate entries. */
    method HandleAddToCart(item: Dish)
      requires Valid()
      modifies this
      ensures Valid()
      ensures cart == old(cart) + [item]
      ensures totalPrice == old(totalPrice) + item.price
      ensures selectedCourse == old(selectedCourse)
    {
      SumPricesAppend(cart, item);
      cart := cart + [item];
      totalPrice := totalPrice + item.price;
    }

    /** Switches the displayed course; the cart and total are untouched. */
    method SetSelectedCourse(course: string)
      modifies this
      ensures selectedCourse == course
      ensures cart == old(cart) && totalPrice == old(totalPrice)
    {
      selectedCourse := course;
    }

    /** The dishes listed for the selected course. */
    function FilteredMenu(): (dishes: seq<Dish>)
      reads this
    {
      DishesOfCourse(MenuData, selectedCourse)
    }

    /** The parameters handed to the Payment screen: the cart and the running
        total, which equals the sum of the cart's prices. */
    method ProceedToPayment() returns (params: Checkout)
      requires Valid()
      ensures params.cartItems == cart
      ensures params.totalPrice == SumPrices(params.cartItems)
    {
      params := Checkout(cart, totalPrice);
    }
  }

  /** Adding the same dish twice gives two entries and twice its price. */
  method AddTwiceScenario(item: Dish) returns (cart: seq<Dish>, total: int)
    ensures cart == [item, item] && total == 2 * item.price
  {
    var screen := new MenuScreen();
    screen.HandleAddToCart(item);
    screen.HandleAddToCart(item);
    cart, total := screen.cart, screen.totalPrice;
  }

  /** Starting from the initial screen, any sequence of additions leaves a
      cart equal to the added dishes and a total equal to their sum. */
  method AddAllScenario(items: seq<Dish>) returns (cart: seq<Dish>, total: int)
    ensures cart == items && total == SumPrices(items)
  {
    var screen := new MenuScreen();
    for i := 0 to |items|
      invariant screen.Valid()
      invariant screen.cart == items[..i]
    {
      assert items[..i + 1] == items[..i] + [items[i]];
      screen.HandleAddToCart(items[i]);
    }
    assert items[..|items|] == items;
    cart, total := screen.cart, screen.totalPrice;
  }
}
