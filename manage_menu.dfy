/** The Manage Menu screen: an operator picks a course, then a dish of that
    course, and appends the dish to a managed list; entries can be removed by id. */
module ManageMenu {
  import opened Seqs
  import opened Dishes

  const FriedPotato := Dish("1", "Fried Potato", "Crispy fried potatoes", 150, "Starters")
  const RolledBread := Dish("2", "Rolled Bread with Baked Beans", "Fresh bread rolls served with baked beans", 300, "Starters")
  const Spaghetti := Dish("3", "Spaghetti", "Delicious spaghetti with tomato sauce", 750, "Mains")
  const PapCabbageChicken := Dish("4", "Pap, Cabbage, and Chicken", "Traditional dish with pap, cabbage, and grilled chicken", 1500, "Mains")
  const ChocolateIceCream := Dish("5", "Chocolate Ice Cream", "Rich chocolate ice cream", 850, "Desserts")
  const ChocolateCake := Dish("6", "Chocolate Cake", "Decadent chocolate cake", 600, "Desserts")

  /** The static catalog the pickers offer. */
  const CoursesData: seq<CourseGroup> := [
    CourseGroup("Starters", [FriedPotato, RolledBread]),
    CourseGroup("Mains", [Spaghetti, PapCabbageChicken]),
    CourseGroup("Desserts", [ChocolateIceCream, ChocolateCake])
  ]

  /** The filter predicate of `removeItem`: the entry's id differs from `id`. */
  function OtherId(id: string): Dish -> bool
  {
    (d: Dish) => d.id != id
  }

  /** Every entry whose id differs from `id`, in their original order. */
  function RemoveById(items: seq<Dish>, id: string): (r: seq<Dish>)
    ensures |r| <= |items|
    ensures forall k :: 0 <= k < |r| ==> r[k].id != id
  {
    Filter(items, OtherId(id))
  }

  /** Removal drops every copy of the id, keeps every other entry with its
      multiplicity, and keeps the survivors in their original relative order. */
  lemma RemoveByIdSpec(items: seq<Dish>, id: string)
    ensures forall d :: d in RemoveById(items, id) ==> d.id != id
    ensures forall d: Dish :: d.id != id ==> multiset(RemoveById(items, id))[d] == multiset(items)[d]
    ensures SubseqOf(RemoveById(items, id), items)
  {
    forall d: Dish | d.id != id
      ensures multiset(RemoveById(items, id))[d] == multiset(items)[d]
    {
      FilterCount(items, OtherId(id), d);
    }
    FilterIsSubseq(items, OtherId(id));
  }

  /** Removing an id that no entry carries changes nothing; in particular a
      second removal of the same id is a no-op. */
  lemma RemoveByIdAbsent(items: seq<Dish>, id: string)
    requires forall k :: 0 <= k < |items| ==> items[k].id != id
    ensures RemoveById(items, id) == items
  {
    FilterAllPass(items, OtherId(id));
  }

  /** Removal never raises the total. */
  lemma RemoveByIdTotal(items: seq<Dish>, id: string)
    ensures SumPrices(RemoveById(items, id)) <= SumPrices(items)
  {
    SumPricesFilterBound(items, OtherId(id));
  }

  /** Every dish offered under a course of the catalog belongs to that course. */
  lemma AvailableDishesMatchCourse(name: string)
    ensures forall d :: d in DishesOfCourse(CoursesData, name) ==> d.course == name
  {
    var r := DishesOfCourse(CoursesData, name);
    if name == "Starters" {
      assert r == CoursesData[0].data;
    } else if name == "Mains" {
      assert CoursesData[0].course != name;
      assert r == CoursesData[1].data;
    } else if name == "Desserts" {
      assert CoursesData[0].course != name && CoursesData[1].course != name;
      assert r == CoursesData[2].data;
    } else {
      assert forall i :: 0 <= i < |CoursesData| ==> CoursesData[i].course != name;
    }
  }

  /** The screen's component state. */
  class MenuComposer {
    var menuItems: seq<Dish>
    var selectedCourse: string
    var selectedDish: Option<Dish>

    /** A pending dish is always one the dish picker offers for the selected
        course: the picker lists only those, and a course change clears it. */
    ghost predicate Valid()
      reads this
    {
      selectedDish.Some? ==> selectedDish.value in GetAvailableDishes()
    }

    /** Initial state: nothing added, "Starters" selected, no pending dish. */
    constructor ()
      ensures Valid()
      ensures menuItems == [] && selectedCourse == "Starters" && selectedDish == None
      ensures !AddEnabled() && CalculateTotal() == 0
    {
      menuItems := [];
      selectedCourse := "Starters";
      selectedDish := None;
    }

    /** The "Add Item" button is enabled exactly when a dish is pending. */
    predicate AddEnabled()
      reads this
    {
      selectedDish.Some?
    }

    /** Appends the pending dish, if any, and clears it; the appended dish is
        of the selected course. */
    method AddItem()
      requires Valid()
      modifies this
      ensures Valid()
      ensures old(selectedDish).Some? ==> old(selectedDish).value.course == selectedCourse
      ensures old(selectedDish).Some? ==> menuItems == old(menuItems) + [old(selectedDish).value]
      ensures old(selectedDish).Some? ==> CalculateTotal() == old(CalculateTotal()) + old(selectedDish).value.price
      ensures old(selectedDish).None? ==> menuItems == old(menuItems)
      ensures selectedDish == None
      ensures selectedCourse == old(selectedCourse)
    {
      if selectedDish.Some? {
        AvailableDishesMatchCourse(selectedCourse);
        SumPricesAppend(menuItems, selectedDish.value);
        menuItems := menuItems + [selectedDish.value];
        selectedDish := None;
      }
    }

    /** Removes every entry with the given id; the pickers are untouched. */
    method RemoveItem(id: string)
      requires Valid()
      modifies this
      ensures Valid()
      ensures menuItems == RemoveById(old(menuItems), id)
      ensures CalculateTotal() <= old(CalculateTotal())
      ensures selectedCourse == old(selectedCourse) && selectedDish == old(selectedDish)
    {
      RemoveByIdTotal(menuItems, id);
      menuItems := RemoveById(menuItems, id);
    }

    /** Selects a course and resets the pending dish. */
    method SelectCourse(course: string)
      requires Valid()
      modifies this
      ensures Valid()
      ensures selectedCourse == course && selectedDish == None
      ensures menuItems == old(menuItems)
    {
      selectedCourse := course;
      selectedDish := None;
    }

    /** Makes `dish`, one of the dishes the picker offers, the pending dish. */
    method SelectDish(dish: Dish)
      requires Valid() && dish in GetAvailableDishes()
      modifies this
      ensures Valid()
      ensures selectedDish == Some(dish) && AddEnabled() && dish.course == selectedCourse
      ensures selectedCourse == old(selectedCourse) && menuItems == old(menuItems)
    {
      AvailableDishesMatchCourse(selectedCourse);
      selectedDish := Some(dish);
    }

    /** Total of the managed list, recomputed from its entries. */
    function CalculateTotal(): (total: nat)
      reads this
    {
      SumPrices(menuItems)
    }

    /** The dishes the dish picker offers for the selected course. */
    function GetAvailableDishes(): (dishes: seq<Dish>)
      reads this
    {
      DishesOfCourse(CoursesData, selectedCourse)
    }

    /** The parameters handed to the Payment screen. */
    method GoToPaymentPage() returns (params: Checkout)
      ensures params.cartItems == menuItems
      ensures params.totalPrice == SumPrices(params.cartItems)
    {
      params := Checkout(menuItems, CalculateTotal());
    }
  }

  /** Select "Mains", pick Spaghetti, press Add: the list holds Spaghetti, the
      pending dish is cleared and the course stays "Mains". */
  method ComposeScenario() returns (items: seq<Dish>, course: string, pending: Option<Dish>, total: int)
    ensures items == [Spaghetti] && course == "Mains" && pending == None && total == 750
  {
    var screen := new MenuComposer();
    screen.SelectCourse("Mains");
    assert forall m :: 0 <= m < 1 ==> CoursesData[m].course != "Mains";
    assert CoursesData[1].course == "Mains";
    assert DishesOfCourse(CoursesData, "Mains") == CoursesData[1].data;
    assert screen.GetAvailableDishes() == [Spaghetti, PapCabbageChicken];
    screen.SelectDish(Spaghetti);
    screen.AddItem();
    items, course, pending, total := screen.menuItems, screen.selectedCourse, screen.selectedDish, screen.CalculateTotal();
  }
}
