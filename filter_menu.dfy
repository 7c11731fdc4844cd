/** The Filter Menu screen: a fixed catalog narrowed by an optional course and
    an optional inclusive price ceiling, with the total of what is shown. */
module FilterMenu {
  import opened Seqs
  import opened Dishes

  const Spaghetti := Dish("1", "Spaghetti", "Tomato sauce pasta", 750, "Mains")
  const FriedPotato := Dish("2", "Fried Potato", "Crispy fried potatoes", 150, "Starters")
  const ChocolateCake := Dish("3", "Chocolate Cake", "Rich chocolate cake", 600, "Desserts")
  const RolledBread := Dish("4", "Rolled Bread with Baked Beans", "Fresh bread rolls served with baked beans", 300, "Starters")
  const PapCabbageChicken := Dish("5", "Pap, Cabbage, and Chicken", "Traditional dish with pap, cabbage, and grilled chicken", 1500, "Mains")
  const ChocolateIceCream := Dish("6", "Chocolate Ice Cream", "Rich chocolate ice cream", 850, "Desserts")

  /** The screen's catalog. */
  const Catalog: seq<Dish> := [Spaghetti, FriedPotato, ChocolateCake, RolledBread, PapCabbageChicken, ChocolateIceCream]

  /** The course picker's value that switches the course filter off. */
  const AllCourses := "All"

  /** The price picker's value: "All", or a ceiling in rand. */
  datatype PriceRange = AllPrices | UpTo(limit: nat)

  /** The price picker offers only "All", 200, 500 and 1000. */
  predicate IsPriceOption(r: PriceRange)
  {
    r.AllPrices? || r.limit == 200 || r.limit == 500 || r.limit == 1000
  }

  function InCourse(course: string): Dish -> bool
  {
    (d: Dish) => d.course == course
  }

  function AtMost(limit: nat): Dish -> bool
  {
    (d: Dish) => d.price <= limit
  }

  /** A dish passes the active filters. */
  predicate Matches(d: Dish, course: string, range: PriceRange)
  {
    (course == AllCourses || d.course == course) && (range.AllPrices? || d.price <= range.limit)
  }

  function MatchesFilters(course: string, range: PriceRange): Dish -> bool
  {
    (d: Dish) => Matches(d, course, range)
  }

  /** What the screen lists for a filter state: the course filter when a course
      is chosen, then the price ceiling when one is chosen. */
  function FilteredView(catalog: seq<Dish>, course: string, range: PriceRange): (listed: seq<Dish>)
  {
    var byCourse := if course == AllCourses then catalog else Filter(catalog, InCourse(course));
    if range.AllPrices? then byCourse else Filter(byCourse, AtMost(range.limit))
  }

  /** The two-stage filter is one filter by both active predicates. */
  lemma {:induction false} FilteredViewIsOneFilter(catalog: seq<Dish>, course: string, range: PriceRange)
    ensures FilteredView(catalog, course, range) == Filter(catalog, MatchesFilters(course, range))
  {
    var m := MatchesFilters(course, range);
    if course == AllCourses {
      if range.AllPrices? {
        FilterAllPass(catalog, m);
      } else {
        FilterAgree(catalog, AtMost(range.limit), m);
      }
    } else {
      if range.AllPrices? {
        FilterAgree(catalog, InCourse(course), m);
      } else {
        FilterFuse(catalog, InCourse(course), AtMost(range.limit), m);
      }
    }
  }

  /** With both pickers on "All" the whole catalog is listed in its order. */
  lemma FilteredViewAll(catalog: seq<Dish>)
    ensures FilteredView(catalog, AllCourses, AllPrices) == catalog
  {
  }

  /** Every listed dish is of the chosen course and within the ceiling, which is inclusive. */
  lemma FilteredViewSound(catalog: seq<Dish>, course: string, range: PriceRange)
    ensures course != AllCourses ==> forall d :: d in FilteredView(catalog, course, range) ==> d.course == course
    ensures range.UpTo? ==> forall d :: d in FilteredView(catalog, course, range) ==> d.price <= range.limit
  {
    FilteredViewIsOneFilter(catalog, course, range);
  }

  /** A dish is listed exactly as often as it occurs in the catalog when it
      passes both active filters, and not at all otherwise. */
  lemma FilteredViewCount(catalog: seq<Dish>, course: string, range: PriceRange, d: Dish)
    ensures multiset(FilteredView(catalog, course, range))[d] ==
              if Matches(d, course, range) then multiset(catalog)[d] else 0
    ensures d in FilteredView(catalog, course, range) <==> d in catalog && Matches(d, course, range)
  {
    FilteredViewIsOneFilter(catalog, course, range);
    FilterCount(catalog, MatchesFilters(course, range), d);
    FilterMembership(catalog, MatchesFilters(course, range), d);
  }

  /** A dish priced exactly at the ceiling is kept. */
  lemma PriceCeilingInclusive(catalog: seq<Dish>, course: string, limit: nat, d: Dish)
    requires d in catalog && d.price == limit && (course == AllCourses || d.course == course)
    ensures d in FilteredView(catalog, course, UpTo(limit))
  {
    FilteredViewCount(catalog, course, UpTo(limit), d);
  }

  /** The listed dishes keep their catalog order. */
  lemma FilteredViewIsSubseq(catalog: seq<Dish>, course: string, range: PriceRange)
    ensures SubseqOf(FilteredView(catalog, course, range), catalog)
  {
    FilteredViewIsOneFilter(catalog, course, range);
    FilterIsSubseq(catalog, MatchesFilters(course, range));
  }

  /** Applying the price ceiling before the course filter lists the same dishes. */
  lemma {:induction false} FilteredViewCommutes(catalog: seq<Dish>, course: string, limit: nat)
    requires course != AllCourses
    ensures FilteredView(catalog, course, UpTo(limit)) == Filter(Filter(catalog, AtMost(limit)), InCourse(course))
  {
    FilterCommutes(catalog, InCourse(course), AtMost(limit));
  }

  /** The total of what is listed never exceeds the catalog's total. */
  lemma FilteredViewTotal(catalog: seq<Dish>, course: string, range: PriceRange)
    ensures SumPrices(FilteredView(catalog, course, range)) <= SumPrices(catalog)
  {
    FilteredViewIsOneFilter(catalog, course, range);
    SumPricesFilterBound(catalog, MatchesFilters(course, range));
  }

  /** Choosing "Mains" lists Spaghetti and the chicken dish; adding the R500
      ceiling lists nothing, since both cost more. */
  lemma MainsScenario()
    ensures FilteredView(Catalog, "Mains", AllPrices) == [Spaghetti, PapCabbageChicken]
    ensures FilteredView(Catalog, "Mains", UpTo(500)) == []
  {
    var mains := Filter(Catalog, InCourse("Mains"));
    assert Filter(Catalog[5..], InCourse("Mains")) == [];
    assert Filter(Catalog[4..], InCourse("Mains")) == [PapCabbageChicken];
    assert Filter(Catalog[3..], InCourse("Mains")) == [PapCabbageChicken];
    assert Filter(Catalog[2..], InCourse("Mains")) == [PapCabbageChicken];
    assert Filter(Catalog[1..], InCourse("Mains")) == [PapCabbageChicken];
    assert mains == [Spaghetti, PapCabbageChicken];
    assert Filter(mains[1..], AtMost(500)) == [];
  }

  /** The screen's component state. */
  class FilterScreen {
    var menuItems: seq<Dish>
    var filteredItems: seq<Dish>
    var selectedCourse: string
    var priceRange: PriceRange

    /** The listed dishes are the catalog under the current filter state, and
        the price picker holds one of its options. */
    ghost predicate Valid()
      reads this
    {
      IsPriceOption(priceRange) && filteredItems == FilteredView(menuItems, selectedCourse, priceRange)
    }

    /** Initial state: both pickers on "All", the whole catalog listed. */
    constructor ()
      ensures Valid()
      ensures menuItems == Catalog && filteredItems == Catalog
      ensures selectedCourse == AllCourses && priceRange == AllPrices
    {
      menuItems := Catalog;
      filteredItems := Catalog;
      selectedCourse := AllCourses;
      priceRange := AllPrices;
    }

    /** Recomputes the listed dishes from the catalog and the filter state. */
    method FilterMenu()
      modifies this`filteredItems
      ensures filteredItems == FilteredView(menuItems, selectedCourse, priceRange)
    {
      var filtered := menuItems;
      if selectedCourse != AllCourses {
        filtered := Filter(filtered, InCourse(selectedCourse));
      }
      if priceRange.UpTo? {
        filtered := Filter(filtered, AtMost(priceRange.limit));
      }
      filteredItems := filtered;
    }

    /** The course picker changes; the list is recomputed. */
    method SetSelectedCourse(course: string)
      requires Valid()
      modifies this
      ensures Valid()
      ensures selectedCourse == course
      ensures menuItems == old(menuItems) && priceRange == old(priceRange)
    {
      selectedCourse := course;
      FilterMenu();
    }

    /** The price picker changes to one of its options; the list is recomputed. */
    method SetPriceRange(range: PriceRange)
      requires Valid() && IsPriceOption(range)
      modifies this
      ensures Valid()
      ensures priceRange == range
      ensures menuItems == old(menuItems) && selectedCourse == old(selectedCourse)
    {
      priceRange := range;
      FilterMenu();
    }

    /** Total of the listed dishes. */
    function CalculateTotal(): (total: nat)
      reads this
    {
      SumPrices(filteredItems)
    }

    /** The parameters handed to the Payment screen: the listed dishes and
        their total, which is at most the catalog's total. */
    method GoToPaymentPage() returns (params: Checkout)
      requires Valid()
      ensures params.cartItems == FilteredView(menuItems, selectedCourse, priceRange)
      ensures params.totalPrice == SumPrices(params.cartItems) <= SumPrices(menuItems)
    {
      FilteredViewTotal(menuItems, selectedCourse, priceRange);
      params := Checkout(filteredItems, CalculateTotal());
    }
  }
}
