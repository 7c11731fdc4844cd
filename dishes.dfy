/** The menu data shared by the screens: dishes, course groups, price sums,
    the course lookup and the payload handed to the Payment screen. */
module Dishes {
  import opened Seqs

  /** A menu entry. Prices are the integer rand amounts of the catalogs. */
  datatype Dish = Dish(id: string, name: string, description: string, price: nat, course: string)

  /** A course heading with the dishes listed under it. */
  datatype CourseGroup = CourseGroup(course: string, data: seq<Dish>)

  /** The `{ cartItems, totalPrice }` parameters passed to the Payment and
      Description screens: a snapshot copied at navigation time. */
  datatype Checkout = Checkout(cartItems: seq<Dish>, totalPrice: int)

  /** Sum of the prices: the screens' left-to-right reduction starting from 0. */
  function SumPrices(items: seq<Dish>): (total: nat)
  {
    if items == [] then 0 else items[0].price + SumPrices(items[1..])
  }

  /** The sum is additive over concatenation. */
  lemma {:induction false} SumPricesConcat(a: seq<Dish>, b: seq<Dish>)
    ensures SumPrices(a + b) == SumPrices(a) + SumPrices(b)
  {
    if a == [] {
      assert a + b == b;
    } else {
      SumPricesConcat(a[1..], b);
      assert (a + b)[1..] == a[1..] + b;
    }
  }

  /** Appending one dish raises the sum by exactly its price. */
  lemma SumPricesAppend(items: seq<Dish>, d: Dish)
    ensures SumPrices(items + [d]) == SumPrices(items) + d.price
  {
    SumPricesConcat(items, [d]);
  }

  /** Whatever a filter removes, the sum of what remains is no larger. */
  lemma {:induction false} SumPricesFilterBound(items: seq<Dish>, p: Dish -> bool)
    ensures SumPrices(Filter(items, p)) <= SumPrices(items)
  {
    if items != [] {
      SumPricesFilterBound(items[1..], p);
      if p(items[0]) {
        assert Filter(items, p)[1..] == Filter(items[1..], p);
      }
    }
  }

  predicate IsCourse(g: CourseGroup, name: string)
  {
    g.course == name
  }

  /** Dishes of the first group whose course is `name`, or the empty list when
      no group has that name (a `find` on the course name, defaulting to empty). */
  function DishesOfCourse(groups: seq<CourseGroup>, name: string): (r: seq<Dish>)
    ensures forall i :: 0 <= i < |groups| && groups[i].course == name &&
                        (forall m :: 0 <= m < i ==> groups[m].course != name) ==>
                          r == groups[i].data
    ensures (forall i :: 0 <= i < |groups| ==> groups[i].course != name) ==> r == []
  {
    var k := FindIndex(groups, g => IsCourse(g, name));
    if k < |groups| then groups[k].data else []
  }
}
