/**
 * The stock overview chart: one bar per product of a fixed list, coloured by
 * how much is left: red below 20, amber below 50, green from 50 up.
 */
module StockChart {
  datatype StockItem = StockItem(product: string, stock: int)

  /** The products and amounts the chart shows. */
  const StockData: seq<StockItem> := [
    StockItem("Bayam Organik", 100),
    StockItem("Sapi Potong", 10),
    StockItem("Apel Malang", 300),
    StockItem("Kambing Etawa", 5),
    StockItem("Bebek Pedaging", 30),
    StockItem("Pisang Cavendish", 400)
  ]

  const Red := "#f87171"
  const Amber := "#fbbf24"
  const Green := "#34d399"

  const LowStock := 20
  const RestockLevel := 50

  /** The colour of a bar: the first band whose upper bound the stock is below. */
  function Colour(stock: int): (c: string)
    ensures c == Red <==> stock < LowStock
    ensures c == Amber <==> LowStock <= stock < RestockLevel
    ensures c == Green <==> RestockLevel <= stock
  {
    if stock < LowStock then Red
    else if stock < RestockLevel then Amber
    else Green
  }

  /** How safe a colour is: 0 for red, 1 for amber, 2 for green. */
  function Safety(c: string): nat {
    if c == Red then 0 else if c == Amber then 1 else 2
  }

  /** More stock never gets a more alarming colour. */
  lemma ColourMonotone(a: int, b: int)
    requires a <= b
    ensures Safety(Colour(a)) <= Safety(Colour(b))
  {
  }

  /** `colors`: one colour per item, in the items' order. */
  function Colours(items: seq<StockItem>): (cs: seq<string>)
    ensures |cs| == |items|
    ensures forall i :: 0 <= i < |items| ==> cs[i] == Colour(items[i].stock)
  {
    if items == [] then [] else [Colour(items[0].stock)] + Colours(items[1..])
  }

  /** `xaxis.categories`: the product names, in order. */
  function Categories(items: seq<StockItem>): (ns: seq<string>)
    ensures |ns| == |items|
    ensures forall i :: 0 <= i < |items| ==> ns[i] == items[i].product
  {
    if items == [] then [] else [items[0].product] + Categories(items[1..])
  }

  /** `series[0].data`: the stock amounts, in order. */
  function Series(items: seq<StockItem>): (xs: seq<int>)
    ensures |xs| == |items|
    ensures forall i :: 0 <= i < |items| ==> xs[i] == items[i].stock
  {
    if items == [] then [] else [items[0].stock] + Series(items[1..])
  }

  /**
   * The three lists line up: bar i is labelled with item i's product, has
   * item i's height, and its colour is the band of that height.
   */
  lemma {:induction false} BarsLineUp(items: seq<StockItem>, i: int)
    requires 0 <= i < |items|
    ensures |Colours(items)| == |Categories(items)| == |Series(items)| == |items|
    ensures Colours(items)[i] == Colour(Series(items)[i])
    ensures Categories(items)[i] == items[i].product
  {
  }

  /** The shipped data: two red bars, one amber, three green. */
  lemma ShippedColours()
    ensures Colours(StockData) == [Green, Red, Green, Red, Amber, Green]
  {
  }
}
