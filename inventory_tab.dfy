/** The admin inventory screen (src/components/admin/InventoryTab.tsx). Its
    stock figures are simulated on load; the random draws are parameters. */
module InventoryTab {
  import opened Seqs
  import opened Catalog

  /** An inventory row: the product with the simulated stock, the fixed
      threshold and the simulated inquiry count (InventoryTab.tsx:6-10). */
  datatype InventoryItem = InventoryItem(product: Product, stockQuantity: int, lowStockThreshold: int, totalInquiries: int)

  const LowStockThreshold := 10

  /** The rows built on load (InventoryTab.tsx:35-40): `stocks[i]` and
      `inquiries[i]` are the random draws for product `i`. */
  function SimulatedInventory(products: seq<Product>, stocks: seq<int>, inquiries: seq<int>): (r: seq<InventoryItem>)
    requires |stocks| == |products| && |inquiries| == |products|
    ensures |r| == |products|
    ensures forall i :: 0 <= i < |r| ==>
      r[i].product == products[i] && r[i].stockQuantity == stocks[i]
      && r[i].lowStockThreshold == LowStockThreshold && r[i].totalInquiries == inquiries[i]
  {
    seq(|products|, i requires 0 <= i < |products| =>
      InventoryItem(products[i], stocks[i], LowStockThreshold, inquiries[i]))
  }

  datatype StockStatus = OutOfStock | LowStock | InStock

  /** `getStockStatus` (InventoryTab.tsx:61-69). */
  function StatusOf(item: InventoryItem): (r: StockStatus)
    ensures r == OutOfStock <==> item.stockQuantity == 0
    ensures r == LowStock <==> item.stockQuantity != 0 && item.stockQuantity <= item.lowStockThreshold
    ensures r == InStock <==> item.stockQuantity > item.lowStockThreshold && item.stockQuantity != 0
  {
    if item.stockQuantity == 0 then OutOfStock
    else if item.stockQuantity <= item.lowStockThreshold then LowStock
    else InStock
  }

  predicate IsLow(item: InventoryItem)
  {
    item.stockQuantity <= item.lowStockThreshold && item.stockQuantity > 0
  }

  predicate IsOut(item: InventoryItem)
  {
    item.stockQuantity == 0
  }

  /** For a stock that is not negative, the low-stock filter and the
      low-stock label agree. */
  lemma LowFilterMatchesStatus(item: InventoryItem)
    requires item.stockQuantity >= 0
    ensures IsLow(item) <==> StatusOf(item) == LowStock
    ensures IsOut(item) <==> StatusOf(item) == OutOfStock
  {
  }

  datatype InventoryFilter = All | LowStockOnly | OutOfStockOnly

  /** `filteredInventory` (InventoryTab.tsx:50-59). */
  function FilteredInventory(inventory: seq<InventoryItem>, f: InventoryFilter): (r: seq<InventoryItem>)
    ensures f == All ==> r == inventory
    ensures f == LowStockOnly ==> forall x :: x in r <==> x in inventory && IsLow(x)
    ensures f == OutOfStockOnly ==> forall x :: x in r <==> x in inventory && IsOut(x)
    ensures IsSubsequence(r, inventory)
    ensures f == LowStockOnly ==> |r| == Count(inventory, IsLow)
    ensures f == OutOfStockOnly ==> |r| == Count(inventory, IsOut)
  {
    match f
    case All => SubsequenceRefl(inventory); inventory
    case LowStockOnly => FilterLength(inventory, IsLow); Filter(inventory, IsLow)
    case OutOfStockOnly => FilterLength(inventory, IsOut); Filter(inventory, IsOut)
  }

  /** `lowStockItems` (InventoryTab.tsx:72): the header card counts with a
      test of its own, written out again beside the list filter. */
  function LowStockItems(inventory: seq<InventoryItem>): nat
  {
    Count(inventory, (x: InventoryItem) => x.stockQuantity <= x.lowStockThreshold && x.stockQuantity > 0)
  }

  /** `outOfStockItems` (InventoryTab.tsx:73). */
  function OutOfStockItems(inventory: seq<InventoryItem>): nat
  {
    Count(inventory, (x: InventoryItem) => x.stockQuantity == 0)
  }

  predicate IsAboveThreshold(item: InventoryItem)
  {
    item.stockQuantity > item.lowStockThreshold
  }

  /** The numbers on the two header cards are the lengths of the lists the
      matching filter shows: both places test the same condition. */
  lemma CountsAreFilterSizes(inventory: seq<InventoryItem>)
    ensures LowStockItems(inventory) == |FilteredInventory(inventory, LowStockOnly)|
    ensures OutOfStockItems(inventory) == |FilteredInventory(inventory, OutOfStockOnly)|
  {
    FilterLength(inventory, IsLow);
    FilterLength(inventory, IsOut);
    CountSame(inventory, IsLow, (x: InventoryItem) => x.stockQuantity <= x.lowStockThreshold && x.stockQuantity > 0);
    CountSame(inventory, IsOut, (x: InventoryItem) => x.stockQuantity == 0);
  }

  /** With no negative stock and thresholds that are not negative, every row
      is counted once: low, out, or above the threshold. */
  lemma {:induction false} CountsSplitInventory(inventory: seq<InventoryItem>)
    requires forall x :: x in inventory ==> x.stockQuantity >= 0 && x.lowStockThreshold >= 0
    ensures LowStockItems(inventory) + OutOfStockItems(inventory) + |Filter(inventory, IsAboveThreshold)| == |inventory|
  {
    CountsAreFilterSizes(inventory);
    FilterLength(inventory, IsLow);
    FilterLength(inventory, IsOut);
    FilterLength(inventory, IsAboveThreshold);
    CountThreeWays(inventory);
  }

  lemma {:induction false} CountThreeWays(inventory: seq<InventoryItem>)
    requires forall x :: x in inventory ==> x.stockQuantity >= 0 && x.lowStockThreshold >= 0
    ensures Count(inventory, IsLow) + Count(inventory, IsOut) + Count(inventory, IsAboveThreshold) == |inventory|
  {
    if inventory != [] {
      assert inventory[0] in inventory;
      assert forall x :: x in inventory[1..] ==> x in inventory;
      CountThreeWays(inventory[1..]);
    }
  }

  /** Simulated stock is drawn from 1 to 100, so nothing is ever out of
      stock on this screen. */
  lemma SimulatedNeverOut(products: seq<Product>, stocks: seq<int>, inquiries: seq<int>)
    requires |stocks| == |products| && |inquiries| == |products|
    requires forall i :: 0 <= i < |stocks| ==> 1 <= stocks[i] <= 100
    ensures OutOfStockItems(SimulatedInventory(products, stocks, inquiries)) == 0
    ensures forall x :: x in SimulatedInventory(products, stocks, inquiries) ==> StatusOf(x) != OutOfStock
  {
    CountNone(SimulatedInventory(products, stocks, inquiries), (x: InventoryItem) => x.stockQuantity == 0);
  }

  /** `totalValue` (InventoryTab.tsx:71). */
  function TotalValue(inventory: seq<InventoryItem>): (v: int)
    ensures (forall x :: x in inventory ==> x.product.price >= 0 && x.stockQuantity >= 0) ==> v >= 0
  {
    if inventory == [] then 0
    else
      assert forall x :: x in inventory[1..] ==> x in inventory;
      inventory[0].product.price * inventory[0].stockQuantity + TotalValue(inventory[1..])
  }

  /** The total grows by each added row's value. */
  lemma {:induction false} TotalValueAppend(inventory: seq<InventoryItem>, x: InventoryItem)
    ensures TotalValue(inventory + [x]) == TotalValue(inventory) + x.product.price * x.stockQuantity
  {
    if inventory != [] {
      assert (inventory + [x])[1..] == inventory[1..] + [x];
      TotalValueAppend(inventory[1..], x);
    }
  }
}
