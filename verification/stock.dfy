/**
 * Stock accounting: components consumed by refurbishing batches, per-day
 * production rows and per-product inventory rows.
 */
module Stock {

  datatype StockError = NotEnoughStock(componentName: string)

  datatype Outcome = Pass | Fail(error: StockError)

  datatype Deduction = Deducted(remaining: nat) | Refused

  /**
   * The stock check of a component usage: a usage of `used` units is refused
   * when fewer units are in stock, and otherwise leaves `stock - used`.
   */
  function Deduct(stock: nat, used: nat): (d: Deduction)
    ensures d.Refused? <==> stock < used
    ensures d.Deducted? ==> d.remaining + used == stock
  {
    if stock < used then Refused else Deducted(stock - used)
  }

  /** The stock left after saving usages of the given sizes one after the other. */
  function StockAfterSaves(stock: nat, uses: seq<nat>): (r: nat)
    ensures r <= stock
    ensures (forall k :: 0 <= k < |uses| ==> uses[k] > stock) ==> r == stock
  {
    if uses == [] then stock
    else
      match Deduct(stock, uses[0])
      case Refused => StockAfterSaves(stock, uses[1..])
      case Deducted(rest) => StockAfterSaves(rest, uses[1..])
  }

  /** The usages, among those saved one after the other, that were accepted. */
  function AcceptedUses(stock: nat, uses: seq<nat>): (acc: seq<nat>)
    ensures |acc| <= |uses|
    ensures forall k :: 0 <= k < |acc| ==> acc[k] <= stock && acc[k] in uses
  {
    if uses == [] then []
    else
      match Deduct(stock, uses[0])
      case Refused => AcceptedUses(stock, uses[1..])
      case Deducted(rest) => [uses[0]] + AcceptedUses(rest, uses[1..])
  }

  function Total(s: seq<nat>): nat {
    if s == [] then 0 else s[0] + Total(s[1..])
  }

  /**
   * Over any series of usage saves, the stock drops by exactly the units of
   * the accepted usages and so never goes below zero.
   */
  lemma {:induction false} SavesConserveStock(stock: nat, uses: seq<nat>)
    ensures StockAfterSaves(stock, uses) + Total(AcceptedUses(stock, uses)) == stock
  {
    if uses != [] {
      match Deduct(stock, uses[0])
      case Refused =>
        SavesConserveStock(stock, uses[1..]);
      case Deducted(rest) =>
        SavesConserveStock(rest, uses[1..]);
        assert ([uses[0]] + AcceptedUses(rest, uses[1..]))[1..] == AcceptedUses(rest, uses[1..]);
    }
  }

  /**
   * Two saves of the same quantity in a row, with enough stock, both pass and
   * deduct the quantity twice. ResaveScenario shows this for one usage saved twice.
   */
  lemma ResaveDeductsAgain(stock: nat, used: nat)
    requires 2 * used <= stock
    ensures StockAfterSaves(stock, [used, used]) == stock - 2 * used
    ensures AcceptedUses(stock, [used, used]) == [used, used]
  {
    var once := stock - used;
    assert [used, used][1..] == [used] && [used][1..] == [];
    assert Deduct(stock, used) == Deducted(once) && Deduct(once, used) == Deducted(once - used);
    assert StockAfterSaves(once, [used]) == StockAfterSaves(once - used, []);
    assert AcceptedUses(once, [used]) == [used] + AcceptedUses(once - used, []);
  }

  class Component {
    var name: string
    var stockQuantity: nat

    constructor (name: string, stockQuantity: nat)
      ensures this.name == name && this.stockQuantity == stockQuantity
    {
      this.name := name;
      this.stockQuantity := stockQuantity;
    }
  }

  /** One component consumed by one refurbished batch. */
  class ComponentUsage {
    var component: Component
    var quantityUsed: nat
    var persisted: bool

    constructor (component: Component, quantityUsed: nat)
      ensures this.component == component && this.quantityUsed == quantityUsed
      ensures !persisted
    {
      this.component := component;
      this.quantityUsed := quantityUsed;
      persisted := false;
    }

    /**
     * Saving a usage: refused, with nothing changed, when the component has
     * fewer units in stock than are used; otherwise the component's stock is
     * reduced by the quantity used and then the usage is stored. Every save
     * deducts, including a save of a usage that is already stored.
     */
    method Save() returns (r: Outcome)
      modifies component, this
      ensures component == old(component) && quantityUsed == old(quantityUsed)
      ensures component.name == old(component.name)
      ensures old(component.stockQuantity) < quantityUsed ==>
                r == Fail(NotEnoughStock(component.name)) &&
                component.stockQuantity == old(component.stockQuantity) &&
                persisted == old(persisted)
      ensures old(component.stockQuantity) >= quantityUsed ==>
                r == Pass && persisted &&
                component.stockQuantity == old(component.stockQuantity) - quantityUsed
      ensures Deduct(old(component.stockQuantity), quantityUsed) ==
                if r.Pass? then Deducted(component.stockQuantity) else Refused
    {
      if component.stockQuantity < quantityUsed {
        return Fail(NotEnoughStock(component.name));
      }
      component.stockQuantity := component.stockQuantity - quantityUsed;
      persisted := true;
      r := Pass;
    }
  }

  /** A day's stock movement for a refurbished batch. */
  class DailyProduction {
    var stockIn: nat
    var stockOut: nat
    var currentStock: int

    constructor (stockIn: nat, stockOut: nat)
      ensures this.stockIn == stockIn && this.stockOut == stockOut && currentStock == 0
    {
      this.stockIn := stockIn;
      this.stockOut := stockOut;
      currentStock := 0;
    }

    /**
     * Saving recomputes the row's stock from its own two counts alone: the
     * stock previously stored plays no part, and more out than in gives a
     * negative stock.
     */
    method Save()
      modifies this`currentStock
      ensures currentStock + stockOut == stockIn
      ensures currentStock < 0 <==> stockIn < stockOut
    {
      currentStock := stockIn - stockOut;
    }
  }

  /** The stock level of one product. */
  function InventoryLevel(openingStock: nat, stockIn: nat, stockOut: nat): (level: int)
    ensures level + stockOut == openingStock + stockIn
    ensures level < 0 <==> openingStock + stockIn < stockOut
  {
    openingStock + stockIn - stockOut
  }

  /** One product's stock row. */
  class Inventory {
    var openingStock: nat
    var stockIn: nat
    var stockOut: nat
    var currentStock: int

    constructor (openingStock: nat, stockIn: nat, stockOut: nat)
      ensures this.openingStock == openingStock && this.stockIn == stockIn
      ensures this.stockOut == stockOut && currentStock == 0
    {
      this.openingStock := openingStock;
      this.stockIn := stockIn;
      this.stockOut := stockOut;
      currentStock := 0;
    }

    /** The stored stock agrees with the opening stock and the movements. */
    predicate InSync()
      reads this
    {
      currentStock == InventoryLevel(openingStock, stockIn, stockOut)
    }

    /**
     * Recomputes the stored stock as opening + in - out, with no clamping at
     * zero. Updating a row that is already up to date changes nothing, so a
     * second call has no effect.
     */
    method UpdateStock()
      modifies this`currentStock
      ensures InSync()
      ensures currentStock + stockOut == openingStock + stockIn
      ensures old(InSync()) ==> currentStock == old(currentStock)
    {
      currentStock := InventoryLevel(openingStock, stockIn, stockOut);
    }
  }

  /** A component with 5 units: using 3 leaves 2, and a second use of 3 is refused. */
  method UsageScenario() {
    var ram := new Component("RAM-8GB", 5);
    var first := new ComponentUsage(ram, 3);
    var r1 := first.Save();
    assert r1 == Pass && ram.stockQuantity == 2;
    var second := new ComponentUsage(ram, 3);
    var r2 := second.Save();
    assert r2.Fail? && ram.stockQuantity == 2 && !second.persisted;
  }

  /** Saving one stored usage of 3 units again takes 3 more off: 10 units fall to 7, then 4. */
  method ResaveScenario() {
    var ssd := new Component("SSD-256GB", 10);
    var usage := new ComponentUsage(ssd, 3);
    var r1 := usage.Save();
    assert r1 == Pass && usage.persisted && ssd.stockQuantity == 7;
    var r2 := usage.Save();
    assert r2 == Pass && ssd.stockQuantity == 4;
  }

  /** Out-of-step rows may hold negative stock, and a repeated update is a no-op. */
  method InventoryScenario() {
    var inv := new Inventory(2, 1, 5);
    inv.UpdateStock();
    assert inv.currentStock == -2;
    inv.UpdateStock();
    assert inv.currentStock == -2;
  }
}
