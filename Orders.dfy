/** Model/Order.java: a mutable order whose constructor prices it and whose
    setters each overwrite one field without repricing. */
module Orders {
  import opened Outcomes
  import opened Decimals
  import opened Pricing

  class Order {
    var orderNumber: int
    var customerName: string
    var state: string
    var taxRate: Decimal
    var productType: string
    var area: Decimal
    var costPerSquareFoot: Decimal
    var laborCostPerSquareFoot: Decimal
    var materialCost: Decimal
    var laborCost: Decimal
    var tax: Decimal
    var total: Decimal

    /** The order's twelve fields as a value. */
    function Data(): OrderData
      reads this
    {
      OrderData(orderNumber, customerName, state, taxRate, productType, area,
                costPerSquareFoot, laborCostPerSquareFoot, materialCost, laborCost, tax, total)
    }

    constructor (orderNumber: int, customerName: string, state: string, productType: string,
                 area: Decimal, products: Products, taxes: Taxes)
      requires Resolves(state, productType, products, taxes)
      ensures Data() == Priced(orderNumber, customerName, state, productType, area, products, taxes)
    {
      var o := Priced(orderNumber, customerName, state, productType, area, products, taxes);
      this.orderNumber := orderNumber;
      this.customerName := customerName;
      this.state := state;
      this.productType := productType;
      this.area := area;
      this.costPerSquareFoot := o.costPerSquareFoot;
      this.laborCostPerSquareFoot := o.laborCostPerSquareFoot;
      this.materialCost := o.materialCost;
      this.laborCost := o.laborCost;
      this.taxRate := o.taxRate;
      this.tax := o.tax;
      this.total := o.total;
    }

    /** The repricing step `update` ends with: the constructor's pricing
        re-run on the current number, name, state, product and area. */
    method Reprice(products: Products, taxes: Taxes)
      requires Resolves(state, productType, products, taxes)
      modifies this
      ensures Data() == Repriced(old(Data()), products, taxes)
    {
      var o := Repriced(Data(), products, taxes);
      costPerSquareFoot := o.costPerSquareFoot;
      laborCostPerSquareFoot := o.laborCostPerSquareFoot;
      materialCost := o.materialCost;
      laborCost := o.laborCost;
      taxRate := o.taxRate;
      tax := o.tax;
      total := o.total;
    }

    method SetOrderNumber(orderNumber: int)
      modifies this
      ensures Data() == old(Data()).(orderNumber := orderNumber)
    {
      this.orderNumber := orderNumber;
    }

    method SetCustomerName(customerName: string)
      modifies this
      ensures Data() == old(Data()).(customerName := customerName)
    {
      this.customerName := customerName;
    }

    method SetState(state: string)
      modifies this
      ensures Data() == old(Data()).(state := state)
    {
      this.state := state;
    }

    method SetTaxRate(taxRate: Decimal)
      modifies this
      ensures Data() == old(Data()).(taxRate := taxRate)
    {
      this.taxRate := taxRate;
    }

    method SetProductType(productType: string)
      modifies this
      ensures Data() == old(Data()).(productType := productType)
    {
      this.productType := productType;
    }

    method SetArea(area: Decimal)
      modifies this
      ensures Data() == old(Data()).(area := area)
    {
      this.area := area;
    }

    method SetCostPerSquareFoot(costPerSquareFoot: Decimal)
      modifies this
      ensures Data() == old(Data()).(costPerSquareFoot := costPerSquareFoot)
    {
      this.costPerSquareFoot := costPerSquareFoot;
    }

    method SetLaborCostPerSquareFoot(laborCostPerSquareFoot: Decimal)
      modifies this
      ensures Data() == old(Data()).(laborCostPerSquareFoot := laborCostPerSquareFoot)
    {
      this.laborCostPerSquareFoot := laborCostPerSquareFoot;
    }

    method SetMaterialCost(materialCost: Decimal)
      modifies this
      ensures Data() == old(Data()).(materialCost := materialCost)
    {
      this.materialCost := materialCost;
    }

    method SetLaborCost(laborCost: Decimal)
      modifies this
      ensures Data() == old(Data()).(laborCost := laborCost)
    {
      this.laborCost := laborCost;
    }

    method SetTax(tax: Decimal)
      modifies this
      ensures Data() == old(Data()).(tax := tax)
    {
      this.tax := tax;
    }

    method SetTotal(total: Decimal)
      modifies this
      ensures Data() == old(Data()).(total := total)
    {
      this.total := total;
    }
  }

  /** The values of an order reference; null is None. */
  function DataOrNull(order: Order?): Option<OrderData>
    reads order
  {
    if order == null then None else Some(order.Data())
  }

  /** An outcome carrying an order reference, as values. */
  function ReportedOrder<E>(r: Outcome<Order?, E>): Outcome<Option<OrderData>, E>
    reads if r.Done? && r.value != null then {r.value} else {}
  {
    match r
    case Done(o) => Done(DataOrNull(o))
    case Thrown(e) => Thrown(e)
    case Crashed(k) => Crashed(k)
  }
}
