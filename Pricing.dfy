/** The priced order record and the constructor's pricing arithmetic
    (Model/Order.java), over the two read-only lookup tables. */
module Pricing {
  import opened Decimals

  /** Model/Product.java. */
  datatype Product = Product(productType: string, costPerSquareFoot: Decimal, laborCostPerSquareFoot: Decimal)

  /** Model/Tax.java; the rate is a percentage such as 6.25. */
  datatype Tax = Tax(stateAbbreviation: string, stateName: string, taxRate: Decimal)

  type Products = map<string, Product>
  type Taxes = map<string, Tax>

  /** The twelve fields of an order, in declaration order. */
  datatype OrderData = OrderData(
    orderNumber: int,
    customerName: string,
    state: string,
    taxRate: Decimal,
    productType: string,
    area: Decimal,
    costPerSquareFoot: Decimal,
    laborCostPerSquareFoot: Decimal,
    materialCost: Decimal,
    laborCost: Decimal,
    tax: Decimal,
    total: Decimal)

  /** Both lookups the pricing performs succeed. */
  predicate Resolves(state: string, productType: string, products: Products, taxes: Taxes)
  {
    productType in products && state in taxes
  }

  /** The Order constructor: the five given fields stored as passed, the
      rest derived from the product and tax tables. */
  function Priced(orderNumber: int, customerName: string, state: string, productType: string,
                  area: Decimal, products: Products, taxes: Taxes): (o: OrderData)
    requires Resolves(state, productType, products, taxes)
    ensures o.orderNumber == orderNumber && o.customerName == customerName
    ensures o.state == state && o.productType == productType && o.area == area
    // both per-area costs come from the product's material cost
    ensures o.costPerSquareFoot == products[productType].costPerSquareFoot
    ensures o.laborCostPerSquareFoot == products[productType].costPerSquareFoot
    ensures o.taxRate == taxes[state].taxRate
    ensures Value(o.materialCost) == Value(area) * Value(o.costPerSquareFoot)
    ensures Value(o.laborCost) == Value(area) * Value(o.laborCostPerSquareFoot)
    // the raw percentage multiplies, without a division by 100
    ensures Value(o.tax) == (Value(o.materialCost) + Value(o.laborCost)) * Value(o.taxRate)
    ensures Value(o.total) == Value(o.materialCost) + Value(o.laborCost) + Value(o.tax)
  {
    var cost := products[productType].costPerSquareFoot;
    var laborCostPerSquareFoot := products[productType].costPerSquareFoot;
    var materialCost := Multiply(area, cost);
    var laborCost := Multiply(area, laborCostPerSquareFoot);
    var taxRate := taxes[state].taxRate;
    var tax := Multiply(Add(materialCost, laborCost), taxRate);
    var total := Add(Add(materialCost, laborCost), tax);
    OrderData(orderNumber, customerName, state, taxRate, productType, area,
              cost, laborCostPerSquareFoot, materialCost, laborCost, tax, total)
  }

  /** Re-running the constructor's pricing on an order's current number,
      name, state, product and area. */
  function Repriced(o: OrderData, products: Products, taxes: Taxes): OrderData
    requires Resolves(o.state, o.productType, products, taxes)
  {
    Priced(o.orderNumber, o.customerName, o.state, o.productType, o.area, products, taxes)
  }

  /** The derived fields are what the tables give for the stored fields. */
  predicate PricedConsistently(o: OrderData, products: Products, taxes: Taxes)
  {
    Resolves(o.state, o.productType, products, taxes) && o == Repriced(o, products, taxes)
  }

  /** Labour is charged at the material rate, so the two costs coincide,
      whatever the product's labour rate is. */
  lemma LaborCostIsMaterialCost(orderNumber: int, customerName: string, state: string, productType: string,
                                area: Decimal, products: Products, taxes: Taxes)
    requires Resolves(state, productType, products, taxes)
    ensures var o := Priced(orderNumber, customerName, state, productType, area, products, taxes);
            o.laborCostPerSquareFoot == o.costPerSquareFoot && o.laborCost == o.materialCost
  {
  }

  /** Pricing is deterministic: pricing an order again with the same tables
      reproduces it. */
  lemma RepricedIsStable(o: OrderData, products: Products, taxes: Taxes)
    requires Resolves(o.state, o.productType, products, taxes)
    ensures PricedConsistently(Repriced(o, products, taxes), products, taxes)
  {
  }

  lemma {:induction false} ProductNonNegative(x: real, y: real)
    requires x >= 0.0 && y >= 0.0
    ensures x * y >= 0.0
  {
  }

  /** With a non-negative area, cost and rate every derived amount is
      non-negative and the total is at least material plus labour. */
  lemma PricingNonNegative(orderNumber: int, customerName: string, state: string, productType: string,
                           area: Decimal, products: Products, taxes: Taxes)
    requires Resolves(state, productType, products, taxes)
    requires Value(area) >= 0.0
    requires Value(products[productType].costPerSquareFoot) >= 0.0
    requires Value(taxes[state].taxRate) >= 0.0
    ensures var o := Priced(orderNumber, customerName, state, productType, area, products, taxes);
            Value(o.materialCost) >= 0.0 && Value(o.laborCost) >= 0.0 && Value(o.tax) >= 0.0
            && Value(o.total) >= Value(o.materialCost) + Value(o.laborCost)
  {
    var o := Priced(orderNumber, customerName, state, productType, area, products, taxes);
    ProductNonNegative(Value(area), Value(o.costPerSquareFoot));
    ProductNonNegative(Value(o.materialCost) + Value(o.laborCost), Value(o.taxRate));
  }
}
