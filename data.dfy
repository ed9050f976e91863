/** The records the importer produces and the filter the dashboard keeps
    (src/types/data.ts). Dates are integer timestamps; money amounts are
    whole numbers; a quantity is an int because it comes from parseInt. */
module DataTypes {

  datatype Option<+T> = None | Some(value: T)

  datatype Dealer = Dealer(dealerId: string, dealerName: string, city: string, country: string)

  datatype CarModel = CarModel(
    modelId: string,
    brand: string,
    name: string,
    segment: string,
    engineSize: real,
    fuel: string,
    price: int,
    profit: int)

  datatype Sale = Sale(
    saleId: string,
    date: int,
    dealerId: string,
    modelId: string,
    quantity: int,
    totalPrice: int,
    totalProfit: int)

  datatype DashboardData = DashboardData(dealers: seq<Dealer>, models: seq<CarModel>, sales: seq<Sale>)

  /** Both bounds are inclusive; None is JavaScript's null. */
  datatype DateRange = DateRange(start: Option<int>, end: Option<int>)

  datatype Filters = Filters(
    country: Option<string>,
    city: Option<string>,
    brand: Option<string>,
    model: Option<string>,
    dateRange: DateRange)

  /** JavaScript truthiness of a `string | null` field: null and "" are falsy. */
  predicate IsSet(o: Option<string>) {
    o.Some? && o.value != ""
  }

  /** The measures the dashboard sums, as first-class functions. */
  function Revenue(s: Sale): int { s.totalPrice }
  function Profit(s: Sale): int { s.totalProfit }
  function Units(s: Sale): int { s.quantity }

  /** `d => d.DealerID === id` and `m => m.ModelID === id`, the join keys. */
  function HasDealerId(id: string): Dealer -> bool { (d: Dealer) => d.dealerId == id }
  function HasModelId(id: string): CarModel -> bool { (m: CarModel) => m.modelId == id }
  function DealerIdOf(d: Dealer): string { d.dealerId }
  function ModelIdOf(m: CarModel): string { m.modelId }

  /** The fields the breakdowns group by and the drop-downs list. */
  function CountryKey(d: Dealer): string { d.country }
  function CityKey(d: Dealer): string { d.city }
  function BrandKey(m: CarModel): string { m.brand }
  function NameKey(m: CarModel): string { m.name }
}
