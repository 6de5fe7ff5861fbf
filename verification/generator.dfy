/**
  The body of the generator's loop: seven random draws become one sales row.
  Each draw is a parameter here: `random.choice(xs)` is an index into xs and
  `random.randint(a, b)` a value in [a, b], both inclusive, as Python draws
  them.
 */
module Generator {
  import opened Calendar
  import opened Sales

  const StartDate: CalendarDate := Date(2023, 1, 1)
  const EndDate: CalendarDate := Date(2024, 12, 31)

  const Categories: seq<string> := ["Электроника", "Одежда", "Книги", "Дом и сад", "Спорт"]

  const Products: map<string, seq<string>> := map[
    "Электроника" := ["Смартфон", "Ноутбук", "Планшет", "Наушники", "Умные часы"],
    "Одежда" := ["Футболка", "Джинсы", "Куртка", "Кроссовки", "Платье"],
    "Книги" := ["Роман", "Учебник", "Детектив", "Фантастика", "Биография"],
    "Дом и сад" := ["Посуда", "Инструменты", "Декор", "Текстиль", "Мебель"],
    "Спорт" := ["Гантели", "Коврик", "Мяч", "Велосипед", "Форма"]
  ]

  const Regions: seq<string> := ["Москва", "СПб", "Новосибирск", "Екатеринбург", "Казань"]

  const CustomerTypes: seq<string> := ["Новый", "Постоянный"]

  const MinPrice: int := 500
  const MaxPrice: int := 100000
  const MinQuantity: int := 1
  const MaxQuantity: int := 10

  /** `(end_date - start_date).days`, the largest day offset drawn. */
  const SpanDays: int := ToOrdinal(EndDate) - ToOrdinal(StartDate)

  /** The draws of one loop iteration, in the order the loop makes them. */
  datatype Draw = Draw(
    categoryPick: int,
    productPick: int,
    dayOffset: int,
    price: int,
    quantity: int,
    regionPick: int,
    customerPick: int)

  /** The values Python's `random` can return for each draw. */
  predicate Possible(d: Draw) {
    && 0 <= d.categoryPick < |Categories|
    && Categories[d.categoryPick] in Products
    && 0 <= d.productPick < |Products[Categories[d.categoryPick]]|
    && 0 <= d.dayOffset <= SpanDays
    && MinPrice <= d.price <= MaxPrice
    && MinQuantity <= d.quantity <= MaxQuantity
    && 0 <= d.regionPick < |Regions|
    && 0 <= d.customerPick < |CustomerTypes|
  }

  /** What every generated row satisfies. */
  predicate WellFormed(r: Record) {
    && r.revenue == r.price * r.quantity
    && MinPrice <= r.price <= MaxPrice
    && MinQuantity <= r.quantity <= MaxQuantity
    && DateLe(StartDate, r.date) && DateLe(r.date, EndDate)
    && r.category in Categories
    && r.category in Products && r.product in Products[r.category]
    && r.region in Regions
    && r.customerType in CustomerTypes
  }

  /** The generation window is 730 days: 2023 has 365 and 2024 has 366. */
  lemma SpanIs730()
    ensures SpanDays == 730
  {
  }

  /** Every listed category has its own product list. */
  lemma EveryCategoryHasProducts()
    ensures forall i :: 0 <= i < |Categories| ==> Categories[i] in Products && |Products[Categories[i]]| == 5
  {
  }

  /** An ordinal between the window's two ends belongs to a date between them. */
  lemma WithinWindow(day: CalendarDate)
    requires ToOrdinal(StartDate) <= ToOrdinal(day) <= ToOrdinal(EndDate)
    ensures DateLe(StartDate, day) && DateLe(day, EndDate)
  {
    OrdinalOrder(StartDate, day);
    OrdinalOrder(day, EndDate);
  }

  /** One iteration of the loop: pick, draw, and store `price * quantity` as revenue. */
  function MakeRecord(d: Draw): (r: Record)
    requires Possible(d)
    ensures WellFormed(r)
    ensures r.price == d.price && r.quantity == d.quantity
    ensures r.category == Categories[d.categoryPick]
    ensures r.product == Products[r.category][d.productPick]
    ensures r.region == Regions[d.regionPick]
    ensures r.customerType == CustomerTypes[d.customerPick]
    ensures ToOrdinal(r.date) == ToOrdinal(StartDate) + d.dayOffset
  {
    var category := Categories[d.categoryPick];
    var product := Products[category][d.productPick];
    OrdinalOrder(EndDate, MaxDate);
    var day := AddDays(StartDate, d.dayOffset);
    WithinWindow(day.value);
    Record(day.value, category, product, d.price, d.quantity, d.price * d.quantity,
      Regions[d.regionPick], CustomerTypes[d.customerPick])
  }

  /** The loop over a sequence of iterations' draws, one row per iteration. */
  function Generate(draws: seq<Draw>): (rows: seq<Record>)
    requires forall i :: 0 <= i < |draws| ==> Possible(draws[i])
    ensures |rows| == |draws|
    ensures forall i :: 0 <= i < |rows| ==> rows[i] == MakeRecord(draws[i])
    ensures forall r :: r in rows ==> WellFormed(r)
  {
    seq(|draws|, i requires 0 <= i < |draws| => MakeRecord(draws[i]))
  }

  /** A generated row earns between 500 and 1,000,000. */
  lemma RevenueBounds(r: Record)
    requires WellFormed(r)
    ensures MinPrice <= r.revenue <= MaxPrice * MaxQuantity
  {
    assert r.price * r.quantity >= r.price * 1;
    assert r.price * r.quantity <= MaxPrice * r.quantity;
  }
}
