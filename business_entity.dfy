/** The Business domain entity: a row of the businesses table mapped to domain names,
    with the derived figures the API responses carry. Revenue, counts and years are
    integers; the per-month costs, margins and percentages are rationals. A nullable column is an `Option`. */
module BusinessEntity {
  import opened Wrappers
  import Str
  import Js
  import Seqs

  /** The seven `hours_<day>` columns; `None` is a null column. */
  datatype Hours = Hours(
    monday: Option<string>, tuesday: Option<string>, wednesday: Option<string>,
    thursday: Option<string>, friday: Option<string>, saturday: Option<string>,
    sunday: Option<string>)

  /** The columns of a businesses row that the entity reads. A quarterly percentage that
      is not a JavaScript number (null, missing, or text) is `None`. */
  datatype Record = Record(
    id: string, name: string, industry: Option<string>,
    employees: Option<int>, yearEstablished: Option<int>, revenue: Option<int>,
    city: Option<string>, state: Option<string>, neighborhood: Option<string>,
    hours: Hours,
    avgCustomerSpend: Option<real>, monthlyCustomers: Option<int>,
    customerRating: Option<real>, reviewCount: Option<int>,
    revenuePerEmployee: Option<real>, operatingMargin: Option<real>,
    rentPerMonth: Option<real>, payrollPerMonth: Option<real>, utilitiesPerMonth: Option<real>,
    q1RevenuePct: Option<real>, q2RevenuePct: Option<real>,
    q3RevenuePct: Option<real>, q4RevenuePct: Option<real>)

  datatype CustomerMetrics = CustomerMetrics(
    averageSpend: Option<real>, monthlyCustomers: Option<int>,
    rating: Option<real>, reviewCount: Option<int>)

  datatype FinancialMetrics = FinancialMetrics(
    revenuePerEmployee: Option<real>, operatingMargin: Option<real>,
    monthlyRent: Option<real>, monthlyPayroll: Option<real>, monthlyUtilities: Option<real>)

  datatype Business = Business(
    id: string, name: string, industry: Option<string>,
    employeeCount: Option<int>, yearFounded: Option<int>, revenue: Option<int>,
    city: string, state: string, neighborhood: Option<string>,
    operatingHours: Option<Hours>,
    customerMetrics: CustomerMetrics, financialMetrics: FinancialMetrics,
    revenueGrowthPct: Option<real>)

  /** `record.hours_monday` falsy means the business publishes no hours at all. */
  function ParseOperatingHours(record: Record): Option<Hours> {
    if Js.Filled(record.hours.monday) then Some(record.hours) else None
  }

  function Sum(xs: seq<real>): real
    decreases |xs|
  {
    if xs == [] then 0.0 else Sum(xs[..|xs| - 1]) + xs[|xs| - 1]
  }

  /** The four quarterly percentages, q1 to q4; `None` is a value that is not a number. */
  function Quarters(record: Record): seq<Option<real>> {
    [record.q1RevenuePct, record.q2RevenuePct, record.q3RevenuePct, record.q4RevenuePct]
  }

  predicate IsNumber(q: Option<real>) { q.Some? }

  /** The values of the quarters that are numbers, in order. */
  function Present(qs: seq<Option<real>>): (r: seq<real>)
    ensures |r| <= |qs|
    decreases |qs|
  {
    if qs == [] then [] else (if qs[0].Some? then [qs[0].value] else []) + Present(qs[1..])
  }

  /** The quarterly percentages that are numbers, in quarter order. */
  function NumericQuarters(record: Record): (r: seq<real>)
    ensures |r| <= 4
  {
    Present(Quarters(record))
  }

  /** Keeping the values of the present quarters is `filter(typeof v === 'number')`:
      one value per numeric entry, in the entries' order. */
  lemma {:induction false} PresentIsFilter(qs: seq<Option<real>>)
    ensures var r := Present(qs);
      var kept := Seqs.Where(qs, IsNumber);
      && |r| == |kept|
      && (forall i :: 0 <= i < |r| ==> kept[i] == Some(r[i]))
    decreases |qs|
  {
    if qs != [] {
      PresentIsFilter(qs[1..]);
      var rest := Present(qs[1..]);
      var keptRest := Seqs.Where(qs[1..], IsNumber);
      if qs[0].Some? {
        assert Present(qs) == [qs[0].value] + rest;
        assert Seqs.Where(qs, IsNumber) == [qs[0]] + keptRest;
      } else {
        assert Present(qs) == rest;
        assert Seqs.Where(qs, IsNumber) == keptRest;
      }
    }
  }

  /** The numeric quarters are exactly the quarters that are numbers: one value per
      numeric quarter, in q1..q4 order. */
  lemma NumericQuartersProps(record: Record)
    ensures var r := NumericQuarters(record);
      var kept := Seqs.Where(Quarters(record), IsNumber);
      && |r| == |kept|
      && (forall i :: 0 <= i < |r| ==> kept[i] == Some(r[i]))
  {
    PresentIsFilter(Quarters(record));
  }

  /** `calculateRevenueGrowth`: the mean of the numeric quarters, null when there is none. */
  function RevenueGrowth(record: Record): Option<real> {
    var qs := NumericQuarters(record);
    if |qs| == 0 then None else Some(Sum(qs) / |qs| as real)
  }

  function FromDatabase(record: Record): Business {
    Business(
      record.id, record.name, record.industry,
      record.employees, record.yearEstablished, record.revenue,
      if Js.Filled(record.city) then record.city.value else "Charlotte",
      if Js.Filled(record.state) then record.state.value else "NC",
      record.neighborhood,
      ParseOperatingHours(record),
      CustomerMetrics(record.avgCustomerSpend, record.monthlyCustomers, record.customerRating, record.reviewCount),
      FinancialMetrics(record.revenuePerEmployee, record.operatingMargin,
                       record.rentPerMonth, record.payrollPerMonth, record.utilitiesPerMonth),
      RevenueGrowth(record))
  }

  /** The numeric columns land under their domain names, and a missing or empty city or
      state falls back to Charlotte, NC. */
  lemma FromDatabaseProps(record: Record)
    ensures var b := FromDatabase(record);
      && b.id == record.id && b.name == record.name && b.industry == record.industry
      && b.employeeCount == record.employees && b.yearFounded == record.yearEstablished
      && b.revenue == record.revenue && b.neighborhood == record.neighborhood
      && (b.city == "Charlotte" <==> !Js.Filled(record.city) || record.city.value == "Charlotte")
      && (Js.Filled(record.city) ==> b.city == record.city.value)
      && (b.state == "NC" <==> !Js.Filled(record.state) || record.state.value == "NC")
      && (Js.Filled(record.state) ==> b.state == record.state.value)
      && b.city != "" && b.state != ""
  {
  }

  /** The entity has operating hours exactly when hours_monday is set and not empty, and
      they are then the row's seven hours columns unchanged. */
  lemma OperatingHoursIff(record: Record)
    ensures FromDatabase(record).operatingHours.None? <==> !Js.Filled(record.hours.monday)
    ensures FromDatabase(record).operatingHours.Some? ==> FromDatabase(record).operatingHours.value == record.hours
  {
  }

  /** The day's entry for a lower-cased day name; `Undefined` for any other name. */
  function DayEntry(h: Hours, day: string): Js.Value {
    var e: Option<Option<string>> :=
      if day == "monday" then Some(h.monday)
      else if day == "tuesday" then Some(h.tuesday)
      else if day == "wednesday" then Some(h.wednesday)
      else if day == "thursday" then Some(h.thursday)
      else if day == "friday" then Some(h.friday)
      else if day == "saturday" then Some(h.saturday)
      else if day == "sunday" then Some(h.sunday)
      else None;
    match e
    case None => Js.Undefined
    case Some(None) => Js.Null
    case Some(Some(s)) => Js.Text(s)
  }

  /** `isOpenOn(day)`: `hours !== null && hours !== 'Closed'` for the lower-cased day. */
  function IsOpenOn(b: Business, day: string): bool {
    if b.operatingHours.None? then false
    else
      var hours := DayEntry(b.operatingHours.value, Str.Lower(day));
      hours != Js.Null && hours != Js.Text("Closed")
  }

  predicate IsDayName(d: string) {
    d in ["monday", "tuesday", "wednesday", "thursday", "friday", "saturday", "sunday"]
  }

  /** A day's hours column set and not "Closed". */
  predicate Open(hours: Option<string>) { hours.Some? && hours.value != "Closed" }

  lemma LowerLower(s: string)
    ensures Str.Lower(Str.Lower(s)) == Str.Lower(s)
  {
  }

  /** A business without hours is never open. With hours, a named day is open unless its
      entry is null or "Closed"; any other day name reads as undefined and so counts as
      open. The day name is compared case-insensitively. */
  lemma IsOpenOnProps(b: Business, day: string)
    ensures b.operatingHours.None? ==> !IsOpenOn(b, day)
    ensures b.operatingHours.Some? && !IsDayName(Str.Lower(day)) ==> IsOpenOn(b, day)
    ensures b.operatingHours.Some? && Str.Lower(day) == "monday" ==> (IsOpenOn(b, day) <==> Open(b.operatingHours.value.monday))
    ensures b.operatingHours.Some? && Str.Lower(day) == "tuesday" ==> (IsOpenOn(b, day) <==> Open(b.operatingHours.value.tuesday))
    ensures b.operatingHours.Some? && Str.Lower(day) == "wednesday" ==> (IsOpenOn(b, day) <==> Open(b.operatingHours.value.wednesday))
    ensures b.operatingHours.Some? && Str.Lower(day) == "thursday" ==> (IsOpenOn(b, day) <==> Open(b.operatingHours.value.thursday))
    ensures b.operatingHours.Some? && Str.Lower(day) == "friday" ==> (IsOpenOn(b, day) <==> Open(b.operatingHours.value.friday))
    ensures b.operatingHours.Some? && Str.Lower(day) == "saturday" ==> (IsOpenOn(b, day) <==> Open(b.operatingHours.value.saturday))
    ensures b.operatingHours.Some? && Str.Lower(day) == "sunday" ==> (IsOpenOn(b, day) <==> Open(b.operatingHours.value.sunday))
    ensures IsOpenOn(b, Str.Lower(day)) == IsOpenOn(b, day)
  {
    LowerLower(day);
  }

  /** `getAgeInYears`, with the current year as a parameter: null exactly when the
      founding year is null or 0, and otherwise the years that add back to the current one. */
  function AgeInYears(b: Business, currentYear: int): (r: Option<int>)
    ensures r.None? <==> b.yearFounded.None? || b.yearFounded.value == 0
    ensures r.Some? ==> b.yearFounded.value + r.value == currentYear
  {
    if !Js.Nonzero(b.yearFounded) then None else Some(currentYear - b.yearFounded.value)
  }

  /** `getEmployeeSizeCategory`: "Unknown" for a null or 0 head count, then four bands
      split at 10, 50 and 250; each category holds exactly its band. */
  function SizeCategory(employeeCount: Option<int>): (c: string)
    ensures c in {"Unknown", "Micro", "Small", "Medium", "Large"}
    ensures c == "Unknown" <==> employeeCount.None? || employeeCount.value == 0
    ensures c == "Micro" <==> employeeCount.Some? && employeeCount.value != 0 && employeeCount.value < 10
    ensures c == "Small" <==> employeeCount.Some? && 10 <= employeeCount.value < 50
    ensures c == "Medium" <==> employeeCount.Some? && 50 <= employeeCount.value < 250
    ensures c == "Large" <==> employeeCount.Some? && 250 <= employeeCount.value
  {
    if !Js.Nonzero(employeeCount) then "Unknown"
    else if employeeCount.value < 10 then "Micro"
    else if employeeCount.value < 50 then "Small"
    else if employeeCount.value < 250 then "Medium"
    else "Large"
  }

  /** `getGrossMargin`: the operating margin, or null. */
  function GrossMargin(b: Business): Option<real> {
    b.financialMetrics.operatingMargin
  }

  function OrZero(x: Option<real>): real { if x.Some? then x.value else 0.0 }

  function MonthlyCosts(b: Business): real {
    OrZero(b.financialMetrics.monthlyRent) + OrZero(b.financialMetrics.monthlyPayroll)
    + OrZero(b.financialMetrics.monthlyUtilities)
  }

  /** `getNetMargin`: the share of revenue left after twelve months of rent, payroll and
      utilities, in percent; null without a positive revenue. */
  function NetMargin(b: Business): Option<real> {
    if b.revenue.None? then None
    else
      var revenue := b.revenue.value as real;
      var netProfit := revenue - MonthlyCosts(b) * 12.0;
      if revenue > 0.0 then Some(netProfit / revenue * 100.0) else None
  }

  /** The net margin exists exactly for a positive revenue; it is 100 when there are no
      costs and never above 100 when the costs are not negative. Multiplied back by the
      revenue it gives the yearly profit. */
  lemma NetMarginProps(b: Business)
    ensures NetMargin(b).Some? <==> b.revenue.Some? && b.revenue.value > 0
    ensures NetMargin(b).Some? ==>
      NetMargin(b).value * b.revenue.value as real == (b.revenue.value as real - MonthlyCosts(b) * 12.0) * 100.0
    ensures NetMargin(b).Some? && MonthlyCosts(b) == 0.0 ==> NetMargin(b).value == 100.0
    ensures NetMargin(b).Some? && MonthlyCosts(b) >= 0.0 ==> NetMargin(b).value <= 100.0
  {
    if NetMargin(b).Some? {
      var rev := b.revenue.value as real;
      var p := rev - MonthlyCosts(b) * 12.0;
      var m := p / rev;
      assert m * rev == p;
      assert NetMargin(b).value == m * 100.0;
      if MonthlyCosts(b) >= 0.0 {
        QuotientAtMostOne(p, rev);
      }
    }
  }

  lemma QuotientAtMostOne(p: real, d: real)
    requires d > 0.0 && p <= d
    ensures p / d <= 1.0
  {
    assert p / d * d == p;
  }

  lemma {:induction false} SumBounds(xs: seq<real>, lo: real, hi: real)
    requires forall k :: 0 <= k < |xs| ==> lo <= xs[k] <= hi
    ensures lo * |xs| as real <= Sum(xs) <= hi * |xs| as real
    decreases |xs|
  {
    if xs != [] {
      SumBounds(xs[..|xs| - 1], lo, hi);
    }
  }

  /** The revenue growth is null exactly when no quarter is a number, and otherwise lies
      between the smallest and the largest numeric quarter. */
  lemma RevenueGrowthProps(record: Record, lo: real, hi: real)
    ensures RevenueGrowth(record).None? <==>
      record.q1RevenuePct.None? && record.q2RevenuePct.None? && record.q3RevenuePct.None? && record.q4RevenuePct.None?
    ensures RevenueGrowth(record).Some? && (forall k :: 0 <= k < |NumericQuarters(record)| ==> lo <= NumericQuarters(record)[k] <= hi)
      ==> lo <= RevenueGrowth(record).value <= hi
  {
    var qs := NumericQuarters(record);
    var quarters := Quarters(record);
    PresentIsFilter(quarters);
    var kept := Seqs.Where(quarters, IsNumber);
    if kept == [] {
      assert record.q1RevenuePct in quarters && record.q2RevenuePct in quarters;
      assert record.q3RevenuePct in quarters && record.q4RevenuePct in quarters;
    } else {
      assert kept[0] in kept;
    }
    if |qs| > 0 && forall k :: 0 <= k < |qs| ==> lo <= qs[k] <= hi {
      MeanBounds(qs, lo, hi);
    }
  }

  lemma MeanBounds(xs: seq<real>, lo: real, hi: real)
    requires xs != [] && forall k :: 0 <= k < |xs| ==> lo <= xs[k] <= hi
    ensures lo <= Sum(xs) / |xs| as real <= hi
  {
    SumBounds(xs, lo, hi);
    var n := |xs| as real;
    assert Sum(xs) / n * n == Sum(xs);
  }

  /** `x || null` on a nullable number: 0 becomes null as well. */
  function TruthyOrNull(x: Option<real>): (r: Option<real>)
    ensures r.Some? <==> x.Some? && x.value != 0.0
    ensures r.Some? ==> r == x
  {
    if x.Some? && x.value != 0.0 then x else None
  }

  function TruthyOrNullInt(x: Option<int>): (r: Option<int>)
    ensures r.Some? <==> x.Some? && x.value != 0
    ensures r.Some? ==> r == x
  {
    if x.Some? && x.value != 0 then x else None
  }

  /** The API shape of a business. The constant fields (null description, website and
      logo URL, status "active", empty industry metrics) are left out but for status. */
  datatype BusinessJson = BusinessJson(
    id: string, name: string, industry: Option<string>,
    employeeCount: Option<int>, yearFounded: Option<int>, revenue: Option<int>,
    city: string, state: string, neighborhood: Option<string>,
    revenuePerEmployee: Option<real>, operatingMargin: Option<real>,
    grossMargin: Option<real>, netMargin: Option<real>, revenueGrowth: Option<real>,
    rating: Option<real>, reviewCount: Option<int>,
    operatingHours: Option<Hours>,
    monthlyRent: Option<real>, monthlyPayroll: Option<real>, monthlyUtilities: Option<real>,
    headquarters: string, status: string,
    businessAge: Option<int>, employeeSizeCategory: string)

  /** `toJSON`, with the current year as a parameter. */
  function ToJson(b: Business, currentYear: int): BusinessJson {
    var f := b.financialMetrics;
    BusinessJson(
      b.id, b.name, b.industry, b.employeeCount, b.yearFounded, b.revenue,
      b.city, b.state, b.neighborhood,
      TruthyOrNull(f.revenuePerEmployee), TruthyOrNull(f.operatingMargin),
      GrossMargin(b), NetMargin(b), b.revenueGrowthPct,
      TruthyOrNull(b.customerMetrics.rating), TruthyOrNullInt(b.customerMetrics.reviewCount),
      b.operatingHours,
      TruthyOrNull(f.monthlyRent), TruthyOrNull(f.monthlyPayroll), TruthyOrNull(f.monthlyUtilities),
      b.city + ", " + b.state, "active",
      AgeInYears(b, currentYear), SizeCategory(b.employeeCount))
  }

  /** The response keeps the identity and raw figures, formats headquarters as
      "<city>, <state>" (which splits back at the comma when the city has none), and takes
      the age and size category from the entity's own methods. Unlike grossMargin, the
      `||`-defaulted operating margin turns 0 into null. */
  lemma ToJsonProps(b: Business, currentYear: int)
    ensures var j := ToJson(b, currentYear);
      && j.id == b.id && j.employeeCount == b.employeeCount && j.yearFounded == b.yearFounded
      && j.headquarters == b.city + ", " + b.state
      && (',' !in b.city ==> Str.SplitOn(j.headquarters, ',') == [b.city] + Str.SplitOn(" " + b.state, ','))
      && j.businessAge == AgeInYears(b, currentYear)
      && j.employeeSizeCategory == SizeCategory(b.employeeCount)
      && j.status == "active"
      && (b.financialMetrics.operatingMargin == Some(0.0) ==> j.grossMargin == Some(0.0) && j.operatingMargin.None?)
  {
    var j := ToJson(b, currentYear);
    if ',' !in b.city {
      Str.CharIndexAppend(b.city, ',', " " + b.state);
      assert j.headquarters == b.city + [','] + (" " + b.state);
      assert j.headquarters[..|b.city|] == b.city;
      assert j.headquarters[|b.city| + 1..] == " " + b.state;
    }
  }

  /** Building an entity from a row and rendering it: the head count from the employees
      column fixes the size category, and the founding year fixes the age. */
  lemma RoundTripFigures(record: Record, currentYear: int)
    ensures var j := ToJson(FromDatabase(record), currentYear);
      && j.employeeSizeCategory == SizeCategory(record.employees)
      && j.employeeCount == record.employees
      && (j.businessAge.Some? <==> Js.Nonzero(record.yearEstablished))
      && (j.businessAge.Some? ==> j.businessAge.value == currentYear - record.yearEstablished.value)
      && j.revenueGrowth == RevenueGrowth(record)
  {
  }
}
