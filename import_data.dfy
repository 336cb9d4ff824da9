/** The data import of scripts/import-improved-data.mjs: each source business is validated,
    its address upserted when complete, its company row updated or inserted, and its reviews
    replaced in batches of 500. The database's replies are given as `Replies`; every write
    the import makes is recorded as a `Write`, in order. */
module ImportData {
  import opened Wrappers
  import Str
  import Js
  import Seqs

  datatype SourceAddress = SourceAddress(
    line1: Option<string>, line2: Option<string>, city: Option<string>, state: Option<string>,
    zipCode: Option<string>, latitude: Option<real>, longitude: Option<real>)

  datatype SourceReview = SourceReview(
    reviewer: Option<string>, rating: Option<int>, text: Option<string>, comment: Option<string>,
    date: Option<string>)

  /** The fields of a business in the demo data file that the import reads. */
  datatype SourceBusiness = SourceBusiness(
    id: Option<string>, name: Option<string>, industry: Option<string>, cluster: Option<string>,
    businessType: Option<string>, description: Option<string>, neighborhood: Option<string>,
    website: Option<string>, headquarters: Option<string>, address: Option<SourceAddress>,
    yearEstablished: Option<int>, employees: Option<int>, revenue: Option<real>,
    reviewCount: Option<int>, reviews: Option<seq<SourceReview>>)

  /** A row of the addresses table. */
  datatype AddressRow = AddressRow(
    line1: Option<string>, line2: Option<string>, city: Option<string>, state: Option<string>,
    zip_code: Option<string>, latitude: Option<real>, longitude: Option<real>)

  /** A row of the companies table; `reviewCount` is the one of `ext_financials`. */
  datatype CompanyRow = CompanyRow(
    external_id: Option<string>, name: Option<string>, industry: string, sector: string,
    description: string, founded_year: Option<int>, employees_count: Option<int>, revenue: int,
    website: Option<string>, headquarters: string, logo_url: Option<string>, status: string,
    address_id: Option<int>, reviewCount: int)

  /** A row of the reviews table. */
  datatype ReviewRow = ReviewRow(
    company_id: int, reviewer: Option<string>, rating: Option<int>, comment: Option<string>,
    reviewed_at: Option<string>)

  // ---------------------------------------------------------------- validation and transforms

  /** `validateBusiness`: the problems that stop a business from being imported. */
  function ValidateBusiness(b: SourceBusiness): (r: seq<string>)
    ensures |r| <= 2
    ensures "Missing id" in r <==> !Js.Filled(b.id)
    ensures "Missing name" in r <==> !Js.Filled(b.name)
    ensures r == [] <==> Js.Filled(b.id) && Js.Filled(b.name)
    ensures r != [] ==> r[0] == if Js.Filled(b.id) then "Missing name" else "Missing id"
  {
    (if Js.Filled(b.id) then [] else ["Missing id"]) + (if Js.Filled(b.name) then [] else ["Missing name"])
  }

  /** `hasValidAddress`: the address has a line 1, a city and a state. */
  predicate HasValidAddress(b: SourceBusiness) {
    b.address.Some? && Js.Filled(b.address.value.line1) && Js.Filled(b.address.value.city)
    && Js.Filled(b.address.value.state)
  }

  /** `v || null` on an optional text. */
  function OrNull(v: Option<string>): (r: Option<string>)
    ensures r == None || Js.Filled(r)
    ensures Js.Filled(v) ==> r == v
  {
    if Js.Filled(v) then v else None
  }

  /** `v || null` on an optional coordinate. */
  function OrNullCoordinate(v: Option<real>): (r: Option<real>)
    ensures r == None || r.value != 0.0
    ensures v.Some? && v.value != 0.0 ==> r == v
  {
    if v.Some? && v.value != 0.0 then v else None
  }

  /** `transformAddress`. */
  function TransformAddress(a: SourceAddress): AddressRow {
    AddressRow(a.line1, OrNull(a.line2), a.city, a.state, OrNull(a.zipCode),
               OrNullCoordinate(a.latitude), OrNullCoordinate(a.longitude))
  }

  /** The address row keeps line 1, city and state, stores `zipCode` as `zip_code`, and keeps
      no empty text or zero coordinate in its optional columns. */
  lemma TransformAddressProps(a: SourceAddress)
    ensures TransformAddress(a).line1 == a.line1 && TransformAddress(a).city == a.city
      && TransformAddress(a).state == a.state
    ensures Js.Filled(a.zipCode) ==> TransformAddress(a).zip_code == a.zipCode
    ensures !Js.Filled(a.zipCode) ==> TransformAddress(a).zip_code == None
    ensures !Js.Filled(a.line2) ==> TransformAddress(a).line2 == None
    ensures TransformAddress(a).line2 == None || Js.Filled(TransformAddress(a).line2)
    ensures TransformAddress(a).latitude == None || TransformAddress(a).latitude.value != 0.0
    ensures TransformAddress(a).longitude == None || TransformAddress(a).longitude.value != 0.0
  {
  }

  /** Two source addresses that differ only in an empty versus a missing zip code or second
      line give the same row, so the upsert on (line1, city, state, zip_code) sees one key. */
  lemma TransformAddressFalsyAlike(a: SourceAddress, zip: Option<string>, line2: Option<string>)
    requires !Js.Filled(zip) && !Js.Filled(a.zipCode) && !Js.Filled(line2) && !Js.Filled(a.line2)
    ensures TransformAddress(a.(zipCode := zip, line2 := line2)) == TransformAddress(a)
  {
  }

  /** JavaScript's `Math.round`: the nearest integer, halves rounded up. */
  function Round(x: real): (r: int)
    ensures r as real <= x + 0.5 < r as real + 1.0
  {
    (x + 0.5).Floor
  }

  lemma RoundWhole(n: int)
    ensures Round(n as real) == n
  {
  }

  /** A template literal's rendering of an optional text: `undefined` when missing. */
  function Interpolate(v: Option<string>): string {
    if v.Some? then v.value else "undefined"
  }

  function OrText(v: Option<string>, d: string): (r: string)
    ensures Js.Filled(v) ==> r == v.value
    ensures !Js.Filled(v) ==> r == d
  {
    if Js.Filled(v) then v.value else d
  }

  /** `business.address?.city`. */
  function AddressCity(b: SourceBusiness): Option<string> {
    if b.address.Some? then b.address.value.city else None
  }

  function Description(b: SourceBusiness): string {
    if Js.Filled(b.description) then b.description.value
    else OrText(b.businessType, "Business") + " in " + OrText(b.neighborhood, OrText(AddressCity(b), "Charlotte area"))
  }

  function Headquarters(b: SourceBusiness): string {
    if Js.Filled(b.headquarters) then b.headquarters.value
    else if b.address.Some? && Js.Filled(b.address.value.line1) then
      b.address.value.line1.value + ", " + Interpolate(b.address.value.city) + ", " + Interpolate(b.address.value.state)
    else OrText(b.neighborhood, "Charlotte area") + ", NC"
  }

  /** `transformBusiness`: the companies row of a business, linked to `addressId`. */
  function TransformBusiness(b: SourceBusiness, addressId: Option<int>): CompanyRow {
    CompanyRow(
      b.id, b.name, OrText(b.industry, "Other"), OrText(b.cluster, OrText(b.businessType, "Other")),
      Description(b), b.yearEstablished, b.employees, Round(if b.revenue.Some? then b.revenue.value else 0.0),
      OrNull(b.website), Headquarters(b), None, "active", addressId,
      if b.reviewCount.Some? then b.reviewCount.value else 0)
  }

  /** The companies row: the source id as `external_id`, "Other" for a missing industry or
      sector (the cluster, else the business type), the revenue rounded, status "active", and
      a description and headquarters that are never empty, the business's own when present. */
  lemma TransformBusinessProps(b: SourceBusiness, addressId: Option<int>)
    ensures TransformBusiness(b, addressId).external_id == b.id
    ensures TransformBusiness(b, addressId).status == "active"
    ensures TransformBusiness(b, addressId).address_id == addressId
    ensures TransformBusiness(b, addressId).industry == if Js.Filled(b.industry) then b.industry.value else "Other"
    ensures Js.Filled(b.cluster) ==> TransformBusiness(b, addressId).sector == b.cluster.value
    ensures !Js.Filled(b.cluster) && Js.Filled(b.businessType) ==> TransformBusiness(b, addressId).sector == b.businessType.value
    ensures !Js.Filled(b.cluster) && !Js.Filled(b.businessType) ==> TransformBusiness(b, addressId).sector == "Other"
    ensures TransformBusiness(b, addressId).industry != "" && TransformBusiness(b, addressId).sector != ""
    ensures b.revenue.Some? ==>
      TransformBusiness(b, addressId).revenue as real <= b.revenue.value + 0.5 < TransformBusiness(b, addressId).revenue as real + 1.0
    ensures b.revenue.None? ==> TransformBusiness(b, addressId).revenue == 0
    ensures TransformBusiness(b, addressId).description != "" && TransformBusiness(b, addressId).headquarters != ""
    ensures Js.Filled(b.description) ==> TransformBusiness(b, addressId).description == b.description.value
    ensures Js.Filled(b.headquarters) ==> TransformBusiness(b, addressId).headquarters == b.headquarters.value
    ensures TransformBusiness(b, addressId).logo_url == None
    ensures TransformBusiness(b, addressId).reviewCount == if b.reviewCount.Some? then b.reviewCount.value else 0
  {
  }

  /** The calendar date of a review: the text before the first 'T' of its ISO form. */
  function DatePart(date: string): (r: string)
    ensures 'T' !in r && Str.StartsWith(date, r)
  {
    match Str.CharIndex(date, 'T')
    case Some(i) => date[..i]
    case None => date
  }

  function ReviewRowOf(review: SourceReview, companyId: int): ReviewRow {
    ReviewRow(companyId, OrNull(review.reviewer), review.rating,
              if Js.Filled(review.text) then review.text else review.comment,
              if Js.Filled(review.date) then Some(DatePart(review.date.value)) else None)
  }

  /** `transformReviews`: one row per review, in order. */
  function TransformReviews(b: SourceBusiness, companyId: int): (r: seq<ReviewRow>)
    ensures b.reviews.None? ==> r == []
    ensures b.reviews.Some? ==> |r| == |b.reviews.value|
  {
    if b.reviews.None? then []
    else seq(|b.reviews.value|, i requires 0 <= i < |b.reviews.value| => ReviewRowOf(b.reviews.value[i], companyId))
  }

  /** Each row belongs to the company and carries its review's rating, its text (else its
      comment) and the date part of its date. */
  lemma TransformReviewsAt(b: SourceBusiness, companyId: int, i: nat)
    requires b.reviews.Some? && i < |b.reviews.value|
    ensures TransformReviews(b, companyId)[i].company_id == companyId
    ensures TransformReviews(b, companyId)[i].rating == b.reviews.value[i].rating
    ensures TransformReviews(b, companyId)[i].comment ==
      if Js.Filled(b.reviews.value[i].text) then b.reviews.value[i].text else b.reviews.value[i].comment
    ensures Js.Filled(b.reviews.value[i].date) ==>
      TransformReviews(b, companyId)[i].reviewed_at == Some(DatePart(b.reviews.value[i].date.value))
    ensures !Js.Filled(b.reviews.value[i].date) ==> TransformReviews(b, companyId)[i].reviewed_at == None
  {
  }

  // ---------------------------------------------------------------- importing one business

  const REVIEW_BATCH := 500

  datatype Write =
    | UpsertAddress(address: AddressRow)
    | UpdateCompany(id: int, company: CompanyRow)
    | InsertCompany(company: CompanyRow)
    | DeleteReviews(companyId: int)
    | InsertReviews(batch: seq<ReviewRow>)

  /** What the database answers: the upserted address's id, the id of a company already
      holding the business's external id, the id the update or insert returns, and the
      error (if any) an insert of a given batch of reviews reports. */
  datatype Replies = Replies(
    address: Result<int>, existing: Option<int>, save: Result<int>,
    insertError: seq<ReviewRow> -> Option<string>)

  datatype ImportOutcome = Imported(companyId: int, reviewCount: nat) | ImportFailed(error: string)

  /** The batches inserted, in order, until the first one whose insert fails; and that
      failure's message. */
  function InsertRun(batches: seq<seq<ReviewRow>>, insertError: seq<ReviewRow> -> Option<string>)
    : (seq<seq<ReviewRow>>, Option<string>)
    decreases |batches|
  {
    if batches == [] then ([], None)
    else if insertError(batches[0]).Some? then ([batches[0]], insertError(batches[0]))
    else
      var rest := InsertRun(batches[1..], insertError);
      ([batches[0]] + rest.0, rest.1)
  }

  /** The inserts stop at the first failure: every batch is inserted, in order, exactly when
      none fails; otherwise the batches up to the first failing one are, and its error is
      reported. */
  lemma {:induction false} InsertRunProps(batches: seq<seq<ReviewRow>>, insertError: seq<ReviewRow> -> Option<string>)
    ensures InsertRun(batches, insertError).0 <= batches
    ensures InsertRun(batches, insertError).1.None? <==> forall k :: 0 <= k < |batches| ==> insertError(batches[k]).None?
    ensures InsertRun(batches, insertError).1.None? ==> InsertRun(batches, insertError).0 == batches
    ensures InsertRun(batches, insertError).1.Some? ==>
      var done := InsertRun(batches, insertError).0;
      done != [] && InsertRun(batches, insertError).1 == insertError(done[|done| - 1])
      && forall k :: 0 <= k < |done| - 1 ==> insertError(done[k]).None?
    decreases |batches|
  {
    if batches != [] && insertError(batches[0]).None? {
      InsertRunProps(batches[1..], insertError);
      var rest := InsertRun(batches[1..], insertError);
      assert batches == [batches[0]] + batches[1..];
      if rest.1.None? {
        forall k | 0 <= k < |batches| ensures insertError(batches[k]).None? {
          if k > 0 { assert batches[k] == batches[1..][k - 1]; }
        }
      } else {
        var j :| 0 <= j < |batches[1..]| && insertError(batches[1..][j]).Some?;
        assert batches[j + 1] == batches[1..][j];
        var done := [batches[0]] + rest.0;
        forall k | 0 <= k < |done| - 1 ensures insertError(done[k]).None? {
          if k > 0 { assert done[k] == rest.0[k - 1]; }
        }
      }
    }
  }

  lemma {:induction false} InsertRunAfter(done: seq<seq<ReviewRow>>, rest: seq<seq<ReviewRow>>,
                                          insertError: seq<ReviewRow> -> Option<string>)
    requires forall k :: 0 <= k < |done| ==> insertError(done[k]).None?
    ensures InsertRun(done + rest, insertError) == (done + InsertRun(rest, insertError).0, InsertRun(rest, insertError).1)
    decreases |done|
  {
    if done == [] {
      assert done + rest == rest;
      assert done + InsertRun(rest, insertError).0 == InsertRun(rest, insertError).0;
    } else {
      var all := done + rest;
      assert all[0] == done[0];
      assert all[1..] == done[1..] + rest;
      InsertRunAfter(done[1..], rest, insertError);
      var tail := InsertRun(rest, insertError);
      assert InsertRun(all, insertError) == ([done[0]] + InsertRun(all[1..], insertError).0, InsertRun(all[1..], insertError).1);
      assert [done[0]] + (done[1..] + tail.0) == done + tail.0;
    }
  }

  function Inserts(batches: seq<seq<ReviewRow>>): (r: seq<Write>)
    ensures |r| == |batches|
    ensures forall k :: 0 <= k < |batches| ==> r[k] == InsertReviews(batches[k])
  {
    seq(|batches|, k requires 0 <= k < |batches| => InsertReviews(batches[k]))
  }

  /** The outcome of `importBusiness` and the writes it makes before it returns. */
  datatype Attempt = Attempt(outcome: ImportOutcome, writes: seq<Write>)

  /** An attempt preceded by earlier writes. */
  function After(prior: seq<Write>, a: Attempt): Attempt {
    Attempt(a.outcome, prior + a.writes)
  }

  /** Step 3 of `importBusiness`: the company's old reviews are deleted when there are new
      ones, then the new ones are inserted batch by batch until one fails. */
  function ReviewStage(companyId: int, rows: seq<ReviewRow>, r: Replies): Attempt {
    var run := InsertRun(Seqs.Batches(rows, REVIEW_BATCH), r.insertError);
    var writes := (if rows == [] then [] else [DeleteReviews(companyId)]) + Inserts(run.0);
    if run.1.Some? then Attempt(ImportFailed("Reviews batch insert failed: " + run.1.value), writes)
    else Attempt(Imported(companyId, |rows|), writes)
  }

  function AddressIdOf(b: SourceBusiness, r: Replies): Option<int>
    requires HasValidAddress(b) ==> r.address.Ok?
  {
    if HasValidAddress(b) then Some(r.address.value) else None
  }

  /** The update of the existing company, else the insert of a new one. */
  function CompanyWrite(b: SourceBusiness, r: Replies): Write
    requires HasValidAddress(b) ==> r.address.Ok?
  {
    var row := TransformBusiness(b, AddressIdOf(b, r));
    if r.existing.Some? then UpdateCompany(r.existing.value, row) else InsertCompany(row)
  }

  /** Step 2 of `importBusiness` and what follows it. */
  function SaveStage(b: SourceBusiness, r: Replies): Attempt
    requires HasValidAddress(b) ==> r.address.Ok?
  {
    if r.save.Err? then
      Attempt(ImportFailed((if r.existing.Some? then "Company update failed: " else "Company insert failed: ") + r.save.msg),
              [CompanyWrite(b, r)])
    else After([CompanyWrite(b, r)], ReviewStage(r.save.value, TransformReviews(b, r.save.value), r))
  }

  /** `importBusiness` as a function of the business and of the database's replies. */
  function ImportOf(b: SourceBusiness, r: Replies): Attempt {
    var errors := ValidateBusiness(b);
    if errors != [] then Attempt(ImportFailed("Validation failed: " + Str.Join(errors, ", ")), [])
    else if !HasValidAddress(b) then SaveStage(b, r)
    else
      var upsert := [UpsertAddress(TransformAddress(b.address.value))];
      if r.address.Err? then Attempt(ImportFailed("Address upsert failed: " + r.address.msg), upsert)
      else After(upsert, SaveStage(b, r))
  }

  /** The review insert loop of `importBusiness`. */
  method InsertReviewBatches(rows: seq<ReviewRow>, insertError: seq<ReviewRow> -> Option<string>)
    returns (written: seq<seq<ReviewRow>>, error: Option<string>)
    ensures (written, error) == InsertRun(Seqs.Batches(rows, REVIEW_BATCH), insertError)
  {
    written := [];
    error := None;
    var i := 0;
    while i < |rows|
      invariant 0 <= i
      invariant written + Seqs.Batches(rows[Seqs.Min(i, |rows|)..], REVIEW_BATCH) == Seqs.Batches(rows, REVIEW_BATCH)
      invariant forall k :: 0 <= k < |written| ==> insertError(written[k]).None?
      decreases |rows| - i
    {
      assert Seqs.Min(i, |rows|) == i;
      var end := Seqs.Min(i + REVIEW_BATCH, |rows|);
      var batch := rows[i..end];
      Seqs.BatchesStep(rows, REVIEW_BATCH, i, written);
      var reply := insertError(batch);
      if reply.Some? {
        InsertRunAfter(written, [batch] + Seqs.Batches(rows[end..], REVIEW_BATCH), insertError);
        Seqs.AppendAssoc(written, [batch], Seqs.Batches(rows[end..], REVIEW_BATCH));
        written := written + [batch];
        error := reply;
        return;
      }
      written := written + [batch];
      i := i + REVIEW_BATCH;
      assert Seqs.Min(i, |rows|) == end;
    }
    assert rows[Seqs.Min(i, |rows|)..] == [];
    InsertRunAfter(written, [], insertError);
    assert written + [] == written;
  }

  /** Step 3 of `importBusiness`. */
  method ReplaceReviews(companyId: int, rows: seq<ReviewRow>, r: Replies)
    returns (outcome: ImportOutcome, writes: seq<Write>)
    ensures Attempt(outcome, writes) == ReviewStage(companyId, rows, r)
  {
    writes := [];
    if |rows| > 0 {
      writes := writes + [DeleteReviews(companyId)];
    }
    var written, error := InsertReviewBatches(rows, r.insertError);
    writes := writes + Inserts(written);
    if error.Some? {
      return ImportFailed("Reviews batch insert failed: " + error.value), writes;
    }
    outcome := Imported(companyId, |rows|);
  }

  /** Step 2 of `importBusiness`: the company row is updated or inserted, then its reviews
      are replaced. */
  method SaveCompany(b: SourceBusiness, r: Replies, addressId: Option<int>)
    returns (outcome: ImportOutcome, writes: seq<Write>)
    requires HasValidAddress(b) ==> r.address.Ok?
    requires addressId == AddressIdOf(b, r)
    ensures Attempt(outcome, writes) == SaveStage(b, r)
  {
    var company := TransformBusiness(b, addressId);
    if r.existing.Some? {
      writes := [UpdateCompany(r.existing.value, company)];
      if r.save.Err? {
        return ImportFailed("Company update failed: " + r.save.msg), writes;
      }
    } else {
      writes := [InsertCompany(company)];
      if r.save.Err? {
        return ImportFailed("Company insert failed: " + r.save.msg), writes;
      }
    }
    var companyId := r.save.value;
    var more;
    outcome, more := ReplaceReviews(companyId, TransformReviews(b, companyId), r);
    writes := writes + more;
  }

  /** `importBusiness`: validate, upsert the address when it is complete, then save. */
  method ImportBusiness(b: SourceBusiness, r: Replies) returns (outcome: ImportOutcome, writes: seq<Write>)
    ensures Attempt(outcome, writes) == ImportOf(b, r)
  {
    var errors := ValidateBusiness(b);
    if |errors| > 0 {
      return ImportFailed("Validation failed: " + Str.Join(errors, ", ")), [];
    }
    writes := [];
    var addressId: Option<int> := None;
    if HasValidAddress(b) {
      writes := [UpsertAddress(TransformAddress(b.address.value))];
      if r.address.Err? {
        return ImportFailed("Address upsert failed: " + r.address.msg), writes;
      }
      addressId := Some(r.address.value);
    }
    var more;
    outcome, more := SaveCompany(b, r, addressId);
    writes := writes + more;
  }

  /** A business that fails validation is reported with its problems and nothing is written. */
  lemma ValidationFailsFirst(b: SourceBusiness, r: Replies)
    requires !Js.Filled(b.id) || !Js.Filled(b.name)
    ensures ImportOf(b, r).writes == []
    ensures ImportOf(b, r).outcome == ImportFailed("Validation failed: " + Str.Join(ValidateBusiness(b), ", "))
  {
  }

  predicate EveryBatchAccepted(batches: seq<seq<ReviewRow>>, insertError: seq<ReviewRow> -> Option<string>) {
    forall k :: 0 <= k < |batches| ==> insertError(batches[k]).None?
  }

  /** A business is imported exactly when it is valid, its address (if complete) is upserted,
      its company row is saved and every batch of its reviews is inserted. */
  lemma ImportedIff(b: SourceBusiness, r: Replies)
    ensures ImportOf(b, r).outcome.Imported? <==>
      Js.Filled(b.id) && Js.Filled(b.name) && (HasValidAddress(b) ==> r.address.Ok?) && r.save.Ok?
      && EveryBatchAccepted(Seqs.Batches(TransformReviews(b, r.save.value), REVIEW_BATCH), r.insertError)
  {
    if ValidateBusiness(b) == [] && (HasValidAddress(b) ==> r.address.Ok?) && r.save.Ok? {
      var rows := TransformReviews(b, r.save.value);
      var batches := Seqs.Batches(rows, REVIEW_BATCH);
      InsertRunProps(batches, r.insertError);
      assert ReviewStage(r.save.value, rows, r).outcome.Imported? <==> InsertRun(batches, r.insertError).1.None?;
      assert SaveStage(b, r).outcome == ReviewStage(r.save.value, rows, r).outcome;
      assert ImportOf(b, r).outcome == SaveStage(b, r).outcome;
    } else if ValidateBusiness(b) == [] && (HasValidAddress(b) ==> r.address.Ok?) {
      assert SaveStage(b, r).outcome.ImportFailed?;
    }
  }

  /** The address, when complete, is written first; the next write saves the transformed
      business linked to the upserted address, to the existing company when there is one. */
  lemma SaveOrder(b: SourceBusiness, r: Replies)
    requires Js.Filled(b.id) && Js.Filled(b.name) && (HasValidAddress(b) ==> r.address.Ok?)
    ensures var w := ImportOf(b, r).writes; var n := if HasValidAddress(b) then 1 else 0;
      |w| > n && (HasValidAddress(b) ==> w[0] == UpsertAddress(TransformAddress(b.address.value)))
      && w[n] == CompanyWrite(b, r)
      && w[n].company == TransformBusiness(b, if HasValidAddress(b) then Some(r.address.value) else None)
      && (r.existing.Some? <==> w[n].UpdateCompany?)
      && (r.existing.Some? ==> w[n].id == r.existing.value)
  {
    assert SaveStage(b, r).writes[0] == CompanyWrite(b, r);
  }

  /** The reviews inserted by a batch insert. */
  function Inserted(writes: seq<Write>): seq<ReviewRow>
    decreases |writes|
  {
    if writes == [] then []
    else (if writes[0].InsertReviews? then writes[0].batch else []) + Inserted(writes[1..])
  }

  lemma {:induction false} InsertedAppend(a: seq<Write>, b: seq<Write>)
    ensures Inserted(a + b) == Inserted(a) + Inserted(b)
    decreases |a|
  {
    if a == [] {
      assert a + b == b;
    } else {
      assert (a + b)[0] == a[0];
      assert (a + b)[1..] == a[1..] + b;
      InsertedAppend(a[1..], b);
    }
  }

  lemma {:induction false} InsertedInserts(batches: seq<seq<ReviewRow>>)
    ensures Inserted(Inserts(batches)) == Seqs.Flatten(batches)
    decreases |batches|
  {
    if batches != [] {
      assert Inserts(batches)[1..] == Inserts(batches[1..]);
      InsertedInserts(batches[1..]);
    }
  }

  lemma InsertedSingle(w: Write)
    ensures Inserted([w]) == if w.InsertReviews? then w.batch else []
  {
    assert [w][1..] == [];
  }

  /** When every batch goes in, the reviews are inserted exactly once, in order, after the
      old ones are deleted, in ceil(n / 500) batches of at most 500. */
  lemma ReviewStageInserted(companyId: int, rows: seq<ReviewRow>, r: Replies)
    requires ReviewStage(companyId, rows, r).outcome.Imported?
    ensures Inserted(ReviewStage(companyId, rows, r).writes) == rows
    ensures rows != [] ==> ReviewStage(companyId, rows, r).writes[0] == DeleteReviews(companyId)
    ensures |Seqs.Batches(rows, REVIEW_BATCH)| == (|rows| + REVIEW_BATCH - 1) / REVIEW_BATCH
    ensures forall k :: 0 <= k < |Seqs.Batches(rows, REVIEW_BATCH)| ==> 0 < |Seqs.Batches(rows, REVIEW_BATCH)[k]| <= REVIEW_BATCH
  {
    ReviewStageWrites(companyId, rows, r);
    Seqs.BatchesSized(rows, REVIEW_BATCH);
    Seqs.BatchesCount(rows, REVIEW_BATCH);
  }

  lemma ReviewStageWrites(companyId: int, rows: seq<ReviewRow>, r: Replies)
    requires ReviewStage(companyId, rows, r).outcome.Imported?
    ensures Inserted(ReviewStage(companyId, rows, r).writes) == rows
    ensures rows != [] ==> ReviewStage(companyId, rows, r).writes[0] == DeleteReviews(companyId)
  {
    var batches := Seqs.Batches(rows, REVIEW_BATCH);
    InsertRunProps(batches, r.insertError);
    Seqs.BatchesCover(rows, REVIEW_BATCH);
    var deletes := if rows == [] then [] else [DeleteReviews(companyId)];
    InsertedAppend(deletes, Inserts(batches));
    InsertedInserts(batches);
    if deletes != [] { InsertedSingle(DeleteReviews(companyId)); }
  }

  /** An imported business has had its old reviews deleted (when it has any) and all its
      reviews inserted exactly once, in order; the count it reports is the number of reviews. */
  lemma ImportedReviews(b: SourceBusiness, r: Replies)
    requires ImportOf(b, r).outcome.Imported?
    ensures var id := ImportOf(b, r).outcome.companyId; var rows := TransformReviews(b, id);
      ImportOf(b, r).outcome.reviewCount == |rows|
      && Inserted(ImportOf(b, r).writes) == rows
      && (rows != [] ==> DeleteReviews(id) in ImportOf(b, r).writes)
  {
    var id := r.save.value;
    var rows := TransformReviews(b, id);
    var stage := ReviewStage(id, rows, r);
    ReviewStageInserted(id, rows, r);
    var save := [CompanyWrite(b, r)];
    InsertedSingle(CompanyWrite(b, r));
    InsertedAppend(save, stage.writes);
    assert SaveStage(b, r) == After(save, stage);
    if HasValidAddress(b) {
      var upsert := [UpsertAddress(TransformAddress(b.address.value))];
      InsertedSingle(upsert[0]);
      InsertedAppend(upsert, save + stage.writes);
      assert ImportOf(b, r).writes == upsert + (save + stage.writes);
      if rows != [] { assert ImportOf(b, r).writes[2] == stage.writes[0]; }
    } else {
      assert ImportOf(b, r).writes == save + stage.writes;
      if rows != [] { assert ImportOf(b, r).writes[1] == stage.writes[0]; }
    }
  }

  // ---------------------------------------------------------------- the import loop

  function SuccessCount(outcomes: seq<ImportOutcome>): nat
    decreases |outcomes|
  {
    if outcomes == [] then 0
    else SuccessCount(outcomes[..|outcomes| - 1]) + if outcomes[|outcomes| - 1].Imported? then 1 else 0
  }

  function ReviewTotal(outcomes: seq<ImportOutcome>): nat
    decreases |outcomes|
  {
    if outcomes == [] then 0
    else
      var last := outcomes[|outcomes| - 1];
      ReviewTotal(outcomes[..|outcomes| - 1]) + if last.Imported? then last.reviewCount else 0
  }

  lemma {:induction false} SuccessCountBound(outcomes: seq<ImportOutcome>)
    ensures SuccessCount(outcomes) <= |outcomes|
    ensures SuccessCount(outcomes) == |outcomes| <==> forall i :: 0 <= i < |outcomes| ==> outcomes[i].Imported?
    decreases |outcomes|
  {
    if outcomes != [] {
      var init := outcomes[..|outcomes| - 1];
      SuccessCountBound(init);
      assert (forall i :: 0 <= i < |outcomes| ==> outcomes[i].Imported?) <==>
        (forall i :: 0 <= i < |init| ==> init[i].Imported?) && outcomes[|outcomes| - 1].Imported? by {
        assert forall i :: 0 <= i < |init| ==> init[i] == outcomes[i];
      }
    }
  }

  /** The outcome of importing each business with its replies. */
  function Outcomes(businesses: seq<SourceBusiness>, replies: seq<Replies>): (r: seq<ImportOutcome>)
    requires |replies| == |businesses|
    ensures |r| == |businesses|
    ensures forall i :: 0 <= i < |businesses| ==> r[i] == ImportOf(businesses[i], replies[i]).outcome
  {
    seq(|businesses|, i requires 0 <= i < |businesses| => ImportOf(businesses[i], replies[i]).outcome)
  }

  /** Counting one more outcome: the next business's, after those of the businesses before it. */
  lemma CountStep(businesses: seq<SourceBusiness>, replies: seq<Replies>, outcomes: seq<ImportOutcome>,
                  i: nat, result: ImportOutcome)
    requires |replies| == |businesses| && i < |businesses|
    requires outcomes == Outcomes(businesses, replies)[..i]
    requires result == ImportOf(businesses[i], replies[i]).outcome
    ensures outcomes + [result] == Outcomes(businesses, replies)[..i + 1]
    ensures SuccessCount(outcomes + [result]) == SuccessCount(outcomes) + if result.Imported? then 1 else 0
    ensures ReviewTotal(outcomes + [result]) == ReviewTotal(outcomes) + if result.Imported? then result.reviewCount else 0
  {
    var next := outcomes + [result];
    assert next[..|next| - 1] == outcomes;
  }

  /** The counters of `importData`: one business after the other, each import's failure
      counted and not stopping the loop. */
  method ImportAll(businesses: seq<SourceBusiness>, replies: seq<Replies>)
    returns (successCount: nat, errorCount: nat, totalReviews: nat)
    requires |replies| == |businesses|
    ensures successCount == SuccessCount(Outcomes(businesses, replies))
    ensures successCount + errorCount == |businesses|
    ensures totalReviews == ReviewTotal(Outcomes(businesses, replies))
  {
    successCount, errorCount, totalReviews := 0, 0, 0;
    ghost var outcomes: seq<ImportOutcome> := [];
    var i := 0;
    while i < |businesses|
      invariant 0 <= i <= |businesses|
      invariant outcomes == Outcomes(businesses, replies)[..i]
      invariant successCount == SuccessCount(outcomes) && totalReviews == ReviewTotal(outcomes)
      invariant successCount + errorCount == i
    {
      var result, _ := ImportBusiness(businesses[i], replies[i]);
      CountStep(businesses, replies, outcomes, i, result);
      outcomes := outcomes + [result];
      if result.Imported? {
        successCount := successCount + 1;
        totalReviews := totalReviews + result.reviewCount;
      } else {
        errorCount := errorCount + 1;
      }
      i := i + 1;
    }
    assert outcomes == Outcomes(businesses, replies);
  }
}
