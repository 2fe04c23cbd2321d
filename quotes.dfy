/**
 * The quotes controller: the motor quote calculator and the non-motor stub.
 *
 * The calculator checks the vehicle's year of manufacture against a fixed
 * lower bound and the current calendar year, and on success prices the
 * quote from the declared value. The current year is a parameter (the
 * controller reads the system clock). Amounts are exact reals: Dafny's
 * literal 3.4 is the rational 17/5, so no floating-point rounding is modelled.
 */
module Quotes {

  /** The body of a motor quote request, as the controller destructures it. */
  datatype MotorRequest = MotorRequest(
    model: string,
    reqNumber: string,
    value: real,
    use: string,
    yearOfManufacture: int)

  /** The body of a non-motor quote request; the controller ignores every field. */
  datatype NonMotorRequest = NonMotorRequest(
    address: string,
    city: string,
    products: seq<string>,
    purpose: string)

  /** One priced quote: the echoed request fields and the four figures. */
  datatype MotorQuote = MotorQuote(
    model: string,
    reqNumber: string,
    use: string,
    yearOfManufacture: int,
    premium: real,
    stampDuty: real,
    trainningLevy: real,
    phcFund: real)

  /** The JSON bodies the controller answers with. */
  datatype QuoteBody =
    | Rejected(error: string)
    | Quoted(success: bool, response: seq<MotorQuote>)
    | Notice(message: string)

  /** An HTTP status together with the JSON body. */
  datatype QuoteResponse = QuoteResponse(status: int, body: QuoteBody)

  const OldestYearOfManufacture: int := 2008
  const TooOldMessage: string := "Year of manufucture cannot be more than 15 years!"
  const FutureMessage: string := "Year of manufacture cannot be future!!"
  const NonMotorMessage: string := "This is non-motor quote"

  const PremiumRate: real := 3.4
  const StampDuty: real := 40.0
  const TrainingLevyRate: real := 0.2
  const PhcFundRate: real := 0.25

  /** True when the calculator accepts the year of manufacture. */
  predicate AcceptableYear(year: int, currentYear: int)
  {
    OldestYearOfManufacture <= year <= currentYear
  }

  /**
   * The value of `error` after the two year checks: the empty string when
   * neither check fires, otherwise the message of the first check that fires.
   */
  function YearError(year: int, currentYear: int): (error: string)
    ensures error == "" <==> AcceptableYear(year, currentYear)
    ensures year < OldestYearOfManufacture ==> error == TooOldMessage
    ensures OldestYearOfManufacture <= year && currentYear < year ==> error == FutureMessage
  {
    if year < OldestYearOfManufacture then TooOldMessage
    else if year > currentYear then FutureMessage
    else ""
  }

  /** The controller gates on `error.length > 1`; this is the same as "an error was set". */
  lemma ErrorGateMeansErrorSet(year: int, currentYear: int)
    ensures |YearError(year, currentYear)| > 1 <==> !AcceptableYear(year, currentYear)
  {
    assert |TooOldMessage| > 1 && |FutureMessage| > 1;
  }

  /** The priced quote for a request whose year has been accepted. */
  function PriceQuote(req: MotorRequest): (q: MotorQuote)
    ensures q.model == req.model && q.reqNumber == req.reqNumber
    ensures q.use == req.use && q.yearOfManufacture == req.yearOfManufacture
    ensures q.premium == req.value * 17.0 / 5.0
    ensures q.stampDuty == 40.0
    ensures q.trainningLevy == q.premium / 5.0 == req.value * 0.68
    ensures q.phcFund == req.value / 4.0
  {
    var premium := req.value * PremiumRate;
    MotorQuote(req.model, req.reqNumber, req.use, req.yearOfManufacture,
               premium, StampDuty, premium * TrainingLevyRate, req.value * PhcFundRate)
  }

  /**
   * The motor quote endpoint: 400 with the error message when the year is out
   * of range (the age check first), otherwise 200 with a one-element list
   * holding the priced quote.
   */
  function RequestMotorQuote(req: MotorRequest, currentYear: int): (r: QuoteResponse)
    ensures r.status == 200 <==> AcceptableYear(req.yearOfManufacture, currentYear)
    ensures r.status != 200 ==> r.status == 400
    ensures req.yearOfManufacture < OldestYearOfManufacture ==>
              r.body == Rejected(TooOldMessage)
    ensures OldestYearOfManufacture <= req.yearOfManufacture && currentYear < req.yearOfManufacture ==>
              r.body == Rejected(FutureMessage)
    ensures r.status == 200 ==>
              r.body.Quoted? && r.body.success && r.body.response == [PriceQuote(req)]
  {
    var error := YearError(req.yearOfManufacture, currentYear);
    ErrorGateMeansErrorSet(req.yearOfManufacture, currentYear);
    if |error| > 1 then QuoteResponse(400, Rejected(error))
    else QuoteResponse(200, Quoted(true, [PriceQuote(req)]))
  }

  /** A rejected request carries only the message: no figure is computed. */
  lemma RejectionCarriesNoFigures(req: MotorRequest, currentYear: int)
    requires !AcceptableYear(req.yearOfManufacture, currentYear)
    ensures RequestMotorQuote(req, currentYear).body.Rejected?
    ensures RequestMotorQuote(req, currentYear).body.error in {TooOldMessage, FutureMessage}
  {
  }

  /** Whether a quote is given depends only on the year, not on the model, use or value. */
  lemma OutcomeDependsOnlyOnYear(a: MotorRequest, b: MotorRequest, currentYear: int)
    requires a.yearOfManufacture == b.yearOfManufacture
    ensures RequestMotorQuote(a, currentYear).status == RequestMotorQuote(b, currentYear).status
    ensures RequestMotorQuote(a, currentYear).body.Rejected? ==>
              RequestMotorQuote(a, currentYear).body == RequestMotorQuote(b, currentYear).body
  {
  }

  /** Worked example: a 2020 Corolla declared at 1,000,000. */
  lemma CorollaQuote(currentYear: int)
    requires currentYear >= 2020
    ensures RequestMotorQuote(MotorRequest("Corolla", "Q1", 1000000.0, "private", 2020), currentYear)
            == QuoteResponse(200, Quoted(true, [MotorQuote("Corolla", "Q1", "private", 2020,
                                                          3400000.0, 40.0, 680000.0, 250000.0)]))
  {
  }

  predicate RejectedAsTooOld(year: int)
  {
    year < OldestYearOfManufacture
  }

  predicate OlderThanFifteenYears(year: int, currentYear: int)
  {
    currentYear - year > 15
  }

  /**
   * The fixed lower bound 2008 agrees with the message's "more than 15 years"
   * for every vehicle exactly when the current year is 2023; in any other year
   * some vehicle is judged against the wrong age.
   */
  lemma FixedBoundMatchesAgeCapOnlyIn2023(currentYear: int)
    ensures (forall y :: RejectedAsTooOld(y) == OlderThanFifteenYears(y, currentYear))
            <==> currentYear == 2023
  {
    if currentYear > 2023 {
      assert !RejectedAsTooOld(2008) && OlderThanFifteenYears(2008, currentYear);
    } else if currentYear < 2023 {
      assert RejectedAsTooOld(2007) && !OlderThanFifteenYears(2007, currentYear);
    }
  }

  /** The non-motor endpoint is a stub: 200 with a fixed message, whatever the request. */
  function RequestNonMotorQuote(req: NonMotorRequest): (r: QuoteResponse)
    ensures r.status == 200 && r.body == Notice(NonMotorMessage)
  {
    QuoteResponse(200, Notice(NonMotorMessage))
  }

  lemma NonMotorIgnoresRequest(a: NonMotorRequest, b: NonMotorRequest)
    ensures RequestNonMotorQuote(a) == RequestNonMotorQuote(b)
  {
  }
}
