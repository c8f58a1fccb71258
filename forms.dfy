/**
 * The validators of forms.py: the age-or-birth-date field, the under-13 rule, the optional
 * second sex, and the cross-field checks of the scenario, life expectancy, income annuity,
 * allocation and defined-benefit forms.  Each check returns the cleaned value or the
 * validation error it raises; the dates that strptime parses and the current year are
 * parameters.
 */
module Forms {
  import opened Wrappers
  import opened Inputs
  import opened AssetClasses
  import opened Oracles
  import opened Setup

  /** The validation errors the forms raise, one per message. */
  datatype FormError =
    | FieldRequired
    | InvalidAgeOrDob
    | UnderThirteen
    | InvalidSpouse
    | DesiredTooSmall
    | ZeroWithdrawal
    | BequestNeedsRiskAversion
    | TooFewClasses
    | NoAnalysisStartData(startNames: seq<string>)
    | NoAnalysisEndData(endNames: seq<string>)
    | TooLittleAnalysisData
    | NoSimulationStartData(simStartNames: seq<string>)
    | NoSimulationEndData(simEndNames: seq<string>)
    | TooLittleSimulationData
    | NoGuaranteedIncome
    | BequestShareNotPositive
    | UpsideBelowConsumption
    | TooOldForRetirementYear
    | SpouseTooOldForRetirementYear
    | InvalidSecondAnnuitant
    | MissingSecondAnnuitantAge
    | MissingAdjustedLe
    | NotTwoOfThree
    | DefinedBenefitsTableError
    | LeForAbsentSpouse
    | SpousalBenefitsNoSpouse
    | RetirementAgeForAbsentSpouse
    | MortgageWithoutPayment
    | CreditLineWithoutReverseMortgage
    | RequiredExceedsDesired
    | SocialSecurityNotIndexed
    | SocialSecurityPeriodCertain
    | SocialSecurityNotSurvivor

  /** The cleaned value, or the error a clean method raises. */
  type Checked<T> = Result<T, FormError>

  /** The parts joined by `sep`, as str.join does. */
  function Join(parts: seq<string>, sep: string): string {
    if |parts| == 0 then ""
    else if |parts| == 1 then parts[0]
    else Join(parts[..|parts| - 1], sep) + sep + parts[|parts| - 1]
  }

  /** The text of each error as the user sees it. */
  function Message(e: FormError): string {
    match e
    case FieldRequired => "This field is required."
    case InvalidAgeOrDob => "Invalid age or date of birth."
    case UnderThirteen => "Children under 13 prohibited as per COPPA."
    case InvalidSpouse => "Invalid spouse/partner."
    case DesiredTooSmall => "Desired consumption too small. Increase desired consumption."
    case ZeroWithdrawal => "Zero annual retirement withdrawal amount"
    case BequestNeedsRiskAversion =>
      "Bequest requires well-being coefficient of relative risk aversion >= 1."
    case TooFewClasses => "Must select at least two asset classes to analyze."
    case NoAnalysisStartData(names) =>
      "No data available for analysis start year - deselect " + Join(names, ", ") +
      ", or edit analysis start year in market parameters."
    case NoAnalysisEndData(names) =>
      "No data available for analysis end year - deselect " + Join(names, ", ") +
      ", or edit analysis end year in market parameters."
    case TooLittleAnalysisData =>
      "Too little analysis data available - edit analysis period in market parameters."
    case NoSimulationStartData(names) =>
      "No data available for simulation start year - deselect " + Join(names, ", ") +
      ", or edit simulation start year in market parameters."
    case NoSimulationEndData(names) =>
      "No data available for simulation end year - deselect " + Join(names, ", ") +
      ", or edit simulation end year in market parameters."
    case TooLittleSimulationData =>
      "Too little simulation data available - edit simulation period in market parameters."
    case NoGuaranteedIncome => "You have no Social Security or other guaranteed income."
    case BequestShareNotPositive => "Bequest share parameter must be positive."
    case UpsideBelowConsumption =>
      "Upside discount rate is less than consumption and bequest discount rate"
    case TooOldForRetirementYear => "Too old for retirement year."
    case SpouseTooOldForRetirementYear => "Spouse/partner too old for retirement year."
    case InvalidSecondAnnuitant => "Invalid secondary annuitant."
    case MissingSecondAnnuitantAge => "Missing secondary annuitant age."
    case MissingAdjustedLe => "Missing adjusted life expectancy."
    case NotTwoOfThree => "Specify exactly two of premium, payout, and Money's Worth Ratio."
    case DefinedBenefitsTableError => "Error in defined benefits table."
    case LeForAbsentSpouse => "Life expectancy specified for non-existant spouse."
    case SpousalBenefitsNoSpouse => "Spousal defined benefits but no spouse present"
    case RetirementAgeForAbsentSpouse => "Retirement age specified for non-existant spouse."
    case MortgageWithoutPayment => "Mortgage specified but no mortgage payment."
    case CreditLineWithoutReverseMortgage =>
      "Reverse mortgage credit line specified but no reverse mortgage."
    case RequiredExceedsDesired => "Required consumption exceeds desired consumption."
    case SocialSecurityNotIndexed => "Social Security must be inflation indexed"
    case SocialSecurityPeriodCertain => "Social Security period certain must be 0"
    case SocialSecurityNotSurvivor => "Social Security death benefit must be survivor"
  }

  // ---------------------------------------------------------------------------------------
  // Python's int() on a string.

  /** The characters str.isspace accepts in the C locale: space, tab, newline, vertical tab,
      form feed and carriage return. */
  predicate IsSpace(c: char) {
    c == ' ' || '\t' <= c <= '\r'
  }

  predicate IsDigit(c: char) {
    '0' <= c <= '9'
  }

  predicate AllDigits(s: string) {
    forall i :: 0 <= i < |s| ==> IsDigit(s[i])
  }

  /** The string without its leading and trailing whitespace. */
  function Strip(s: string): (r: string)
    ensures |r| == 0 || (!IsSpace(r[0]) && !IsSpace(r[|r| - 1]))
    decreases |s|
  {
    if |s| > 0 && IsSpace(s[0]) then Strip(s[1..])
    else if |s| > 0 && IsSpace(s[|s| - 1]) then Strip(s[..|s| - 1])
    else s
  }

  /** The value of a run of decimal digits. */
  function DigitsValue(s: string): nat
    requires AllDigits(s)
  {
    if |s| == 0 then 0
    else DigitsValue(s[..|s| - 1]) * 10 + (s[|s| - 1] as int - '0' as int)
  }

  /** int(v): optional surrounding whitespace, an optional sign followed by optional
      whitespace, and at least one digit; anything else raises ValueError (None here). */
  function ParseInt(v: string): (r: Option<int>)
    ensures r.Some? ==> Strip(v) != ""
  {
    var t := Strip(v);
    var negative := |t| > 0 && t[0] == '-';
    var digits := if |t| > 0 && (t[0] == '-' || t[0] == '+') then Strip(t[1..]) else t;
    if |digits| == 0 || !AllDigits(digits) then None
    else Some(if negative then -(DigitsValue(digits) as int) else DigitsValue(digits))
  }

  /** The decimal digits of a natural number, without leading zeros. */
  function Decimal(n: nat): (s: string)
    ensures |s| > 0 && AllDigits(s)
    ensures !IsSpace(s[0]) && !IsSpace(s[|s| - 1]) && s[0] != '-' && s[0] != '+'
  {
    if n < 10 then ['0' + (n as char)]
    else Decimal(n / 10) + ['0' + ((n % 10) as char)]
  }

  /** Reading back the digits of a number gives the number. */
  lemma {:induction false} DigitsOfDecimal(n: nat)
    ensures DigitsValue(Decimal(n)) == n
  {
    if n >= 10 {
      DigitsOfDecimal(n / 10);
      var s := Decimal(n);
      assert s[..|s| - 1] == Decimal(n / 10);
    }
  }

  /** int() reads back every number written in decimal, with or without a minus sign. */
  lemma ParseDecimal(n: nat)
    ensures ParseInt(Decimal(n)) == Some(n)
    ensures ParseInt("-" + Decimal(n)) == Some(-(n as int))
  {
    DigitsOfDecimal(n);
    var s := Decimal(n);
    assert Strip(s) == s;
    var m := "-" + s;
    assert Strip(m) == m by {
      assert m[|m| - 1] == s[|s| - 1];
    }
    assert m[1..] == s;
  }

  /** Whitespace between the sign and the digits is skipped, as strtol does. */
  lemma ParseSignedSpaced(n: nat)
    ensures ParseInt("+ " + Decimal(n)) == Some(n)
    ensures ParseInt("-\t" + Decimal(n)) == Some(-(n as int))
  {
    DigitsOfDecimal(n);
    var s := Decimal(n);
    assert Strip(s) == s;
    var p := "+ " + s;
    assert Strip(p) == p by {
      assert p[|p| - 1] == s[|s| - 1];
    }
    assert p[1..][1..] == s;
    var m := "-\t" + s;
    assert Strip(m) == m by {
      assert m[|m| - 1] == s[|s| - 1];
    }
    assert m[1..][1..] == s;
  }

  /** Leading and trailing whitespace does not change what int() reads. */
  lemma ParseIgnoresSpace(v: string)
    ensures ParseInt(" " + v + "\n") == ParseInt(v)
  {
    var w := " " + v + "\n";
    assert w[1..] == v + "\n";
    StripEnds(v);
  }

  lemma StripEnds(v: string)
    ensures Strip(" " + v + "\n") == Strip(v)
  {
    var w := " " + v + "\n";
    assert w[1..] == v + "\n";
    StripTail(v);
  }

  lemma {:induction false} StripTail(v: string)
    ensures Strip(v + "\n") == Strip(v)
    decreases |v|
  {
    var w := v + "\n";
    if |v| > 0 && IsSpace(v[0]) {
      assert w[1..] == v[1..] + "\n";
      StripTail(v[1..]);
    } else {
      assert w[..|w| - 1] == v;
    }
  }

  // ---------------------------------------------------------------------------------------
  // DobOrAgeField, coppa and the second sex.

  /** A calendar date as strptime returns it. */
  datatype Date = Date(year: int, month: int, day: int)

  /** A cleaned age-or-birth-date: a whole age in years or a date of birth. */
  datatype Birth = AgeYears(years: int) | BirthDate(date: Date)

  /** The date formats tried, in order: 2013-06-30, 06/30/2013 and 06/30/13. */
  datatype DateFormat = IsoDate | UsDate | UsShortDate

  const DobFormats: seq<DateFormat> := [IsoDate, UsDate, UsShortDate]

  /** The first format whose parse succeeds; `parse` gives, for the field's text, the date
      each format yields after the two-digit-year and round-trip corrections, if any. */
  function FirstParse(formats: seq<DateFormat>, parse: DateFormat -> Option<Date>): (r: Option<Date>)
    ensures r.None? <==> forall i :: 0 <= i < |formats| ==> parse(formats[i]).None?
    ensures r.Some? ==> exists i :: 0 <= i < |formats| && parse(formats[i]) == r &&
                                    forall j :: 0 <= j < i ==> parse(formats[j]).None?
  {
    if |formats| == 0 then None
    else if parse(formats[0]).Some? then parse(formats[0])
    else
      var rest := FirstParse(formats[1..], parse);
      assert forall i :: 0 <= i < |formats| - 1 ==> formats[1..][i] == formats[i + 1];
      if rest.Some? then
        var i :| 0 <= i < |formats| - 1 && parse(formats[1..][i]) == rest &&
                 forall j :: 0 <= j < i ==> parse(formats[1..][j]).None?;
        assert forall j :: 0 <= j < i + 1 ==> parse(formats[j]).None? by {
          assert forall j :: 1 <= j < i + 1 ==> formats[j] == formats[1..][j - 1];
        }
        rest
      else
        rest
  }

  /** DobOrAgeField.clean: a date in one of the formats, else a whole age in [0, 98);
      an empty field is missing (an error when the field is required). */
  function DobOrAgeClean(v: string, parse: DateFormat -> Option<Date>, required: bool)
    : (r: Checked<Option<Birth>>)
    ensures FirstParse(DobFormats, parse).Some? ==>
              r == Ok(Some(BirthDate(FirstParse(DobFormats, parse).value)))
    ensures FirstParse(DobFormats, parse).None? ==>
              ((r.Ok? && r.value.Some?) <==> ParseInt(v).Some? && 0 <= ParseInt(v).value < 98)
    ensures r.Ok? && r.value.Some? && r.value.value.AgeYears? ==>
              ParseInt(v) == Some(r.value.value.years)
    ensures r == Ok(None) <==> FirstParse(DobFormats, parse).None? && v == "" && !required
    ensures r.Err? ==> r.error == (if v == "" then FieldRequired else InvalidAgeOrDob)
  {
    var date := FirstParse(DobFormats, parse);
    if date.Some? then Ok(Some(BirthDate(date.value)))
    else
      var age := ParseInt(v);
      if age.Some? && 0 <= age.value < 98 then Ok(Some(AgeYears(age.value)))
      else if v == "" then (if required then Err(FieldRequired) else Ok(None))
      else Err(InvalidAgeOrDob)
  }

  /** Every whole age under 98 typed in decimal is accepted as that age. */
  lemma AgeAccepted(n: nat, parse: DateFormat -> Option<Date>, required: bool)
    requires n < 98 && FirstParse(DobFormats, parse).None?
    ensures DobOrAgeClean(Decimal(n), parse, required) == Ok(Some(AgeYears(n)))
  {
    ParseDecimal(n);
  }

  /** The age a cleaned birth field stands for in `nowYear`. */
  function AgeIn(b: Birth, nowYear: int): int {
    match b
    case AgeYears(n) => n
    case BirthDate(d) => nowYear - d.year
  }

  /** coppa: a missing value passes; an age (or the years since the birth year) of 13 or
      less is rejected. */
  function Coppa(dob: Option<Birth>, nowYear: int): (r: Checked<Option<Birth>>)
    ensures r.Ok? <==> dob.None? || AgeIn(dob.value, nowYear) > 13
    ensures r.Ok? ==> r.value == dob
    ensures r.Err? ==> r.error == UnderThirteen
  {
    if dob.None? then Ok(None)
    else
      var age := match dob.value
        case AgeYears(n) => n
        case BirthDate(d) => nowYear - d.year;
      if age <= 13 then Err(UnderThirteen) else Ok(dob)
  }

  /** clean_dob: the field, then coppa. */
  function CleanDob(v: string, parse: DateFormat -> Option<Date>, required: bool, nowYear: int)
    : (r: Checked<Option<Birth>>)
  {
    var dob :- DobOrAgeClean(v, parse, required);
    Coppa(dob, nowYear)
  }

  /** A typed whole age passes both checks exactly from 14 to 97. */
  lemma TypedAgeRange(n: nat, parse: DateFormat -> Option<Date>, required: bool, nowYear: int)
    requires FirstParse(DobFormats, parse).None?
    ensures CleanDob(Decimal(n), parse, required, nowYear).Ok? <==> 14 <= n < 98
  {
    ParseDecimal(n);
  }

  /** clean_sex2: the empty choice means no second person. */
  function CleanSex2(sex2: string): (r: Option<string>)
    ensures r.None? <==> sex2 == ""
    ensures r.Some? ==> r.value == sex2
  {
    if sex2 == "" then None else Some(sex2)
  }

  /** The spouse check of the scenario and life expectancy forms: a second sex is given
      exactly when a second age is. */
  predicate SpouseConsistent<A, B>(sex2: Option<A>, age2: Option<B>) {
    sex2.None? <==> age2.None?
  }

  // ---------------------------------------------------------------------------------------
  // ScenarioBaseForm.clean and check_retirement_year.

  datatype UtilityMethod = FloorPlusUpside | CertaintyEquivalent | Slope | EtaMethod | AlphaMethod

  /** The cleaned fields the scenario forms check. */
  datatype ScenarioData = ScenarioData(
    hasFieldErrors: bool,
    dob: Birth, sex2: Option<string>, dob2: Option<Birth>,
    retirementYear: int,
    utilityJoinRequired: real, utilityJoinDesired: real, withdrawal: real,
    inherit: bool, utilityMethod: UtilityMethod, utilityEta2: real,
    classes: Selection,
    generateStartYear: int, generateEndYear: int,
    validateStartYear: int, validateEndYear: int,
    definedBenefitSocialSecurity: real, definedBenefitPensions: real,
    definedBenefitFixedAnnuities: real,
    utilityInheritYears: real,
    consumeDiscountRatePct: real, upsideDiscountRatePct: real)

  /** Every ticked class has data from `first` to `last`. */
  predicate DataCovers(s: Selection, first: int, last: int)
    requires Covers(s, Table)
  {
    StartedBy(s, first) && LastsUntil(s, last)
  }

  /** ScenarioBaseForm.clean: with no field errors, the checks in the order the form makes
      them, each raising its own error. */
  function ScenarioBaseClean(d: ScenarioData): (r: Checked<()>)
    requires Covers(d.classes, Table)
  {
    if d.hasFieldErrors then Ok(())
    else if !SpouseConsistent(d.sex2, d.dob2) then Err(InvalidSpouse)
    else if d.utilityJoinDesired < 0.002 * d.utilityJoinRequired then Err(DesiredTooSmall)
    else if d.withdrawal == 0.0 then Err(ZeroWithdrawal)
    else if d.inherit && d.utilityMethod == FloorPlusUpside && d.utilityEta2 <= 1.0 then
      Err(BequestNeedsRiskAversion)
    else if CountSelected(Table, d.classes) < 2 then Err(TooFewClasses)
    else MarketDataClean(d)
  }

  /** The rest of ScenarioBaseForm.clean: market data for every ticked class over both
      periods, each period at least 40 years, some guaranteed income, a positive bequest
      share and, for floor-plus-upside, an upside rate no lower than the consumption rate. */
  function MarketDataClean(d: ScenarioData): (r: Checked<()>)
    requires Covers(d.classes, Table)
    ensures r.Ok? <==>
      DataCovers(d.classes, d.generateStartYear, d.generateEndYear) &&
      d.generateEndYear - d.generateStartYear >= 39 &&
      DataCovers(d.classes, d.validateStartYear, d.validateEndYear) &&
      d.validateEndYear - d.validateStartYear >= 39 &&
      !(d.definedBenefitSocialSecurity == 0.0 && d.definedBenefitPensions == 0.0 &&
        d.definedBenefitFixedAnnuities == 0.0) &&
      d.utilityInheritYears > 0.0 &&
      !(d.utilityMethod == FloorPlusUpside && d.upsideDiscountRatePct < d.consumeDiscountRatePct)
  {
    EarlyNamesEmpty(d.classes, d.generateStartYear);
    LateNamesEmpty(d.classes, d.generateEndYear);
    EarlyNamesEmpty(d.classes, d.validateStartYear);
    LateNamesEmpty(d.classes, d.validateEndYear);
    var tooEarly := Names(TooEarly(d.classes, d.generateStartYear));
    var tooLate := Names(TooLate(d.classes, d.generateEndYear));
    var simTooEarly := Names(TooEarly(d.classes, d.validateStartYear));
    var simTooLate := Names(TooLate(d.classes, d.validateEndYear));
    if tooEarly != [] then Err(NoAnalysisStartData(tooEarly))
    else if tooLate != [] then Err(NoAnalysisEndData(tooLate))
    else if d.generateEndYear - d.generateStartYear + 1 < 40 then Err(TooLittleAnalysisData)
    else if simTooEarly != [] then Err(NoSimulationStartData(simTooEarly))
    else if simTooLate != [] then Err(NoSimulationEndData(simTooLate))
    else if d.validateEndYear - d.validateStartYear + 1 < 40 then Err(TooLittleSimulationData)
    else if d.definedBenefitSocialSecurity == 0.0 && d.definedBenefitPensions == 0.0 &&
            d.definedBenefitFixedAnnuities == 0.0 then Err(NoGuaranteedIncome)
    else if d.utilityInheritYears <= 0.0 then Err(BequestShareNotPositive)
    else if d.utilityMethod == FloorPlusUpside &&
            d.upsideDiscountRatePct < d.consumeDiscountRatePct then Err(UpsideBelowConsumption)
    else Ok(())
  }

  /** What the scenario form accepts, stated on the data rather than on the names the
      messages list. */
  predicate ScenarioAcceptable(d: ScenarioData)
    requires Covers(d.classes, Table)
  {
    SpouseConsistent(d.sex2, d.dob2) &&
    d.utilityJoinDesired >= 0.002 * d.utilityJoinRequired &&
    d.withdrawal != 0.0 &&
    !(d.inherit && d.utilityMethod == FloorPlusUpside && d.utilityEta2 <= 1.0) &&
    |Chosen(Table, d.classes)| >= 2 &&
    DataCovers(d.classes, d.generateStartYear, d.generateEndYear) &&
    d.generateEndYear - d.generateStartYear >= 39 &&
    DataCovers(d.classes, d.validateStartYear, d.validateEndYear) &&
    d.validateEndYear - d.validateStartYear >= 39 &&
    !(d.definedBenefitSocialSecurity == 0.0 && d.definedBenefitPensions == 0.0 &&
      d.definedBenefitFixedAnnuities == 0.0) &&
    d.utilityInheritYears > 0.0 &&
    !(d.utilityMethod == FloorPlusUpside && d.upsideDiscountRatePct < d.consumeDiscountRatePct)
  }

  /** The scenario form passes exactly the acceptable data (or data with field errors,
      which it returns unchecked): at least two classes, every ticked class with data over
      both periods, each period at least 40 years, and the other conditions. */
  lemma ScenarioBaseAccepts(d: ScenarioData)
    requires Covers(d.classes, Table)
    ensures ScenarioBaseClean(d).Ok? <==> d.hasFieldErrors || ScenarioAcceptable(d)
  {
    CountIsChosen(Table, d.classes);
  }

  /** The retirement age in the retirement year for a cleaned age-or-birth-date: the age
      plus the years until then, or the years since the birth year. */
  function RetirementAge(b: Birth, retirementYear: int, nowYear: int): int {
    match b
    case AgeYears(n) => n + retirementYear - nowYear
    case BirthDate(d) => retirementYear - d.year
  }

  /** An age typed as the years since the birth year gives the same retirement age as the
      date of birth. */
  lemma RetirementAgeAgrees(d: Date, retirementYear: int, nowYear: int)
    ensures RetirementAge(AgeYears(AgeIn(BirthDate(d), nowYear)), retirementYear, nowYear) ==
            RetirementAge(BirthDate(d), retirementYear, nowYear)
  {
  }

  /** check_retirement_year: each person must be under 100 in the retirement year, the
      member checked first. */
  function CheckRetirementYear(dob: Birth, dob2: Option<Birth>, retirementYear: int,
                               nowYear: int): (r: Checked<()>)
    ensures r.Ok? <==> RetirementAge(dob, retirementYear, nowYear) < 100 &&
                       (dob2.Some? ==> RetirementAge(dob2.value, retirementYear, nowYear) < 100)
    ensures r.Err? ==> r.error == (if RetirementAge(dob, retirementYear, nowYear) >= 100
                                   then TooOldForRetirementYear
                                   else SpouseTooOldForRetirementYear)
  {
    var age := match dob
      case AgeYears(n) => n + retirementYear - nowYear
      case BirthDate(d) => retirementYear - d.year;
    if age >= 100 then Err(TooOldForRetirementYear)
    else if dob2.None? then Ok(())
    else
      var age2 := match dob2.value
        case AgeYears(n) => n + retirementYear - nowYear
        case BirthDate(d) => retirementYear - d.year;
      if age2 >= 100 then Err(SpouseTooOldForRetirementYear) else Ok(())
  }

  /** ScenarioNumberForm.clean and ScenarioEditForm.clean: the scenario checks, then the
      retirement year unless some field failed. */
  function ScenarioRetirementClean(d: ScenarioData, nowYear: int): (r: Checked<()>)
    requires Covers(d.classes, Table)
    ensures r.Ok? <==> d.hasFieldErrors ||
                       (ScenarioAcceptable(d) &&
                        CheckRetirementYear(d.dob, d.dob2, d.retirementYear, nowYear).Ok?)
  {
    ScenarioBaseAccepts(d);
    var _ :- ScenarioBaseClean(d);
    if d.hasFieldErrors then Ok(())
    else CheckRetirementYear(d.dob, d.dob2, d.retirementYear, nowYear)
  }

  // ---------------------------------------------------------------------------------------
  // LeForm.clean and SpiaForm.clean.

  /** LeForm.clean: the spouse check. */
  function LeClean(hasFieldErrors: bool, sex2: Option<string>, age2: Option<real>)
    : (r: Checked<()>)
    ensures r.Ok? <==> hasFieldErrors || (sex2.None? <==> age2.None?)
    ensures r.Err? ==> r.error == InvalidSpouse
  {
    if hasFieldErrors then Ok(())
    else if (sex2 == None && age2 != None) || (sex2 != None && age2 == None) then Err(InvalidSpouse)
    else Ok(())
  }

  /** The life table choices of the income annuity form. */
  datatype TableChoice = Iam2012Basic | SsaCohort | AdjustTable

  /** The cleaned fields SpiaForm.clean checks. */
  datatype SpiaData = SpiaData(
    hasFieldErrors: bool,
    sex2: Option<string>, age2Years: Option<real>, age2Months: Option<real>,
    table: TableChoice, leSet: Option<real>, leSet2: Option<real>,
    premium: Option<real>, payout: Option<real>, mwrPercent: Option<real>)

  function Given(x: Option<real>): nat {
    if x.None? then 0 else 1
  }

  /** SpiaForm.clean: the second annuitant consistent, months only with years, life
      expectancies given for an adjusted table, and exactly two of premium, payout and
      money's worth ratio. */
  function SpiaClean(d: SpiaData): (r: Checked<()>)
    ensures r.Ok? <==>
      d.hasFieldErrors ||
      ((d.sex2.None? <==> d.age2Years.None?) &&
       (d.age2Years.None? ==> d.age2Months.None?) &&
       (d.table == AdjustTable ==> d.leSet.Some? && (d.sex2.Some? ==> d.leSet2.Some?)) &&
       Given(d.premium) + Given(d.payout) + Given(d.mwrPercent) == 2)
    ensures r.Err? && r.error == MissingSecondAnnuitantAge ==>
      d.age2Years.None? && d.age2Months.Some? && d.sex2.None?
  {
    if d.hasFieldErrors then Ok(())
    else if (d.sex2 == None && d.age2Years != None) || (d.sex2 != None && d.age2Years == None) then
      Err(InvalidSecondAnnuitant)
    else if d.age2Years == None && d.age2Months != None then Err(MissingSecondAnnuitantAge)
    else if d.table == AdjustTable && (d.leSet == None || (d.sex2 != None && d.leSet2 == None)) then
      Err(MissingAdjustedLe)
    else
      var premium := if d.premium == None then 0 else 1;
      var payout := if d.payout == None then 0 else 1;
      var mwrPercent := if d.mwrPercent == None then 0 else 1;
      if premium + payout + mwrPercent != 2 then Err(NotTwoOfThree) else Ok(())
  }

  /** A checked annuity quote leaves exactly one of the three prices to compute. */
  lemma SpiaLeavesOne(d: SpiaData)
    requires !d.hasFieldErrors && SpiaClean(d).Ok?
    ensures (d.premium.None? && d.payout.Some? && d.mwrPercent.Some?) ||
            (d.premium.Some? && d.payout.None? && d.mwrPercent.Some?) ||
            (d.premium.Some? && d.payout.Some? && d.mwrPercent.None?)
  {
  }

  // ---------------------------------------------------------------------------------------
  // AllocBaseForm.clean and its DbForm.clean.

  /** The cleaned fields AllocBaseForm.clean checks; the second sex keeps the 'none'
      choice of the allocation forms. */
  datatype AllocFormData = AllocFormData(
    dbErrors: bool, hasFieldErrors: bool,
    db: seq<DefinedBenefit>,
    sex2: string, age2: Option<real>, leSet2: Option<real>, retirementAge2: Option<real>,
    mortgage: real, mortgagePayment: real, haveRm: bool, rmLoc: real,
    requiredIncome: Option<real>, desiredIncome: Option<real>)

  /** Some benefit of the table is the spouse's and pays something. */
  predicate SpousalBenefit(db: seq<DefinedBenefit>) {
    exists i :: 0 <= i < |db| && db[i].who == SpouseOf && db[i].amount != 0.0
  }

  /** AllocBaseForm.clean: an error in the benefits table first; with no field errors, the
      benefits table is adopted and the spouse, mortgage and income checks made in order.
      The cleaned table is returned (None when field errors stop the checks). */
  function AllocBaseClean(d: AllocFormData): (r: Checked<Option<seq<DefinedBenefit>>>)
    ensures r.Ok? <==>
      !d.dbErrors &&
      (d.hasFieldErrors ||
       ((d.sex2 == "none" <==> d.age2.None?) &&
        (d.sex2 == "none" ==> d.leSet2.None? && !SpousalBenefit(d.db) && d.retirementAge2.None?) &&
        !(d.mortgage > 0.0 && d.mortgagePayment == 0.0 && !d.haveRm) &&
        !(d.rmLoc > 0.0 && !d.haveRm) &&
        !(d.requiredIncome.Some? && d.desiredIncome.Some? &&
          d.requiredIncome.value > d.desiredIncome.value)))
    ensures r.Ok? ==> r.value == (if d.hasFieldErrors then None else Some(d.db))
    ensures d.dbErrors ==> r == Err(DefinedBenefitsTableError)
  {
    if d.dbErrors then Err(DefinedBenefitsTableError)
    else if d.hasFieldErrors then Ok(None)
    else if (d.sex2 == "none" && d.age2 != None) || (d.sex2 != "none" && d.age2 == None) then
      Err(InvalidSpouse)
    else if d.sex2 == "none" && d.leSet2 != None then Err(LeForAbsentSpouse)
    else if d.sex2 == "none" && SpousalBenefit(d.db) then Err(SpousalBenefitsNoSpouse)
    else if d.sex2 == "none" && d.retirementAge2 != None then Err(RetirementAgeForAbsentSpouse)
    else if d.mortgage > 0.0 && d.mortgagePayment == 0.0 && !d.haveRm then
      Err(MortgageWithoutPayment)
    else if d.rmLoc > 0.0 && !d.haveRm then Err(CreditLineWithoutReverseMortgage)
    else if d.requiredIncome != None && d.desiredIncome != None &&
            d.requiredIncome.value > d.desiredIncome.value then Err(RequiredExceedsDesired)
    else Ok(Some(d.db))
  }

  /** Every benefit the engine prices is one of the entered benefits. */
  lemma {:induction false} NonZeroFromEntries(bs: seq<DefinedBenefit>)
    ensures forall k :: 0 <= k < |NonZero(bs)| ==> NonZero(bs)[k] in bs
  {
    if |bs| > 0 {
      var init := bs[..|bs| - 1];
      NonZeroFromEntries(init);
      assert forall b :: b in init ==> b in bs;
    }
  }

  /** With no spouse, a benefits table the allocation form accepts prices without the
      missing-spouse error: no benefit the engine prices belongs to the spouse. */
  lemma CheckedBenefitsPrice(o: Oracle, c: Context, d: AllocFormData)
    requires AllocBaseClean(d) == Ok(Some(d.db))
    requires d.sex2 == "none" && c.spouse.None?
    ensures DbRows(o, c, d.db).Ok?
  {
    DbRowsFailure(o, c, d.db);
    NonZeroFromEntries(d.db);
    forall k | 0 <= k < |NonZero(d.db)|
      ensures !NonZero(d.db)[k].who.SpouseOf?
    {
      var i :| 0 <= i < |d.db| && d.db[i] == NonZero(d.db)[k];
    }
  }

  /** The cleaned fields of one defined-benefit row. */
  datatype DbFormData = DbFormData(socialSecurity: bool, inflationIndexed: bool,
                                   periodCertain: real, jointType: JointType)

  /** DbForm.clean: a Social Security row must be inflation indexed, have no period certain
      and pay the survivor. */
  function DbClean(row: DbFormData): (r: Checked<DbFormData>)
    ensures r.Ok? <==> !row.socialSecurity ||
                       (row.inflationIndexed && row.periodCertain == 0.0 &&
                        row.jointType.Survivor?)
    ensures r.Ok? ==> r.value == row
    ensures r.Err? ==> r.error == (if !row.inflationIndexed then SocialSecurityNotIndexed
                                   else if row.periodCertain != 0.0 then SocialSecurityPeriodCertain
                                   else SocialSecurityNotSurvivor)
  {
    if row.socialSecurity then
      if !row.inflationIndexed then Err(SocialSecurityNotIndexed)
      else if row.periodCertain != 0.0 then Err(SocialSecurityPeriodCertain)
      else if row.jointType == Contingent then Err(SocialSecurityNotSurvivor)
      else Ok(row)
    else Ok(row)
  }
}
