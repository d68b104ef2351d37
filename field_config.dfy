/** The constant tables of the form: where each field sits on the page, which
    checkbox each categorical value selects, and which record path fills
    which text field; with the facts about them that the filler relies on. */
module FieldConfig {
  import opened Strings
  import opened Record
  import opened Pdf

  /** Page size in points (US Letter). */
  const PageWidth := 612
  const PageHeight := 792

  /** Font settings for ordinary text and for checkbox marks. */
  const FontName := "helv"
  const FontSize := 9
  const CheckboxChar := "X"
  const CheckboxFontSize := 10

  /** The literal written before the accompanying person's name. */
  const ArabicAccompaniedByPrefix := "\U{FE91}\U{FEE4}\U{FEAE}\U{0627}\U{FED3}\U{FED8}\U{FE94}  "

  /** The names of the writable locations on the page. They are identifiers
      of the program, never read from the record, so they are an enumeration
      here; `VisaTypeLabel` is named by the filler but has no coordinates. */
  datatype Field =
    | FirstName
    | MiddleName
    | LastName
    | PlaceOfBirth
    | Dob
    | Mobile
    | PresentNationality
    | NationalityOfOrigin
    | Email
    | PassportNumber
    | IssuingCountry
    | PassportExpiry
    | UaeAddress
    | CheckboxFemale
    | CheckboxMale
    | HomePhone
    | VisaRefusalDetails
    | JobTitle
    | UaeResidencyExpiry
    | CheckboxSingle
    | CheckboxMarried
    | CheckboxDivorced
    | CheckboxWidowed
    | LebanonPreviousVisits
    | TripStartDate
    | TripEndDate
    | CriminalRecordDetails
    | CheckboxBusiness
    | CheckboxEducation
    | CheckboxTourism
    | CheckboxFamilyVisit
    | CheckboxOfficial
    | CheckboxOtherPurpose
    | OtherPurposeText
    | ContactPerson
    | LebanonAddress
    | ArrivalDate
    | DepartureDate
    | CheckboxSingleEntry
    | CheckboxTwoEntry
    | CheckboxMultipleEntry
    | Checkbox15Days
    | CheckboxOneMonth
    | CheckboxThreeMonths
    | CheckboxSixMonths
    | SignatureDate
    | AccompaniedByArabic
    | VisaTypeLabel

  /** The categories of CHECKBOX_MAPPINGS. */
  datatype Category = Sex | MaritalStatus | PurposeOfTrip | VisaType | VisaDuration

  /** FIELD_COORDINATES: where each field is written, y measured from the
      top of the page; `None` for a field the table does not list. */
  function FieldCoordinates(f: Field): Option<Point> {
    match f
    // Sections 01 to 10: name, birth, contact, nationality and passport.
    case FirstName => Some(Point(67, 154))
    case MiddleName => Some(Point(198, 154))
    case LastName => Some(Point(323, 154))
    case PlaceOfBirth => Some(Point(72, 178))
    case Dob => Some(Point(198, 188))
    case Mobile => Some(Point(328, 178))
    case PresentNationality => Some(Point(72, 210))
    case NationalityOfOrigin => Some(Point(198, 210))
    case Email => Some(Point(328, 210))
    case PassportNumber => Some(Point(72, 238))
    case IssuingCountry => Some(Point(198, 238))
    case PassportExpiry => Some(Point(328, 248))
    // Sections 11 to 17: address, sex, phone, visa refusal, job title, residency, marital status.
    case UaeAddress => Some(Point(72, 270))
    case CheckboxFemale => Some(Point(380, 259))
    case CheckboxMale => Some(Point(415, 259))
    case HomePhone => Some(Point(459, 270))
    case VisaRefusalDetails => Some(Point(72, 307))
    case JobTitle => Some(Point(328, 298))
    case UaeResidencyExpiry => Some(Point(328, 323))
    case CheckboxSingle => Some(Point(364, 347))
    case CheckboxMarried => Some(Point(357, 366))
    case CheckboxDivorced => Some(Point(435, 348))
    case CheckboxWidowed => Some(Point(433, 366))
    // Sections 18 to 25: previous visits, trip duration, criminal record, purpose of trip, contact, stay, travel dates.
    case LebanonPreviousVisits => Some(Point(72, 402))
    case TripStartDate => Some(Point(328, 393))
    case TripEndDate => Some(Point(420, 393))
    case CriminalRecordDetails => Some(Point(72, 460))
    case CheckboxBusiness => Some(Point(339, 415))
    case CheckboxEducation => Some(Point(339, 424))
    case CheckboxTourism => Some(Point(337, 433))
    case CheckboxFamilyVisit => Some(Point(337, 443))
    case CheckboxOfficial => Some(Point(337, 452))
    case CheckboxOtherPurpose => Some(Point(337, 460))
    case OtherPurposeText => Some(Point(430, 460))
    case ContactPerson => Some(Point(72, 482))
    case LebanonAddress => Some(Point(72, 507))
    case ArrivalDate => Some(Point(72, 544))
    case DepartureDate => Some(Point(328, 544))
    // Section 26 and the foot of the page: visa type and duration checkboxes, signature date, accompaniment.
    case CheckboxSingleEntry => Some(Point(68, 577))
    case CheckboxTwoEntry => Some(Point(68, 599))
    case CheckboxMultipleEntry => Some(Point(68, 620))
    case Checkbox15Days => Some(Point(272, 575))
    case CheckboxOneMonth => Some(Point(354, 575))
    case CheckboxThreeMonths => Some(Point(271, 584))
    case CheckboxSixMonths => Some(Point(353, 583))
    case SignatureDate => Some(Point(295, 644))
    case AccompaniedByArabic => Some(Point(450, 750))
    case VisaTypeLabel => None
  }

  /** CHECKBOX_MAPPINGS: per category, each accepted (lower-case) value and
      the checkbox it selects. */
  function CheckboxMappings(c: Category): map<string, Field> {
    match c
    case Sex => SexBoxes
    case MaritalStatus => MaritalStatusBoxes
    case PurposeOfTrip => PurposeOfTripBoxes
    case VisaType => VisaTypeBoxes
    case VisaDuration => VisaDurationBoxes
  }

  /** The "sex" category. */
  const SexBoxes: map<string, Field> :=
    map[
      "female" := CheckboxFemale,
      "male" := CheckboxMale,
      "f" := CheckboxFemale,
      "m" := CheckboxMale
    ]

  /** The "marital_status" category. */
  const MaritalStatusBoxes: map<string, Field> :=
    map[
      "single" := CheckboxSingle,
      "married" := CheckboxMarried,
      "divorced" := CheckboxDivorced,
      "widowed" := CheckboxWidowed
    ]

  /** The "purpose_of_trip" category. */
  const PurposeOfTripBoxes: map<string, Field> :=
    map[
      "business" := CheckboxBusiness,
      "education" := CheckboxEducation,
      "tourism" := CheckboxTourism,
      "family_visit" := CheckboxFamilyVisit,
      "family visit" := CheckboxFamilyVisit,
      "official" := CheckboxOfficial,
      "other" := CheckboxOtherPurpose
    ]

  /** The "visa_type" category. */
  const VisaTypeBoxes: map<string, Field> :=
    map[
      "single_entry" := CheckboxSingleEntry,
      "single" := CheckboxSingleEntry,
      "two_entry" := CheckboxTwoEntry,
      "double" := CheckboxTwoEntry,
      "multiple_entry" := CheckboxMultipleEntry,
      "multiple" := CheckboxMultipleEntry
    ]

  /** The "visa_duration" category. */
  const VisaDurationBoxes: map<string, Field> :=
    map[
      "15_days" := Checkbox15Days,
      "15 days" := Checkbox15Days,
      "one_month" := CheckboxOneMonth,
      "1_month" := CheckboxOneMonth,
      "1 month" := CheckboxOneMonth,
      "three_months" := CheckboxThreeMonths,
      "3_months" := CheckboxThreeMonths,
      "3 months" := CheckboxThreeMonths,
      "six_months" := CheckboxSixMonths,
      "6_months" := CheckboxSixMonths,
      "6 months" := CheckboxSixMonths
    ]

  /** TEXT_FIELD_MAPPINGS, in declaration order: dotted record path and the
      field it fills. */
  const TextFieldMappings: seq<(string, Field)> :=
    [
      ("personal_info.first_name", FirstName),
      ("personal_info.middle_name", MiddleName),
      ("personal_info.last_name", LastName),
      ("personal_info.place_of_birth", PlaceOfBirth),
      ("personal_info.date_of_birth", Dob),
      ("personal_info.mobile", Mobile),
      ("personal_info.present_nationality", PresentNationality),
      ("personal_info.nationality_of_origin", NationalityOfOrigin),
      ("passport_info.passport_number", PassportNumber),
      ("passport_info.issuing_country", IssuingCountry),
      ("passport_info.expiry_date", PassportExpiry),
      ("residence_info.uae_address", UaeAddress),
      ("residence_info.uae_residency_expiry", UaeResidencyExpiry),
      ("travel_history.visa_refusal_details", VisaRefusalDetails),
      ("travel_history.lebanon_previous_visits", LebanonPreviousVisits),
      ("travel_history.criminal_record_details", CriminalRecordDetails),
      ("trip_info.start_date", TripStartDate),
      ("trip_info.end_date", TripEndDate),
      ("trip_info.other_purpose", OtherPurposeText),
      ("trip_info.arrival_date", ArrivalDate),
      ("trip_info.departure_date", DepartureDate),
      ("accommodation_info.contact_person", ContactPerson),
      ("accommodation_info.lebanon_address", LebanonAddress),
      ("signature_date", SignatureDate),
      ("accompanied_by_arabic", AccompaniedByArabic)
    ]

  /** The three tables as the filler receives them. */
  datatype Tables = Tables(
    coordinates: Field -> Option<Point>,
    checkboxes: Category -> map<string, Field>,
    textFields: seq<(string, Field)>)

  /** The tables of this form. */
  const Form := Tables(FieldCoordinates, CheckboxMappings, TextFieldMappings)

  predicate WithinPage(p: Point) {
    0 <= p.x <= PageWidth && 0 <= p.y <= PageHeight
  }

  /** Every value of `targets` selects a field that has coordinates. */
  predicate Drawable(targets: map<string, Field>) {
    forall v :: v in targets ==> FieldCoordinates(targets[v]).Some?
  }

  /** Every field of the table lies on the 612 x 792 page. */
  lemma CoordinatesWithinPage()
    ensures forall f :: FieldCoordinates(f).Some? ==> WithinPage(FieldCoordinates(f).value)
  {
    forall f | FieldCoordinates(f).Some?
      ensures WithinPage(FieldCoordinates(f).value)
    {
      match f
      case _ =>
    }
  }

  /** Every checkbox any category can select has coordinates. */
  lemma CheckboxTargetsDrawable()
    ensures forall c :: Drawable(CheckboxMappings(c))
  {
    forall c ensures Drawable(CheckboxMappings(c)) {
      match c
      case Sex => SexAboveVisaBoxes();
      case MaritalStatus => MaritalStatusAboveVisaBoxes();
      case PurposeOfTrip => PurposeOfTripAboveVisaBoxes();
      case VisaType => VisaTypeDrawable();
      case VisaDuration => VisaDurationDrawable();
    }
  }

  lemma VisaTypeDrawable() ensures Drawable(VisaTypeBoxes) { }
  lemma VisaDurationDrawable() ensures Drawable(VisaDurationBoxes) { }

  /** Every field a record path fills has coordinates. */
  lemma TextTargetsDrawable()
    ensures forall i :: 0 <= i < |TextFieldMappings| ==> FieldCoordinates(TextFieldMappings[i].1).Some?
  {
  }

  /** The visa-type values are all lower case, so a lower-cased record value
      can reach each of them. */
  lemma VisaTypeKeysLowercase()
    ensures forall v :: v in CheckboxMappings(VisaType) ==> Lower(v) == v
  {
  }

  /** Six spellings, three checkboxes. */
  lemma VisaTypeSynonyms()
    ensures CheckboxMappings(VisaType) == map[
      "single" := CheckboxSingleEntry, "single_entry" := CheckboxSingleEntry,
      "double" := CheckboxTwoEntry, "two_entry" := CheckboxTwoEntry,
      "multiple" := CheckboxMultipleEntry, "multiple_entry" := CheckboxMultipleEntry]
  {
  }

  /** The keys of the visa-type category are the six spellings. */
  lemma VisaTypeKeys(v: string)
    ensures v in CheckboxMappings(VisaType) <==>
      v == "single_entry" || v == "single" || v == "two_entry" || v == "double"
      || v == "multiple_entry" || v == "multiple"
  {
  }

  /** Both durations the filler derives select a box with coordinates. */
  lemma DerivedDurationsDrawable()
    ensures "three_months" in CheckboxMappings(VisaDuration)
    ensures "six_months" in CheckboxMappings(VisaDuration)
    ensures CheckboxMappings(VisaDuration)["three_months"] == CheckboxThreeMonths
    ensures CheckboxMappings(VisaDuration)["six_months"] == CheckboxSixMonths
  {
  }

  /** Every box `targets` can select has coordinates above the line y = `y`. */
  predicate AboveLine(targets: map<string, Field>, y: int) {
    forall v :: v in targets ==> FieldCoordinates(targets[v]).Some? && FieldCoordinates(targets[v]).value.y < y
  }

  /** The boxes of sex, marital status and purpose of trip all lie above
      y = 575, the top of the visa-type and duration boxes. */
  lemma OtherCategoriesAboveVisaBoxes()
    ensures AboveLine(CheckboxMappings(Sex), 575)
    ensures AboveLine(CheckboxMappings(MaritalStatus), 575)
    ensures AboveLine(CheckboxMappings(PurposeOfTrip), 575)
  {
    SexAboveVisaBoxes();
    MaritalStatusAboveVisaBoxes();
    PurposeOfTripAboveVisaBoxes();
  }

  lemma SexAboveVisaBoxes() ensures AboveLine(SexBoxes, 575) { }
  lemma MaritalStatusAboveVisaBoxes() ensures AboveLine(MaritalStatusBoxes, 575) { }
  lemma PurposeOfTripAboveVisaBoxes() ensures AboveLine(PurposeOfTripBoxes, 575) { }

  /** The two spellings of each visa type select its box. */
  lemma SingleEntryTargets()
    ensures "single_entry" in CheckboxMappings(VisaType) && "single" in CheckboxMappings(VisaType)
    ensures CheckboxMappings(VisaType)["single_entry"] == CheckboxSingleEntry
    ensures CheckboxMappings(VisaType)["single"] == CheckboxSingleEntry
  {
  }

  lemma TwoEntryTargets()
    ensures "two_entry" in CheckboxMappings(VisaType) && "double" in CheckboxMappings(VisaType)
    ensures CheckboxMappings(VisaType)["two_entry"] == CheckboxTwoEntry
    ensures CheckboxMappings(VisaType)["double"] == CheckboxTwoEntry
  {
  }

  lemma MultipleEntryTargets()
    ensures "multiple_entry" in CheckboxMappings(VisaType) && "multiple" in CheckboxMappings(VisaType)
    ensures CheckboxMappings(VisaType)["multiple_entry"] == CheckboxMultipleEntry
    ensures CheckboxMappings(VisaType)["multiple"] == CheckboxMultipleEntry
  {
  }

  /** The accompaniment text is never blank, whatever name follows the
      prefix: the prefix starts with a letter. */
  lemma PrefixedNonBlank(name: string)
    ensures NonBlank(ArabicAccompaniedByPrefix + name)
  {
    var text := ArabicAccompaniedByPrefix + name;
    assert text[0] == '\U{FE91}';
    NonBlankIff(text);
  }

  /** The accompaniment field of the form sits at (450, 750). */
  lemma AccompanimentField()
    ensures Form.coordinates(AccompaniedByArabic) == Some(Point(450, 750))
  {
  }

  /** The trip dates of section 19 sit at (328, 393) and (420, 393). */
  lemma TripDateFields()
    ensures Form.coordinates(TripStartDate) == Some(Point(328, 393))
    ensures Form.coordinates(TripEndDate) == Some(Point(420, 393))
  {
  }
}
