# Lebanon visa form filler — a verified model

This project models the engine that fills the Lebanon visa application form.
The engine lives in `fill_visa_form.py` and its constant tables in
`field_config.py`. The filler takes an applicant record (decoded JSON) and
does three things to page 1 of a blank PDF template:

1. it whites out the pre-printed trip dates of section 19;
2. it marks the visa-type and visa-duration checkboxes;
3. it writes the text fields, the two copied trip dates and the Arabic
   "accompanied by" line. It would also write a pricing label, but the
   coordinate table gives that field no position, so it never does.

It also returns the applicant's full name.

The page is modelled as an append-only log of drawing operations (`Pdf.Page`,
a class whose `log: seq<Op>` every drawing method extends). The record is the
recursive datatype `Record.Value`. Each step of the filler is a method on the
page. Each method is proved to append exactly what a specification function
of the record describes, or to fail with the exception the Python code would
raise on a record of the wrong shape. Lemmas about those functions then state
what the filler promises.

Modules:

- `Strings`: whitespace, `strip`, ASCII case mapping, split and join.
- `Record`: JSON values and `get_nested_value`.
- `Pdf`: points, fonts, drawing operations and the page.
- `FieldConfig`: the tables and the facts about them.
- `VisaForm`: the engine.
- `FillFacts`: properties of the engine over all records.

Two consequences of the code that are easy to miss:

- `TEXT_FIELD_MAPPINGS` maps the record key `accompanied_by_arabic` to the
  field of the same name. The table loop therefore writes that record value
  in Helvetica at (450, 750), in addition to the Arabic line that
  `accompany_name` produces at the same point.
- The table loop tests the value's truthiness, not whether its `str()` is
  blank. A value of 0, `False`, `[]` or `{}` is skipped even though its text
  is not blank. A string of spaces passes the loop's test, and `insert_text`
  then refuses it.

## Model

| member | source | states |
|---|---|---|
| Strings.StripLeft | fill_visa_form.py:98 | the result is a suffix of the input that does not start with whitespace, and everything removed is whitespace |
| Strings.StripRight | fill_visa_form.py:98 | the result is a prefix of the input that does not end with whitespace, and everything removed is whitespace |
| Strings.Strip | fill_visa_form.py:98 | the result is no longer than the text, and neither starts nor ends with whitespace |
| Strings.StripInfix | fill_visa_form.py:98 | the result is a contiguous piece of the text, and everything before and after it is whitespace |
| Strings.StripEmptyIff | fill_visa_form.py:98 | `strip()` leaves nothing exactly when every character is whitespace |
| Strings.NonBlankIff | fill_visa_form.py:98 | `text and text.strip()` holds exactly when some character is not whitespace |
| Strings.Lower | fill_visa_form.py:147 | same length; no capital letter remains; each capital becomes the small letter that upper-cases back to it; every other character is unchanged |
| Strings.LowerFixedIff | fill_visa_form.py:147 | `lower()` leaves a text unchanged iff it has no capital letter |
| Strings.Upper | fill_visa_form.py:88 | same length; no small letter remains; each small letter becomes the capital that lower-cases back to it; every other character is unchanged |
| Strings.UpperFixedIff | fill_visa_form.py:88 | `upper()` leaves a text unchanged iff it has no small letter |
| Strings.Split | fill_visa_form.py:62 | at least one piece, and no piece contains the separator |
| Strings.JoinSplit | fill_visa_form.py:62 | joining the pieces of a split with the separator gives back the text |
| Strings.Join | fill_visa_form.py:91 | `sep.join(parts)`; its properties are stated by JoinSplit, SplitJoin and FillFacts.JoinEmptyIff |
| Strings.SplitJoin | fill_visa_form.py:91 | splitting a join of separator-free pieces gives back the pieces |
| Strings.SplitNoSep | fill_visa_form.py:62 | a text without the separator splits into itself alone |
| Strings.SplitPrefix | fill_visa_form.py:62 | a separator-free head followed by the separator becomes the first piece |
| Record.GetNestedValue | fill_visa_form.py:57-69 | `get_nested_value`: the lookup of the dot-separated segments from the record; its properties are stated by GetNestedValueTopLevel, GetNestedValueDotted, WalkFollowsSegments, WalkSomeIff and WalkAppend |
| Record.WalkAppend | fill_visa_form.py:62-69 | looking up `a + b` is looking up `a`, then `b` from where `a` ended; a failure on the way to `a` is final |
| Record.WalkFollowsSegments | fill_visa_form.py:64-68 | the lookup follows the segments in order; a segment that meets a non-object or a missing key ends the lookup with None, whatever follows |
| Record.WalkSomeIff | fill_visa_form.py:64-69 | a lookup succeeds iff every prefix of the path reaches an object holding the next segment |
| Record.GetNestedValueTopLevel | fill_visa_form.py:57-69 | a dot-free path looks up its key, and gives None when the key is missing |
| Record.GetNestedValueDotted | fill_visa_form.py:57-69 | `head.rest` is `rest` looked up inside the object at `head`, and None when `head` is missing or not an object |
| Pdf.Page.constructor | fill_visa_form.py:312-315 | the template page starts with nothing drawn by the filler |
| Pdf.Page.InsertText | fill_visa_form.py:101-107 | appends one text operation with the given point, text, font and size |
| Pdf.Page.DrawRect | fill_visa_form.py:126 | appends one rectangle |
| FieldConfig.FieldCoordinates | field_config.py:18-142 | `FIELD_COORDINATES`; its properties are stated by CoordinatesWithinPage, AccompanimentField, TripDateFields and the drawability lemmas below |
| FieldConfig.CheckboxMappings | field_config.py:145-188 | `CHECKBOX_MAPPINGS`; its properties are stated by CheckboxTargetsDrawable, the visa-type and duration lemmas and the lemmas on boxes above y = 575 |
| FieldConfig.CoordinatesWithinPage | field_config.py:18-142 | every field with coordinates lies on the 612 x 792 page |
| FieldConfig.CheckboxTargetsDrawable | field_config.py:145-188 | every checkbox that any category can select has coordinates |
| FieldConfig.VisaTypeDrawable | field_config.py:167-174 | every visa-type box has coordinates |
| FieldConfig.VisaDurationDrawable | field_config.py:175-187 | every duration box has coordinates |
| FieldConfig.TextTargetsDrawable | field_config.py:191-220 | every field that a record path of `TEXT_FIELD_MAPPINGS` (the constant `TextFieldMappings`) fills has coordinates |
| FieldConfig.VisaTypeKeysLowercase | field_config.py:167-174 | every visa-type key is its own lower-case form, so a lower-cased record value can reach it |
| FieldConfig.VisaTypeSynonyms | field_config.py:167-174 | the six visa-type spellings select exactly three boxes |
| FieldConfig.VisaTypeKeys | field_config.py:167-174 | a value is a visa-type key iff it is one of the six spellings |
| FieldConfig.DerivedDurationsDrawable | field_config.py:181-184 | `three_months` and `six_months` are keys, and they select the three-month and six-month boxes |
| FieldConfig.OtherCategoriesAboveVisaBoxes | field_config.py:146-166 | every box of sex, marital status and purpose of trip lies above y = 575 |
| FieldConfig.SexAboveVisaBoxes | field_config.py:146-151 | every sex box lies above y = 575 |
| FieldConfig.MaritalStatusAboveVisaBoxes | field_config.py:152-157 | every marital-status box lies above y = 575 |
| FieldConfig.PurposeOfTripAboveVisaBoxes | field_config.py:158-166 | every purpose-of-trip box lies above y = 575 |
| FieldConfig.SingleEntryTargets | field_config.py:168-169 | "single_entry" and "single" select the single-entry box |
| FieldConfig.TwoEntryTargets | field_config.py:170-171 | "two_entry" and "double" select the two-entry box |
| FieldConfig.MultipleEntryTargets | field_config.py:172-173 | "multiple_entry" and "multiple" select the multiple-entry box |
| FieldConfig.PrefixedNonBlank | field_config.py:223 | the prefix followed by any name is never blank |
| FieldConfig.AccompanimentField | field_config.py:141 | the accompaniment field is at (450, 750) |
| FieldConfig.TripDateFields | field_config.py:85-86 | the trip start and trip end fields are at (328, 393) and (420, 393) |
| VisaForm.InsertText | fill_visa_form.py:94-107 | appends the text in Helvetica at the point and size, or nothing when the text is blank |
| VisaForm.InsertCheckbox | fill_visa_form.py:110-119 | appends an "X" in Helvetica 10 at the point |
| VisaForm.RedactArea | fill_visa_form.py:122-126 | appends the rectangle from (x, y) to (x + width, y + height) |
| VisaForm.RedactExistingDates | fill_visa_form.py:129-134 | appends the rectangle (328, 382)-(543, 394) |
| VisaForm.KeptNames | fill_visa_form.py:86-89 | the loop appends, in order, each part that is a non-empty string other than "N/A" in any case, and skips every falsy part whatever its type; it fails iff some part is truthy but not a string, and the error names such a part |
| VisaForm.ExtractFullName | fill_visa_form.py:78-91 | `extract_full_name`; its properties are stated by FillFacts.FullNameContent, FullNameFailsIff and FullNameJoinsKeptParts |
| VisaForm.FillCheckboxes | fill_visa_form.py:137-165 | appends the visa-type mark, if any, then the duration mark, if any, or fails as `.get` or `.lower()` would |
| VisaForm.FirstWorking | fill_visa_form.py:222-236 | the index found is the first font that works, and None means no font works |
| VisaForm.FirstWorkingAt | fill_visa_form.py:222-233 | a working font with only failing fonts before it is the one chosen |
| VisaForm.NoneWorking | fill_visa_form.py:222-236 | when every font fails, none is chosen |
| VisaForm.InsertArabicText | fill_visa_form.py:198-251 | appends the drawing that `ArabicItem` describes: nothing for blank text |
| VisaForm.DrawWithFallback | fill_visa_form.py:219-251 | appends the text in the first font that works, else in Helvetica if that works, else nothing |
| VisaForm.FillMappedFields | fill_visa_form.py:256-260 | appends the items of the path-table entries, in table order |
| VisaForm.MappedItemsStep | fill_visa_form.py:256-260 | after entry i, the loop has written what it wrote before plus the item of entry i |
| VisaForm.FillCopiedDate | fill_visa_form.py:262-280 | appends one record value to each of two fields that have coordinates |
| VisaForm.FillBoth | fill_visa_form.py:262-280 | appends the copied text at the first field, then at the second |
| VisaForm.FillField | fill_visa_form.py:265-270 | appends the copied text at the field, or nothing when the field has no coordinates |
| VisaForm.FillAccompaniment | fill_visa_form.py:282-288 | appends the Arabic accompaniment line, or fails when the name is truthy but not a string |
| VisaForm.FillVisaTypeLabel | fill_visa_form.py:290-297 | appends the pricing label, or fails when the type is truthy but not a string |
| VisaForm.FillTextFields | fill_visa_form.py:254-297 | appends the table items, the two copied dates, the accompaniment and the label, in that order, or fails with the first exception |
| VisaForm.FillPage | fill_visa_form.py:311-324 | a fresh page receives the redaction, then the checkbox marks, then the text items, or the first exception |
| VisaForm.GenerateFilledPdfBytes | fill_visa_form.py:300-338 | succeeds iff the page can be filled and the full name extracted; returns that page and that name, and otherwise the first failure |
| FillFacts.NotApplicableSpellings | fill_visa_form.py:88 | a part is dropped as "N/A" iff it is one of the four case variants of "N/A" |
| FillFacts.JoinEmptyIff | fill_visa_form.py:91 | joining non-empty parts gives "" iff there are no parts |
| FillFacts.FullNameJoinsKeptParts | fill_visa_form.py:78-91 | at most three parts are kept; the full name is "" iff all parts are dropped; and when no part contains a space, splitting the name on spaces gives back the parts |
| FillFacts.FullNameContent | fill_visa_form.py:78-91 | whenever extraction succeeds, the full name is first, middle and last, each only if it is a kept string, joined by single spaces; a missing `personal_info` or key reads as "" and falsy parts of any type are left out |
| FillFacts.FullNameFailsIff | fill_visa_form.py:80-88 | extraction raises iff `personal_info` is present but not an object, or some name part is truthy but not a string |
| FillFacts.FullNameExample | fill_visa_form.py:78-91 | Ali / n/a / Haddad gives "Ali Haddad" |
| FillFacts.NullMiddleNameExample | fill_visa_form.py:78-91 | Ali / null / Haddad gives "Ali Haddad" |
| FillFacts.AliHaddad | fill_visa_form.py:78-91 | Ali and Haddad around any middle part that contributes nothing give "Ali Haddad" |
| FillFacts.CategoryMarkAt | fill_visa_form.py:148-152 | a value that selects a box with coordinates gets that box's mark |
| FillFacts.TypeMark | fill_visa_form.py:146-152 | the visa-type mark is at (68, 577), (68, 599) or (68, 620) for the two spellings of each type, and is absent for any other type |
| FillFacts.SingleEntryMark | fill_visa_form.py:148-152 | "single_entry" and "single" are marked at (68, 577) |
| FillFacts.TwoEntryMark | fill_visa_form.py:148-152 | "two_entry" and "double" are marked at (68, 599) |
| FillFacts.MultipleEntryMark | fill_visa_form.py:148-152 | "multiple_entry" and "multiple" are marked at (68, 620) |
| FillFacts.NoTypeMark | fill_visa_form.py:148 | any other visa type gets no visa-type mark |
| FillFacts.DurationMark | fill_visa_form.py:154-165 | exactly one duration mark is drawn: six months at (353, 583) for "multiple_entry" and "multiple", three months at (271, 584) otherwise |
| FillFacts.SixMonthsMark | fill_visa_form.py:161-165 | the six-month duration is marked at (353, 583) |
| FillFacts.ThreeMonthsMark | fill_visa_form.py:161-165 | the three-month duration is marked at (271, 584) |
| FillFacts.FormCheckboxMarks | fill_visa_form.py:137-165 | the form's marks for a record are the visa-type mark, if any, followed by exactly one duration mark |
| FillFacts.MarksBelowLine | fill_visa_form.py:140-141 | no mark is drawn above y = 575, so no box of sex, marital status or purpose of trip is marked |
| FillFacts.TypeBoxIff | fill_visa_form.py:148 | a visa-type box is marked iff the lower-cased type is a key of the visa-type mapping |
| FillFacts.EntryItemWrites | fill_visa_form.py:257-260 | a table entry writes at most one item: its value's text at its field in Helvetica 9, iff the path resolves to a truthy value with non-blank text and the field has coordinates |
| FillFacts.MappedItemsAppend | fill_visa_form.py:256 | the loop over a longer table writes the items of its first part, then those of the rest |
| FillFacts.MappedItemsLast | fill_visa_form.py:256-260 | the loop over a non-empty table ends with the item of its last entry |
| FillFacts.MappedItemsInOrder | fill_visa_form.py:256 | the item of entry i comes after those of the earlier entries and before those of the later ones |
| FillFacts.MappedItemsBound | fill_visa_form.py:256-260 | the loop writes at most one item per entry |
| FillFacts.MappedItemsExactly | fill_visa_form.py:256-260 | an item appears iff some table entry writes it |
| FillFacts.MappedItemsMembers | fill_visa_form.py:256-260 | the loop's items are exactly the items of its entries |
| FillFacts.MappedItemFromEntry | fill_visa_form.py:256-260 | every item of the loop comes from some entry of the table |
| FillFacts.CopiedToBoth | fill_visa_form.py:262-280 | a copied value is written, in the same text, to both of its fields or to neither |
| FillFacts.CopiedValue | fill_visa_form.py:262-280 | a truthy value is written as its text at both fields, and the text shown is that text when it is not blank |
| FillFacts.CopiedTextAt | fill_visa_form.py:265-270 | a text copied to two fields with coordinates gives two Helvetica items at their points, or none when the text is blank |
| FillFacts.DepartureDateCopied | fill_visa_form.py:262-270 | the departure date from Dubai goes to (328, 393) and (72, 544), or nowhere |
| FillFacts.ArrivalDateCopied | fill_visa_form.py:272-280 | the arrival date to Dubai goes to (420, 393) and (328, 544), or nowhere |
| VisaForm.TranslateToArabic | fill_visa_form.py:168-184 | `translate_to_arabic`; its property is stated by FillFacts.TranslationFallsBack |
| VisaForm.ReshapeArabicText | fill_visa_form.py:187-195 | `reshape_arabic_text`: the oracle `shape` with Arabic support, the text itself without; ArabicFontChoice and AccompanimentAt state what is drawn from it |
| FillFacts.TranslationFallsBack | fill_visa_form.py:168-184 | the translation differs from the name only when translation support is present, the name is not blank and the service answered with that text |
| FillFacts.FallbackChoice | fill_visa_form.py:219-251 | at most one item is drawn, in the first font of the chain that works, or in Helvetica only when every font failed; nothing is drawn only when Helvetica failed too |
| FillFacts.ArabicFontChoice | fill_visa_form.py:198-251 | nothing is drawn for blank text; otherwise the shaped text is drawn once, in the first of the seven fonts that works, or in Helvetica only when all seven failed |
| FillFacts.AccompanimentAt | fill_visa_form.py:282-288 | a drawn accompaniment is one item: the shaped prefix plus the translated string name, at the field's point, in the bottom-label size |
| FillFacts.AccompanimentDrawn | fill_visa_form.py:282-288 | on the form, that item is at (450, 750) |
| FillFacts.AccompanimentUntranslated | fill_visa_form.py:170-172 | without translation or reshaping support, the prefix is followed by the name unchanged, in the first font when that font works |
| FillFacts.FirstFontWorks | fill_visa_form.py:222-233 | unshaped non-blank text is drawn as it is in the first font when that font works |
| FillFacts.LabelWithoutCoordinates | fill_visa_form.py:290-297 | when the label field has no coordinates, no label is drawn and the type is never lower-cased |
| FillFacts.PricingLabelNeverDrawn | fill_visa_form.py:292 | on the form the pricing label is never drawn and never raises |
| FillFacts.MappedItemsAllText | fill_visa_form.py:256-260 | the table loop draws only text |
| FillFacts.CopiedItemsAllText | fill_visa_form.py:262-280 | the copied dates are only text |
| FillFacts.FieldItemAllText | fill_visa_form.py:265-270 | one copied field is only text |
| FillFacts.AccompanimentAllText | fill_visa_form.py:282-288 | the accompaniment is only text |
| FillFacts.ArabicItemAllText | fill_visa_form.py:198-251 | `insert_arabic_text` draws only text |
| FillFacts.FallbackAllText | fill_visa_form.py:219-251 | the font fallback draws only text |
| FillFacts.LabelAllText | fill_visa_form.py:290-297 | the pricing label is only text |
| FillFacts.TextFieldItemsAllText | fill_visa_form.py:254-297 | `fill_text_fields` draws only text |
| FillFacts.CheckboxMarksAllText | fill_visa_form.py:137-165 | the checkbox marks are only text |
| FillFacts.RedactionBeforeText | fill_visa_form.py:317-324 | the redaction followed by text-only logs is a page that starts with the redaction and has only text after it |
| FillFacts.FilledPageShape | fill_visa_form.py:317-324 | a filled page starts with the white rectangle, and everything after it is text, so nothing the filler writes is covered |
| FillFacts.RedactionCoversTripDates | fill_visa_form.py:129-134 | the new trip start and trip end dates are written inside the whited-out area |

## Left out

- PDF serialisation: opening the template, `tobytes` with garbage
  collection, compression and cleaning, and closing the document are not
  modelled. The result holds the drawing log of page 1 in place of the bytes.
- Colours: text is always black and the rectangle white, so neither is
  recorded.
- `load_applicant_data`, `fill_visa_form` and `main` are left out: they do
  file I/O and command-line handling. So are the progress and warning
  messages, and the `last_error` bookkeeping that only feeds a message.
- Every diagnostic `print` is assumed to return normally. Some of them
  sit where an exception would change the outcome, and the model does not
  capture what a raising print would do. For example, a stdout whose
  encoding cannot write "✓" or "⚠" raises `UnicodeEncodeError`.
  - fill_visa_form.py:180 is inside the `try`. If it raised, the name
    would be kept untranslated.
  - A raising print at :171 or :183 would propagate out of
    `translate_to_arabic` and `generate_filled_pdf_bytes`.
  - :232 runs after the text was drawn. If it raised, the `except` at :234
    would continue the loop, so the text could be drawn again in each later
    font that works.
  - :241 runs before the Helvetica attempt. If it raised, that attempt
    would be skipped.
  - :249 runs after Helvetica has drawn the text. If it raised, only the
    error message would follow.
  - A raising print at :251 would propagate out of the filler.
- The import-time probes for the translator, the reshaper and the bidi
  library become the `translationSupport` and `arabicSupport` flags of
  `VisaForm.Env`.
- The translation service is the oracle `translate`, with None when the
  call raises. Reshaping plus bidi reordering is the oracle `shape`.
  Whether the calls of PyMuPDF's `page.insert_text` inside the font
  fallback of `insert_arabic_text` (fill_visa_form.py:224 and :242) succeed (each preferred font, then Helvetica) is
  the oracle `fontWorks`. The Helvetica calls of the plain `insert_text`
  and `insert_checkbox` helpers are assumed to succeed; a failure there
  would be an exception the filler does not catch, and it is not
  modelled. `str()` of an object is `showDict`.
- `VISA_TYPE_LABELS` and `BOTTOM_LABEL_FONT_SIZE` are imported from the
  configuration file but not defined in it. They are the parameters
  `visaTypeLabels` and `bottomLabelFontSize` of `VisaForm.Env`.
- Strings.Lower and Strings.Upper map ASCII letters only; Python's
  `lower()` and `upper()` also map other scripts. This is exact for the
  "N/A" comparison and for the visa-type keys, but it can differ for a
  non-ASCII visa type looked up in `visaTypeLabels`.
- A JSON number, boolean, array or null is kept only as its `str()` text
  and its truthiness (`Record.Value.Scalar`). Which texts Python prints for
  them is not modelled.
- Field names are an enumeration (`FieldConfig.Field`). `FIELD_COORDINATES`
  and `CHECKBOX_MAPPINGS` are functions over that enumeration rather than
  dictionaries keyed by strings. The filler only looks keys up that are
  string constants of its own, so a missing key becomes `None`.
- When a step raises, the model reports the exception and drops the
  partly drawn page, as the caller never receives it.
- Coordinates are integers, as in the tables. The floating-point positions
  that PyMuPDF computes from them are not modelled.
