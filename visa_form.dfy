/** The form filler: which operations it appends to the page for a given
    applicant record, step by step, and in which order.

    Each step of the filler has a function that says what the step appends to
    the page log (or which exception it raises), and a method that performs
    the step on a `Page` and is proved to append exactly that. */
module VisaForm {
  import opened Strings
  import opened Record
  import opened Pdf
  import opened FieldConfig

  /** The exceptions a record of the wrong shape makes the filler raise. */
  datatype Failure =
    | NotADict(key: string)    // `.get` on a value that is not an object
    | NotAString(key: string)  // a string method or `+` on a value that is not a string

  datatype Result<T> = Ok(value: T) | Err(error: Failure)

  datatype Outcome = Pass | Fail(error: Failure)

  function OutcomeOf<T>(r: Result<T>): Outcome {
    match r
    case Ok(_) => Pass
    case Err(e) => Fail(e)
  }

  /** Everything the filler takes from outside its own code: which optional
      libraries were importable, the translation service (`None` when the
      call raises), the Arabic reshaping and bidi reordering, whether drawing
      with a given font succeeds, `str()` of an object, and the two settings
      it imports that its configuration file does not define. */
  datatype Env = Env(
    translationSupport: bool,
    arabicSupport: bool,
    translate: string -> Option<string>,
    shape: string -> string,
    fontWorks: Font -> bool,
    showDict: map<string, Value> -> string,
    visaTypeLabels: map<string, string>,
    bottomLabelFontSize: int)

  // ---------------------------------------------------------------------
  // Drawing primitives

  /** What `insert_text` draws: the text in Helvetica, unless it is blank. */
  function TextItem(at: Point, text: string, size: int): seq<Op> {
    if NonBlank(text) then [Text(at, text, Builtin(FontName), size)] else []
  }

  /** The checkbox mark `insert_checkbox` draws. */
  function Mark(at: Point): Op {
    Text(at, CheckboxChar, Builtin(FontName), CheckboxFontSize)
  }

  /** The white rectangle over the pre-printed trip dates of section 19. */
  const RedactedDates := Rect(328, 382, 543, 394)

  method InsertText(page: Page, at: Point, text: string, size: int)
    modifies page
    ensures page.log == old(page.log) + TextItem(at, text, size)
  {
    if |text| > 0 && |Strip(text)| > 0 {
      page.InsertText(at, text, Builtin(FontName), size);
    }
  }

  method InsertCheckbox(page: Page, at: Point)
    modifies page
    ensures page.log == old(page.log) + [Mark(at)]
  {
    page.InsertText(at, CheckboxChar, Builtin(FontName), CheckboxFontSize);
  }

  method RedactArea(page: Page, x: int, y: int, width: int, height: int)
    modifies page
    ensures page.log == old(page.log) + [Rect(x, y, x + width, y + height)]
  {
    page.DrawRect(x, y, x + width, y + height);
  }

  method RedactExistingDates(page: Page)
    modifies page
    ensures page.log == old(page.log) + [RedactedDates]
  {
    RedactArea(page, 328, 382, 215, 12);
  }

  // ---------------------------------------------------------------------
  // Full name

  /** A name part the full name keeps: not empty and not "N/A" in any case. */
  predicate Kept(name: string) {
    name != "" && Upper(name) != "N/A"
  }

  function NamePart(personal: map<string, Value>, key: string): Value {
    if key in personal then personal[key] else Str("")
  }

  /** What one part contributes to the full name: the part itself when it is
      a kept string, nothing otherwise. */
  function KeepPart(v: Value): seq<string> {
    if v.Str? && Kept(v.s) then [v.s] else []
  }

  /** The contributions of the parts, in order. */
  function KeepParts(parts: seq<(string, Value)>): seq<string> {
    if parts == [] then [] else KeepPart(parts[0].1) + KeepParts(parts[1..])
  }

  /** The loop of `extract_full_name` over (key, part) pairs: the kept parts
      in order, or the exception `.upper()` raises on the first part that is
      truthy but not a string. Falsy parts of any type are skipped. */
  function KeptNames(parts: seq<(string, Value)>): (r: Result<seq<string>>)
    ensures r.Ok? ==> |r.value| <= |parts|
    ensures r.Ok? ==> forall i :: 0 <= i < |r.value| ==> Kept(r.value[i])
    ensures r.Ok? ==> r.value == KeepParts(parts)
    ensures r.Ok? <==> forall i :: 0 <= i < |parts| ==> !Truthy(parts[i].1) || parts[i].1.Str?
    ensures r.Err? ==> exists i :: 0 <= i < |parts| && Truthy(parts[i].1) && !parts[i].1.Str?
                                   && r.error == NotAString(parts[i].0)
  {
    if parts == [] then Ok([])
    else
      var key := parts[0].0;
      var part := parts[0].1;
      if Truthy(part) && !part.Str? then Err(NotAString(key))
      else match KeptNames(parts[1..])
        case Err(e) => Err(e)
        case Ok(rest) => Ok(KeepPart(part) + rest)
  }

  /** The parts `extract_full_name` keeps, in first, middle, last order. */
  function FullNameParts(data: map<string, Value>): Result<seq<string>> {
    var personal := if "personal_info" in data then data["personal_info"] else Dict(map[]);
    if !personal.Dict? then Err(NotADict("personal_info"))
    else KeptNames([
      ("first_name", NamePart(personal.fields, "first_name")),
      ("middle_name", NamePart(personal.fields, "middle_name")),
      ("last_name", NamePart(personal.fields, "last_name"))])
  }

  /** `extract_full_name(data)` */
  function ExtractFullName(data: map<string, Value>): Result<string> {
    match FullNameParts(data)
    case Err(e) => Err(e)
    case Ok(names) => Ok(Join(names, ' '))
  }

  // ---------------------------------------------------------------------
  // Checkboxes

  /** `data.get("visa_info", {}).get("type", "").lower()` */
  function VisaTypeOf(data: map<string, Value>): Result<string> {
    var visa := if "visa_info" in data then data["visa_info"] else Dict(map[]);
    if !visa.Dict? then Err(NotADict("visa_info"))
    else
      var kind := if "type" in visa.fields then visa.fields["type"] else Str("");
      if kind.Str? then Ok(Lower(kind.s)) else Err(NotAString("visa_info.type"))
  }

  /** The duration derived from the (lower-cased) visa type. */
  function DerivedDuration(visaType: string): string {
    if visaType == "multiple_entry" || visaType == "multiple" then "six_months" else "three_months"
  }

  /** The mark for `value` in `category`: one, if the category lists the value
      and its checkbox has coordinates; none otherwise. */
  function CategoryMark(t: Tables, category: Category, value: string): seq<Op>
  {
    var targets := t.checkboxes(category);
    if value in targets && t.coordinates(targets[value]).Some?
    then [Mark(t.coordinates(targets[value]).value)]
    else []
  }

  /** What `fill_checkboxes` appends: the visa-type mark, then the duration mark. */
  function CheckboxMarks(data: map<string, Value>, t: Tables): Result<seq<Op>>
  {
    match VisaTypeOf(data)
    case Err(e) => Err(e)
    case Ok(visaType) =>
      Ok(CategoryMark(t, VisaType, visaType) + CategoryMark(t, VisaDuration, DerivedDuration(visaType)))
  }

  method FillCheckboxes(page: Page, data: map<string, Value>, t: Tables) returns (outcome: Outcome)
    modifies page
    ensures outcome == OutcomeOf(CheckboxMarks(data, t))
    ensures outcome.Pass? ==> page.log == old(page.log) + CheckboxMarks(data, t).value
  {
    var visa := if "visa_info" in data then data["visa_info"] else Dict(map[]);
    if !visa.Dict? {
      return Fail(NotADict("visa_info"));
    }
    var kind := if "type" in visa.fields then visa.fields["type"] else Str("");
    if !kind.Str? {
      return Fail(NotAString("visa_info.type"));
    }
    var visaType := Lower(kind.s);
    var typeTargets := t.checkboxes(VisaType);
    if visaType in typeTargets {
      var key := typeTargets[visaType];
      if t.coordinates(key).Some? {
        InsertCheckbox(page, t.coordinates(key).value);
      }
    }
    var duration;
    if visaType == "multiple_entry" || visaType == "multiple" {
      duration := "six_months";
    } else {
      duration := "three_months";
    }
    var durationTargets := t.checkboxes(VisaDuration);
    if duration in durationTargets {
      var key := durationTargets[duration];
      if t.coordinates(key).Some? {
        InsertCheckbox(page, t.coordinates(key).value);
      }
    }
    return Pass;
  }

  // ---------------------------------------------------------------------
  // Translation, shaping and the font fallback chain

  /** `translate_to_arabic(text)` for a string argument. */
  function TranslateToArabic(env: Env, text: string): string {
    if !env.translationSupport then text
    else if !NonBlank(text) then text
    else match env.translate(text)
      case Some(translated) => translated
      case None => text
  }

  /** `reshape_arabic_text(text)` */
  function ReshapeArabicText(env: Env, text: string): string {
    if env.arabicSupport then env.shape(text) else text
  }

  /** The fonts `insert_arabic_text` tries, in order of preference. */
  const FontAttempts: seq<Font> := [
    FontFile("/System/Library/Fonts/GeezaPro.ttc", "GeezaPro"),
    FontFile("/System/Library/Fonts/SFArabic.ttf", "SFArabic"),
    FontFile("/usr/share/fonts/truetype/dejavu/DejaVuSans.ttf", "DejaVuSans"),
    FontFile("/usr/share/fonts/truetype/liberation/LiberationSans-Regular.ttf", "LiberationSans"),
    FontFile("/usr/share/fonts/truetype/noto/NotoSansArabic-Regular.ttf", "NotoSansArabic"),
    FontFile("/usr/share/fonts/truetype/freefont/FreeSans.ttf", "FreeSans"),
    Builtin("figo")
  ]

  /** The font tried when every preferred font has failed. */
  const LastResortFont := Builtin("helv")

  /** The index of the first font that works, if any. */
  function FirstWorking(fonts: seq<Font>, works: Font -> bool): (r: Option<nat>)
    ensures r.Some? ==> r.value < |fonts| && works(fonts[r.value])
    ensures r.Some? ==> forall j :: 0 <= j < r.value ==> !works(fonts[j])
    ensures r.None? ==> forall j :: 0 <= j < |fonts| ==> !works(fonts[j])
  {
    if fonts == [] then None
    else if works(fonts[0]) then Some(0)
    else match FirstWorking(fonts[1..], works)
      case None => None
      case Some(i) => Some(i + 1)
  }

  /** The first font that works is the one at `i` when `i` works and every
      font before it fails. */
  lemma FirstWorkingAt(fonts: seq<Font>, works: Font -> bool, i: nat)
    requires i < |fonts| && works(fonts[i])
    requires forall j :: 0 <= j < i ==> !works(fonts[j])
    ensures FirstWorking(fonts, works) == Some(i)
  {
  }

  /** No font is chosen when every font fails. */
  lemma NoneWorking(fonts: seq<Font>, works: Font -> bool)
    requires forall j :: 0 <= j < |fonts| ==> !works(fonts[j])
    ensures FirstWorking(fonts, works) == None
  {
  }

  /** What `insert_arabic_text` draws: the shaped text in the first font that
      works, else in Helvetica if that works, else nothing. */
  function ArabicItem(env: Env, at: Point, text: string, size: int): seq<Op> {
    if !NonBlank(text) then []
    else FallbackItem(env, FontAttempts, at, ReshapeArabicText(env, text), size)
  }

  /** The drawing `ArabicItem` describes once the text is known not to be blank. */
  function FallbackItem(env: Env, fonts: seq<Font>, at: Point, display: string, size: int): seq<Op> {
    match FirstWorking(fonts, env.fontWorks)
    case Some(i) => [Text(at, display, fonts[i], size)]
    case None =>
      if env.fontWorks(LastResortFont) then [Text(at, display, LastResortFont, size)] else []
  }

  method InsertArabicText(page: Page, env: Env, at: Point, text: string, size: int)
    modifies page
    ensures page.log == old(page.log) + ArabicItem(env, at, text, size)
  {
    if |text| > 0 && |Strip(text)| > 0 {
      var display := ReshapeArabicText(env, text);
      DrawWithFallback(page, env, FontAttempts, at, display, size);
    }
  }

  /** The loop of `insert_arabic_text` over its font attempts, then the
      Helvetica attempt if none of them succeeded. */
  method DrawWithFallback(page: Page, env: Env, attempts: seq<Font>, at: Point, display: string, size: int)
    modifies page
    ensures page.log == old(page.log) + FallbackItem(env, attempts, at, display, size)
  {
    var inserted := false;
    var i := 0;
    while i < |attempts|
      invariant 0 <= i <= |attempts|
      invariant !inserted
      invariant page.log == old(page.log)
      invariant forall j :: 0 <= j < i ==> !env.fontWorks(attempts[j])
    {
      if env.fontWorks(attempts[i]) {
        FirstWorkingAt(attempts, env.fontWorks, i);
        page.InsertText(at, display, attempts[i], size);
        inserted := true;
        break;
      }
      i := i + 1;
    }
    if !inserted {
      NoneWorking(attempts, env.fontWorks);
      if env.fontWorks(LastResortFont) {
        page.InsertText(at, display, LastResortFont, size);
      }
    }
  }

  // ---------------------------------------------------------------------
  // Text fields

  /** What one entry of the path table writes: the value at the path, as
      `str()` renders it, at the entry's field, if the value is truthy, the
      field has coordinates and the text is not blank. */
  function EntryItem(data: map<string, Value>, t: Tables, env: Env, entry: (string, Field)): seq<Op> {
    var value := GetNestedValue(data, entry.0);
    if value.Some? && Truthy(value.value) && t.coordinates(entry.1).Some?
    then TextItem(t.coordinates(entry.1).value, Show(value.value, env.showDict), FontSize)
    else []
  }

  /** What the loop over the path table writes, entry after entry. */
  function MappedItems(data: map<string, Value>, t: Tables, env: Env, entries: seq<(string, Field)>): seq<Op>
    decreases |entries|
  {
    if entries == [] then []
    else MappedItems(data, t, env, entries[..|entries| - 1]) + EntryItem(data, t, env, entries[|entries| - 1])
  }

  /** One record value written to two fields, each independently skipped when
      it has no coordinates. */
  function CopiedItems(data: map<string, Value>, t: Tables, env: Env, path: string, first: Field, second: Field): seq<Op> {
    var value := GetNestedValue(data, path);
    if value.Some? && Truthy(value.value) then
      CopiedText(t, first, second, Show(value.value, env.showDict))
    else []
  }

  /** The text of one record value, written to two fields. */
  function CopiedText(t: Tables, first: Field, second: Field, text: string): seq<Op> {
    FieldItem(t, first, text) + FieldItem(t, second, text)
  }

  /** The text written to one field, skipped when the field has no coordinates. */
  function FieldItem(t: Tables, field: Field, text: string): seq<Op> {
    if t.coordinates(field).Some? then TextItem(t.coordinates(field).value, text, FontSize) else []
  }

  /** The record path whose value fills both the trip start and the arrival date. */
  const DepartureFromDubai := "trip_info.departure_date_from_dubai"
  /** The record path whose value fills both the trip end and the departure date. */
  const ArrivalToDubai := "trip_info.arrival_date_to_dubai"

  /** The accompanying person's name, translated, after the fixed prefix, in
      the bottom-label size; or the exception a non-string name raises. */
  function AccompanimentItem(data: map<string, Value>, t: Tables, env: Env): Result<seq<Op>> {
    var name := GetNestedValue(data, "accompany_name");
    if name.Some? && Truthy(name.value) && t.coordinates(AccompaniedByArabic).Some? then
      if name.value.Str? then
        Ok(ArabicItem(env, t.coordinates(AccompaniedByArabic).value,
                      ArabicAccompaniedByPrefix + TranslateToArabic(env, name.value.s),
                      env.bottomLabelFontSize))
      else Err(NotAString("accompany_name"))
    else Ok([])
  }

  /** The pricing label for the visa type, if the label field has coordinates
      and the lower-cased type has a label; or the exception a non-string
      type raises. */
  function LabelItem(data: map<string, Value>, t: Tables, env: Env): Result<seq<Op>> {
    var kind := GetNestedValue(data, "visa_info.type");
    if kind.Some? && Truthy(kind.value) && t.coordinates(VisaTypeLabel).Some? then
      if kind.value.Str? then
        var lowered := Lower(kind.value.s);
        Ok(if lowered in env.visaTypeLabels
           then TextItem(t.coordinates(VisaTypeLabel).value, env.visaTypeLabels[lowered], env.bottomLabelFontSize)
           else [])
      else Err(NotAString("visa_info.type"))
    else Ok([])
  }

  /** What `fill_text_fields` appends, in order: the path table, the two
      copied dates, the accompaniment, the pricing label. */
  function TextFieldItems(data: map<string, Value>, t: Tables, env: Env): Result<seq<Op>> {
    var fixed := MappedItems(data, t, env, t.textFields)
      + CopiedItems(data, t, env, DepartureFromDubai, TripStartDate, ArrivalDate)
      + CopiedItems(data, t, env, ArrivalToDubai, TripEndDate, DepartureDate);
    match AccompanimentItem(data, t, env)
    case Err(e) => Err(e)
    case Ok(accompaniment) =>
      (match LabelItem(data, t, env)
       case Err(e) => Err(e)
       case Ok(pricing) => Ok(fixed + accompaniment + pricing))
  }

  /** The loop over the path table. */
  method FillMappedFields(page: Page, data: map<string, Value>, t: Tables, env: Env)
    modifies page
    ensures page.log == old(page.log) + MappedItems(data, t, env, t.textFields)
  {
    var entries := t.textFields;
    for i := 0 to |entries|
      invariant page.log == old(page.log) + MappedItems(data, t, env, entries[..i])
    {
      var value := GetNestedValue(data, entries[i].0);
      var key := entries[i].1;
      if value.Some? && Truthy(value.value) && t.coordinates(key).Some? {
        InsertText(page, t.coordinates(key).value, Show(value.value, env.showDict), FontSize);
      }
      MappedItemsStep(data, t, env, entries, i);
    }
    assert entries[..|entries|] == entries;
  }

  /** Three appends in a row append what they appended, in order. */
  lemma Concat3<T>(s0: seq<T>, s1: seq<T>, s2: seq<T>, s3: seq<T>)
    requires |s0| <= |s1| <= |s2| <= |s3|
    requires s1[..|s0|] == s0 && s2[..|s1|] == s1 && s3[..|s2|] == s2
    ensures s3 == s0 + (s1[|s0|..] + s2[|s1|..] + s3[|s2|..])
  {
  }

  /** The table loop after entry `i` has written what it did after entry
      `i - 1` and then that entry's item. */
  lemma MappedItemsStep(data: map<string, Value>, t: Tables, env: Env, entries: seq<(string, Field)>, i: nat)
    requires i < |entries|
    ensures MappedItems(data, t, env, entries[..i + 1])
            == MappedItems(data, t, env, entries[..i]) + EntryItem(data, t, env, entries[i])
  {
    assert entries[..i + 1][..i] == entries[..i];
  }

  /** One of the two copied dates. */
  method FillCopiedDate(page: Page, data: map<string, Value>, t: Tables, env: Env, path: string, first: Field, second: Field)
    modifies page
    ensures page.log == old(page.log) + CopiedItems(data, t, env, path, first, second)
  {
    var value := GetNestedValue(data, path);
    if value.Some? && Truthy(value.value) {
      FillBoth(page, t, first, second, Show(value.value, env.showDict));
    }
  }

  /** The two fields of a copied date, in order. */
  method FillBoth(page: Page, t: Tables, first: Field, second: Field, text: string)
    modifies page
    ensures page.log == old(page.log) + CopiedText(t, first, second, text)
  {
    ghost var before := page.log;
    FillField(page, t, first, text);
    FillField(page, t, second, text);
    AppendTwice(before, FieldItem(t, first, text), FieldItem(t, second, text));
  }

  /** Appending two pieces one after the other appends both at once. */
  lemma AppendTwice<T>(s: seq<T>, a: seq<T>, b: seq<T>)
    ensures s + a + b == s + (a + b)
  {
  }

  /** One field of a copied date. */
  method FillField(page: Page, t: Tables, field: Field, text: string)
    modifies page
    ensures page.log == old(page.log) + FieldItem(t, field, text)
  {
    if t.coordinates(field).Some? {
      InsertText(page, t.coordinates(field).value, text, FontSize);
    }
  }

  /** The translated name of the accompanying person. */
  method FillAccompaniment(page: Page, data: map<string, Value>, t: Tables, env: Env) returns (outcome: Outcome)
    modifies page
    ensures outcome == OutcomeOf(AccompanimentItem(data, t, env))
    ensures outcome.Pass? ==> page.log == old(page.log) + AccompanimentItem(data, t, env).value
  {
    var name := GetNestedValue(data, "accompany_name");
    if name.Some? && Truthy(name.value) && t.coordinates(AccompaniedByArabic).Some? {
      if !name.value.Str? {
        return Fail(NotAString("accompany_name"));
      }
      var translated := TranslateToArabic(env, name.value.s);
      var arabicText := ArabicAccompaniedByPrefix + translated;
      InsertArabicText(page, env, t.coordinates(AccompaniedByArabic).value, arabicText, env.bottomLabelFontSize);
    }
    return Pass;
  }

  /** The pricing label for the visa type. */
  method FillVisaTypeLabel(page: Page, data: map<string, Value>, t: Tables, env: Env) returns (outcome: Outcome)
    modifies page
    ensures outcome == OutcomeOf(LabelItem(data, t, env))
    ensures outcome.Pass? ==> page.log == old(page.log) + LabelItem(data, t, env).value
  {
    var kind := GetNestedValue(data, "visa_info.type");
    if kind.Some? && Truthy(kind.value) && t.coordinates(VisaTypeLabel).Some? {
      if !kind.value.Str? {
        return Fail(NotAString("visa_info.type"));
      }
      var lowered := Lower(kind.value.s);
      if lowered in env.visaTypeLabels {
        InsertText(page, t.coordinates(VisaTypeLabel).value, env.visaTypeLabels[lowered], env.bottomLabelFontSize);
      }
    }
    return Pass;
  }

  method FillTextFields(page: Page, data: map<string, Value>, t: Tables, env: Env) returns (outcome: Outcome)
    modifies page
    ensures outcome == OutcomeOf(TextFieldItems(data, t, env))
    ensures outcome.Pass? ==> page.log == old(page.log) + TextFieldItems(data, t, env).value
  {
    ghost var start := page.log;
    FillMappedFields(page, data, t, env);
    ghost var afterMapped := page.log;
    FillCopiedDate(page, data, t, env, DepartureFromDubai, TripStartDate, ArrivalDate);
    ghost var afterDeparture := page.log;
    FillCopiedDate(page, data, t, env, ArrivalToDubai, TripEndDate, DepartureDate);
    ghost var fixedDone := page.log;
    Concat3(start, afterMapped, afterDeparture, fixedDone);
    outcome := FillAccompaniment(page, data, t, env);
    if outcome.Fail? {
      return;
    }
    ghost var accompanied := page.log;
    outcome := FillVisaTypeLabel(page, data, t, env);
    if outcome.Pass? {
      Concat3(start, fixedDone, accompanied, page.log);
    }
  }

  // ---------------------------------------------------------------------
  // The whole fill

  /** What filling the page appends, in order: the redaction, the checkboxes,
      the text fields; or the first exception raised. */
  function FilledPage(data: map<string, Value>, t: Tables, env: Env): Result<seq<Op>>
  {
    match CheckboxMarks(data, t)
    case Err(e) => Err(e)
    case Ok(marks) =>
      (match TextFieldItems(data, t, env)
       case Err(e) => Err(e)
       case Ok(items) => Ok([RedactedDates] + marks + items))
  }

  /** The result of `generate_filled_pdf_bytes`: the drawings on page 1 (the
      content of the serialized document that depends on the record) and the
      applicant's full name. */
  datatype Filled = Filled(page: seq<Op>, fullName: string)

  /** The drawing part of `generate_filled_pdf_bytes` on a fresh copy of the
      template page: the redaction, then the checkboxes, then the text
      fields, stopping at the first exception. */
  method FillPage(data: map<string, Value>, t: Tables, env: Env) returns (r: Result<seq<Op>>)
    ensures r == FilledPage(data, t, env)
  {
    var page := new Page();
    RedactExistingDates(page);
    ghost var redacted := page.log;
    var checked := FillCheckboxes(page, data, t);
    if checked.Fail? {
      return Err(checked.error);
    }
    ghost var marked := page.log;
    var written := FillTextFields(page, data, t, env);
    if written.Fail? {
      return Err(written.error);
    }
    Concat3([], redacted, marked, page.log);
    return Ok(page.log);
  }

  method GenerateFilledPdfBytes(data: map<string, Value>, env: Env) returns (r: Result<Filled>)
    ensures r.Ok? <==> FilledPage(data, Form, env).Ok? && ExtractFullName(data).Ok?
    ensures r.Ok? ==> r.value.page == FilledPage(data, Form, env).value
    ensures r.Ok? ==> r.value.fullName == ExtractFullName(data).value
    ensures r.Err? && FilledPage(data, Form, env).Err? ==> r.error == FilledPage(data, Form, env).error
    ensures r.Err? && FilledPage(data, Form, env).Ok? ==> r.error == ExtractFullName(data).error
  {
    var filled := FillPage(data, Form, env);
    if filled.Err? {
      return Err(filled.error);
    }
    var fullName := ExtractFullName(data);
    if fullName.Err? {
      return Err(fullName.error);
    }
    return Ok(Filled(filled.value, fullName.value));
  }
}
