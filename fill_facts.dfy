/** Properties of the form filler over all records: what the full name is,
    which checkboxes and text items appear and in which order, how the Arabic
    font fallback chooses, and the shape of the filled page. */
module FillFacts {
  import opened Strings
  import opened Record
  import opened Pdf
  import opened FieldConfig
  import opened VisaForm

  // ---------------------------------------------------------------------
  // Full name

  /** The name parts dropped as "not applicable" are exactly the four case
      variants of "N/A". */
  lemma NotApplicableSpellings(s: string)
    ensures Upper(s) == "N/A" <==> s == "N/A" || s == "n/a" || s == "N/a" || s == "n/A"
  {
    if Upper(s) == "N/A" {
      assert |s| == 3;
      assert UpperChar(s[0]) == 'N' && UpperChar(s[1]) == '/' && UpperChar(s[2]) == 'A';
      assert s == [s[0], s[1], s[2]];
    }
  }

  /** Joining non-empty parts gives the empty text only when there are none. */
  lemma {:induction false} JoinEmptyIff(parts: seq<string>, sep: char)
    requires forall i :: 0 <= i < |parts| ==> parts[i] != ""
    ensures Join(parts, sep) == "" <==> parts == []
  {
    if |parts| > 1 {
      assert |Join(parts, sep)| >= |parts[0]|;
    }
  }

  /** The full name is the kept parts joined by single spaces: it is empty
      exactly when every part was dropped, and when no kept part contains a
      space, splitting it on spaces gives back the kept parts. */
  lemma FullNameJoinsKeptParts(data: map<string, Value>)
    requires ExtractFullName(data).Ok?
    ensures FullNameParts(data).Ok?
    ensures |FullNameParts(data).value| <= 3
    ensures ExtractFullName(data).value == "" <==> FullNameParts(data).value == []
    ensures FullNameParts(data).value != [] &&
            (forall i :: 0 <= i < |FullNameParts(data).value| ==> ' ' !in FullNameParts(data).value[i])
            ==> Split(ExtractFullName(data).value, ' ') == FullNameParts(data).value
  {
    var names := FullNameParts(data).value;
    JoinEmptyIff(names, ' ');
    if names != [] && forall i :: 0 <= i < |names| ==> ' ' !in names[i] {
      SplitJoin(names, ' ');
    }
  }

  /** The value `extract_full_name` reads for one name key: a missing
      `personal_info` reads as an empty object and a missing key as "". */
  function PersonalPart(data: map<string, Value>, key: string): Value {
    var personal := if "personal_info" in data then data["personal_info"] else Dict(map[]);
    if personal.Dict? then NamePart(personal.fields, key) else Str("")
  }

  /** Whenever extraction succeeds, the full name is first, middle and last,
      each only if it is a kept string, joined by single spaces; falsy parts
      of any type (null, 0, false, empty containers) are left out. */
  lemma FullNameContent(data: map<string, Value>)
    requires ExtractFullName(data).Ok?
    ensures ExtractFullName(data).value == Join(
      KeepPart(PersonalPart(data, "first_name"))
      + KeepPart(PersonalPart(data, "middle_name"))
      + KeepPart(PersonalPart(data, "last_name")), ' ')
  {
    var first := ("first_name", PersonalPart(data, "first_name"));
    var middle := ("middle_name", PersonalPart(data, "middle_name"));
    var last := ("last_name", PersonalPart(data, "last_name"));
    var parts := [first, middle, last];
    assert FullNameParts(data) == KeptNames(parts);
    assert parts[1..] == [middle, last];
    assert parts[1..][1..] == [last];
    assert parts[1..][1..][1..] == [];
    assert KeepParts(parts[1..][1..]) == KeepPart(last.1);
    assert KeepParts(parts[1..]) == KeepPart(middle.1) + KeepPart(last.1);
    assert KeepParts(parts) == KeepPart(first.1) + KeepPart(middle.1) + KeepPart(last.1);
  }

  /** `extract_full_name` raises exactly when the personal information is
      present but not an object, or some name part is truthy but not a
      string. */
  lemma FullNameFailsIff(data: map<string, Value>)
    ensures ExtractFullName(data).Err? <==>
      ("personal_info" in data && !data["personal_info"].Dict?) ||
      ("personal_info" in data && data["personal_info"].Dict? &&
        exists key :: key in data["personal_info"].fields && IsNameKey(key) &&
          Truthy(data["personal_info"].fields[key]) && !data["personal_info"].fields[key].Str?)
  {
    if "personal_info" in data && data["personal_info"].Dict? {
      var fields := data["personal_info"].fields;
      var parts := [
        ("first_name", NamePart(fields, "first_name")),
        ("middle_name", NamePart(fields, "middle_name")),
        ("last_name", NamePart(fields, "last_name"))];
      assert FullNameParts(data) == KeptNames(parts);
      if KeptNames(parts).Err? {
        var i :| 0 <= i < 3 && Truthy(parts[i].1) && !parts[i].1.Str?;
        assert parts[i].0 in fields && IsNameKey(parts[i].0);
      }
      if exists key :: key in fields && IsNameKey(key) && Truthy(fields[key]) && !fields[key].Str? {
        var key :| key in fields && IsNameKey(key) && Truthy(fields[key]) && !fields[key].Str?;
        var i := if key == "first_name" then 0 else if key == "middle_name" then 1 else 2;
        assert parts[i].1 == fields[key];
      }
    } else if "personal_info" !in data {
      assert FullNameParts(data) == KeptNames([
        ("first_name", Str("")), ("middle_name", Str("")), ("last_name", Str(""))]);
    }
  }

  /** The three keys `extract_full_name` reads. */
  predicate IsNameKey(key: string) {
    key == "first_name" || key == "middle_name" || key == "last_name"
  }

  /** A worked example: a middle name of "n/a" is dropped. */
  lemma FullNameExample()
    ensures ExtractFullName(map["personal_info" := Dict(map[
      "first_name" := Str("Ali"), "middle_name" := Str("n/a"), "last_name" := Str("Haddad")])])
      == Ok("Ali Haddad")
  {
    var data := map["personal_info" := Dict(map[
      "first_name" := Str("Ali"), "middle_name" := Str("n/a"), "last_name" := Str("Haddad")])];
    assert Upper("n/a") == "N/A" by {
      assert Upper("n/a")[0] == 'N' && Upper("n/a")[1] == '/' && Upper("n/a")[2] == 'A';
    }
    AliHaddad(data, Str("n/a"));
  }

  /** A worked example: a null middle name is skipped, not an error. */
  lemma NullMiddleNameExample()
    ensures ExtractFullName(map["personal_info" := Dict(map[
      "first_name" := Str("Ali"), "middle_name" := Scalar("None", false), "last_name" := Str("Haddad")])])
      == Ok("Ali Haddad")
  {
    var data := map["personal_info" := Dict(map[
      "first_name" := Str("Ali"), "middle_name" := Scalar("None", false), "last_name" := Str("Haddad")])];
    AliHaddad(data, Scalar("None", false));
  }

  /** Ali and Haddad around a middle part that contributes nothing. */
  lemma AliHaddad(data: map<string, Value>, middle: Value)
    requires data == map["personal_info" := Dict(map[
      "first_name" := Str("Ali"), "middle_name" := middle, "last_name" := Str("Haddad")])]
    requires !Truthy(middle) || middle.Str?
    requires KeepPart(middle) == []
    ensures ExtractFullName(data) == Ok("Ali Haddad")
  {
    var fields := data["personal_info"].fields;
    assert NamePart(fields, "first_name") == Str("Ali");
    assert NamePart(fields, "middle_name") == middle;
    assert NamePart(fields, "last_name") == Str("Haddad");
    assert Truthy(Str("Ali")) && Truthy(Str("Haddad"));
    assert ExtractFullName(data).Ok?;
    FullNameContent(data);
    assert Upper("Ali")[0] == 'A';
    assert KeepPart(Str("Ali")) == ["Ali"];
    assert |Upper("Haddad")| == 6;
    assert KeepPart(Str("Haddad")) == ["Haddad"];
    var kept := ["Ali", "Haddad"];
    assert kept[1..] == ["Haddad"];
    assert Join(kept, ' ') == "Ali" + " " + "Haddad";
    assert "Ali" + " " + "Haddad" == "Ali Haddad";
  }

  // ---------------------------------------------------------------------
  // Checkboxes

  /** The box the form marks for a lower-cased visa type, if any. */
  function TypeBox(vt: string): Option<Point> {
    if vt == "single_entry" || vt == "single" then Some(Point(68, 577))
    else if vt == "two_entry" || vt == "double" then Some(Point(68, 599))
    else if vt == "multiple_entry" || vt == "multiple" then Some(Point(68, 620))
    else None
  }

  /** The duration box the form marks for a lower-cased visa type: six
      months for the multiple-entry spellings, three months otherwise. */
  function DurationBox(vt: string): Point {
    if vt == "multiple_entry" || vt == "multiple" then Point(353, 583) else Point(271, 584)
  }

  /** A value that selects a box with coordinates gets the box's mark. */
  lemma CategoryMarkAt(t: Tables, c: Category, v: string, f: Field, p: Point)
    requires v in t.checkboxes(c) && t.checkboxes(c)[v] == f
    requires t.coordinates(f) == Some(p)
    ensures CategoryMark(t, c, v) == [Mark(p)]
  {
  }

  /** The visa-type mark the form draws is the one `TypeBox` names. */
  lemma TypeMark(vt: string)
    ensures CategoryMark(Form, VisaType, vt) == if TypeBox(vt).Some? then [Mark(TypeBox(vt).value)] else []
  {
    if vt == "single_entry" || vt == "single" {
      SingleEntryMark(vt);
    } else if vt == "two_entry" || vt == "double" {
      TwoEntryMark(vt);
    } else if vt == "multiple_entry" || vt == "multiple" {
      MultipleEntryMark(vt);
    } else {
      NoTypeMark(vt);
    }
  }

  lemma SingleEntryMark(vt: string)
    requires vt == "single_entry" || vt == "single"
    ensures CategoryMark(Form, VisaType, vt) == [Mark(Point(68, 577))]
  {
    SingleEntryTargets();
    CategoryMarkAt(Form, VisaType, vt, CheckboxSingleEntry, Point(68, 577));
  }

  lemma TwoEntryMark(vt: string)
    requires vt == "two_entry" || vt == "double"
    ensures CategoryMark(Form, VisaType, vt) == [Mark(Point(68, 599))]
  {
    TwoEntryTargets();
    CategoryMarkAt(Form, VisaType, vt, CheckboxTwoEntry, Point(68, 599));
  }

  lemma MultipleEntryMark(vt: string)
    requires vt == "multiple_entry" || vt == "multiple"
    ensures CategoryMark(Form, VisaType, vt) == [Mark(Point(68, 620))]
  {
    MultipleEntryTargets();
    CategoryMarkAt(Form, VisaType, vt, CheckboxMultipleEntry, Point(68, 620));
  }

  /** Any other visa type marks no visa-type box. */
  lemma NoTypeMark(vt: string)
    requires TypeBox(vt).None?
    ensures CategoryMark(Form, VisaType, vt) == []
  {
    VisaTypeKeys(vt);
  }

  /** The duration mark the form draws is the one `DurationBox` names. */
  lemma DurationMark(vt: string)
    ensures CategoryMark(Form, VisaDuration, DerivedDuration(vt)) == [Mark(DurationBox(vt))]
  {
    if vt == "multiple_entry" || vt == "multiple" {
      SixMonthsMark();
    } else {
      ThreeMonthsMark();
    }
  }

  lemma SixMonthsMark()
    ensures CategoryMark(Form, VisaDuration, "six_months") == [Mark(Point(353, 583))]
  {
    DerivedDurationsDrawable();
    CategoryMarkAt(Form, VisaDuration, "six_months", CheckboxSixMonths, Point(353, 583));
  }

  lemma ThreeMonthsMark()
    ensures CategoryMark(Form, VisaDuration, "three_months") == [Mark(Point(271, 584))]
  {
    DerivedDurationsDrawable();
    CategoryMarkAt(Form, VisaDuration, "three_months", CheckboxThreeMonths, Point(271, 584));
  }

  /** The checkboxes the form marks for a record: the box of the visa type
      when the lower-cased type is one of its six spellings (none
      otherwise), then exactly one duration box. */
  lemma FormCheckboxMarks(data: map<string, Value>)
    requires VisaTypeOf(data).Ok?
    ensures CheckboxMarks(data, Form) == Ok(
      (if TypeBox(VisaTypeOf(data).value).Some? then [Mark(TypeBox(VisaTypeOf(data).value).value)] else [])
      + [Mark(DurationBox(VisaTypeOf(data).value))])
  {
    TypeMark(VisaTypeOf(data).value);
    DurationMark(VisaTypeOf(data).value);
  }

  /** Every mark the filler draws is at y = 577 or below, so nothing above
      y = 575 (among them every box of sex, marital status and purpose of
      trip, by `OtherCategoriesAboveVisaBoxes`) is ever marked. */
  lemma MarksBelowLine(data: map<string, Value>, p: Point)
    requires CheckboxMarks(data, Form).Ok?
    requires p.y < 575
    ensures Mark(p) !in CheckboxMarks(data, Form).value
  {
    FormCheckboxMarks(data);
    var vt := VisaTypeOf(data).value;
    assert TypeBox(vt).Some? ==> TypeBox(vt).value.y >= 577;
  }

  /** A visa-type box is marked exactly when the lower-cased type is a key of
      the visa-type mapping. */
  lemma TypeBoxIff(vt: string)
    ensures TypeBox(vt).Some? <==> vt in CheckboxMappings(VisaType)
  {
    VisaTypeKeys(vt);
  }

  // ---------------------------------------------------------------------
  // Text fields

  /** Entry `entry` of the path table writes `op`: its path resolves to a
      truthy value whose `str()` is not blank, its field has coordinates, and
      `op` is that text at that point in Helvetica 9. */
  predicate Writes(data: map<string, Value>, t: Tables, env: Env, entry: (string, Field), op: Op) {
    var value := GetNestedValue(data, entry.0);
    value.Some? && Truthy(value.value) && t.coordinates(entry.1).Some?
    && NonBlank(Show(value.value, env.showDict))
    && op == Text(t.coordinates(entry.1).value, Show(value.value, env.showDict), Builtin("helv"), 9)
  }

  /** Each entry writes at most one item, and the one `Writes` describes. */
  lemma EntryItemWrites(data: map<string, Value>, t: Tables, env: Env, entry: (string, Field))
    ensures |EntryItem(data, t, env, entry)| <= 1
    ensures forall op :: op in EntryItem(data, t, env, entry) <==> Writes(data, t, env, entry, op)
  {
  }

  /** The loop writes the entries of a longer table after those of its prefix. */
  lemma {:induction false} MappedItemsAppend(data: map<string, Value>, t: Tables, env: Env, a: seq<(string, Field)>, b: seq<(string, Field)>)
    ensures MappedItems(data, t, env, a + b) == MappedItems(data, t, env, a) + MappedItems(data, t, env, b)
    decreases |b|
  {
    if b == [] {
      assert a + b == a;
    } else {
      var ab := a + b;
      var n := |b| - 1;
      assert ab[..|ab| - 1] == a + b[..n];
      assert ab[|ab| - 1] == b[n];
      MappedItemsLast(data, t, env, ab);
      MappedItemsLast(data, t, env, b);
      MappedItemsAppend(data, t, env, a, b[..n]);
      var head := MappedItems(data, t, env, a);
      var middle := MappedItems(data, t, env, b[..n]);
      var last := EntryItem(data, t, env, b[n]);
      assert (head + middle) + last == head + (middle + last);
    }
  }

  /** The loop over a non-empty table ends with the item of its last entry. */
  lemma MappedItemsLast(data: map<string, Value>, t: Tables, env: Env, entries: seq<(string, Field)>)
    requires entries != []
    ensures MappedItems(data, t, env, entries)
            == MappedItems(data, t, env, entries[..|entries| - 1]) + EntryItem(data, t, env, entries[|entries| - 1])
  {
  }

  /** Table order: what entry `i` writes comes after everything the entries
      before it write and before everything the entries after it write. */
  lemma MappedItemsInOrder(data: map<string, Value>, t: Tables, env: Env, entries: seq<(string, Field)>, i: nat)
    requires i < |entries|
    ensures MappedItems(data, t, env, entries) ==
      MappedItems(data, t, env, entries[..i]) + EntryItem(data, t, env, entries[i])
      + MappedItems(data, t, env, entries[i + 1..])
  {
    assert entries == entries[..i + 1] + entries[i + 1..];
    MappedItemsAppend(data, t, env, entries[..i + 1], entries[i + 1..]);
    MappedItemsStep(data, t, env, entries, i);
  }

  /** The loop writes at most one item per entry. */
  lemma {:induction false} MappedItemsBound(data: map<string, Value>, t: Tables, env: Env, entries: seq<(string, Field)>)
    ensures |MappedItems(data, t, env, entries)| <= |entries|
    decreases |entries|
  {
    if entries != [] {
      MappedItemsBound(data, t, env, entries[..|entries| - 1]);
      EntryItemWrites(data, t, env, entries[|entries| - 1]);
    }
  }

  /** Some entry of `entries` writes `op`. */
  predicate WrittenBy(data: map<string, Value>, t: Tables, env: Env, entries: seq<(string, Field)>, op: Op) {
    exists i :: 0 <= i < |entries| && Writes(data, t, env, entries[i], op)
  }

  /** An item appears exactly when some entry of the table writes it. */
  lemma MappedItemsExactly(data: map<string, Value>, t: Tables, env: Env, entries: seq<(string, Field)>, op: Op)
    ensures op in MappedItems(data, t, env, entries) <==> WrittenBy(data, t, env, entries, op)
  {
    MappedItemsMembers(data, t, env, entries, op);
    forall i | 0 <= i < |entries|
      ensures op in EntryItem(data, t, env, entries[i]) <==> Writes(data, t, env, entries[i], op)
    {
      EntryItemWrites(data, t, env, entries[i]);
    }
  }

  /** The items of the loop are the items of its entries. */
  lemma MappedItemsMembers(data: map<string, Value>, t: Tables, env: Env, entries: seq<(string, Field)>, op: Op)
    ensures op in MappedItems(data, t, env, entries) <==>
            exists i :: 0 <= i < |entries| && op in EntryItem(data, t, env, entries[i])
  {
    if op in MappedItems(data, t, env, entries) {
      MappedItemFromEntry(data, t, env, entries, op);
    }
    if exists i :: 0 <= i < |entries| && op in EntryItem(data, t, env, entries[i]) {
      var i :| 0 <= i < |entries| && op in EntryItem(data, t, env, entries[i]);
      MappedItemsInOrder(data, t, env, entries, i);
    }
  }

  /** Every item of the loop comes from some entry. */
  lemma {:induction false} MappedItemFromEntry(data: map<string, Value>, t: Tables, env: Env, entries: seq<(string, Field)>, op: Op)
    requires op in MappedItems(data, t, env, entries)
    ensures exists i :: 0 <= i < |entries| && op in EntryItem(data, t, env, entries[i])
    decreases |entries|
  {
    var n := |entries| - 1;
    var prefix := entries[..n];
    MappedItemsLast(data, t, env, entries);
    if op in MappedItems(data, t, env, prefix) {
      MappedItemFromEntry(data, t, env, prefix, op);
      var i :| 0 <= i < n && op in EntryItem(data, t, env, prefix[i]);
      assert entries[i] == prefix[i];
      assert 0 <= i < |entries| && op in EntryItem(data, t, env, entries[i]);
    } else {
      assert 0 <= n < |entries| && op in EntryItem(data, t, env, entries[n]);
    }
  }

  // ---------------------------------------------------------------------
  // Copied dates

  /** The text a record value gives a field, if it gives one. */
  function ShownIfAny(data: map<string, Value>, env: Env, path: string): Option<string> {
    var v := GetNestedValue(data, path);
    if v.Some? && Truthy(v.value) && NonBlank(Show(v.value, env.showDict))
    then Some(Show(v.value, env.showDict)) else None
  }

  /** A copied value lands in both of its fields, in the same text, or in
      neither. */
  lemma CopiedToBoth(data: map<string, Value>, t: Tables, env: Env, path: string, first: Field, second: Field, p: Point, q: Point)
    requires t.coordinates(first) == Some(p) && t.coordinates(second) == Some(q)
    ensures CopiedItems(data, t, env, path, first, second) ==
      match ShownIfAny(data, env, path)
      case Some(text) => [Text(p, text, Builtin("helv"), 9), Text(q, text, Builtin("helv"), 9)]
      case None => []
  {
    var value := GetNestedValue(data, path);
    if value.Some? && Truthy(value.value) {
      var text := Show(value.value, env.showDict);
      CopiedValue(data, t, env, path, first, second, text);
      CopiedTextAt(t, first, second, p, q, text);
    }
  }

  /** A truthy value is copied as its text. */
  lemma CopiedValue(data: map<string, Value>, t: Tables, env: Env, path: string, first: Field, second: Field, text: string)
    requires GetNestedValue(data, path).Some? && Truthy(GetNestedValue(data, path).value)
    requires text == Show(GetNestedValue(data, path).value, env.showDict)
    ensures CopiedItems(data, t, env, path, first, second) == CopiedText(t, first, second, text)
    ensures ShownIfAny(data, env, path) == if NonBlank(text) then Some(text) else None
  {
  }

  /** One text copied to two fields with coordinates. */
  lemma CopiedTextAt(t: Tables, first: Field, second: Field, p: Point, q: Point, text: string)
    requires t.coordinates(first) == Some(p) && t.coordinates(second) == Some(q)
    ensures CopiedText(t, first, second, text) ==
            if NonBlank(text) then [Text(p, text, Builtin("helv"), 9), Text(q, text, Builtin("helv"), 9)] else []
  {
  }

  /** The departure date from Dubai is written twice, at the trip start
      (328, 393) and at the arrival date (72, 544), or not at all. */
  lemma DepartureDateCopied(data: map<string, Value>, env: Env)
    ensures CopiedItems(data, Form, env, DepartureFromDubai, TripStartDate, ArrivalDate) ==
      match ShownIfAny(data, env, DepartureFromDubai)
      case Some(text) => [Text(Point(328, 393), text, Builtin("helv"), 9), Text(Point(72, 544), text, Builtin("helv"), 9)]
      case None => []
  {
    CopiedToBoth(data, Form, env, DepartureFromDubai, TripStartDate, ArrivalDate, Point(328, 393), Point(72, 544));
  }

  /** The arrival date to Dubai is written twice, at the trip end (420, 393)
      and at the departure date (328, 544), or not at all. */
  lemma ArrivalDateCopied(data: map<string, Value>, env: Env)
    ensures CopiedItems(data, Form, env, ArrivalToDubai, TripEndDate, DepartureDate) ==
      match ShownIfAny(data, env, ArrivalToDubai)
      case Some(text) => [Text(Point(420, 393), text, Builtin("helv"), 9), Text(Point(328, 544), text, Builtin("helv"), 9)]
      case None => []
  {
    CopiedToBoth(data, Form, env, ArrivalToDubai, TripEndDate, DepartureDate, Point(420, 393), Point(328, 544));
  }

  // ---------------------------------------------------------------------
  // Translation and the font fallback

  /** The translation differs from the name only when translation support is
      present, the name is not blank and the service returned that text;
      in every other case the name is kept as it is. */
  lemma TranslationFallsBack(env: Env, name: string)
    ensures !env.translationSupport || !NonBlank(name) || env.translate(name).None?
            ==> TranslateToArabic(env, name) == name
    ensures TranslateToArabic(env, name) != name
            ==> env.translationSupport && NonBlank(name) && env.translate(name) == Some(TranslateToArabic(env, name))
  {
  }

  /** Some font of `fonts` is the first that works and was chosen as `font`. */
  predicate FirstWorkingFont(fonts: seq<Font>, works: Font -> bool, font: Font) {
    exists i :: 0 <= i < |fonts| && font == fonts[i] && works(fonts[i])
      && forall j :: 0 <= j < i ==> !works(fonts[j])
  }

  /** The fallback draws at most one item, in the first font that works, or
      in Helvetica only when every font of the chain failed; and nothing only
      when Helvetica failed too. */
  lemma FallbackChoice(env: Env, fonts: seq<Font>, at: Point, display: string, size: int)
    ensures |FallbackItem(env, fonts, at, display, size)| <= 1
    ensures FallbackItem(env, fonts, at, display, size) == [] <==>
      (forall j :: 0 <= j < |fonts| ==> !env.fontWorks(fonts[j])) && !env.fontWorks(LastResortFont)
    ensures FallbackItem(env, fonts, at, display, size) != [] ==>
      var op := FallbackItem(env, fonts, at, display, size)[0];
      op.Text? && op.at == at && op.text == display && op.size == size && env.fontWorks(op.font) &&
      (FirstWorkingFont(fonts, env.fontWorks, op.font)
       || (op.font == LastResortFont && forall j :: 0 <= j < |fonts| ==> !env.fontWorks(fonts[j])))
  {
    match FirstWorking(fonts, env.fontWorks)
    case Some(i) =>
      assert FirstWorkingFont(fonts, env.fontWorks, fonts[i]);
    case None =>
  }

  /** `insert_arabic_text` draws at most one item: nothing for blank text;
      otherwise the shaped text in the first of its seven fonts that works,
      or in Helvetica only when all seven failed. */
  lemma ArabicFontChoice(env: Env, at: Point, text: string, size: int)
    ensures |ArabicItem(env, at, text, size)| <= 1
    ensures ArabicItem(env, at, text, size) == [] <==>
      !NonBlank(text) ||
      ((forall j :: 0 <= j < |FontAttempts| ==> !env.fontWorks(FontAttempts[j])) && !env.fontWorks(LastResortFont))
    ensures ArabicItem(env, at, text, size) != [] ==>
      var op := ArabicItem(env, at, text, size)[0];
      op.Text? && op.at == at && op.text == ReshapeArabicText(env, text) && op.size == size &&
      (FirstWorkingFont(FontAttempts, env.fontWorks, op.font)
       || (op.font == LastResortFont && forall j :: 0 <= j < |FontAttempts| ==> !env.fontWorks(FontAttempts[j])))
  {
    FallbackChoice(env, FontAttempts, at, ReshapeArabicText(env, text), size);
  }

  // ---------------------------------------------------------------------
  // Accompaniment and pricing label

  /** When the accompaniment is drawn, it is the shaped text of the prefix
      followed by the (possibly translated) name, at the coordinates of the
      accompaniment field, in the bottom-label size. */
  lemma AccompanimentAt(data: map<string, Value>, t: Tables, env: Env, at: Point)
    requires t.coordinates(AccompaniedByArabic) == Some(at)
    requires AccompanimentItem(data, t, env).Ok? && AccompanimentItem(data, t, env).value != []
    ensures GetNestedValue(data, "accompany_name").Some?
    ensures GetNestedValue(data, "accompany_name").value.Str?
    ensures |AccompanimentItem(data, t, env).value| == 1
    ensures var op := AccompanimentItem(data, t, env).value[0];
      var name := GetNestedValue(data, "accompany_name").value.s;
      op.Text? && op.at == at && op.size == env.bottomLabelFontSize
      && op.text == ReshapeArabicText(env, ArabicAccompaniedByPrefix + TranslateToArabic(env, name))
  {
    var name := GetNestedValue(data, "accompany_name").value.s;
    ArabicFontChoice(env, at, ArabicAccompaniedByPrefix + TranslateToArabic(env, name), env.bottomLabelFontSize);
  }

  /** On the form, the accompaniment is drawn at (450, 750). */
  lemma AccompanimentDrawn(data: map<string, Value>, env: Env)
    requires AccompanimentItem(data, Form, env).Ok? && AccompanimentItem(data, Form, env).value != []
    ensures GetNestedValue(data, "accompany_name").Some?
    ensures GetNestedValue(data, "accompany_name").value.Str?
    ensures |AccompanimentItem(data, Form, env).value| == 1
    ensures var op := AccompanimentItem(data, Form, env).value[0];
      var name := GetNestedValue(data, "accompany_name").value.s;
      op.Text? && op.at == Point(450, 750) && op.size == env.bottomLabelFontSize
      && op.text == ReshapeArabicText(env, ArabicAccompaniedByPrefix + TranslateToArabic(env, name))
  {
    AccompanimentField();
    AccompanimentAt(data, Form, env, Point(450, 750));
  }

  /** Without translation or reshaping support, a string name is written
      after the prefix as it is, in the first font when that font works. */
  lemma AccompanimentUntranslated(env: Env, t: Tables, at: Point, name: string)
    requires t.coordinates(AccompaniedByArabic) == Some(at)
    requires !env.translationSupport && !env.arabicSupport
    requires env.fontWorks(FontAttempts[0])
    requires name != ""
    ensures AccompanimentItem(map["accompany_name" := Str(name)], t, env) ==
      Ok([Text(at, ArabicAccompaniedByPrefix + name, FontAttempts[0], env.bottomLabelFontSize)])
  {
    var data := map["accompany_name" := Str(name)];
    GetNestedValueTopLevel(data, "accompany_name");
    assert GetNestedValue(data, "accompany_name") == Some(Str(name));
    assert TranslateToArabic(env, name) == name;
    assert AccompanimentItem(data, t, env) ==
      Ok(ArabicItem(env, at, ArabicAccompaniedByPrefix + name, env.bottomLabelFontSize));
    PrefixedNonBlank(name);
    FirstFontWorks(env, at, ArabicAccompaniedByPrefix + name, env.bottomLabelFontSize);
  }

  /** Unshaped non-blank text is drawn as it is in the first font, when that
      font works. */
  lemma FirstFontWorks(env: Env, at: Point, text: string, size: int)
    requires !env.arabicSupport && NonBlank(text)
    requires env.fontWorks(FontAttempts[0])
    ensures ArabicItem(env, at, text, size) == [Text(at, text, FontAttempts[0], size)]
  {
    FirstWorkingAt(FontAttempts, env.fontWorks, 0);
  }

  /** The pricing label is never written, and `visa_info.type` is never
      lower-cased for it, when the label field has no coordinates. */
  lemma LabelWithoutCoordinates(data: map<string, Value>, t: Tables, env: Env)
    requires t.coordinates(VisaTypeLabel) == None
    ensures LabelItem(data, t, env) == Ok([])
  {
  }

  /** On the form the label field has no coordinates, so the pricing label
      is never written and a non-string type raises nothing here. */
  lemma PricingLabelNeverDrawn(data: map<string, Value>, env: Env)
    ensures LabelItem(data, Form, env) == Ok([])
  {
    LabelWithoutCoordinates(data, Form, env);
  }

  // ---------------------------------------------------------------------
  // The shape of the filled page

  /** Every operation of `ops` draws text. */
  predicate AllText(ops: seq<Op>) {
    forall i :: 0 <= i < |ops| ==> ops[i].Text?
  }

  lemma AllTextConcat(a: seq<Op>, b: seq<Op>)
    requires AllText(a) && AllText(b)
    ensures AllText(a + b)
  {
    forall i | 0 <= i < |a + b| ensures (a + b)[i].Text? {
      if i >= |a| {
        assert (a + b)[i] == b[i - |a|];
      }
    }
  }

  lemma {:induction false} MappedItemsAllText(data: map<string, Value>, t: Tables, env: Env, entries: seq<(string, Field)>)
    ensures AllText(MappedItems(data, t, env, entries))
    decreases |entries|
  {
    if entries != [] {
      var n := |entries| - 1;
      MappedItemsAllText(data, t, env, entries[..n]);
      AllTextConcat(MappedItems(data, t, env, entries[..n]), EntryItem(data, t, env, entries[n]));
    }
  }

  lemma CopiedItemsAllText(data: map<string, Value>, t: Tables, env: Env, path: string, first: Field, second: Field)
    ensures AllText(CopiedItems(data, t, env, path, first, second))
  {
    var value := GetNestedValue(data, path);
    if value.Some? && Truthy(value.value) {
      var text := Show(value.value, env.showDict);
      assert CopiedItems(data, t, env, path, first, second) == FieldItem(t, first, text) + FieldItem(t, second, text);
      FieldItemAllText(t, first, text);
      FieldItemAllText(t, second, text);
      AllTextConcat(FieldItem(t, first, text), FieldItem(t, second, text));
    }
  }

  lemma FieldItemAllText(t: Tables, field: Field, text: string)
    ensures AllText(FieldItem(t, field, text))
  {
  }

  lemma AccompanimentAllText(data: map<string, Value>, t: Tables, env: Env)
    requires AccompanimentItem(data, t, env).Ok?
    ensures AllText(AccompanimentItem(data, t, env).value)
  {
    var name := GetNestedValue(data, "accompany_name");
    if name.Some? && Truthy(name.value) && t.coordinates(AccompaniedByArabic).Some? {
      var at := t.coordinates(AccompaniedByArabic).value;
      var text := ArabicAccompaniedByPrefix + TranslateToArabic(env, name.value.s);
      ArabicItemAllText(env, at, text, env.bottomLabelFontSize);
    }
  }

  lemma ArabicItemAllText(env: Env, at: Point, text: string, size: int)
    ensures AllText(ArabicItem(env, at, text, size))
  {
    if NonBlank(text) {
      FallbackAllText(env, FontAttempts, at, ReshapeArabicText(env, text), size);
    }
  }

  lemma FallbackAllText(env: Env, fonts: seq<Font>, at: Point, display: string, size: int)
    ensures AllText(FallbackItem(env, fonts, at, display, size))
  {
    match FirstWorking(fonts, env.fontWorks)
    case Some(i) =>
    case None =>
  }

  lemma LabelAllText(data: map<string, Value>, t: Tables, env: Env)
    requires LabelItem(data, t, env).Ok?
    ensures AllText(LabelItem(data, t, env).value)
  {
  }

  lemma TextFieldItemsAllText(data: map<string, Value>, t: Tables, env: Env)
    requires TextFieldItems(data, t, env).Ok?
    ensures AllText(TextFieldItems(data, t, env).value)
  {
    var mapped := MappedItems(data, t, env, t.textFields);
    var departure := CopiedItems(data, t, env, DepartureFromDubai, TripStartDate, ArrivalDate);
    var arrival := CopiedItems(data, t, env, ArrivalToDubai, TripEndDate, DepartureDate);
    var accompaniment := AccompanimentItem(data, t, env).value;
    var pricing := LabelItem(data, t, env).value;
    assert TextFieldItems(data, t, env).value == mapped + departure + arrival + accompaniment + pricing;
    MappedItemsAllText(data, t, env, t.textFields);
    CopiedItemsAllText(data, t, env, DepartureFromDubai, TripStartDate, ArrivalDate);
    CopiedItemsAllText(data, t, env, ArrivalToDubai, TripEndDate, DepartureDate);
    AccompanimentAllText(data, t, env);
    LabelAllText(data, t, env);
    AllTextConcat(mapped, departure);
    AllTextConcat(mapped + departure, arrival);
    AllTextConcat(mapped + departure + arrival, accompaniment);
    AllTextConcat(mapped + departure + arrival + accompaniment, pricing);
  }

  lemma CheckboxMarksAllText(data: map<string, Value>, t: Tables)
    requires CheckboxMarks(data, t).Ok?
    ensures AllText(CheckboxMarks(data, t).value)
  {
  }

  /** The redaction first, then nothing but text. */
  predicate RedactedThenText(ops: seq<Op>) {
    |ops| >= 1 && ops[0] == RedactedDates && AllText(ops[1..])
  }

  lemma RedactionBeforeText(marks: seq<Op>, items: seq<Op>)
    requires AllText(marks) && AllText(items)
    ensures RedactedThenText([RedactedDates] + marks + items)
  {
    AllTextConcat(marks, items);
    assert ([RedactedDates] + marks + items)[1..] == marks + items;
  }

  /** A filled page starts with the white rectangle over the printed trip
      dates and draws nothing but text after it: the rectangle is never
      painted over anything the filler wrote. */
  lemma FilledPageShape(data: map<string, Value>, t: Tables, env: Env)
    requires FilledPage(data, t, env).Ok?
    ensures RedactedThenText(FilledPage(data, t, env).value)
  {
    var marks := CheckboxMarks(data, t).value;
    var items := TextFieldItems(data, t, env).value;
    assert FilledPage(data, t, env).value == [RedactedDates] + marks + items;
    CheckboxMarksAllText(data, t);
    TextFieldItemsAllText(data, t, env);
    RedactionBeforeText(marks, items);
  }

  /** Whether the rectangle `r` covers the point `p`. */
  predicate Covers(r: Op, p: Point)
    requires r.Rect?
  {
    r.x0 <= p.x <= r.x1 && r.y0 <= p.y <= r.y1
  }

  /** The new trip dates are written inside the area that was whited out. */
  lemma RedactionCoversTripDates()
    ensures Form.coordinates(TripStartDate).Some? && Covers(RedactedDates, Form.coordinates(TripStartDate).value)
    ensures Form.coordinates(TripEndDate).Some? && Covers(RedactedDates, Form.coordinates(TripEndDate).value)
  {
    TripDateFields();
  }
}
