/** The Tokyo fever-clinic converter (`clinic_data/tokyo/clinic_data.py`):
    the rows of the published spreadsheet, already read into cells, are
    checked against two expected header rows, each clinic row becomes a
    ClinicInfo, and each ClinicInfo becomes one 32-column CSV row. */
module ClinicData {
  import opened Wrappers
  import opened Text
  import opened Grouping

  type Hour = h: int | 0 <= h < 24
  type Sixty = m: int | 0 <= m < 60

  /** A spreadsheet cell as the reader hands it over: text, a time of day,
      or an empty cell, which the reader turns into a floating-point NaN. */
  datatype SheetCell = Str(text: string) | Clock(hour: Hour, minute: Sixty, second: Sixty) | Nan

  /** `str(col)`: the text itself, `HH:MM:SS` for a time of day and `nan`
      for an empty cell. */
  function CellText(c: SheetCell): (s: string)
    ensures c.Clock? ==> |s| == 8 && s[2] == ':' && s[5] == ':'
  {
    match c
    case Str(t) => t
    case Clock(h, m, sec) => TwoDigits(h) + ":" + TwoDigits(m) + ":" + TwoDigits(sec)
    case Nan => "nan"
  }

  // Character normalisation (`CHAR_MAP` and `_convert`)

  /** `CHAR_MAP`: a line break is dropped; the full-width digits U+FF10 to
      U+FF19 become ASCII digits; the prolonged sound mark U+30FC, the minus
      sign U+2212, the em dash U+2014 and the tilde become a hyphen. */
  function CharMap(c: char): (r: Option<string>)
    ensures r.Some? ==> |r.value| <= 1
  {
    if c == '\n' then Some("")
    else if '\U{FF10}' <= c <= '\U{FF19}' then Some([(c as int - 0xFF10 + '0' as int) as char])
    else if c == '\U{30FC}' || c == '\U{2212}' || c == '\U{2014}' || c == '~' then Some("-")
    else None
  }

  /** What one character of the input contributes to the output. */
  function Piece(c: char): string
  {
    CharMap(c).GetOr([c])
  }

  /** The string `_convert` builds: every character replaced by its
      CHAR_MAP entry when it has one, the pieces joined in order. */
  function Converted(s: string): string
  {
    if s == [] then [] else Piece(s[0]) + Converted(s[1..])
  }

  /** `_convert`, which passes `None` through. */
  function ConvertOf(s: Option<string>): Option<string>
  {
    match s
    case None => None
    case Some(t) => Some(Converted(t))
  }

  /** `_convert`: one piece per character appended to a list that is then
      joined with the empty separator. */
  method Convert(s: Option<string>) returns (r: Option<string>)
    ensures r.None? <==> s.None?
    ensures r.Some? ==> r.value == Converted(s.value)
  {
    if s.None? {
      return None;
    }
    var text := s.value;
    var result: seq<string> := [];
    for i := 0 to |text|
      invariant Flatten(result) == Converted(text[..i])
    {
      var c := text[i];
      if CharMap(c).Some? {
        result := result + [CharMap(c).value];
      } else {
        result := result + [[c]];
      }
      FlattenSnocOne(result[..|result| - 1], result[|result| - 1]);
      assert result[..|result| - 1] + [result[|result| - 1]] == result;
      ConvertedSnoc(text, i);
    }
    assert text[..|text|] == text;
    return Some(Flatten(result));
  }

  lemma FlattenSnocOne(parts: seq<string>, p: string)
    ensures Flatten(parts + [p]) == Flatten(parts) + p
  {
    FlattenAppend(parts, [p]);
    assert Flatten([p]) == p + Flatten([p][1..]);
  }

  /** Converting a string piecewise: the pieces of `a + b` are those of `a`
      followed by those of `b`. */
  lemma {:induction false} ConvertedAppend(a: string, b: string)
    ensures Converted(a + b) == Converted(a) + Converted(b)
    decreases |a|
  {
    if a == [] {
      assert a + b == b;
    } else {
      assert (a + b)[0] == a[0] && (a + b)[1..] == a[1..] + b;
      ConvertedAppend(a[1..], b);
    }
  }

  lemma ConvertedSnoc(s: string, i: nat)
    requires i < |s|
    ensures Converted(s[..i + 1]) == Converted(s[..i]) + Piece(s[i])
  {
    assert s[..i + 1] == s[..i] + [s[i]];
    ConvertedAppend(s[..i], [s[i]]);
    assert Converted([s[i]]) == Piece(s[i]) + Converted([]);
  }

  /** Every character keeps its place except a line break, which is
      dropped: the output is as long as the input without its line
      breaks. */
  lemma {:induction false} ConvertedLength(s: string)
    ensures |Converted(s)| == |s| - Count(s, '\n')
    decreases |s|
  {
    if s != [] {
      ConvertedLength(s[1..]);
    }
  }

  /** No replacement is itself a key of CHAR_MAP, so nothing in the output
      is. */
  lemma {:induction false} ConvertedHasNoKey(s: string)
    ensures forall i :: 0 <= i < |Converted(s)| ==> CharMap(Converted(s)[i]).None?
    decreases |s|
  {
    if s != [] {
      ConvertedHasNoKey(s[1..]);
      var p, rest := Piece(s[0]), Converted(s[1..]);
      assert forall i :: 0 <= i < |p| ==> CharMap(p[i]).None?;
      assert forall i :: |p| <= i < |p + rest| ==> (p + rest)[i] == rest[i - |p|];
    }
  }

  /** A string is left unchanged exactly when none of its characters is a
      key of CHAR_MAP. */
  lemma ConvertedFixed(s: string)
    ensures Converted(s) == s <==> forall i :: 0 <= i < |s| ==> CharMap(s[i]).None?
  {
    if Converted(s) == s {
      ConvertedHasNoKey(s);
    }
    if forall i :: 0 <= i < |s| ==> CharMap(s[i]).None? {
      ConvertedKeepsPlain(s);
    }
  }

  lemma {:induction false} ConvertedKeepsPlain(s: string)
    requires forall i :: 0 <= i < |s| ==> CharMap(s[i]).None?
    ensures Converted(s) == s
    decreases |s|
  {
    if s != [] {
      assert CharMap(s[0]).None?;
      ConvertedKeepsPlain(s[1..]);
      assert [s[0]] + s[1..] == s;
    }
  }

  /** Converting twice is converting once. */
  lemma ConvertIdempotent(s: string)
    ensures Converted(Converted(s)) == Converted(s)
  {
    ConvertedHasNoKey(s);
    ConvertedKeepsPlain(Converted(s));
  }

  // Picking tokens out of the contact cell

  /** `token.startswith("http")` */
  predicate IsUrlToken(t: string) {
    StartsWith(t, "http")
  }

  /** A token that starts with an ASCII or a full-width zero. */
  predicate IsPhoneToken(t: string) {
    StartsWith(t, "0") || StartsWith(t, "\U{FF10}")
  }

  /** A token that is neither a telephone number nor a URL. */
  predicate IsNoteToken(t: string) {
    !IsPhoneToken(t) && !IsUrlToken(t)
  }

  /** The first token that satisfies `p`, if any. */
  function FirstWhere(tokens: seq<string>, p: string -> bool): (r: Option<string>)
    ensures r.None? <==> forall i :: 0 <= i < |tokens| ==> !p(tokens[i])
    ensures r.Some? ==> exists i :: 0 <= i < |tokens| && tokens[i] == r.value && p(r.value)
                                   && forall j :: 0 <= j < i ==> !p(tokens[j])
    decreases |tokens|
  {
    if tokens == [] then None
    else if p(tokens[0]) then Some(tokens[0])
    else
      var r := FirstWhere(tokens[1..], p);
      assert forall i :: 1 <= i < |tokens| ==> tokens[i] == tokens[1..][i - 1];
      r
  }

  /** The lines of `str(col)`. */
  function Lines(col: SheetCell): seq<string>
  {
    Split(CellText(col), '\n')
  }

  /** The search loop of the three pickers: the first line of the cell that
      satisfies `p`. */
  method FirstLine(col: SheetCell, p: string -> bool) returns (r: Option<string>)
    ensures r == FirstWhere(Lines(col), p)
  {
    var tokens := Split(CellText(col), '\n');
    for i := 0 to |tokens|
      invariant FirstWhere(tokens[i..], p) == FirstWhere(tokens, p)
    {
      if p(tokens[i]) {
        return Some(tokens[i]);
      }
      assert tokens[i..][1..] == tokens[i + 1..];
    }
    return None;
  }

  /** `parse_web_url`: the first line that starts with `http`, else None. */
  method ParseWebUrl(col: SheetCell) returns (url: Option<string>)
    ensures url == FirstWhere(Lines(col), IsUrlToken)
  {
    url := FirstLine(col, IsUrlToken);
  }

  /** `parse_telephone_number`: the first line that starts with a zero,
      else None. */
  method ParseTelephoneNumber(col: SheetCell) returns (telephone: Option<string>)
    ensures telephone == FirstWhere(Lines(col), IsPhoneToken)
  {
    telephone := FirstLine(col, IsPhoneToken);
  }

  /** `parse_note`: the first line that is neither a telephone number nor
      a URL, else the empty string; the note therefore never looks like
      either. */
  method ParseNote(col: SheetCell) returns (note: string)
    ensures note == FirstWhere(Lines(col), IsNoteToken).GetOr("")
    ensures IsNoteToken(note)
  {
    var found := FirstLine(col, IsNoteToken);
    note := found.GetOr("");
  }

  // Decoding the marks of the spreadsheet

  /** The marks the spreadsheet uses: a circle (U+3007) for yes, a star
      (U+2605) for "only children or pregnant women", a cross (U+00D7) for
      no. */
  function Circle(): string { "\U{3007}" }
  function Star(): string { "\U{2605}" }
  function Cross(): string { "\U{00D7}" }

  /** `parse_target`: (the clinic takes this group, it takes only this
      group). */
  function ParseTarget(col: SheetCell): (r: (bool, bool))
    ensures r.1 ==> r.0
    ensures r.0 <==> col == Str(Circle()) || col == Str(Star())
    ensures r.1 <==> col == Str(Star())
  {
    if col == Str(Circle()) then (true, false)
    else if col == Str(Star()) then (true, true)
    else (false, false)
  }

  /** `parse_bool_or_none`: a circle is yes, a cross is no, anything else
      is unknown. */
  function ParseBoolOrNone(col: SheetCell): (r: Option<bool>)
    ensures r == Some(true) <==> col == Str(Circle())
    ensures r == Some(false) <==> col == Str(Cross())
    ensures r.None? <==> col != Str(Circle()) && col != Str(Cross())
  {
    if col == Str(Circle()) then Some(true)
    else if col == Str(Cross()) then Some(false)
    else None
  }

  /** `s.replace(c, "")` */
  function Without(s: string, c: char): (r: string)
    ensures c !in r
    ensures |r| == |s| - Count(s, c)
    decreases |s|
  {
    if s == [] then []
    else if s[0] == c then Without(s[1..], c)
    else [s[0]] + Without(s[1..], c)
  }

  /** `parse_time`: a text without its line breaks, a time of day as
      `HH:MM:SS`, nothing for an empty cell. */
  function ParseTime(col: SheetCell): (r: Option<string>)
    ensures r.None? <==> col.Nan?
    ensures r.Some? ==> '\n' !in r.value
  {
    match col
    case Str(t) => Some(Without(t, '\n'))
    case Clock(_, _, _) => Some(CellText(col))
    case Nan => None
  }

  /** Dropping the line breaks first changes nothing after `_convert`,
      which drops them anyway. */
  lemma {:induction false} ConvertedWithoutBreaks(s: string)
    ensures Converted(Without(s, '\n')) == Converted(s)
    decreases |s|
  {
    if s != [] {
      ConvertedWithoutBreaks(s[1..]);
      if s[0] != '\n' {
        assert Without(s, '\n') == [s[0]] + Without(s[1..], '\n');
        ConvertedAppend([s[0]], Without(s[1..], '\n'));
        assert Converted([s[0]]) == Piece(s[0]) + Converted([]);
      }
    }
  }

  /** `parse_support_language`: the text of a text cell, else nothing. */
  function ParseSupportLanguage(col: SheetCell): (r: Option<string>)
    ensures r.Some? <==> col.Str?
    ensures r.Some? ==> r.value == col.text
  {
    if col.Str? then Some(col.text) else None
  }

  // One clinic

  /** The errors that end the conversion: a row too short for the column
      read next, and text concatenated with a non-text cell. */
  datatype RowError = IndexError | TypeError

  /** A clinic as `ClinicInfo.__init__` builds it. The fourteen office-hour
      fields run from Monday morning, Monday afternoon, ... to Sunday
      afternoon. */
  datatype ClinicInfo = ClinicInfo(
    name: string,
    telephone: Option<string>,
    webUrl: Option<string>,
    targetCloseContactPerson: bool,
    targetChild: bool,
    targetPregnant: bool,
    targetChildLimited: bool,
    targetPregnantLimited: bool,
    address: string,
    testPcr: Option<bool>,
    testQuantitativeAntigen: Option<bool>,
    testQualitativeAntigen: Option<bool>,
    healthObservation: Option<bool>,
    antibodyTreatment: Option<bool>,
    covidAntiviralPill: Option<bool>,
    officeHours: seq<Option<string>>,
    supportLanguage: Option<string>,
    openHoliday: string,
    note: string)

  /** `ClinicInfo(row)`: columns 1 to 29 of a clinic row. Columns 6 and 7
      are joined with a space, left to right: `row[6] + " "` fails before
      `row[7]` is read unless column 6 is text, and the second `+` fails
      unless column 7 is text. */
  function FromRow(row: seq<SheetCell>): (r: Result<ClinicInfo, RowError>)
    ensures r.Ok? <==> |row| >= 30 && row[6].Str? && row[7].Str?
    ensures r == Err(TypeError) <==> |row| >= 7 && (!row[6].Str? || (|row| >= 8 && !row[7].Str?))
    ensures r == Err(IndexError) <==>
      |row| < 7 || (row[6].Str? && (|row| == 7 || (row[7].Str? && |row| < 30)))
    ensures r.Ok? ==> |r.value.officeHours| == 14
  {
    if |row| < 7 then Err(IndexError)
    else if !row[6].Str? then Err(TypeError)
    else if |row| < 8 then Err(IndexError)
    else if !row[7].Str? then Err(TypeError)
    else if |row| < 30 then Err(IndexError)
    else
      var closeContact := ParseTarget(row[3]);
      var child := ParseTarget(row[4]);
      var pregnant := ParseTarget(row[5]);
      Ok(ClinicInfo(
        CellText(row[1]),
        ConvertOf(FirstWhere(Lines(row[2]), IsPhoneToken)),
        FirstWhere(Lines(row[2]), IsUrlToken),
        closeContact.0, child.0, pregnant.0, child.1, pregnant.1,
        row[6].text + " " + row[7].text,
        ParseBoolOrNone(row[8]), ParseBoolOrNone(row[9]), ParseBoolOrNone(row[10]),
        ParseBoolOrNone(row[11]), ParseBoolOrNone(row[12]), ParseBoolOrNone(row[13]),
        seq(14, k requires 0 <= k < 14 => ConvertOf(ParseTime(row[14 + k]))),
        ParseSupportLanguage(row[28]),
        CellText(row[29]),
        "" + FirstWhere(Lines(row[2]), IsNoteToken).GetOr("")))
  }

  /** A telephone number that `_convert` has seen starts with an ASCII
      zero and holds no character CHAR_MAP would replace. */
  lemma ConvertedTelephone(t: string)
    requires IsPhoneToken(t)
    ensures var c := Converted(t); |c| >= 1 && c[0] == '0'
    ensures forall i :: 0 <= i < |Converted(t)| ==> CharMap(Converted(t)[i]).None?
  {
    assert t[..1] == "0" || t[..1] == "\U{FF10}";
    ConvertedHasNoKey(t);
  }

  /** What a clinic built from a row promises: a limited target is a
      target, the telephone number starts with an ASCII zero and is
      normalised, the URL starts with `http`, the note is neither, and the
      office hours hold no line break and are normalised. */
  lemma ClinicInfoShape(row: seq<SheetCell>)
    requires FromRow(row).Ok?
    ensures var info := FromRow(row).value;
      && (info.targetChildLimited ==> info.targetChild)
      && (info.targetPregnantLimited ==> info.targetPregnant)
      && (info.telephone.Some? ==> |info.telephone.value| >= 1 && info.telephone.value[0] == '0'
                                   && Converted(info.telephone.value) == info.telephone.value)
      && (info.webUrl.Some? ==> IsUrlToken(info.webUrl.value))
      && IsNoteToken(info.note)
      && forall k :: 0 <= k < 14 && info.officeHours[k].Some? ==>
           '\n' !in info.officeHours[k].value && Converted(info.officeHours[k].value) == info.officeHours[k].value
  {
    FromRowTelephone(row);
    FromRowUrlNote(row);
    FromRowHours(row);
  }

  lemma FromRowTelephone(row: seq<SheetCell>)
    requires FromRow(row).Ok?
    ensures var telephone := FromRow(row).value.telephone;
      telephone.Some? ==> |telephone.value| >= 1 && telephone.value[0] == '0' && Converted(telephone.value) == telephone.value
  {
    var phone := FirstWhere(Lines(row[2]), IsPhoneToken);
    assert FromRow(row).value.telephone == ConvertOf(phone);
    if phone.Some? {
      ConvertedTelephone(phone.value);
      ConvertIdempotent(phone.value);
    }
  }

  lemma FromRowUrlNote(row: seq<SheetCell>)
    requires FromRow(row).Ok?
    ensures var info := FromRow(row).value;
      && (info.webUrl.Some? ==> IsUrlToken(info.webUrl.value))
      && IsNoteToken(info.note)
  {
    var note := FirstWhere(Lines(row[2]), IsNoteToken);
    assert FromRow(row).value.note == "" + note.GetOr("");
    assert "" + note.GetOr("") == note.GetOr("");
  }

  lemma FromRowHours(row: seq<SheetCell>)
    requires FromRow(row).Ok?
    ensures var hours := FromRow(row).value.officeHours;
      forall k :: 0 <= k < 14 && hours[k].Some? ==>
        '\n' !in hours[k].value && Converted(hours[k].value) == hours[k].value
  {
    var hours := FromRow(row).value.officeHours;
    assert forall k :: 0 <= k < 14 ==> hours[k] == ConvertOf(ParseTime(row[14 + k]));
    forall k | 0 <= k < 14 && hours[k].Some?
      ensures '\n' !in hours[k].value && Converted(hours[k].value) == hours[k].value
    {
      ConvertedTime(row[14 + k]);
    }
  }

  /** An office-hour field holds no line break and is normalised. */
  lemma ConvertedTime(c: SheetCell)
    requires ParseTime(c).Some?
    ensures var h := Converted(ParseTime(c).value); '\n' !in h && Converted(h) == h
  {
    var t := ParseTime(c).value;
    ConvertedHasNoKey(t);
    ConvertIdempotent(t);
    assert CharMap('\n').Some?;
  }

  // The CSV row

  /** The values `write_to_csv` puts in a row: booleans and strings. */
  datatype CsvValue = BoolValue(b: bool) | TextValue(s: string)

  /** `_to_string`: booleans in lower case, strings as they are. */
  function ToString(v: CsvValue): string
  {
    match v
    case BoolValue(b) => if b then "true" else "false"
    case TextValue(s) => s
  }

  /** One cell of the written row: `None` becomes the empty string. */
  function CellOf(v: Option<CsvValue>): string
  {
    match v
    case None => ""
    case Some(x) => ToString(x)
  }

  function Flag(b: Option<bool>): Option<CsvValue>
  {
    match b
    case None => None
    case Some(x) => Some(BoolValue(x))
  }

  function TextOf(s: Option<string>): Option<CsvValue>
  {
    match s
    case None => None
    case Some(x) => Some(TextValue(x))
  }

  /** The list `write_to_csv` builds, in the order of the header: the
      fifteen fields before the office hours, the office hours, and the
      three fields after them. */
  function RowValues(info: ClinicInfo): seq<Option<CsvValue>>
  {
    LeadValues(info) + HourValues(info.officeHours) + TailValues(info)
  }

  function LeadValues(info: ClinicInfo): seq<Option<CsvValue>>
  {
    [Some(TextValue(info.name)),
     TextOf(info.telephone), TextOf(info.webUrl),
     Some(BoolValue(info.targetCloseContactPerson)), Some(BoolValue(info.targetChild)),
     Some(BoolValue(info.targetPregnant)),
     Some(BoolValue(info.targetChildLimited)), Some(BoolValue(info.targetPregnantLimited)),
     Some(TextValue(info.address)),
     Flag(info.testPcr), Flag(info.testQuantitativeAntigen), Flag(info.testQualitativeAntigen),
     Flag(info.healthObservation), Flag(info.antibodyTreatment), Flag(info.covidAntiviralPill)]
  }

  function HourValues(hours: seq<Option<string>>): seq<Option<CsvValue>>
  {
    seq(|hours|, k requires 0 <= k < |hours| => TextOf(hours[k]))
  }

  function TailValues(info: ClinicInfo): seq<Option<CsvValue>>
  {
    [TextOf(info.supportLanguage), Some(TextValue(info.openHoliday)), Some(TextValue(info.note))]
  }

  /** `write_to_csv`: the row of one clinic. */
  function CsvRow(info: ClinicInfo): (row: seq<string>)
    ensures |row| == 18 + |info.officeHours|
  {
    var values := RowValues(info);
    seq(|values|, i requires 0 <= i < |values| => CellOf(values[i]))
  }

  /** The first fifteen cells of a row. */
  lemma CsvRowLead(info: ClinicInfo)
    ensures forall i :: 0 <= i < 15 ==> CsvRow(info)[i] == CellOf(LeadValues(info)[i])
  {
    var values := RowValues(info);
    assert forall i :: 0 <= i < 15 ==> values[i] == LeadValues(info)[i];
  }

  /** The office-hour cells of a row. */
  lemma CsvRowHours(info: ClinicInfo)
    ensures forall k :: 0 <= k < |info.officeHours| ==> CsvRow(info)[15 + k] == info.officeHours[k].GetOr("")
  {
    var values := RowValues(info);
    assert forall k :: 0 <= k < |info.officeHours| ==> values[15 + k] == HourValues(info.officeHours)[k];
  }

  /** The last three cells of a row. */
  lemma CsvRowTail(info: ClinicInfo)
    ensures var n := 15 + |info.officeHours|;
      && CsvRow(info)[n] == info.supportLanguage.GetOr("")
      && CsvRow(info)[n + 1] == info.openHoliday && CsvRow(info)[n + 2] == info.note
  {
    var values := RowValues(info);
    var n := 15 + |info.officeHours|;
    assert values[n] == TailValues(info)[0] && values[n + 1] == TailValues(info)[1] && values[n + 2] == TailValues(info)[2];
  }

  /** Reads a yes/no cell of the written row back. */
  function ReadFlag(cell: string): (r: Option<bool>)
  {
    if cell == "true" then Some(true) else if cell == "false" then Some(false) else None
  }

  /** The three states of a yes/no field are written as three different
      cells, so the field can be read back. */
  lemma FlagRoundTrip(b: Option<bool>)
    ensures ReadFlag(CellOf(Flag(b))) == b
  {
  }

  /** `_write_to_csv_header`: the names of the 32 columns. */
  function CsvHeader(): (h: seq<string>)
    ensures |h| == 32
  {
    ["医療機関名",
     "電話番号", "Web予約URL",
     "対象者（濃厚接触者）", "対象者（小児）", "対象者（妊婦）",
     "対象者は小児に限定", "対象者は妊婦に限定",
     "所在地",
     "検査方法（PCR）", "検査方法（抗原定量）", "検査方法（抗原定性）",
     "健康観察", "中和抗体薬", "経口治療薬",
     "発熱患者等に対する診療・検査対応時間（月曜日・午前）", "発熱患者等に対する診療・検査対応時間（月曜日・午後）",
     "発熱患者等に対する診療・検査対応時間（火曜日・午前）", "発熱患者等に対する診療・検査対応時間（火曜日・午後）",
     "発熱患者等に対する診療・検査対応時間（水曜日・午前）", "発熱患者等に対する診療・検査対応時間（水曜日・午後）",
     "発熱患者等に対する診療・検査対応時間（木曜日・午前）", "発熱患者等に対する診療・検査対応時間（木曜日・午後）",
     "発熱患者等に対する診療・検査対応時間（金曜日・午前）", "発熱患者等に対する診療・検査対応時間（金曜日・午後）",
     "発熱患者等に対する診療・検査対応時間（土曜日・午前）", "発熱患者等に対する診療・検査対応時間（土曜日・午後）",
     "発熱患者等に対する診療・検査対応時間（日曜日・午前）", "発熱患者等に対する診療・検査対応時間（日曜日・午後）",
     "対応できる外国語",
     "診療検査日が祝日の場合",
     "備考"]
  }

  /** The row of a clinic with its fourteen office-hour fields has one
      cell per header column, and each column
      holds the field its name announces: texts as they are (`None` as
      the empty string), yes/no fields readable back. */
  lemma CsvRowMatchesHeader(info: ClinicInfo)
    requires |info.officeHours| == 14
    ensures var cells := CsvRow(info);
      && |cells| == 32
      && cells[0] == info.name
      && cells[1] == info.telephone.GetOr("") && cells[2] == info.webUrl.GetOr("")
      && ReadFlag(cells[3]) == Some(info.targetCloseContactPerson)
      && ReadFlag(cells[4]) == Some(info.targetChild) && ReadFlag(cells[5]) == Some(info.targetPregnant)
      && ReadFlag(cells[6]) == Some(info.targetChildLimited) && ReadFlag(cells[7]) == Some(info.targetPregnantLimited)
      && cells[8] == info.address
      && ReadFlag(cells[9]) == info.testPcr
      && ReadFlag(cells[10]) == info.testQuantitativeAntigen && ReadFlag(cells[11]) == info.testQualitativeAntigen
      && ReadFlag(cells[12]) == info.healthObservation
      && ReadFlag(cells[13]) == info.antibodyTreatment && ReadFlag(cells[14]) == info.covidAntiviralPill
      && (forall k :: 0 <= k < 14 ==> cells[15 + k] == info.officeHours[k].GetOr(""))
      && cells[29] == info.supportLanguage.GetOr("")
      && cells[30] == info.openHoliday && cells[31] == info.note
  {
    CsvRowTexts(info);
    CsvRowTargets(info);
    CsvRowTests(info);
    CsvRowHours(info);
    CsvRowTail(info);
  }

  lemma CsvRowTexts(info: ClinicInfo)
    ensures var cells := CsvRow(info);
      && cells[0] == info.name
      && cells[1] == info.telephone.GetOr("") && cells[2] == info.webUrl.GetOr("")
      && cells[8] == info.address
  {
    CsvRowLead(info);
    var lead := LeadValues(info);
    assert lead[0] == Some(TextValue(info.name)) && lead[8] == Some(TextValue(info.address));
    assert lead[1] == TextOf(info.telephone) && lead[2] == TextOf(info.webUrl);
  }

  lemma CsvRowTargets(info: ClinicInfo)
    ensures var cells := CsvRow(info);
      && ReadFlag(cells[3]) == Some(info.targetCloseContactPerson)
      && ReadFlag(cells[4]) == Some(info.targetChild) && ReadFlag(cells[5]) == Some(info.targetPregnant)
      && ReadFlag(cells[6]) == Some(info.targetChildLimited) && ReadFlag(cells[7]) == Some(info.targetPregnantLimited)
  {
    CsvRowLead(info);
    var lead := LeadValues(info);
    assert lead[3] == Flag(Some(info.targetCloseContactPerson));
    assert lead[4] == Flag(Some(info.targetChild)) && lead[5] == Flag(Some(info.targetPregnant));
    assert lead[6] == Flag(Some(info.targetChildLimited)) && lead[7] == Flag(Some(info.targetPregnantLimited));
    FlagRoundTrip(Some(info.targetCloseContactPerson));
    FlagRoundTrip(Some(info.targetChild));
    FlagRoundTrip(Some(info.targetPregnant));
    FlagRoundTrip(Some(info.targetChildLimited));
    FlagRoundTrip(Some(info.targetPregnantLimited));
  }

  lemma CsvRowTests(info: ClinicInfo)
    ensures var cells := CsvRow(info);
      && ReadFlag(cells[9]) == info.testPcr
      && ReadFlag(cells[10]) == info.testQuantitativeAntigen && ReadFlag(cells[11]) == info.testQualitativeAntigen
      && ReadFlag(cells[12]) == info.healthObservation
      && ReadFlag(cells[13]) == info.antibodyTreatment && ReadFlag(cells[14]) == info.covidAntiviralPill
  {
    CsvRowLead(info);
    var lead := LeadValues(info);
    assert lead[9] == Flag(info.testPcr);
    assert lead[10] == Flag(info.testQuantitativeAntigen) && lead[11] == Flag(info.testQualitativeAntigen);
    assert lead[12] == Flag(info.healthObservation);
    assert lead[13] == Flag(info.antibodyTreatment) && lead[14] == Flag(info.covidAntiviralPill);
    FlagRoundTrip(info.testPcr);
    FlagRoundTrip(info.testQuantitativeAntigen);
    FlagRoundTrip(info.testQualitativeAntigen);
    FlagRoundTrip(info.healthObservation);
    FlagRoundTrip(info.antibodyTreatment);
    FlagRoundTrip(info.covidAntiviralPill);
  }

  // The header rows of the spreadsheet

  /** `HEADER1`: the first header row of the spreadsheet; `None` marks a
      column whose cell is not checked. */
  function Header1(): (h: seq<Option<string>>)
    ensures |h| == 31
  {
    [None, Some("医療機関名"), Some("電話番号\n(web予約URL)"), Some("対象者\n（★：小児or妊婦以外対応不可）"), None, None,
     Some("住所\n区市町村"), Some("それ以降の住所"), Some("コロナ検査方法"), None, None,
     Some("健康\n観察\n（※）"), Some("中和\n抗体薬"), Some("経口\n治療薬"),
     Some("発熱患者等に対する診療・検査対応時間"),
     None, None, None, None, None, None, None, None, None, None, None, None, None,
     Some("対応できる\n外国語"), Some("診療検査日時が祝日の場合"), Some("医療機関名")]
  }

  /** `HEADER2`: the second header row. */
  function Header2(): (h: seq<Option<string>>)
    ensures |h| == 31
  {
    [None, None, None, Some("濃厚\n接触者"), Some("小児"), Some("妊婦"), None, None,
     Some("PCR"), Some("抗原定量"), Some("抗原定性"), None, None, None,
     Some("月\n（午前）"), Some("月\n（午後）"), Some("火\n（午前）"), Some("火\n（午後）"),
     Some("水\n（午前）"), Some("水\n（午後）"), Some("木\n（午前）"), Some("木\n（午後）"),
     Some("金\n（午前）"), Some("金\n（午後）"), Some("土\n（午前）"), Some("土\n（午後）"),
     Some("日\n（午前）"), Some("日\n（午後）"), None, None, None]
  }

  /** `col != header_col` fails for a checked column only when the cell is
      that very text. */
  predicate Matches(cell: SheetCell, expected: Option<string>) {
    expected.None? || cell == Str(expected.value)
  }

  /** The outcome of `_is_validate(row, header)`: cells are compared in
      order; the first mismatch gives False; a row longer than the header
      raises an IndexError once every cell the header covers matched. */
  function HeaderCheck(row: seq<SheetCell>, header: seq<Option<string>>): (r: Result<bool, RowError>)
    ensures r == Ok(true) <==> |row| <= |header| && forall i :: 0 <= i < |row| ==> Matches(row[i], header[i])
    ensures r == Ok(false) <==> exists i :: 0 <= i < |row| && i < |header| && !Matches(row[i], header[i])
    ensures r.Err? <==> |row| > |header| && forall i :: 0 <= i < |header| ==> Matches(row[i], header[i])
    ensures r.Err? ==> r.error == IndexError
    decreases |row|
  {
    if row == [] then Ok(true)
    else if header == [] then Err(IndexError)
    else if !Matches(row[0], header[0]) then Ok(false)
    else
      var r := HeaderCheck(row[1..], header[1..]);
      assert forall i :: 1 <= i < |row| ==> row[i] == row[1..][i - 1];
      assert forall i :: 1 <= i < |header| ==> header[i] == header[1..][i - 1];
      r
  }

  /** `_is_validate`: the comparison loop with its early return. */
  method IsValidate(row: seq<SheetCell>, header: seq<Option<string>>) returns (r: Result<bool, RowError>)
    ensures r == HeaderCheck(row, header)
  {
    var i := 0;
    while i < |row|
      invariant 0 <= i <= |row| && i <= |header|
      invariant HeaderCheck(row[i..], header[i..]) == HeaderCheck(row, header)
    {
      if i >= |header| {
        return Err(IndexError);
      }
      if !Matches(row[i], header[i]) {
        return Ok(false);
      }
      assert row[i..][1..] == row[i + 1..] && header[i..][1..] == header[i + 1..];
      i := i + 1;
    }
    return Ok(true);
  }

  /** `_parse` on the rows the spreadsheet reader returns: rows 1 and 2 are
      checked against the two header rows; the data are refused (`False`)
      only when both checks fail; the clinics come from row 3 on. */
  function ParseOf(values: seq<seq<SheetCell>>): Result<Option<seq<ClinicInfo>>, RowError>
  {
    if |values| < 2 then Err(IndexError)
    else
      match HeaderCheck(values[1], Header1())
      case Err(e) => Err(e)
      case Ok(valid1) =>
        if |values| < 3 then Err(IndexError)
        else
          match HeaderCheck(values[2], Header2())
          case Err(e) => Err(e)
          case Ok(valid2) =>
            if !valid1 && !valid2 then Ok(None)
            else
              match MapSteps(FromRow, values[3..])
              case Err(e) => Err(e)
              case Ok(infos) => Ok(Some(infos))
  }

  /** `_parse`: the two checks, then the loop that builds one clinic per
      row. */
  method Parse(values: seq<seq<SheetCell>>) returns (r: Result<Option<seq<ClinicInfo>>, RowError>)
    ensures r == ParseOf(values)
  {
    if |values| < 2 {
      return Err(IndexError);
    }
    var check1 := IsValidate(values[1], Header1());
    if check1.Err? {
      return Err(check1.error);
    }
    if |values| < 3 {
      return Err(IndexError);
    }
    var check2 := IsValidate(values[2], Header2());
    if check2.Err? {
      return Err(check2.error);
    }
    if !check1.value && !check2.value {
      return Ok(None);
    }
    var infos := MapLoop(FromRow, values[3..]);
    if infos.Err? {
      return Err(infos.error);
    }
    return Ok(Some(infos.value));
  }

  /** What `_parse` returns: `False` exactly when both header rows
      mismatch; otherwise one clinic per row from row 3 on, in order, or
      the error of the first row that cannot be read. */
  lemma ParseMeaning(values: seq<seq<SheetCell>>)
    ensures ParseOf(values) == Ok(None) <==>
      |values| >= 3 && HeaderCheck(values[1], Header1()) == Ok(false) && HeaderCheck(values[2], Header2()) == Ok(false)
    ensures ParseOf(values).Ok? && ParseOf(values).value.Some? ==>
      var infos := ParseOf(values).value.value;
      && |infos| == |values| - 3
      && forall i :: 3 <= i < |values| ==> FromRow(values[i]) == Ok(infos[i - 3])
  {
    if |values| >= 3 {
      var rows := values[3..];
      MapStepsMeaning(FromRow, rows);
      assert forall i :: 3 <= i < |values| ==> values[i] == rows[i - 3];
    }
  }
}
