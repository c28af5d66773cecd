/** `check_response`: walks a decoded API response and reports, one line per
    problem, what is wrong with its shape. The printed lines are modelled as a
    sequence of diagnostics; an exception that escapes carries the lines
    printed before it. `validDate` stands for the test that
    `datetime.strptime(s, '%Y-%m-%dT%H:%M:%SZ')` accepts `s`. */
module ResponseCheck {
  import opened PyValue
  import opened Homework

  /** The Python type a record field is declared to have. */
  datatype PyType = IntType | StrType

  datatype Field = Field(name: string, ty: PyType)

  /** `homeworks_structure`, in declaration order (the order Python iterates it). */
  const Structure: seq<Field> := [
    Field("id", IntType),
    Field("status", StrType),
    Field("homework_name", StrType),
    Field("reviewer_comment", StrType),
    Field("date_updated", StrType),
    Field("lesson_name", StrType)
  ]

  /** The record holds all six fields of `homeworks_structure`. */
  predicate HasAllFields(record: map<string, Json>) {
    && "id" in record && "status" in record && "homework_name" in record
    && "reviewer_comment" in record && "date_updated" in record && "lesson_name" in record
  }

  /** `HasAllFields` is the field-loop completion test over `Structure`. */
  lemma AllFieldsOfStructure(record: map<string, Json>)
    ensures HasAllFields(record) <==> forall f <- Structure :: f.name in record
  {
    assert Structure[0] in Structure && Structure[1] in Structure && Structure[2] in Structure;
    assert Structure[3] in Structure && Structure[4] in Structure && Structure[5] in Structure;
  }

  const BadTypeMessage: string := "bad type current_date or homeworks in JSON"

  /** One printed line. Each carries the values the line prints. */
  datatype Diag =
    | NoCurrentDateOrHomeworks
    | BadType(value: Json, homework: Json)
    | BadStatus(status: Json, homework: Json)
    | BadDateFormat(date: Json, homework: Json)
    | NoField(field: string, homework: Json)

  /** The run ended normally, or an exception escaped after some lines were printed. */
  datatype Outcome =
    | Done(diags: seq<Diag>)
    | Raised(exc: Exc, diags: seq<Diag>)

  /** The text of a printed line; `pyStr` is Python's `str()`. */
  function Line(d: Diag, pyStr: Json -> string): string {
    match d
    case NoCurrentDateOrHomeworks => "no current_date or homeworks in JSON"
    case BadType(v, h) => "bad type " + Str(v, pyStr) + " in homework " + Str(h, pyStr)
    case BadStatus(v, h) => "bad status " + Str(v, pyStr) + " in homework " + Str(h, pyStr)
    case BadDateFormat(v, h) => "bad date format " + Str(v, pyStr) + " in homework " + Str(h, pyStr)
    case NoField(f, h) => "there is no " + f + " in homework " + Str(h, pyStr)
  }

  /** Python's exact-type test `type(v) == t` (a bool is not an int). */
  predicate HasType(v: Json, t: PyType) {
    match t
    case IntType => v.JInt?
    case StrType => v.JStr?
  }

  /** A line a record check can print. */
  predicate RecordDiag(d: Diag) {
    !d.NoCurrentDateOrHomeworks?
  }

  /** Lines printed before `o`'s, then `o`'s own. */
  function Prepend(d: seq<Diag>, o: Outcome): (r: Outcome)
    ensures r.Raised? == o.Raised? && r.diags == d + o.diags
    ensures r.Raised? ==> r.exc == o.exc
  {
    match o
    case Done(x) => Done(d + x)
    case Raised(e, x) => Raised(e, d + x)
  }

  // ---------------------------------------------------------------------------
  // The field loop of one record

  /** What the field loop leaves: the lines it printed, and whether it got
      through every field (false: a lookup raised `KeyError`). */
  datatype Scan = Scan(lines: seq<Diag>, complete: bool)

  /** The line a present field prints: one if its value is not of the declared type. */
  function TypeLine(value: Json, ty: PyType, homework: Json): seq<Diag> {
    if HasType(value, ty) then [] else [BadType(value, homework)]
  }

  /** The field loop of `check_response` over `fields`, after earlier
      fields printed `printed`: a type line for each present field of the
      wrong type, and at the first missing field its line and a stop. */
  function ScanFields(record: map<string, Json>, homework: Json, fields: seq<Field>, printed: seq<Diag>): (r: Scan)
    decreases |fields|
    ensures |printed| <= |r.lines| <= |printed| + |fields|
    ensures r.complete ==> forall f <- fields :: f.name in record
    ensures !r.complete ==> |printed| < |r.lines|
    ensures !r.complete ==> r.lines[|r.lines| - 1].NoField? && r.lines[|r.lines| - 1].field !in record
  {
    if fields == [] then Scan(printed, true)
    else
      var f := fields[0];
      if f.name !in record then Scan(printed + [NoField(f.name, homework)], false)
      else ScanFields(record, homework, fields[1..], printed + TypeLine(record[f.name], f.ty, homework))
  }

  /** Independent description of the type lines: one per field of `fields`
      that is present with a value not of its declared type, in the order of
      `fields`. */
  function Mismatches(record: map<string, Json>, homework: Json, fields: seq<Field>): seq<Diag> {
    if fields == [] then []
    else
      var f := fields[0];
      (if f.name in record then TypeLine(record[f.name], f.ty, homework) else [])
      + Mismatches(record, homework, fields[1..])
  }

  // ---------------------------------------------------------------------------
  // One record

  /** The status and date checks that follow a complete field loop, which
      printed `lines`. An unhashable status raises `TypeError` in the `in`
      test; a `date_updated` that is not a string raises `TypeError` inside
      `strptime`. */
  function StatusAndDate(status: Json, date: Json, homework: Json, lines: seq<Diag>,
                         validDate: string -> bool): (r: Outcome)
    ensures r.Raised? <==> !Hashable(status) || !date.JStr?
    ensures r.Raised? ==> r.exc == TypeError
    ensures |lines| <= |r.diags| && r.diags[..|lines|] == lines
  {
    if !Hashable(status) then Raised(TypeError, lines)
    else
      var afterStatus := if KnownStatus(status) then lines else lines + [BadStatus(status, homework)];
      if !date.JStr? then Raised(TypeError, afterStatus)
      else if validDate(date.s) then Done(afterStatus)
      else Done(afterStatus + [BadDateFormat(date, homework)])
  }

  /** The body of the outer loop for one record: the field loop, then, if it
      found every field, the status and date checks. A record that is not a
      dict raises `TypeError` at its first subscript. */
  function RecordOutcome(homework: Json, validDate: string -> bool): (r: Outcome)
    ensures r.Raised? ==> r.exc == TypeError
    ensures r.Raised? <==>
      || !homework.JObj?
      || (&& HasAllFields(homework.fields)
          && (!Hashable(homework.fields["status"]) || !homework.fields["date_updated"].JStr?))
    ensures homework.JObj? && !HasAllFields(homework.fields) ==>
      && r.Done? && |r.diags| > 0
      && r.diags[|r.diags| - 1].NoField? && r.diags[|r.diags| - 1].field !in homework.fields
  {
    match homework
    case JObj(record) =>
      AllFieldsOfStructure(record);
      var scan := ScanFields(record, homework, Structure, []);
      if !scan.complete then Done(scan.lines)
      else
        assert Structure[1] in Structure && Structure[4] in Structure;
        StatusAndDate(record["status"], record["date_updated"], homework, scan.lines, validDate)
    case _ => Raised(TypeError, [])
  }

  // ---------------------------------------------------------------------------
  // The list of records and the whole response

  /** The outer loop: records in list order; the first exception stops it. */
  function RecordsOutcome(homeworks: seq<Json>, validDate: string -> bool): (r: Outcome)
    ensures r.Raised? ==> r.exc == TypeError
  {
    if homeworks == [] then Done([])
    else
      match RecordOutcome(homeworks[0], validDate)
      case Raised(e, d) => Raised(e, d)
      case Done(d) => Prepend(d, RecordsOutcome(homeworks[1..], validDate))
  }

  /** The outer loop seen from record `i` on: that record, then the rest. */
  lemma RecordsOutcomeAt(homeworks: seq<Json>, i: nat, validDate: string -> bool)
    requires i < |homeworks|
    ensures var one := RecordOutcome(homeworks[i], validDate);
      RecordsOutcome(homeworks[i..], validDate)
      == if one.Raised? then one else Prepend(one.diags, RecordsOutcome(homeworks[i + 1..], validDate))
  {
    assert homeworks[i..][0] == homeworks[i] && homeworks[i..][1..] == homeworks[i + 1..];
  }

  lemma PrependTwice(a: seq<Diag>, b: seq<Diag>, o: Outcome)
    ensures Prepend(a, Prepend(b, o)) == Prepend(a + b, o)
  {
  }

  /** `for homework in v` when `v` is not a list (reached only with an int
      `current_date`). An empty string or dict runs no iteration; a non-empty
      one yields a string first, whose first subscript raises `TypeError`;
      any other value is not iterable. */
  function NonListOutcome(v: Json): Outcome
    requires !v.JList?
  {
    if v == JStr("") || v == JObj(map[]) then Done([]) else Raised(TypeError, [])
  }

  /** `check_response` on a whole response. A response that is not a dict
      raises `TypeError` at its first subscript. */
  function ResponseOutcome(response: Json, validDate: string -> bool): (r: Outcome)
  {
    match response
    case JObj(m) =>
      if "current_date" !in m then Done([NoCurrentDateOrHomeworks])
      else if !m["current_date"].JInt? && "homeworks" !in m then Done([NoCurrentDateOrHomeworks])
      else if !m["current_date"].JInt? && !m["homeworks"].JList? then Raised(Exception(BadTypeMessage), [])
      else if "homeworks" !in m then Raised(KeyError("homeworks"), [])
      else if m["homeworks"].JList? then RecordsOutcome(m["homeworks"].items, validDate)
      else NonListOutcome(m["homeworks"])
    case _ => Raised(TypeError, [])
  }

  // ---------------------------------------------------------------------------
  // The imperative form: the loops of `check_response`

  /** The field loop over `homeworks_structure` for one record. */
  method ScanRecord(record: map<string, Json>, homework: Json) returns (lines: seq<Diag>, complete: bool)
    ensures Scan(lines, complete) == ScanFields(record, homework, Structure, [])
  {
    lines := [];
    complete := true;
    var j := 0;
    assert Structure[0..] == Structure;
    while j < |Structure| && complete
      decreases |Structure| - j, complete
      invariant 0 <= j <= |Structure|
      invariant complete ==> ScanFields(record, homework, Structure, []) == ScanFields(record, homework, Structure[j..], lines)
      invariant !complete ==> ScanFields(record, homework, Structure, []) == Scan(lines, false)
    {
      var field := Structure[j];
      assert Structure[j..][0] == field && Structure[j..][1..] == Structure[j + 1..];
      if field.name !in record {
        lines := lines + [NoField(field.name, homework)];
        complete := false;
      } else {
        var value := record[field.name];
        if HasType(value, field.ty) {
          assert lines + [] == lines;
        } else {
          lines := lines + [BadType(value, homework)];
        }
        j := j + 1;
      }
    }
    assert complete ==> Structure[j..] == [];
  }

  /** The body of the outer loop: the field loop, then the status and date checks. */
  method CheckHomework(homework: Json, validDate: string -> bool) returns (outcome: Outcome)
    ensures outcome == RecordOutcome(homework, validDate)
  {
    if !homework.JObj? {
      return Raised(TypeError, []);
    }
    var record := homework.fields;
    var lines, complete := ScanRecord(record, homework);
    if !complete {
      return Done(lines);
    }
    assert Structure[1] in Structure && Structure[4] in Structure;
    var status := record["status"];
    if !Hashable(status) {
      return Raised(TypeError, lines);
    }
    if !KnownStatus(status) {
      lines := lines + [BadStatus(status, homework)];
    }
    var date := record["date_updated"];
    if !date.JStr? {
      return Raised(TypeError, lines);
    }
    if !validDate(date.s) {
      lines := lines + [BadDateFormat(date, homework)];
    }
    return Done(lines);
  }

  /** `check_response`: the top-level checks, then the loop over the records. */
  method CheckResponse(response: Json, validDate: string -> bool) returns (outcome: Outcome)
    ensures outcome == ResponseOutcome(response, validDate)
  {
    if !response.JObj? {
      return Raised(TypeError, []);
    }
    var m := response.fields;
    if "current_date" !in m {
      return Done([NoCurrentDateOrHomeworks]);
    }
    if !m["current_date"].JInt? {
      if "homeworks" !in m {
        return Done([NoCurrentDateOrHomeworks]);
      }
      if !m["homeworks"].JList? {
        return Raised(Exception(BadTypeMessage), []);
      }
    }
    if "homeworks" !in m {
      return Raised(KeyError("homeworks"), []);
    }
    if !m["homeworks"].JList? {
      if m["homeworks"] == JStr("") || m["homeworks"] == JObj(map[]) {
        return Done([]);
      }
      return Raised(TypeError, []);
    }
    var homeworks := m["homeworks"].items;
    var diags: seq<Diag> := [];
    var i := 0;
    ghost var total := RecordsOutcome(homeworks, validDate);
    while i < |homeworks|
      invariant 0 <= i <= |homeworks|
      invariant total == Prepend(diags, RecordsOutcome(homeworks[i..], validDate))
    {
      var one := CheckHomework(homeworks[i], validDate);
      RecordsOutcomeAt(homeworks, i, validDate);
      if one.Raised? {
        return Raised(one.exc, diags + one.diags);
      }
      PrependTwice(diags, one.diags, RecordsOutcome(homeworks[i + 1..], validDate));
      diags := diags + one.diags;
      i := i + 1;
    }
    return Done(diags);
  }

  // ---------------------------------------------------------------------------
  // Properties of the specification

  /** With every field of `fields` present, the field loop completes and
      prints the type lines of `fields`, in their order. */
  lemma {:induction false} ScanComplete(record: map<string, Json>, homework: Json, fields: seq<Field>, printed: seq<Diag>)
    requires forall f <- fields :: f.name in record
    decreases |fields|
    ensures ScanFields(record, homework, fields, printed) == Scan(printed + Mismatches(record, homework, fields), true)
  {
    if fields != [] {
      var f := fields[0];
      var line := TypeLine(record[f.name], f.ty, homework);
      ScanComplete(record, homework, fields[1..], printed + line);
      assert printed + line + Mismatches(record, homework, fields[1..])
          == printed + (line + Mismatches(record, homework, fields[1..]));
    }
  }

  /** When field `k` of `fields` is the first missing one, the field loop
      prints the type lines of the fields before it, then one line naming
      it, and stops. */
  lemma {:induction false} ScanMissing(record: map<string, Json>, homework: Json, fields: seq<Field>, k: nat, printed: seq<Diag>)
    requires k < |fields| && fields[k].name !in record
    requires forall i :: 0 <= i < k ==> fields[i].name in record
    decreases k
    ensures ScanFields(record, homework, fields, printed)
         == Scan(printed + Mismatches(record, homework, fields[..k]) + [NoField(fields[k].name, homework)], false)
  {
    if k > 0 {
      var f := fields[0];
      var line := TypeLine(record[f.name], f.ty, homework);
      assert fields[..k][0] == f && fields[..k][1..] == fields[1..][..k - 1];
      ScanMissing(record, homework, fields[1..], k - 1, printed + line);
      assert printed + line + Mismatches(record, homework, fields[1..][..k - 1])
          == printed + (line + Mismatches(record, homework, fields[1..][..k - 1]));
    } else {
      assert fields[..k] == [];
    }
  }

  /** No type line exactly when every field has its declared type. */
  lemma {:induction false} MismatchesEmpty(record: map<string, Json>, homework: Json, fields: seq<Field>)
    requires forall f <- fields :: f.name in record
    ensures Mismatches(record, homework, fields) == [] <==> forall f <- fields :: HasType(record[f.name], f.ty)
  {
    if fields != [] {
      MismatchesEmpty(record, homework, fields[1..]);
      assert forall f <- fields :: f == fields[0] || f in fields[1..];
    }
  }

  /** A record holding all six fields: one type line per mismatched field in
      declaration order, then a status line if the status is not a verdict
      key, then a date line if `strptime` rejects the date; an unhashable
      status or a non-string date raises `TypeError` after the lines printed
      so far. */
  lemma CompleteRecord(record: map<string, Json>, validDate: string -> bool)
    requires HasAllFields(record)
    ensures var homework := JObj(record);
      var types := Mismatches(record, homework, Structure);
      var status := record["status"];
      var date := record["date_updated"];
      var statusLine := if KnownStatus(status) then [] else [BadStatus(status, homework)];
      RecordOutcome(homework, validDate)
      == if !Hashable(status) then Raised(TypeError, types)
         else if !date.JStr? then Raised(TypeError, types + statusLine)
         else Done(types + statusLine + if validDate(date.s) then [] else [BadDateFormat(date, homework)])
  {
    var homework := JObj(record);
    var types := Mismatches(record, homework, Structure);
    AllFieldsOfStructure(record);
    ScanComplete(record, homework, Structure, []);
    assert [] + types == types;
    assert types + [] == types;
    var status := record["status"];
    var statusLine := if KnownStatus(status) then [] else [BadStatus(status, homework)];
    assert types + statusLine + [] == types + statusLine;
  }

  /** A record missing a field: the type lines of the fields declared before
      the first missing one, then one line naming it; no status or date line,
      and nothing raised. */
  lemma MissingFieldRecord(record: map<string, Json>, k: nat, validDate: string -> bool)
    requires k < |Structure| && Structure[k].name !in record
    requires forall i :: 0 <= i < k ==> Structure[i].name in record
    ensures RecordOutcome(JObj(record), validDate)
         == Done(Mismatches(record, JObj(record), Structure[..k]) + [NoField(Structure[k].name, JObj(record))])
  {
    ScanMissing(record, JObj(record), Structure, k, []);
  }

  /** A record that passes every check `check_response` makes. */
  predicate Conforming(homework: Json, validDate: string -> bool) {
    && homework.JObj?
    && HasAllFields(homework.fields)
    && (forall f <- Structure :: f.name in homework.fields ==> HasType(homework.fields[f.name], f.ty))
    && KnownStatus(homework.fields["status"])
    && homework.fields["date_updated"].JStr? && validDate(homework.fields["date_updated"].s)
  }

  /** A record prints nothing and raises nothing exactly when it conforms. */
  lemma RecordSilentIff(homework: Json, validDate: string -> bool)
    ensures RecordOutcome(homework, validDate) == Done([]) <==> Conforming(homework, validDate)
  {
    if homework.JObj? {
      var record := homework.fields;
      AllFieldsOfStructure(record);
      if HasAllFields(record) {
        CompleteRecord(record, validDate);
        MismatchesEmpty(record, homework, Structure);
      } else {
        assert !ScanFields(record, homework, Structure, []).complete;
      }
    }
  }

  /** The field loop prints only record lines. */
  lemma {:induction false} ScanRecordLines(record: map<string, Json>, homework: Json, fields: seq<Field>, printed: seq<Diag>)
    requires forall d <- printed :: RecordDiag(d)
    decreases |fields|
    ensures forall d <- ScanFields(record, homework, fields, printed).lines :: RecordDiag(d)
  {
    if fields != [] && fields[0].name in record {
      var f := fields[0];
      ScanRecordLines(record, homework, fields[1..], printed + TypeLine(record[f.name], f.ty, homework));
    }
  }

  /** The record loop never prints the top-level line. */
  lemma RecordPrintsRecordLines(homework: Json, validDate: string -> bool)
    ensures forall d <- RecordOutcome(homework, validDate).diags :: RecordDiag(d)
  {
    if homework.JObj? {
      ScanRecordLines(homework.fields, homework, Structure, []);
    }
  }

  lemma {:induction false} RecordsPrintRecordLines(homeworks: seq<Json>, validDate: string -> bool)
    ensures forall d <- RecordsOutcome(homeworks, validDate).diags :: RecordDiag(d)
  {
    if homeworks != [] {
      RecordPrintsRecordLines(homeworks[0], validDate);
      RecordsPrintRecordLines(homeworks[1..], validDate);
    }
  }

  /** The records are checked in list order: the lines of `first + rest` are
      those of `first`, then, unless `first` raised, those of `rest`. */
  lemma {:induction false} RecordsAppend(first: seq<Json>, rest: seq<Json>, validDate: string -> bool)
    ensures var head := RecordsOutcome(first, validDate);
      RecordsOutcome(first + rest, validDate)
      == if head.Raised? then head else Prepend(head.diags, RecordsOutcome(rest, validDate))
  {
    if first == [] {
      assert first + rest == rest;
    } else {
      assert (first + rest)[0] == first[0] && (first + rest)[1..] == first[1..] + rest;
      RecordsAppend(first[1..], rest, validDate);
      var one := RecordOutcome(first[0], validDate);
      if one.Done? {
        PrependTwice(one.diags, RecordsOutcome(first[1..], validDate).diags, RecordsOutcome(rest, validDate));
      }
    }
  }

  /** A list of conforming records prints nothing. */
  lemma {:induction false} ConformingRecordsSilent(homeworks: seq<Json>, validDate: string -> bool)
    requires forall h <- homeworks :: Conforming(h, validDate)
    ensures RecordsOutcome(homeworks, validDate) == Done([])
  {
    if homeworks != [] {
      RecordSilentIff(homeworks[0], validDate);
      ConformingRecordsSilent(homeworks[1..], validDate);
    }
  }

  /** The top-level `Exception` is raised exactly when `current_date` is
      present and not an int and `homeworks` is present and not a list: the
      test is joined with `and`, so one bad field alone raises nothing. */
  lemma BadTypeRaiseIff(m: map<string, Json>, validDate: string -> bool)
    ensures var r := ResponseOutcome(JObj(m), validDate);
      r.Raised? && r.exc == Exception(BadTypeMessage)
      <==> "current_date" in m && !m["current_date"].JInt? && "homeworks" in m && !m["homeworks"].JList?
  {
  }

  /** The missing-key paths: a missing `current_date`, or a non-int one with
      `homeworks` missing, prints the one top-level line and stops; an int
      `current_date` skips the lookup of `homeworks` inside the `try`, so a
      missing `homeworks` escapes as `KeyError` from the loop header. */
  lemma MissingKeys(m: map<string, Json>, validDate: string -> bool)
    ensures "current_date" !in m ==> ResponseOutcome(JObj(m), validDate) == Done([NoCurrentDateOrHomeworks])
    ensures "current_date" in m && !m["current_date"].JInt? && "homeworks" !in m ==>
      ResponseOutcome(JObj(m), validDate) == Done([NoCurrentDateOrHomeworks])
    ensures "current_date" in m && m["current_date"].JInt? && "homeworks" !in m ==>
      ResponseOutcome(JObj(m), validDate) == Raised(KeyError("homeworks"), [])
  {
  }

  /** The top-level line is printed only on the missing-key path. */
  lemma TopLevelLineOnlyWhenMissing(m: map<string, Json>, validDate: string -> bool)
    ensures NoCurrentDateOrHomeworks in ResponseOutcome(JObj(m), validDate).diags ==>
      "current_date" !in m || (!m["current_date"].JInt? && "homeworks" !in m)
  {
    if "current_date" in m && "homeworks" in m && m["homeworks"].JList? {
      RecordsPrintRecordLines(m["homeworks"].items, validDate);
    }
  }

  /** A response whose `homeworks` is a list of conforming records prints
      nothing, whatever `current_date` holds. */
  lemma ConformingResponseSilent(m: map<string, Json>, validDate: string -> bool)
    requires "current_date" in m && "homeworks" in m && m["homeworks"].JList?
    requires forall h <- m["homeworks"].items :: Conforming(h, validDate)
    ensures ResponseOutcome(JObj(m), validDate) == Done([])
  {
    ConformingRecordsSilent(m["homeworks"].items, validDate);
  }
}
