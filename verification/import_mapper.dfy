/** The business-plan to go-to-market import: a fixed table of copied fields,
    two enumerated remaps with defaults, and the preview list shown before
    importing. */
module ImportMapper {
  import opened Wrappers
  import opened Strings
  import opened QuestionnaireTypes

  /** One copied field: the business-plan question it reads, the GTM question
      it fills, the caption of its preview row and whether the preview is cut
      to 100 characters. */
  datatype FieldSpec = FieldSpec(source: string, target: string, caption: string, truncated: bool)

  /** The five copied fields, in the order the source handles them. */
  const ImportFields: seq<FieldSpec> := [
    FieldSpec("business_name", "product_name", "Product Name", false),
    FieldSpec("product_service", "product_description", "Product Description", true),
    FieldSpec("target_customer", "primary_persona", "Target Customer", true),
    FieldSpec("competitors_list", "main_competitors", "Competitors", true),
    FieldSpec("why_different", "competitive_advantage", "Competitive Advantage", true)
  ]

  const GeographicFocusKey := "geographic_focus"
  const CurrentStatusKey := "current_status"
  const ReadinessKey := "readiness"

  /** The set of targets a field table can write. */
  function TargetsOf(fields: seq<FieldSpec>): (targets: set<string>)
    ensures forall i :: 0 <= i < |fields| ==> fields[i].target in targets
  {
    if |fields| == 0 then {} else {fields[0].target} + TargetsOf(fields[1..])
  }

  /** Conversely, every target in the set is some field's target. */
  lemma {:induction false} TargetHasField(fields: seq<FieldSpec>, t: string) returns (i: nat)
    requires t in TargetsOf(fields)
    ensures i < |fields| && fields[i].target == t
    decreases |fields|
  {
    if fields[0].target == t {
      i := 0;
    } else {
      var k := TargetHasField(fields[1..], t);
      i := k + 1;
    }
  }

  /** Every key the import can produce: the copied targets and the two
      remapped keys. */
  const GtmImportKeys: set<string> := TargetsOf(ImportFields) + {GeographicFocusKey, ReadinessKey}

  /** Spelled out, those are seven GTM question ids. */
  lemma GtmImportKeysSpelledOut()
    ensures GtmImportKeys ==
      {"product_name", "product_description", "primary_persona", "main_competitors",
       "competitive_advantage", "geographic_focus", "readiness"}
  {
  }

  predicate DistinctTargets(fields: seq<FieldSpec>) {
    |fields| > 0 ==> fields[0].target !in TargetsOf(fields[1..]) && DistinctTargets(fields[1..])
  }

  /** The copied targets are distinct and are neither of the two remapped
      keys. */
  lemma ImportFieldsWellFormed()
    ensures DistinctTargets(ImportFields)
    ensures GeographicFocusKey !in TargetsOf(ImportFields) && ReadinessKey !in TargetsOf(ImportFields)
  {
  }

  /** The `if (bp.x) mapped.y = bp.x` chain over a field table. */
  function CopyTruthyFields(bp: Responses, fields: seq<FieldSpec>, acc: Responses): (r: Responses)
    requires DistinctTargets(fields)
    ensures forall k :: k in r ==> k in acc || k in TargetsOf(fields)
    ensures forall k :: k in acc ==> k in r
    ensures forall i :: 0 <= i < |fields| ==>
      (fields[i].target in r <==> fields[i].target in acc || TruthyOpt(Lookup(bp, fields[i].source)))
    ensures forall i :: 0 <= i < |fields| && TruthyOpt(Lookup(bp, fields[i].source)) ==>
      r[fields[i].target] == bp[fields[i].source]
    ensures forall k :: k in acc && k !in TargetsOf(fields) ==> r[k] == acc[k]
    decreases |fields|
  {
    if |fields| == 0 then acc
    else
      var f := fields[0];
      var acc' := if TruthyOpt(Lookup(bp, f.source)) then acc[f.target := bp[f.source]] else acc;
      var r := CopyTruthyFields(bp, fields[1..], acc');
      forall i | 0 < i < |fields|
        ensures fields[i] == fields[1..][i - 1]
      {
      }
      r
  }

  /** The property key a value is looked up under in an object literal: a
      string is its own key and a list is joined with commas; a number never
      spells one of the tables' keys, so it is `None` here. */
  function TableKey(v: Answer): Option<string> {
    match v
    case Str(s) => Some(s)
    case StrList(items) => Some(Join(items, ","))
    case Bool(b) => Some(if b then "true" else "false")
    case Null => Some("null")
    case Num(_) => None
  }

  const GeoMapping: map<string, seq<string>> := map[
    "local" := ["local"],
    "national" := ["national"],
    "international" := ["global"],
    "online_global" := ["global"]]

  const StatusToReadiness: map<string, string> := map[
    "idea" := "concept",
    "planning" := "concept",
    "building" := "development",
    "launched" := "soft_launch",
    "growing" := "ready"]

  /** `geoMapping[value] || ['national']`. */
  function GeographicFocusFor(v: Answer): (focus: seq<string>)
    ensures TableKey(v) == Some("local") ==> focus == ["local"]
    ensures TableKey(v) == Some("national") ==> focus == ["national"]
    ensures TableKey(v) in {Some("international"), Some("online_global")} ==> focus == ["global"]
    ensures TableKey(v) !in {Some("local"), Some("national"), Some("international"), Some("online_global")} ==>
      focus == ["national"]
  {
    match TableKey(v)
    case Some(k) => if k in GeoMapping then GeoMapping[k] else ["national"]
    case None => ["national"]
  }

  /** `statusToReadiness[value] || 'concept'`. */
  function ReadinessFor(v: Answer): (readiness: string)
    ensures TableKey(v) in {Some("idea"), Some("planning")} ==> readiness == "concept"
    ensures TableKey(v) == Some("building") ==> readiness == "development"
    ensures TableKey(v) == Some("launched") ==> readiness == "soft_launch"
    ensures TableKey(v) == Some("growing") ==> readiness == "ready"
    ensures TableKey(v) !in {Some("idea"), Some("planning"), Some("building"), Some("launched"), Some("growing")} ==>
      readiness == "concept"
  {
    match TableKey(v)
    case Some(k) => if k in StatusToReadiness then StatusToReadiness[k] else "concept"
    case None => "concept"
  }

  /** The mapping over a field table that writes neither remapped key: the
      truthy copies, then the geographic focus, then the readiness. */
  function MapBusinessPlanWith(bp: Responses, fields: seq<FieldSpec>): (mapped: Responses)
    requires DistinctTargets(fields)
    requires GeographicFocusKey !in TargetsOf(fields) && ReadinessKey !in TargetsOf(fields)
    ensures forall k :: k in mapped ==> k in TargetsOf(fields) || k == GeographicFocusKey || k == ReadinessKey
    ensures forall i :: 0 <= i < |fields| ==>
      (fields[i].target in mapped <==> TruthyOpt(Lookup(bp, fields[i].source)))
    ensures forall i :: 0 <= i < |fields| && fields[i].target in mapped ==>
      Lookup(bp, fields[i].source) == Some(mapped[fields[i].target])
    ensures GeographicFocusKey in mapped <==> TruthyOpt(Lookup(bp, GeographicFocusKey))
    ensures GeographicFocusKey in mapped ==>
      GeographicFocusKey in bp && mapped[GeographicFocusKey] == StrList(GeographicFocusFor(bp[GeographicFocusKey]))
    ensures ReadinessKey in mapped <==> TruthyOpt(Lookup(bp, CurrentStatusKey))
    ensures ReadinessKey in mapped ==>
      CurrentStatusKey in bp && mapped[ReadinessKey] == Str(ReadinessFor(bp[CurrentStatusKey]))
  {
    var copied := CopyTruthyFields(bp, fields, map[]);
    assert |GeographicFocusKey| != |ReadinessKey|;
    var withFocus :=
      if TruthyOpt(Lookup(bp, GeographicFocusKey))
      then copied[GeographicFocusKey := StrList(GeographicFocusFor(bp[GeographicFocusKey]))]
      else copied;
    if TruthyOpt(Lookup(bp, CurrentStatusKey))
    then withFocus[ReadinessKey := Str(ReadinessFor(bp[CurrentStatusKey]))]
    else withFocus
  }

  /** `mapBusinessPlanToGTM`: the mapping over the five-field table. Its keys
      are among the seven GTM keys. */
  function MapBusinessPlanToGTM(bp: Responses): (mapped: Responses)
    ensures mapped.Keys <= GtmImportKeys
  {
    ImportFieldsWellFormed();
    MapBusinessPlanWith(bp, ImportFields)
  }

  /** An empty business plan imports nothing. */
  lemma EmptyImportsNothing()
    ensures MapBusinessPlanToGTM(map[]) == map[]
  {
  }

  /** The partial map handed to `importAnswers`: every mapped value is
      defined. */
  function AsPartial(mapped: Responses): (partial: map<string, Option<Answer>>)
    ensures partial.Keys == mapped.Keys
    ensures forall k :: k in mapped ==> partial[k] == Some(mapped[k])
  {
    map k | k in mapped :: Some(mapped[k])
  }

  // ------------------------------------------------------------- preview

  /** One preview row. The product name carries the raw answer; every other
      row carries a truncated string. */
  datatype ImportableField = ImportableField(gtmField: string, caption: string, value: Answer)

  /** `(value as string).slice(0, 100) + '...'`: a string is cut, a list is cut
      to 100 items and converted by joining with commas; numbers and booleans
      have no `slice`, which throws a `TypeError`. */
  function Truncated(v: Answer): (r: Result<Answer, string>)
    ensures v.Str? ==> r == Success(Str(Take(v.s, 100) + "..."))
    ensures v.StrList? ==> r.Success? && r.value.Str? && EndsWith(r.value.s, "...")
    ensures v.Num? || v.Bool? ==> r.Failure?
  {
    match v
    case Str(s) => Success(Str(Take(s, 100) + "..."))
    case StrList(items) => Success(Str(Join(if |items| <= 100 then items else items[..100], ",") + "..."))
    case _ => Failure("TypeError: slice is not a function")
  }

  /** Whether a field's preview throws: the field is set, is truncated and
      holds a number or a boolean. */
  predicate PreviewThrows(bp: Responses, f: FieldSpec) {
    f.truncated && TruthyOpt(Lookup(bp, f.source)) && Truncated(bp[f.source]).Failure?
  }

  /** Whether `row` is the preview of field `f`: the field is set, and the row
      carries its target, its caption and its (possibly truncated) value. */
  predicate RowFor(bp: Responses, f: FieldSpec, row: ImportableField) {
    TruthyOpt(Lookup(bp, f.source))
    && row.gtmField == f.target && row.caption == f.caption
    && (if f.truncated then Truncated(bp[f.source]) == Success(row.value) else row.value == bp[f.source])
  }

  /** The preview rows for a field table, in table order; the first row that
      throws aborts the whole list. */
  function Previews(bp: Responses, fields: seq<FieldSpec>): (r: Result<seq<ImportableField>, string>)
    ensures r.Failure? <==> exists i :: 0 <= i < |fields| && PreviewThrows(bp, fields[i])
    ensures r.Success? ==> |r.value| <= |fields|
    decreases |fields|
  {
    if |fields| == 0 then Success([])
    else
      var f := fields[0];
      assert forall i :: 0 < i < |fields| ==> fields[i] == fields[1..][i - 1];
      var rest :- Previews(bp, fields[1..]);
      if TruthyOpt(Lookup(bp, f.source)) then
        var value :- if f.truncated then Truncated(bp[f.source]) else Success(bp[f.source]);
        Success([ImportableField(f.target, f.caption, value)] + rest)
      else
        Success(rest)
  }

  /** Every preview row is the row of some set field. */
  lemma {:induction false} PreviewRowsComeFromSetFields(bp: Responses, fields: seq<FieldSpec>)
    requires Previews(bp, fields).Success?
    ensures forall j :: 0 <= j < |Previews(bp, fields).value| ==>
      exists i :: 0 <= i < |fields| && RowFor(bp, fields[i], Previews(bp, fields).value[j])
    decreases |fields|
  {
    if |fields| > 0 {
      var f, tail := fields[0], fields[1..];
      PreviewRowsComeFromSetFields(bp, tail);
      var rest := Previews(bp, tail).value;
      var rows := Previews(bp, fields).value;
      forall j | 0 <= j < |rows| ensures exists i :: 0 <= i < |fields| && RowFor(bp, fields[i], rows[j]) {
        if TruthyOpt(Lookup(bp, f.source)) {
          if j == 0 {
            assert RowFor(bp, fields[0], rows[j]);
          } else {
            assert rows[j] == rest[j - 1];
            var i :| 0 <= i < |tail| && RowFor(bp, tail[i], rest[j - 1]);
            assert fields[i + 1] == tail[i];
          }
        } else {
          assert rows == rest;
          var i :| 0 <= i < |tail| && RowFor(bp, tail[i], rest[j]);
          assert fields[i + 1] == tail[i];
        }
      }
    }
  }

  /** Every set field has its row in the preview. */
  lemma {:induction false} SetFieldsArePreviewed(bp: Responses, fields: seq<FieldSpec>)
    requires Previews(bp, fields).Success?
    ensures forall i :: 0 <= i < |fields| && TruthyOpt(Lookup(bp, fields[i].source)) ==>
      exists j :: 0 <= j < |Previews(bp, fields).value| && RowFor(bp, fields[i], Previews(bp, fields).value[j])
    decreases |fields|
  {
    if |fields| > 0 {
      var f, tail := fields[0], fields[1..];
      SetFieldsArePreviewed(bp, tail);
      var rest := Previews(bp, tail).value;
      var rows := Previews(bp, fields).value;
      forall i | 0 <= i < |fields| && TruthyOpt(Lookup(bp, fields[i].source))
        ensures exists j :: 0 <= j < |rows| && RowFor(bp, fields[i], rows[j])
      {
        if i == 0 {
          assert RowFor(bp, fields[0], rows[0]);
        } else {
          assert fields[i] == tail[i - 1];
          var j :| 0 <= j < |rest| && RowFor(bp, tail[i - 1], rest[j]);
          if TruthyOpt(Lookup(bp, f.source)) {
            assert rows[j + 1] == rest[j];
          } else {
            assert rows == rest;
          }
        }
      }
    }
  }

  /** The preview and the import over the same field table agree: the
      preview lists exactly the copied keys the import writes, and each row
      shows the value the import writes, or its truncation. */
  lemma PreviewAgreesWithImport(bp: Responses, fields: seq<FieldSpec>)
    requires DistinctTargets(fields)
    requires GeographicFocusKey !in TargetsOf(fields) && ReadinessKey !in TargetsOf(fields)
    requires Previews(bp, fields).Success?
    ensures forall k :: k in MapBusinessPlanWith(bp, fields) && k != GeographicFocusKey && k != ReadinessKey ==>
      exists j :: 0 <= j < |Previews(bp, fields).value| && Previews(bp, fields).value[j].gtmField == k
    ensures forall j :: 0 <= j < |Previews(bp, fields).value| ==>
      var row := Previews(bp, fields).value[j];
      row.gtmField in MapBusinessPlanWith(bp, fields)
      && row.gtmField != GeographicFocusKey && row.gtmField != ReadinessKey
      && (row.value == MapBusinessPlanWith(bp, fields)[row.gtmField]
          || Truncated(MapBusinessPlanWith(bp, fields)[row.gtmField]) == Success(row.value))
  {
    var rows := Previews(bp, fields).value;
    var mapped := MapBusinessPlanWith(bp, fields);
    PreviewRowsComeFromSetFields(bp, fields);
    SetFieldsArePreviewed(bp, fields);
    forall k | k in mapped && k != GeographicFocusKey && k != ReadinessKey
      ensures exists j :: 0 <= j < |rows| && rows[j].gtmField == k
    {
      var i := TargetHasField(fields, k);
      var j :| 0 <= j < |rows| && RowFor(bp, fields[i], rows[j]);
    }
    forall j | 0 <= j < |rows|
      ensures rows[j].gtmField in mapped
      ensures rows[j].gtmField != GeographicFocusKey && rows[j].gtmField != ReadinessKey
      ensures rows[j].value == mapped[rows[j].gtmField] || Truncated(mapped[rows[j].gtmField]) == Success(rows[j].value)
    {
      var i :| 0 <= i < |fields| && RowFor(bp, fields[i], rows[j]);
    }
  }

  /** `getImportableFields`: the previews of the five-field table. */
  function GetImportableFields(bp: Responses): (r: Result<seq<ImportableField>, string>)
    ensures r.Success? ==> |r.value| <= 5
  {
    Previews(bp, ImportFields)
  }

  /** The preview shown before importing lists exactly the copied keys the
      import writes, never the geographic focus or the readiness, and each
      row shows the imported value or its truncation. */
  lemma PreviewListsImportedCopies(bp: Responses)
    requires GetImportableFields(bp).Success?
    ensures forall k :: k in MapBusinessPlanToGTM(bp) && k != GeographicFocusKey && k != ReadinessKey ==>
      exists j :: 0 <= j < |GetImportableFields(bp).value| && GetImportableFields(bp).value[j].gtmField == k
    ensures forall j :: 0 <= j < |GetImportableFields(bp).value| ==>
      var row := GetImportableFields(bp).value[j];
      row.gtmField in MapBusinessPlanToGTM(bp)
      && row.gtmField != GeographicFocusKey && row.gtmField != ReadinessKey
      && (row.value == MapBusinessPlanToGTM(bp)[row.gtmField]
          || Truncated(MapBusinessPlanToGTM(bp)[row.gtmField]) == Success(row.value))
  {
    ImportFieldsWellFormed();
    PreviewAgreesWithImport(bp, ImportFields);
  }
}
