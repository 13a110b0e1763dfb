/** The generation endpoint of src/app/api/generate/route.ts: its catalog-row
    serialiser, the decoding of the posted form fields into a generation
    request (with the floor plan turned into a data URI) and the mapping of
    any thrown error to a status-500 JSON response.  Reading the request
    body, the Base64 encoder and the streaming model call are parameters. */
module GenerateRoute {
  import opened Wrappers
  import opened Strings
  import opened JsNumbers
  import opened Products
  import opened FormData
  import opened PlanningForm
  import Actions

  /** The eight keys every serialised row carries here. */
  const RowKeys: set<string> := {"ID", "名称", "品牌", "品类", "价格", "生态", "描述", "budget_level"}

  /** `toChineseKeys(product, isCustom)`: the product's fields under fixed
      keys, the ecosystem tags joined by ';' in order, the budget tier under
      'budget_level', and the source marker '来源' = '用户自定义' exactly when
      `isCustom` holds. */
  method ToChineseKeys(product: Product, isCustom: bool) returns (row: map<string, JsValue>)
    ensures row.Keys == if isCustom then RowKeys + {Actions.SourceKey} else RowKeys
    ensures row["ID"] == JStr(product.id) && row["名称"] == JStr(product.name)
    ensures row["品牌"] == JStr(product.brand) && row["品类"] == JStr(product.category)
    ensures row["价格"] == JNum(product.price) && row["生态"] == JStr(Join(product.ecosystem, ';'))
    ensures row["描述"] == JStr(product.description)
    ensures row["budget_level"] == JStr(BudgetName(product.budgetLevel))
    ensures isCustom ==> row[Actions.SourceKey] == JStr(Actions.UserDefined)
  {
    row := map[
      "ID" := JStr(product.id),
      "名称" := JStr(product.name),
      "品牌" := JStr(product.brand),
      "品类" := JStr(product.category),
      "价格" := JNum(product.price),
      "生态" := JStr(Join(product.ecosystem, ';')),
      "描述" := JStr(product.description),
      "budget_level" := JStr(BudgetName(product.budgetLevel))];
    if isCustom {
      row := row[Actions.SourceKey := JStr(Actions.UserDefined)];
    }
  }

  /** The joined ecosystem field gives back the tag list when split on ';',
      provided there is at least one tag and no tag holds ';'. */
  lemma EcosystemRoundTrip(product: Product)
    requires |product.ecosystem| >= 1
    requires forall i :: 0 <= i < |product.ecosystem| ==> ';' !in product.ecosystem[i]
    ensures Split(Join(product.ecosystem, ';'), ';') == product.ecosystem
  {
    SplitJoin(product.ecosystem, ';');
  }

  /** An empty ecosystem and an ecosystem of one empty tag serialise alike,
      so the empty list is not recovered. */
  lemma EmptyEcosystemAmbiguous()
    ensures Join([], ';') == Join([""], ';') == ""
    ensures Split(Join([], ';'), ';') == [""]
  {
  }

  /** `Number(v)` for a value read with `formData.get`: null is 0, a text is
      parsed, a file (whose string form is '[object File]') is NaN. */
  function NumberOfField(v: Option<EntryValue>): (n: NumberValue)
    ensures v.None? ==> n == Finite(0)
    ensures v.Some? && v.value.Blob? ==> n == NaN
  {
    match v
    case None => Finite(0)
    case Some(Text(s)) => ParseNumber(s)
    case Some(Blob(_)) => NaN
  }

  /** `data:<type>;base64,<payload>`, the shape of section 3 of RFC 2397 with
      the base64 marker and the media type taken from the file. */
  function DataUri(mimeType: string, payload: string): (uri: string)
    ensures StartsWith(uri, "data:")
    ensures |uri| == 13 + |mimeType| + |payload|
  {
    "data:" + mimeType + ";base64," + payload
  }

  /** The position of the first `c` in `s`, or `|s|`. */
  function IndexOf(s: string, c: char): (k: nat)
    ensures k <= |s|
    ensures k < |s| ==> s[k] == c
    ensures forall j :: 0 <= j < k ==> s[j] != c
    decreases |s|
  {
    if s == [] then 0
    else if s[0] == c then 0
    else
      var k := IndexOf(s[1..], c);
      assert forall j :: 1 <= j < k + 1 ==> s[j] == s[1..][j - 1];
      k + 1
  }

  /** Reading a base64 data URI back: the media type before ';base64' and
      the payload after the first ','. */
  function ParseDataUri(uri: string): (r: Option<(string, string)>)
    ensures r.Some? ==> StartsWith(uri, "data:")
  {
    if !StartsWith(uri, "data:") then None
    else
      var rest := uri[5..];
      var comma := IndexOf(rest, ',');
      var header := rest[..comma];
      if comma == |rest| || !EndsWith(header, ";base64") then None
      else Some((header[..|header| - 7], rest[comma + 1..]))
  }

  /** The data URI names the file's media type and carries the payload
      unchanged whenever the media type holds no ','. */
  lemma DataUriRoundTrip(mimeType: string, payload: string)
    requires ',' !in mimeType
    ensures ParseDataUri(DataUri(mimeType, payload)) == Some((mimeType, payload))
  {
    var uri := DataUri(mimeType, payload);
    var rest := uri[5..];
    assert rest == mimeType + ";base64," + payload;
    var k := |mimeType| + 7;
    assert rest[k] == ',';
    assert forall j :: 0 <= j < k ==> rest[j] != ',' by {
      forall j | 0 <= j < k
        ensures rest[j] != ','
      {
        if j < |mimeType| {
          assert rest[j] == mimeType[j];
        } else {
          assert rest[j] == ";base64"[j - |mimeType|];
        }
      }
    }
    var comma := IndexOf(rest, ',');
    assert comma == k;
    var header := rest[..comma];
    assert header == mimeType + ";base64";
    assert header[..|header| - 7] == mimeType;
    assert rest[comma + 1..] == payload;
  }

  /** The floor-plan file worth encoding: a file (not a text value) of at
      least one byte. */
  function FloorPlanFile(formData: seq<Entry>): (f: Option<File>)
    ensures f.Some? <==> exists file :: Get(formData, "floorPlan") == Some(Blob(file)) && file.Size() > 0
    ensures f.Some? ==> Get(formData, "floorPlan") == Some(Blob(f.value))
  {
    match Get(formData, "floorPlan")
    case Some(Blob(file)) => if file.Size() > 0 then Some(file) else None
    case _ => None
  }

  /** The input handed to the model call. */
  datatype GenerationRequest = GenerationRequest(
    area: NumberValue,
    layout: Option<EntryValue>,
    budgetLevel: Option<EntryValue>,
    householdProfile: seq<EntryValue>,
    focusAreas: seq<EntryValue>,
    lightingStyle: Option<EntryValue>,
    ecosystem: Option<EntryValue>,
    customNeeds: Option<EntryValue>,
    floorPlanDataUri: Option<string>,
    productsCsv: Option<EntryValue>)

  /** The request the posted fields decode to: single fields with `get`
      (the casts check nothing), the tag lists with `getAll`, and a data URI
      only for a non-empty floor-plan file. */
  function Decoded(formData: seq<Entry>, base64: seq<byte> -> string): (request: GenerationRequest)
    ensures request.householdProfile == GetAll(formData, "householdProfile[]")
    ensures request.focusAreas == GetAll(formData, "focusAreas[]")
    ensures request.floorPlanDataUri.Some? <==> FloorPlanFile(formData).Some?
    ensures request.floorPlanDataUri.Some? ==>
              var file := FloorPlanFile(formData).value;
              ParseDataUri(request.floorPlanDataUri.value) == Some((file.mimeType, base64(file.content)))
              || ',' in file.mimeType
  {
    var file := FloorPlanFile(formData);
    assert file.Some? && ',' !in file.value.mimeType ==>
             ParseDataUri(DataUri(file.value.mimeType, base64(file.value.content)))
             == Some((file.value.mimeType, base64(file.value.content))) by {
      if file.Some? && ',' !in file.value.mimeType {
        DataUriRoundTrip(file.value.mimeType, base64(file.value.content));
      }
    }
    GenerationRequest(
      NumberOfField(Get(formData, "area")),
      Get(formData, "layout"),
      Get(formData, "budgetLevel"),
      GetAll(formData, "householdProfile[]"),
      GetAll(formData, "focusAreas[]"),
      Get(formData, "lightingStyle"),
      Get(formData, "ecosystem"),
      Get(formData, "customNeeds"),
      if file.Some? then Some(DataUri(file.value.mimeType, base64(file.value.content))) else None,
      Get(formData, "productsCsv"))
  }

  /** The field reads of `POST`, one after another. */
  method DecodeRequest(formData: seq<Entry>, base64: seq<byte> -> string) returns (request: GenerationRequest)
    ensures request == Decoded(formData, base64)
  {
    var area := NumberOfField(Get(formData, "area"));
    var layout := Get(formData, "layout");
    var budgetLevel := Get(formData, "budgetLevel");
    var customNeeds := Get(formData, "customNeeds");
    var lightingStyle := Get(formData, "lightingStyle");
    var ecosystem := Get(formData, "ecosystem");
    var householdProfile := GetAll(formData, "householdProfile[]");
    var focusAreas := GetAll(formData, "focusAreas[]");
    var floorPlanFile := Get(formData, "floorPlan");
    var customProductsCsv := Get(formData, "productsCsv");

    var floorPlanDataUri: Option<string> := None;
    if floorPlanFile.Some? && floorPlanFile.value.Blob? && floorPlanFile.value.file.Size() > 0 {
      var file := floorPlanFile.value.file;
      floorPlanDataUri := Some(DataUri(file.mimeType, base64(file.content)));
    }
    request := GenerationRequest(area, layout, budgetLevel, householdProfile, focusAreas,
                                 lightingStyle, ecosystem, customNeeds, floorPlanDataUri, customProductsCsv);
  }

  /** The names the planning form writes. */
  const FormFieldNames: set<string> :=
    {"area", "layout", "budgetLevel", "customNeeds", "householdProfile[]", "focusAreas[]", "floorPlan"}

  lemma EncodedNames(values: PlanValues)
    ensures forall i :: 0 <= i < |Encoded(values)| ==> Encoded(values)[i].name in FormFieldNames
  {
    EncodedSplits(values);
    TagNames("householdProfile[]", OrEmpty(values.householdProfile));
    TagNames("focusAreas[]", OrEmpty(values.focusAreas));
    var head := Encoded(values)[..4];
    var profile := TagEntries("householdProfile[]", OrEmpty(values.householdProfile));
    var focus := TagEntries("focusAreas[]", OrEmpty(values.focusAreas));
    var plan := if values.floorPlan.Some? then [Entry("floorPlan", Blob(values.floorPlan.value))] else [];
    assert Encoded(values) == head + profile + focus + plan;
  }

  /** The fields the form writes decode to what it was given. */
  lemma DecodeWrittenFields(values: PlanValues, base64: seq<byte> -> string)
    ensures Decoded(Encoded(values), base64).area == Finite(values.area)
    ensures Decoded(Encoded(values), base64).layout == Some(Text(values.layout))
    ensures Decoded(Encoded(values), base64).budgetLevel == Some(Text(BudgetName(values.budgetLevel)))
    ensures Decoded(Encoded(values), base64).customNeeds == Some(Text(NeedsText(values.customNeeds)))
    ensures Decoded(Encoded(values), base64).householdProfile == Texts(OrEmpty(values.householdProfile))
    ensures Decoded(Encoded(values), base64).focusAreas == Texts(OrEmpty(values.focusAreas))
  {
    EncodedSingleFields(values);
    EncodedTagFields(values);
    NumberOfString(values.area);
  }

  /** The three fields the route reads but the form never writes arrive as
      null. */
  lemma DecodeUnwrittenFields(values: PlanValues, base64: seq<byte> -> string)
    ensures Decoded(Encoded(values), base64).lightingStyle == None
    ensures Decoded(Encoded(values), base64).ecosystem == None
    ensures Decoded(Encoded(values), base64).productsCsv == None
  {
    EncodedNames(values);
    AbsentName(Encoded(values), "lightingStyle");
    AbsentName(Encoded(values), "ecosystem");
    AbsentName(Encoded(values), "productsCsv");
  }

  /** The floor plan arrives as a data URI exactly when a non-empty file was
      chosen. */
  lemma DecodeFloorPlan(values: PlanValues, base64: seq<byte> -> string)
    ensures Decoded(Encoded(values), base64).floorPlanDataUri ==
              if values.floorPlan.Some? && values.floorPlan.value.Size() > 0
              then Some(DataUri(values.floorPlan.value.mimeType, base64(values.floorPlan.value.content)))
              else None
  {
    EncodedFloorPlan(values);
  }

  /** What `POST` answers: the model's stream, or a JSON error body. */
  datatype Response = Streamed(chunks: seq<string>) | JsonError(status: nat, contentType: string, error: string)

  const UnexpectedError := "An unexpected error occurred."

  /** The catch block's message: the error's own, or a generic one. */
  function CaughtMessage(thrown: Thrown): (message: string)
    ensures thrown.ErrorObject? ==> message == thrown.message
    ensures thrown.OtherValue? ==> message == UnexpectedError
  {
    match thrown
    case ErrorObject(m) => m
    case OtherValue => UnexpectedError
  }

  /** `POST(req)`: read the body, decode it, call the model.  Whatever is
      thrown on the way becomes a status-500 JSON response carrying the
      message; otherwise the model's stream is returned. */
  method Post(body: Result<seq<Entry>, Thrown>, base64: seq<byte> -> string,
              generate: GenerationRequest -> Result<seq<string>, Thrown>) returns (response: Response)
    ensures response.JsonError? ==> response.status == 500 && response.contentType == "application/json"
    ensures body.Err? ==> response == JsonError(500, "application/json", CaughtMessage(body.error))
    ensures body.Ok? ==>
              var outcome := generate(Decoded(body.value, base64));
              (outcome.Ok? ==> response == Streamed(outcome.value))
              && (outcome.Err? ==> response == JsonError(500, "application/json", CaughtMessage(outcome.error)))
  {
    var thrown: Option<Thrown> := None;
    if body.Err? {
      thrown := Some(body.error);
    } else {
      var request := DecodeRequest(body.value, base64);
      var stream := generate(request);
      if stream.Ok? {
        return Streamed(stream.value);
      }
      thrown := Some(stream.error);
    }
    response := JsonError(500, "application/json", CaughtMessage(thrown.value));
  }
}
