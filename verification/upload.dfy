/** The document upload request: the multipart form fields assembled from the
    file and the optional folder id and visibility flag, the upload path and
    the content-type header. The file is an opaque value of type `F`; the form
    is the ordered sequence of its appended fields. */
module Upload {
  import opened JsValues
  import UploadEndpoints

  datatype FieldValue<F> = Blob(file: F) | Text(text: string)

  /** One `formData.append(key, value)`. */
  datatype Field<F> = Field(key: string, value: FieldValue<F>)

  datatype Header = Header(name: string, value: string)

  /** A POST of `fields` to `path` with `headers`. */
  datatype Request<F> = Request(path: string, fields: seq<Field<F>>, headers: seq<Header>)

  /** `String(b)` for a boolean. */
  function BoolText(b: bool): (s: string)
    ensures s == "true" || s == "false"
    ensures (s == "true") == b
  {
    if b then "true" else "false"
  }

  /** Reads back a boolean written by `BoolText`. */
  function ParseBool(s: string): (r: Option<bool>)
    ensures r.Some? ==> BoolText(r.value) == s
  {
    if s == "true" then Some(true)
    else if s == "false" then Some(false)
    else None
  }

  /** The position each key may take in the form. */
  function Rank(key: string): nat {
    if key == "file" then 0 else if key == "folderId" then 1 else 2
  }

  predicate HasKey<F>(fields: seq<Field<F>>, key: string) {
    exists i :: 0 <= i < |fields| && fields[i].key == key
  }

  /** The value of the first field named `key`. */
  function Lookup<F>(fields: seq<Field<F>>, key: string): (r: Option<FieldValue<F>>)
    ensures r.Some? <==> HasKey(fields, key)
    ensures r.Some? ==> exists i :: 0 <= i < |fields| && fields[i] == Field(key, r.value)
  {
    if |fields| == 0 then None
    else if fields[0].key == key then Some(fields[0].value)
    else
      var rest := Lookup(fields[1..], key);
      assert forall i :: 1 <= i < |fields| ==> fields[i] == fields[1..][i - 1];
      rest
  }

  /** The form fields `uploadDocument` appends, in order. */
  function UploadFields<F>(file: F, folderId: Option<string>, isPublic: Option<bool>): (fields: seq<Field<F>>)
    ensures 1 <= |fields| <= 3
    ensures fields[0] == Field("file", Blob(file))
    ensures HasKey(fields, "folderId") <==> Truthy(folderId)
    ensures forall i :: 0 <= i < |fields| && fields[i].key == "folderId" ==> fields[i].value == Text(folderId.value)
    ensures HasKey(fields, "isPublic") <==> isPublic.Some?
    ensures forall i :: 0 <= i < |fields| && fields[i].key == "isPublic" ==> fields[i].value == Text(BoolText(isPublic.value))
    ensures forall i :: 0 <= i < |fields| ==> fields[i].key in {"file", "folderId", "isPublic"}
    ensures forall i, j :: 0 <= i < j < |fields| ==> Rank(fields[i].key) < Rank(fields[j].key)
  {
    var folderField := if Truthy(folderId) then [Field("folderId", Text(folderId.value))] else [];
    var publicField := if isPublic.Some? then [Field("isPublic", Text(BoolText(isPublic.value)))] else [];
    var fields := [Field("file", Blob(file))] + folderField + publicField;
    assert Truthy(folderId) ==> fields[1].key == "folderId";
    assert isPublic.Some? ==> fields[|fields| - 1].key == "isPublic";
    fields
  }

  /** `uploadAPI.uploadDocument` as the request it sends. */
  function UploadDocument<F>(file: F, folderId: Option<string>, isPublic: Option<bool>): (req: Request<F>)
    ensures req.path == UploadEndpoints.Upload == "/upload"
    ensures req.headers == [Header("Content-Type", "multipart/form-data")]
    ensures req.fields == UploadFields(file, folderId, isPublic)
    ensures ParseUploadForm(req.fields) == Some((file, if Truthy(folderId) then folderId else None, isPublic))
  {
    ParseUploadFields(file, folderId, isPublic);
    Request(UploadEndpoints.Upload, UploadFields(file, folderId, isPublic),
            [Header("Content-Type", "multipart/form-data")])
  }

  /** No key occurs twice in the upload form. */
  lemma UploadKeysDistinct<F>(file: F, folderId: Option<string>, isPublic: Option<bool>)
    ensures var fields := UploadFields(file, folderId, isPublic);
            forall i, j :: 0 <= i < j < |fields| ==> fields[i].key != fields[j].key
  {
  }

  /** How a receiver reads the upload form: the leading file, the folder id
      if present and the visibility flag if present. */
  function ParseUploadForm<F>(fields: seq<Field<F>>): Option<(F, Option<string>, Option<bool>)> {
    if |fields| == 0 || fields[0].key != "file" || !fields[0].value.Blob? then None
    else
      var folderId :=
        match Lookup(fields, "folderId")
        case Some(Text(t)) => Some(t)
        case _ => None;
      var isPublic :=
        match Lookup(fields, "isPublic")
        case Some(Text(t)) => ParseBool(t)
        case _ => None;
      Some((fields[0].value.file, folderId, isPublic))
  }

  /** Reading the upload form back recovers the file, the visibility flag and
      the folder id; an empty folder id comes back as no folder id, since
      the form leaves it out. */
  lemma {:induction false} ParseUploadFields<F>(file: F, folderId: Option<string>, isPublic: Option<bool>)
    ensures ParseUploadForm(UploadFields(file, folderId, isPublic))
            == Some((file, if Truthy(folderId) then folderId else None, isPublic))
  {
    var fields := UploadFields(file, folderId, isPublic);
    if Truthy(folderId) {
      assert fields[1] == Field("folderId", Text(folderId.value));
      LookupUnique(fields, 1);
    }
    if isPublic.Some? {
      var k := if Truthy(folderId) then 2 else 1;
      assert fields[k] == Field("isPublic", Text(BoolText(isPublic.value)));
      LookupUnique(fields, k);
    }
  }

  /** In a form whose keys are distinct, looking up the key of field `k` gives its value. */
  lemma {:induction false} LookupUnique<F>(fields: seq<Field<F>>, k: nat)
    requires k < |fields|
    requires forall i, j :: 0 <= i < j < |fields| ==> fields[i].key != fields[j].key
    ensures Lookup(fields, fields[k].key) == Some(fields[k].value)
  {
    var v := Lookup(fields, fields[k].key).value;
    var i :| 0 <= i < |fields| && fields[i] == Field(fields[k].key, v);
    if i < k {
      assert fields[i].key == fields[k].key;
    } else if k < i {
      assert fields[k].key == fields[i].key;
    }
  }
}

/** The one local decision in the document listing call. */
module DocumentsApi {
  import opened JsValues
  import Upload

  /** The query parameters of `documentAPI.list(folderId)`. */
  function ListParams(folderId: Option<string>): (params: seq<(string, string)>)
    ensures Truthy(folderId) ==> params == [("folderId", folderId.value)]
    ensures !Truthy(folderId) ==> params == []
  {
    if Truthy(folderId) then [("folderId", folderId.value)] else []
  }

  /** Listing filters by a folder exactly when an upload would file into it. */
  lemma ListFilterMatchesUploadRule<F>(file: F, folderId: Option<string>, isPublic: Option<bool>)
    ensures (|ListParams(folderId)| == 1) <==> Upload.HasKey(Upload.UploadFields(file, folderId, isPublic), "folderId")
  {
  }
}
