/**
 * app/api/upload/route.ts: an image sent as the `file` form field is stored
 * under `public/uploads` with a fresh name, and its public path is answered.
 */
module Upload {
  import opened Common
  import opened Text

  /**
   * `formData.get('file')`: absent, a text field, or a file with its MIME type
   * and bytes; `NotMultipart` when the body is not form data, so that
   * `request.formData()` throws.
   */
  datatype FormEntry = NotMultipart | Missing | TextField(text: string) | FileField(mimeType: string, bytes: seq<bv8>)

  datatype UploadResponse =
    | Uploaded(filepath: string)
    | BadRequest(error: string)
    | Failed

  function Status(r: UploadResponse): nat {
    match r
    case Uploaded(_) => 200
    case BadRequest(_) => 400
    case Failed => 500
  }

  /** The JSON members of a response body, each as its serialised text. */
  function ResponseJson(r: UploadResponse): map<string, string> {
    match r
    case Uploaded(p) => map["success" := "true", "filepath" := p]
    case BadRequest(e) => map["error" := e]
    case Failed => map["error" := "Failed to upload file"]
  }

  /** `fileType.split('/')[1]` for an image type: the text after the first `/` up to the next one. */
  function Extension(mimeType: string): (ext: string)
    requires StartsWith(mimeType, "image/")
    ensures '/' !in ext
    ensures StartsWith(mimeType, "image/" + ext)
    ensures |mimeType| == |ext| + 6 || mimeType[|ext| + 6] == '/'
  {
    SecondPiece(mimeType, "image");
    Split(mimeType, '/')[1]
  }

  /** After a first piece `a`, the second piece of a split runs up to the next `/` or the end. */
  lemma SecondPiece(s: string, a: string)
    requires '/' !in a && StartsWith(s, a + "/")
    ensures |Split(s, '/')| >= 2
    ensures var e := Split(s, '/')[1];
            && '/' !in e && StartsWith(s, a + "/" + e)
            && (|s| == |a| + 1 + |e| || s[|a| + 1 + |e|] == '/')
  {
    var rest := s[|a| + 1..];
    assert s == a + ['/'] + rest by {
      assert s[..|a| + 1] == a + "/";
    }
    SplitAtFirst(a, '/', rest);
    SplitFirstPiece(rest, '/');
    var e := Split(rest, '/')[0];
    assert Split(s, '/')[1] == e;
    assert s[..|a| + 1 + |e|] == a + "/" + e;
  }

  lemma SvgExtension(mimeType: string)
    requires mimeType == "image/svg+xml"
    ensures Extension(mimeType) == "svg+xml"
  {
    var ext := Extension(mimeType);
    assert '/' !in mimeType[6..];
    assert |mimeType| == |ext| + 6;
  }

  /** `${uuid}.${extension}`. */
  function FileName(uuid: string, mimeType: string): string
    requires StartsWith(mimeType, "image/")
  {
    uuid + "." + Extension(mimeType)
  }

  /** The files under `public/uploads`, and whether the directory accepts a write. */
  class UploadDir {
    var files: map<string, seq<bv8>>
    var writable: bool

    constructor (files: map<string, seq<bv8>>, writable: bool)
      ensures this.files == files && this.writable == writable
    {
      this.files := files;
      this.writable := writable;
    }

    /**
     * `POST`: a body that is not form data fails with 500; a missing or empty
     * field is refused with 400; a text field has no `type` and fails with
     * 500; a file whose type is not `image/...` is refused with 400. Otherwise
     * the bytes are written as `<uuid>.<extension>` (500 when the write fails)
     * and the public path is answered.
     */
    method Post(entry: FormEntry, uuid: string) returns (r: UploadResponse)
      modifies this`files
      ensures entry.NotMultipart? ==> r == Failed
      ensures entry.Missing? || entry == TextField("") ==> r == BadRequest("File is required")
      ensures entry.TextField? && entry.text != "" ==> r == Failed
      ensures entry.FileField? && !StartsWith(entry.mimeType, "image/") ==>
                r == BadRequest("Only image files are allowed")
      ensures entry.FileField? && StartsWith(entry.mimeType, "image/") ==>
                var name := FileName(uuid, entry.mimeType);
                if writable then r == Uploaded("/uploads/" + name) && files == old(files)[name := entry.bytes]
                else r == Failed
      ensures !r.Uploaded? ==> files == old(files)
    {
      match entry
      case NotMultipart =>
        return Failed;
      case Missing =>
        return BadRequest("File is required");
      case TextField(text) =>
        if text == "" {
          return BadRequest("File is required");
        }
        return Failed;
      case FileField(mimeType, bytes) =>
        if !StartsWith(mimeType, "image/") {
          return BadRequest("Only image files are allowed");
        }
        var filename := FileName(uuid, mimeType);
        if !writable {
          return Failed;
        }
        files := files[filename := bytes];
        r := Uploaded("/uploads/" + filename);
    }
  }

  /** How the projects editor reads the uploaded path: the member `filePath`, which the route never sends. */
  function UploadedPathAsWritten(json: map<string, string>): (r: Option<string>)
    ensures r.Some? <==> "filePath" in json
  {
    if "filePath" in json then Some(json["filePath"]) else None
  }

  /** Reading the member the route does send, `filepath`. */
  function UploadedPath(json: map<string, string>): (r: Option<string>)
    ensures r.Some? <==> "filepath" in json
  {
    if "filepath" in json then Some(json["filepath"]) else None
  }

  /** Every successful upload is read as no path at all by the editor as written. */
  lemma AsWrittenLosesUploadedPath(r: UploadResponse)
    requires Status(r) == 200
    ensures UploadedPathAsWritten(ResponseJson(r)) == None
  {
    assert "filePath" != "filepath" by {
      assert "filePath"[4] != "filepath"[4];
    }
  }

  /** Reading `filepath` gives back exactly the path the route answered, and only on success. */
  lemma UploadedPathRoundTrip(r: UploadResponse)
    ensures UploadedPath(ResponseJson(r)) == if r.Uploaded? then Some(r.filepath) else None
  {
    if !r.Uploaded? {
      assert "error" != "filepath" by {
        assert "error"[0] != "filepath"[0];
      }
    }
  }
}
