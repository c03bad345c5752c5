/** app.js: the same upload pipeline with no login in front of it. Its only route is
    `POST /upload`, where multer stores the file and the handler runs unconditionally. */
module App {
  import opened Options
  import opened Http
  import opened StoredNames
  import opened Extraction

  /** `app.post("/upload", upload.single("imagen"), handler)`. */
  function Upload(file: Option<FilePart>, o: Outcomes): (r: UploadResult)
    ensures !r.response.Redirect?
    ensures r.storedAs.Some? <==> file.Some?
    ensures r.storedAs.Some? ==> |r.storedAs.value| > 7 && r.storedAs.value[..7] == "imagen-"
    ensures r.encoderCalled <==> file.Some?
    ensures r.response == Text(400, NoImageMessage) <==> file.None?
    ensures r.serviceCalled <==> file.Some? && !IsFalsy(o.encode)
    ensures r.response == Text(500, EncodeErrorMessage) <==> file.Some? && IsFalsy(o.encode)
    ensures r.response == Text(500, ProcessErrorMessage) <==> file.Some? && !IsFalsy(o.encode) && !Extracted(o)
    ensures r.response.JsonBody? <==> file.Some? && !IsFalsy(o.encode) && Extracted(o)
    ensures r.response.JsonBody? ==> r.response.value == o.service.parse.value
  {
    HandleUpload(Store(file, o), file, o)
  }
}
