/** The `/upload` handler body both servers share: multer's disk storage, the base64
    encoding step, the call to the extraction service and the parse of its reply, as a
    chain of early returns. The encoder, the service and `JSON.parse` are not modelled;
    their results are inputs. */
module Extraction {
  import opened Options
  import opened Http
  import opened StoredNames

  /** The multipart field multer accepts (`upload.single("imagen")`). */
  const ImageField := "imagen"

  const NoImageMessage := "No se subió ninguna imagen."
  const EncodeErrorMessage := "Error al codificar la imagen en base64."
  const ProcessErrorMessage := "Error al procesar la imagen."

  /** The file multer accepted; of it only `path.extname(file.originalname)` reaches the model. */
  datatype FilePart = FilePart(ext: Extension)

  /** What `encodeImageToBase64` resolves to: `undefined` when reading the file failed (the
      error is caught and logged), otherwise the base64 text of the bytes read. */
  datatype EncodeOutcome = Undefined | Base64(text: string)

  /** `!base64Image`: undefined and the empty string are both falsy, so an empty image
      takes the encoding-failure branch. */
  predicate IsFalsy(e: EncodeOutcome)
  {
    e.Undefined? || e.text == ""
  }

  /** What `JSON.parse` does with the reply text: throw, or produce a value. */
  datatype ParseOutcome = SyntaxError | Parsed(value: Json)

  /** What `openai.chat.completions.create` does: reject (network, authentication, rate
      limit, ...), or resolve with a reply whose message content parses as given. */
  datatype ServiceOutcome = ServiceError | Reply(content: string, parse: ParseOutcome)

  /** Everything outside the handler that decides how one upload goes: the clock and the
      random integer of the storage callback, the encoder and the service. */
  datatype Outcomes = Outcomes(now: nat, random: RandomSuffix, encode: EncodeOutcome, service: ServiceOutcome)

  /** The service replied and its content parsed: the only way to a 200. */
  predicate Extracted(o: Outcomes)
  {
    o.service.Reply? && o.service.parse.Parsed?
  }

  /** What one upload request did: the name its file was written under (if any), whether
      the encoder and the service were called, and the response. */
  datatype UploadResult = UploadResult(storedAs: Option<string>, encoderCalled: bool, serviceCalled: bool, response: Response)

  /** multer's disk storage: a present file is written under the callback's name. */
  function Store(file: Option<FilePart>, o: Outcomes): (stored: Option<string>)
    ensures stored.Some? <==> file.Some?
    ensures stored.Some? ==> ParseStoredName(ImageField, stored.value) == Some(NameParts(o.now, o.random, file.value.ext))
  {
    match file
    case None => None
    case Some(f) =>
      StoredNameRoundTrip(ImageField, o.now, o.random, f.ext);
      Some(StoredName(ImageField, o.now, o.random, f.ext))
  }

  /** The handler body from `const file = req.file` to the end of its try/catch: the
      stored name is whatever multer did before it; this fills in the rest. */
  function HandleUpload(storedAs: Option<string>, file: Option<FilePart>, o: Outcomes): (r: UploadResult)
    ensures r.storedAs == storedAs
    ensures r.response == Text(400, NoImageMessage) <==> file.None?
    ensures r.encoderCalled <==> file.Some?
    ensures r.serviceCalled <==> file.Some? && !IsFalsy(o.encode)
    ensures r.response == Text(500, EncodeErrorMessage) <==> file.Some? && IsFalsy(o.encode)
    ensures r.response == Text(500, ProcessErrorMessage) <==> r.serviceCalled && !Extracted(o)
    ensures r.response.JsonBody? <==> r.serviceCalled && Extracted(o)
    ensures r.response.JsonBody? ==> r.response.value == o.service.parse.value
    ensures !r.response.Redirect?
  {
    if file.None? then
      UploadResult(storedAs, false, false, Text(400, NoImageMessage))
    else if IsFalsy(o.encode) then
      UploadResult(storedAs, true, false, Text(500, EncodeErrorMessage))
    else
      match o.service
      case ServiceError => UploadResult(storedAs, true, true, Text(500, ProcessErrorMessage))
      case Reply(_, SyntaxError) => UploadResult(storedAs, true, true, Text(500, ProcessErrorMessage))
      case Reply(_, Parsed(value)) => UploadResult(storedAs, true, true, JsonBody(value))
  }

  /** A failed parse answers with the generic message whatever the reply text was: the
      malformed content never reaches the client. */
  lemma MalformedReplyHidden(storedAs: Option<string>, file: FilePart, o: Outcomes, content1: string, content2: string)
    requires !IsFalsy(o.encode)
    ensures HandleUpload(storedAs, Some(file), o.(service := Reply(content1, SyntaxError))).response
         == HandleUpload(storedAs, Some(file), o.(service := Reply(content2, SyntaxError))).response
         == Text(500, ProcessErrorMessage)
  {
  }
}
