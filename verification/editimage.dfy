/** The `POST` handler of frontend/app/api/edit-image/route.ts: request
    checks, the reading of the source image (a `data:` URL, an http(s) URL
    or a file under `public/`), the fallback to the vision model, and the
    choice between the generated image, the original image and an error.
    The loaded image bytes and the model replies are inputs. */
module EditImageRoute {
  import opened Wrappers
  import opened Strings
  import opened Json
  import Seqs
  import opened Vendor

  // ------------------------------------------------------------ sources

  /** `imageUrl.match(/^data:([^;]+);base64,(.+)$/)`: the MIME type is the
      non-empty text between `data:` and the first `;`, which must open
      `;base64,`; the payload is the non-empty rest, up to the end and free
      of line terminators. */
  function ParseDataUrl(url: string): (r: Option<(string, string)>)
    ensures r.Some? ==> url == "data:" + r.value.0 + ";base64," + r.value.1
    ensures r.Some? ==> |r.value.0| > 0 && !Contains(r.value.0, ";")
    ensures r.Some? ==> |r.value.1| > 0 && NoLineTerminator(r.value.1)
  {
    if !StartsWith(url, "data:") then None
    else
      match IndexOfFrom(url, ";", 5)
      case None => None
      case Some(p) =>
        if p > 5 && OccursAt(url, ";base64,", p) && |url| > p + 8 && NoLineTerminator(url[p + 8..]) then
          var mime, data := url[5..p], url[p + 8..];
          assert url == url[..5] + url[5..p] + url[p..p + 8] + url[p + 8..];
          NotContainsBefore(url, ";", 5, p);
          Some((mime, data))
        else None
  }

  /** Every well-formed data URL parses back into its MIME type and payload,
      and those are the only URLs that parse. */
  lemma DataUrlRoundTrip(mime: string, data: string)
    requires |mime| > 0 && !Contains(mime, ";")
    requires |data| > 0 && NoLineTerminator(data)
    ensures ParseDataUrl("data:" + mime + ";base64," + data) == Some((mime, data))
  {
    var url := "data:" + mime + ";base64," + data;
    var p := 5 + |mime|;
    assert url[..5] == "data:";
    assert url[p..p + 8] == ";base64,";
    assert OccursAt(url, ";", p);
    ContainsIff(mime, ";");
    forall j | 5 <= j < p ensures !OccursAt(url, ";", j) {
      assert url[j..j + 1] == mime[j - 5..j - 5 + 1];
      assert !OccursAt(mime, ";", j - 5);
    }
    assert IndexOfFrom(url, ";", 5) == Some(p);
    assert url[5..p] == mime;
    assert url[p + 8..] == data;
  }

  /** A `data:` URL without `;base64,` right after a non-empty MIME type is
      refused; so is one with an empty payload. */
  lemma MalformedDataUrls()
    ensures ParseDataUrl("data:;base64,AAAA").None?
    ensures ParseDataUrl("data:image/png;base64,").None?
    ensures ParseDataUrl("data:image/png,AAAA").None?
  {
    assert OccursAt("data:;base64,AAAA", ";", 5);
    var empty := "data:image/png;base64,";
    assert OccursAt(empty, ";", 14);
    forall j | 5 <= j < 14 ensures !OccursAt(empty, ";", j) {
      assert empty[j..j + 1] == [empty[j]];
    }
    var plain := "data:image/png,AAAA";
    forall j: nat ensures !OccursAt(plain, ";", j) {
      if j + 1 <= |plain| {
        assert plain[j..j + 1] == [plain[j]];
      }
    }
  }

  /** The MIME type guessed from an http(s) URL or a local path. */
  function InferMime(url: string): (r: string)
    ensures r == "image/jpeg" || r == "image/png"
    ensures r == "image/png" <==> !Contains(url, ".jpg") && !Contains(url, ".jpeg") && Contains(url, ".png")
  {
    if Contains(url, ".jpg") || Contains(url, ".jpeg") then "image/jpeg"
    else if Contains(url, ".png") then "image/png"
    else "image/jpeg"
  }

  // ------------------------------------------------------- model replies

  datatype Reply =
    | BadRequest(error: string)
    | ServerError(error: string, details: Details)
    | Edited(editedImage: Option<JVal>, mimeType: JVal, message: string, analysis: JVal)

  // ---------------------------------------------------------- parts loop

  /** The last part whose `key` is truthy gives the value of `key`. */
  function LastTruthy(parts: seq<JVal>, key: string): (r: Option<JVal>)
    ensures r.Some? ==> Truthy(r)
  {
    if |parts| == 0 then None
    else
      var v := Get(Some(parts[|parts| - 1]), key);
      if Truthy(v) then v else LastTruthy(parts[..|parts| - 1], key)
  }

  /** One more part: its value for `key` replaces the kept one when truthy. */
  lemma LastTruthyStep(parts: seq<JVal>, p: JVal, key: string)
    ensures LastTruthy(parts + [p], key) ==
              if Truthy(Get(Some(p), key)) then Get(Some(p), key) else LastTruthy(parts, key)
  {
    assert (parts + [p])[..|parts|] == parts;
  }

  /** The kept value is that of a part after which no part has a truthy
      value for `key`; nothing is kept exactly when no part has one. */
  lemma {:induction false} LastTruthyIsLast(parts: seq<JVal>, key: string)
    ensures var r := LastTruthy(parts, key);
            && (r.Some? ==> exists i :: 0 <= i < |parts| && Get(Some(parts[i]), key) == r &&
                                        forall j :: i < j < |parts| ==> !Truthy(Get(Some(parts[j]), key)))
            && (r.None? <==> forall i :: 0 <= i < |parts| ==> !Truthy(Get(Some(parts[i]), key)))
  {
    if |parts| > 0 {
      var init := parts[..|parts| - 1];
      var last := |parts| - 1;
      if Truthy(Get(Some(parts[last]), key)) {
        assert Get(Some(parts[last]), key) == LastTruthy(parts, key);
      } else {
        LastTruthyIsLast(init, key);
        assert forall i :: 0 <= i < |init| ==> init[i] == parts[i];
      }
    }
  }

  /** `for (const part of parts)`: each part with a truthy `inlineData`
      replaces the image, each part with a truthy `text` replaces the text;
      a `null` part throws. Returns whether the loop completed, and the
      image and text it kept. */
  method ScanParts(parts: seq<JVal>) returns (ok: bool, image: Option<JVal>, text: Option<JVal>)
    ensures ok <==> forall i :: 0 <= i < |parts| ==> parts[i] != JNull
    ensures ok ==> image == LastTruthy(parts, "inlineData") && text == LastTruthy(parts, "text")
  {
    image, text := None, None;
    var i := 0;
    while i < |parts|
      invariant 0 <= i <= |parts|
      invariant JNull !in parts[..i]
      invariant image == LastTruthy(parts[..i], "inlineData") && text == LastTruthy(parts[..i], "text")
    {
      var part := parts[i];
      if part == JNull {
        return false, image, text;
      }
      Seqs.TakeOneMore(parts, i);
      LastTruthyStep(parts[..i], part, "inlineData");
      LastTruthyStep(parts[..i], part, "text");
      var inlineData, partText := Get(Some(part), "inlineData"), Get(Some(part), "text");
      if Truthy(inlineData) {
        image := inlineData;
      }
      if Truthy(partText) {
        text := partText;
      }
      i := i + 1;
    }
    assert parts[..i] == parts;
    assert forall j :: 0 <= j < |parts| ==> parts[j] in parts;
    ok := true;
  }

  // ---------------------------------------------- generated image's type

  /** `generatedImageData.mime_type || 'image/png'`, as written: the type
      comes from a `mime_type` field, and is PNG whenever that is falsy,
      whatever the image's `mimeType` says. */
  function ImageMimeTypeAsWritten(inlineData: JVal): (r: JVal)
    ensures Truthy(Get(Some(inlineData), "mime_type")) ==> r == Get(Some(inlineData), "mime_type").value
    ensures !Truthy(Get(Some(inlineData), "mime_type")) ==> r == JStr("image/png")
  {
    var m := Get(Some(inlineData), "mime_type");
    if Truthy(m) then m.value else JStr("image/png")
  }

  /** The model's reply names the type of inline image data `mimeType`; a
      JPEG image is still labelled PNG by the code as written. */
  lemma JpegLabelledPng()
    ensures ImageMimeTypeAsWritten(JObj([("mimeType", JStr("image/jpeg")), ("data", JStr("AAAA"))])) ==
            JStr("image/png")
  {
  }

  /** The type the reply should carry: the image's own `mimeType`, with PNG
      only when the model gave none. */
  function ImageMimeType(inlineData: JVal): (r: JVal)
    ensures Truthy(Get(Some(inlineData), "mimeType")) ==> r == Get(Some(inlineData), "mimeType").value
    ensures !Truthy(Get(Some(inlineData), "mimeType")) ==> r == JStr("image/png")
  {
    var m := Get(Some(inlineData), "mimeType");
    if Truthy(m) then m.value else JStr("image/png")
  }

  /** The type stated by the model comes back in the reply. */
  lemma JpegLabelledJpeg()
    ensures ImageMimeType(JObj([("mimeType", JStr("image/jpeg")), ("data", JStr("AAAA"))])) == JStr("image/jpeg")
  {
  }

  // ---------------------------------------------------------------- POST

  /** `visionData.candidates?.[0]?.content?.parts?.[0]?.text || 'No analysis available'` */
  function VisionAnalysis(visionData: JVal): JVal {
    var t := Get(At(Get(Get(At(Get(Some(visionData), "candidates"), 0), "content"), "parts"), 0), "text");
    if Truthy(t) then t.value else JStr("No analysis available")
  }

  /** `!geminiData.candidates || geminiData.candidates.length === 0` */
  predicate NoCandidates(geminiData: JVal) {
    var c := Get(Some(geminiData), "candidates");
    !Truthy(c) || Length(c) == Some(0)
  }

  /** The base64 image and its MIME type, as the route derives them, or
      the reply that ends the request on the way. */
  function ReadSource(imageUrl: string, loaded: Result<string, string>): (r: Result<(string, string), Reply>)
    ensures StartsWith(imageUrl, "data:") ==>
              r == (if ParseDataUrl(imageUrl).Some? then Ok((ParseDataUrl(imageUrl).value.1, ParseDataUrl(imageUrl).value.0))
                    else Err(BadRequest("Invalid data URL format")))
    ensures !StartsWith(imageUrl, "data:") && loaded.Err? ==> r == Err(ServerError("Internal server error", Text(loaded.error)))
    ensures !StartsWith(imageUrl, "data:") && loaded.Ok? ==> r == Ok((loaded.value, InferMime(imageUrl)))
  {
    if StartsWith(imageUrl, "data:") then
      match ParseDataUrl(imageUrl)
      case None => Err(BadRequest("Invalid data URL format"))
      case Some((mime, data)) => Ok((data, mime))
    else
      // `fetch(imageUrl)` for http(s) URLs, `readFile` under `public/` otherwise
      if loaded.Err? then Err(ServerError("Internal server error", Text(loaded.error)))
      else Ok((loaded.value, InferMime(imageUrl)))
  }

  /** The reply built from the vision model's answer after the image model
      refused: the original image with the vision model's analysis. */
  function FallbackReply(vision: ModelReply, base64Image: string, mimeType: string): (r: Reply)
    ensures vision.OkJson? && vision.data != JNull ==>
              r.Edited? && r.editedImage == Some(JStr(base64Image)) && r.mimeType == JStr(mimeType) &&
              r.message == "Image analyzed successfully" && r.analysis == VisionAnalysis(vision.data)
    ensures vision.NotOk? ==> r == ServerError("Failed to process image", Text(vision.text))
    ensures vision.Threw? ==> r == ServerError("Internal server error", Text(vision.message))
    ensures vision == OkJson(JNull) ==> r == ServerError("Internal server error", EngineMessage)
    ensures !vision.OkJson? || vision.data == JNull ==> r.ServerError?
  {
    match vision
    case Threw(m) => ServerError("Internal server error", Text(m))
    case NotOk(visionError) => ServerError("Failed to process image", Text(visionError))
    case OkJson(visionData) =>
      if visionData == JNull then ServerError("Internal server error", EngineMessage)
      else Edited(Some(JStr(base64Image)), JStr(mimeType), "Image analyzed successfully", VisionAnalysis(visionData))
  }

  /** The values `for (const part of parts)` visits in the first candidate,
      or `None` when reaching them throws: the candidate is missing, or
      `parts` is not iterable. A string is iterated as one-character
      strings, which have neither property the loop reads. */
  function CandidateParts(geminiData: JVal): Option<seq<JVal>> {
    var candidate := At(Get(Some(geminiData), "candidates"), 0);
    if IsNullish(candidate) then None
    else
      var content := Get(Get(candidate, "content"), "parts");
      var parts := if Truthy(content) then content.value else JArr([]);
      match parts
      case JArr(es) => Some(es)
      case JStr(s) => Some(seq(|s|, i requires 0 <= i < |s| => JStr([s[i]])))
      case _ => None
  }

  /** The reply to a request that reached the image model and got
      candidates back, as a function of its parts: the last image wins (with
      the last text as its analysis), else the original image with the last
      text, else an error. */
  function PartsReply(elems: seq<JVal>, base64Image: string, mimeType: string): (r: Reply)
    requires forall i :: 0 <= i < |elems| ==> elems[i] != JNull
    ensures r.Edited? || r == ServerError("No response from Gemini", NoDetails)
    ensures var image, text := LastTruthy(elems, "inlineData"), LastTruthy(elems, "text");
            && (image.Some? ==>
                  r.Edited? && r.editedImage == Get(image, "data") && r.mimeType == ImageMimeTypeAsWritten(image.value) &&
                  r.message == "Image generated successfully by Gemini 2.5 Flash Image" &&
                  r.analysis == (if text.Some? then text.value else JStr("Image generated based on your prompt")))
            && (image.None? && text.Some? ==>
                  r.Edited? && r.editedImage == Some(JStr(base64Image)) && r.mimeType == JStr(mimeType) &&
                  r.message == "Image analyzed by Gemini" && r.analysis == text.value)
            && (r.ServerError? <==> image.None? && text.None?)
  {
    var image, text := LastTruthy(elems, "inlineData"), LastTruthy(elems, "text");
    if image.Some? then
      Edited(Get(image, "data"), ImageMimeTypeAsWritten(image.value), "Image generated successfully by Gemini 2.5 Flash Image",
             if text.Some? then text.value else JStr("Image generated based on your prompt"))
    else if text.Some? then Edited(Some(JStr(base64Image)), JStr(mimeType), "Image analyzed by Gemini", text.value)
    else ServerError("No response from Gemini", NoDetails)
  }

  /** The reply to the image model's JSON: no candidates is an error
      carrying the JSON; otherwise the parts decide. */
  function GeminiOutcome(geminiData: JVal, base64Image: string, mimeType: string): (r: Reply)
    ensures r.Edited? || r.ServerError?
  {
    if NoCandidates(geminiData) then ServerError("Gemini did not generate any content", Payload(geminiData))
    else match CandidateParts(geminiData)
      case None => ServerError("Internal server error", EngineMessage)
      case Some(es) =>
        if forall i :: 0 <= i < |es| ==> es[i] != JNull then PartsReply(es, base64Image, mimeType)
        else ServerError("Internal server error", EngineMessage)
  }

  /** The handling of the image model's JSON, with its parts loop. */
  method GeminiReply(geminiData: JVal, base64Image: string, mimeType: string) returns (reply: Reply)
    requires geminiData != JNull
    ensures NoCandidates(geminiData) ==> reply == ServerError("Gemini did not generate any content", Payload(geminiData))
    ensures !NoCandidates(geminiData) && CandidateParts(geminiData).None? ==>
              reply == ServerError("Internal server error", EngineMessage)
    ensures !NoCandidates(geminiData) && CandidateParts(geminiData).Some? ==>
              var es := CandidateParts(geminiData).value;
              if forall i :: 0 <= i < |es| ==> es[i] != JNull then reply == PartsReply(es, base64Image, mimeType)
              else reply == ServerError("Internal server error", EngineMessage)
    ensures reply == GeminiOutcome(geminiData, base64Image, mimeType)
  {
    if NoCandidates(geminiData) {
      return ServerError("Gemini did not generate any content", Payload(geminiData));
    }
    var elems := CandidateParts(geminiData);
    if elems.None? {
      return ServerError("Internal server error", EngineMessage);
    }
    var ok, generatedImageData, textResponse := ScanParts(elems.value);
    if !ok {
      return ServerError("Internal server error", EngineMessage);
    }
    if generatedImageData.Some? {
      var analysis := if textResponse.Some? then textResponse.value else JStr("Image generated based on your prompt");
      reply := Edited(Get(generatedImageData, "data"), ImageMimeTypeAsWritten(generatedImageData.value),
                      "Image generated successfully by Gemini 2.5 Flash Image", analysis);
    } else if textResponse.Some? {
      reply := Edited(Some(JStr(base64Image)), JStr(mimeType), "Image analyzed by Gemini", textResponse.value);
    } else {
      reply := ServerError("No response from Gemini", NoDetails);
    }
  }

  /** The request passed its field and key checks. */
  predicate Checked(body: Option<JVal>, apiKey: Option<string>) {
    && body.Some? && body.value != JNull
    && Truthy(Get(body, "imageUrl")) && Truthy(Get(body, "prompt"))
    && apiKey.Some? && apiKey.value != ""
  }

  /** The request gets as far as the image model: it passed its checks,
      names its image by a string, and the image was read into a non-empty
      base64 text with a type. */
  predicate CallsModel(body: Option<JVal>, apiKey: Option<string>, loaded: Result<string, string>) {
    && Checked(body, apiKey) && Get(body, "imageUrl").value.JStr?
    && var source := ReadSource(Get(body, "imageUrl").value.s, loaded);
       source.Ok? && source.value.0 != "" && source.value.1 != ""
  }

  /** `POST(request)`. `body` is `None` when the body is not JSON; `loaded`
      is the base64 text of the fetched or read image (or why that threw);
      `primary` and `vision` are the replies of the image model and of the
      vision model. Returns the reply and the image sent to the models, as
      (MIME type, base64) when a request was made. */
  method Post(body: Option<JVal>, apiKey: Option<string>, loaded: Result<string, string>,
              primary: ModelReply, vision: ModelReply)
    returns (reply: Reply, sent: Option<(string, string)>)
    ensures (body.None? || body == Some(JNull)) ==> reply == ServerError("Internal server error", EngineMessage)
    ensures body.Some? && body.value != JNull && (!Truthy(Get(body, "imageUrl")) || !Truthy(Get(body, "prompt"))) ==>
              reply == BadRequest("Missing imageUrl or prompt") && sent.None?
    ensures body.Some? && Truthy(Get(body, "imageUrl")) && Truthy(Get(body, "prompt")) &&
            (apiKey.None? || apiKey.value == "") ==>
              reply == ServerError("Gemini API key not configured", NoDetails) && sent.None?
    ensures sent.Some? <==> CallsModel(body, apiKey, loaded)
    ensures Checked(body, apiKey) && !Get(body, "imageUrl").value.JStr? ==>
              reply == ServerError("Internal server error", EngineMessage)
    ensures Checked(body, apiKey) && Get(body, "imageUrl").value.JStr? ==>
              var source := ReadSource(Get(body, "imageUrl").value.s, loaded);
              && (source.Err? ==> reply == source.error)
              && (source.Ok? && (source.value.0 == "" || source.value.1 == "") ==>
                    reply == ServerError("Failed to process image", NoDetails))
    ensures sent.Some? ==>
              var url := Get(body, "imageUrl");
              url.Some? && url.value.JStr? && ReadSource(url.value.s, loaded) == Ok((sent.value.1, sent.value.0)) &&
              |sent.value.1| > 0
    ensures reply.BadRequest? ==> sent.None?
    ensures sent.Some? && primary.Threw? ==> reply == ServerError("Internal server error", Text(primary.message))
    ensures sent.Some? && primary.NotOk? ==> reply == FallbackReply(vision, sent.value.1, sent.value.0)
    ensures sent.Some? && primary == OkJson(JNull) ==> reply == ServerError("Internal server error", EngineMessage)
    ensures sent.Some? && primary.OkJson? && primary.data != JNull ==>
              reply == GeminiOutcome(primary.data, sent.value.1, sent.value.0)
  {
    sent := None;
    if body.None? || body.value == JNull {
      return ServerError("Internal server error", EngineMessage), sent;
    }
    var imageUrl := Get(body, "imageUrl");
    var prompt := Get(body, "prompt");
    if !Truthy(imageUrl) || !Truthy(prompt) {
      return BadRequest("Missing imageUrl or prompt"), sent;
    }
    if apiKey.None? || apiKey.value == "" {
      return ServerError("Gemini API key not configured", NoDetails), sent;
    }
    // `imageUrl.startsWith` throws for a value that is not a string
    if !imageUrl.value.JStr? {
      return ServerError("Internal server error", EngineMessage), sent;
    }
    var source := ReadSource(imageUrl.value.s, loaded);
    if source.Err? {
      return source.error, sent;
    }
    var base64Image, mimeType := source.value.0, source.value.1;
    if base64Image == "" || mimeType == "" {
      return ServerError("Failed to process image", NoDetails), sent;
    }
    sent := Some((mimeType, base64Image));
    match primary {
      case Threw(m) =>
        reply := ServerError("Internal server error", Text(m));
      case NotOk(_) =>
        reply := FallbackReply(vision, base64Image, mimeType);
      case OkJson(geminiData) =>
        if geminiData == JNull {
          reply := ServerError("Internal server error", EngineMessage);
        } else {
          reply := GeminiReply(geminiData, base64Image, mimeType);
        }
    }
  }

  /** A reply whose only part is text returns the original image, labelled
      with its original type, and the text as the analysis; a reply with no
      image and no text is the "No response" error. */
  lemma TextOnlyKeepsOriginal(text: string, base64Image: string, mimeType: string)
    requires |text| > 0
    ensures PartsReply([JObj([("text", JStr(text))])], base64Image, mimeType) ==
            Edited(Some(JStr(base64Image)), JStr(mimeType), "Image analyzed by Gemini", JStr(text))
    ensures PartsReply([JObj([])], base64Image, mimeType) == ServerError("No response from Gemini", NoDetails)
  {
    var parts := [JObj([("text", JStr(text))])];
    var entries := [("text", JStr(text))];
    assert |entries[0].0| != |"inlineData"|;
    assert Lookup(entries, "inlineData") == Lookup(entries[1..], "inlineData");
    assert Get(Some(parts[0]), "inlineData").None?;
    assert LastTruthy(parts, "inlineData").None?;
    assert LastTruthy(parts, "text") == Some(JStr(text));
  }
}
