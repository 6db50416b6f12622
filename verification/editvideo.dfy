/** The `POST` handler of frontend/app/api/edit-video/route.ts: request
    validation, the prompt sent to the video model, the bounded status poll,
    and the choice of where the video is read from in the finished
    operation. The vendor's replies are inputs; the ten-second sleep between
    polls is not modelled. */
module EditVideoRoute {
  import opened Wrappers
  import opened Strings
  import opened Json
  import opened Vendor

  datatype Reply =
    | BadRequest(error: string)      // status 400
    | Failed(details: Failure)       // status 500, error "Failed to generate video"
    | Generated(editedVideo: JVal)   // success, mimeType "video/mp4"

  /** What the route sends to the video model. */
  datatype Submission = Submission(prompt: string, firstFrame: string, lastFrame: string)

  /** The reply to the `predictLongRunning` request. */
  datatype SubmitReply =
    | SubmitThrew(message: string)          // fetch or JSON parsing rejected
    | SubmitNotOk(status: nat, text: string)
    | SubmitOk(operation: JVal)

  /** The reply to one `fetchPredictOperation` request. */
  datatype PollReply =
    | PollThrew(message: string)
    | PollNotOk
    | PollOk(payload: JVal)

  /** The two GCP settings read from the environment. */
  datatype Env = Env(projectId: Option<string>, accessToken: Option<string>)

  const MaxPolls: nat := 60

  const TimeoutMessage: string := "Video generation timed out after 10 minutes"
  const GcsMessage: string := "Cloud Storage URIs not supported yet. Please configure to return inline bytes."
  const NoVideoMessage: string := "No video bytes or GCS URI in response"
  const CredentialsMessage: string := "GCP_PROJECT_ID and GCP_ACCESS_TOKEN required for Veo video generation"

  // ------------------------------------------------------------- prompt

  /** The prompt sent to the model: the brand template when a company name
      is given, the plain suffix otherwise. Interpolation writes a value as
      `String(value)` does. */
  function FullPrompt(prompt: JVal, companyName: Option<JVal>): string {
    if Truthy(companyName) then BrandOpening + ElementString(companyName.value) + BrandMiddle + ElementString(prompt) + "."
    else ElementString(prompt) + PlainSuffix
  }

  const BrandOpening: string := " Create a 4-second advertisement video for the Brand: "
  const BrandMiddle: string :=
    " , and include details/instructions  from the following prompt by a user who wants to edit/recreate the ad : "
  const PlainSuffix: string := ". Create a 4-second advertisement video."

  /** Without a company the prompt is the user's text followed by the fixed
      instruction; with one it opens with the brand sentence, names the
      company, and ends with the user's text and a full stop. */
  lemma FullPromptShape(prompt: string, companyName: Option<JVal>)
    ensures !Truthy(companyName) ==>
              FullPrompt(JStr(prompt), companyName) == prompt + ". Create a 4-second advertisement video."
    ensures Truthy(companyName) ==>
              StartsWith(FullPrompt(JStr(prompt), companyName), BrandOpening + ElementString(companyName.value)) &&
              EndsWith(FullPrompt(JStr(prompt), companyName), prompt + ".")
  {
    if Truthy(companyName) {
      BrandedPromptShape(ElementString(companyName.value), prompt);
    }
  }

  /** The brand template opens with the brand sentence and the company and
      closes with the prompt and a full stop. */
  lemma BrandedPromptShape(company: string, prompt: string)
    ensures var full := BrandOpening + company + BrandMiddle + prompt + ".";
            StartsWith(full, BrandOpening + company) && EndsWith(full, prompt + ".")
  {
    var head := BrandOpening + company;
    var full := BrandOpening + company + BrandMiddle + prompt + ".";
    assert full == head + (BrandMiddle + prompt + ".");
    assert full[..|head|] == head;
    assert full == (head + BrandMiddle) + (prompt + ".");
    assert full[|full| - |prompt + "."|..] == prompt + ".";
  }

  // ----------------------------------------------------------- polling

  /** A reply that ends the poll loop: a thrown request, a `null` payload
      (reading `.done` of it throws), or a payload whose `done` is truthy. */
  predicate Decisive(reply: PollReply) {
    reply.PollThrew? || (reply.PollOk? && (reply.payload == JNull || Truthy(Get(Some(reply.payload), "done"))))
  }

  /** The index of the first reply, at or after `i`, that ends the loop. */
  function FirstDecisive(polls: seq<PollReply>, i: nat): (r: Option<nat>)
    requires i <= |polls|
    decreases |polls| - i
    ensures r.Some? ==> i <= r.value < |polls| && Decisive(polls[r.value])
    ensures r.Some? ==> forall j :: i <= j < r.value ==> !Decisive(polls[j])
    ensures r.None? <==> forall j :: i <= j < |polls| ==> !Decisive(polls[j])
  {
    if i == |polls| then None
    else if Decisive(polls[i]) then Some(i)
    else FirstDecisive(polls, i + 1)
  }

  datatype PollOutcome = Done(payload: JVal) | TimedOut | PollFailed(failure: Failure)

  /** The outcome the loop reaches at the decisive reply `reply`. */
  function DecisiveOutcome(reply: PollReply): PollOutcome
    requires Decisive(reply)
  {
    match reply
    case PollThrew(m) => PollFailed(Thrown(m))
    case PollOk(p) => if p == JNull then PollFailed(RuntimeError) else Done(p)
  }

  /** The `for` loop of at most 60 status requests. A non-OK status is
      skipped; an OK reply replaces the payload and ends the loop when it is
      done. Returns the outcome and the number of status requests made. */
  method PollUntilDone(polls: seq<PollReply>) returns (outcome: PollOutcome, attempts: nat)
    requires |polls| == MaxPolls
    ensures 1 <= attempts <= MaxPolls
    ensures FirstDecisive(polls, 0).None? ==> outcome == TimedOut && attempts == MaxPolls
    ensures FirstDecisive(polls, 0).Some? ==>
              attempts == FirstDecisive(polls, 0).value + 1 &&
              outcome == DecisiveOutcome(polls[attempts - 1])
  {
    var completed := false;
    var videoData: Option<JVal> := None;
    var i := 0;
    attempts := 0;
    while i < MaxPolls
      invariant 0 <= i <= MaxPolls && attempts == i
      invariant forall j :: 0 <= j < i ==> !Decisive(polls[j])
      invariant !completed
    {
      attempts := i + 1;
      var reply := polls[i];
      if reply.PollThrew? {
        return PollFailed(Thrown(reply.message)), attempts;
      }
      if reply.PollNotOk? {
        i := i + 1;
        continue;
      }
      videoData := Some(reply.payload);
      if reply.payload == JNull {
        return PollFailed(RuntimeError), attempts;
      }
      if Truthy(Get(videoData, "done")) {
        completed := true;
        break;
      }
      i := i + 1;
    }
    if !completed {
      return TimedOut, attempts;
    }
    outcome := Done(videoData.value);
  }

  // --------------------------------------------------- findBase64Data

  /** The strings of a JSON value in depth-first order, visiting array
      elements by index and object entries in key order. */
  function Leaves(v: JVal): seq<string>
    decreases v, 1
  {
    match v
    case JStr(s) => [s]
    case JArr(elems) => LeavesOfList(elems)
    case JObj(entries) => LeavesOfEntries(entries)
    case _ => []
  }

  function LeavesOfList(elems: seq<JVal>): seq<string>
    decreases elems, 0
  {
    if |elems| == 0 then [] else Leaves(elems[0]) + LeavesOfList(elems[1..])
  }

  function LeavesOfEntries(entries: seq<(string, JVal)>): seq<string>
    decreases entries, 0
  {
    if |entries| == 0 then []
    else
      var e := entries[0];
      assert e.1 < e;
      Leaves(e.1) + LeavesOfEntries(entries[1..])
  }

  /** The first string longer than 1000 characters in a list. */
  function FirstLong(ss: seq<string>): (r: Option<string>)
    ensures r.Some? ==> exists k :: 0 <= k < |ss| && ss[k] == r.value && |r.value| > 1000 &&
                                    forall j :: 0 <= j < k ==> |ss[j]| <= 1000
    ensures r.None? <==> forall k :: 0 <= k < |ss| ==> |ss[k]| <= 1000
  {
    if |ss| == 0 then None
    else if |ss[0]| > 1000 then Some(ss[0])
    else
      var r := FirstLong(ss[1..]);
      if r.Some? then
        assert forall k :: 1 <= k < |ss| ==> ss[k] == ss[1..][k - 1];
        r
      else r
  }

  lemma {:induction false} FirstLongAppend(a: seq<string>, b: seq<string>)
    ensures FirstLong(a + b) == if FirstLong(a).Some? then FirstLong(a) else FirstLong(b)
    decreases |a|
  {
    if |a| == 0 {
      assert a + b == b;
    } else {
      assert (a + b)[0] == a[0];
      assert (a + b)[1..] == a[1..] + b;
      FirstLongAppend(a[1..], b);
    }
  }

  /** `findBase64Data(obj)`: a string longer than 1000 characters is the
      answer; an array or object is searched key by key and the first hit
      returned; anything else gives null. */
  function FindBase64Data(v: JVal): (r: Option<string>)
    decreases v, 1
    ensures r.Some? ==> |r.value| > 1000
  {
    match v
    case JStr(s) => if |s| > 1000 then Some(s) else None
    case JArr(elems) => FindInList(elems)
    case JObj(entries) => FindInEntries(entries)
    case _ => None
  }

  function FindInList(elems: seq<JVal>): (r: Option<string>)
    decreases elems, 0
    ensures r.Some? ==> |r.value| > 1000
  {
    if |elems| == 0 then None
    else
      var result := FindBase64Data(elems[0]);
      if result.Some? then result else FindInList(elems[1..])
  }

  function FindInEntries(entries: seq<(string, JVal)>): (r: Option<string>)
    decreases entries, 0
    ensures r.Some? ==> |r.value| > 1000
  {
    if |entries| == 0 then None
    else
      var e := entries[0];
      assert e.1 < e;
      var result := FindBase64Data(e.1);
      if result.Some? then result else FindInEntries(entries[1..])
  }

  /** The search returns the first long string of the depth-first traversal. */
  lemma {:induction false} FindIsFirstLong(v: JVal)
    ensures FindBase64Data(v) == FirstLong(Leaves(v))
    decreases v, 1
  {
    match v
    case JStr(s) =>
    case JArr(elems) => FindInListIsFirstLong(elems);
    case JObj(entries) => FindInEntriesIsFirstLong(entries);
    case _ =>
  }

  lemma {:induction false} FindInListIsFirstLong(elems: seq<JVal>)
    ensures FindInList(elems) == FirstLong(LeavesOfList(elems))
    decreases elems, 0
  {
    if |elems| > 0 {
      FindIsFirstLong(elems[0]);
      FindInListIsFirstLong(elems[1..]);
      FirstLongAppend(Leaves(elems[0]), LeavesOfList(elems[1..]));
    }
  }

  lemma {:induction false} FindInEntriesIsFirstLong(entries: seq<(string, JVal)>)
    ensures FindInEntries(entries) == FirstLong(LeavesOfEntries(entries))
    decreases entries, 0
  {
    if |entries| > 0 {
      var e := entries[0];
      assert e.1 < e;
      FindIsFirstLong(e.1);
      FindInEntriesIsFirstLong(entries[1..]);
      FirstLongAppend(Leaves(e.1), LeavesOfEntries(entries[1..]));
    }
  }

  /** Any string found is longer than 1000 characters and is a string of
      the value; null comes back exactly when no string in the value is
      that long. */
  lemma FindBase64DataSpec(v: JVal)
    ensures FindBase64Data(v).Some? ==> |FindBase64Data(v).value| > 1000 && FindBase64Data(v).value in Leaves(v)
    ensures FindBase64Data(v).None? <==> forall s :: s in Leaves(v) ==> |s| <= 1000
  {
    FindIsFirstLong(v);
  }

  // --------------------------------------------------------- resolution

  /** `videoData.response?.candidates?.[0]?.content?.parts?.[0]?.inlineData?.data` */
  function InlineVideo(videoData: JVal): (r: Option<JVal>)
    ensures r.Some? ==> videoData.JObj?
  {
    var part := At(Get(Get(At(Get(Get(Some(videoData), "response"), "candidates"), 0), "content"), "parts"), 0);
    Get(Get(part, "inlineData"), "data")
  }

  /** `videoData.response?.videos?.[0]?.gcsUri` */
  function GcsUri(videoData: JVal): (r: Option<JVal>)
    ensures r.Some? ==> videoData.JObj?
  {
    Get(At(Get(Get(Some(videoData), "response"), "videos"), 0), "gcsUri")
  }

  /** Where the video comes from, first match wins: the inline bytes; else a
      Cloud Storage URI, which is refused; else the first long string. */
  function ResolveVideo(videoData: JVal): (r: Result<JVal, string>)
    ensures Truthy(InlineVideo(videoData)) ==> r == Ok(InlineVideo(videoData).value)
    ensures !Truthy(InlineVideo(videoData)) && Truthy(GcsUri(videoData)) ==> r == Err(GcsMessage)
    ensures !Truthy(InlineVideo(videoData)) && !Truthy(GcsUri(videoData)) ==>
              (r.Ok? <==> exists s :: s in Leaves(videoData) && |s| > 1000)
    ensures !Truthy(InlineVideo(videoData)) && !Truthy(GcsUri(videoData)) && r.Ok? ==>
              r.value.JStr? && Some(r.value.s) == FirstLong(Leaves(videoData))
    ensures r.Err? ==> r.error == GcsMessage || r.error == NoVideoMessage
  {
    FindIsFirstLong(videoData);
    FindBase64DataSpec(videoData);
    var inline := InlineVideo(videoData);
    if Truthy(inline) then Ok(inline.value)
    else if Truthy(GcsUri(videoData)) then Err(GcsMessage)
    else
      var found := FindBase64Data(videoData);
      if found.Some? then Ok(JStr(found.value)) else Err(NoVideoMessage)
  }

  // ------------------------------------------------------------ replies

  /** The route's reply once the poll loop has ended with `outcome`. */
  function OutcomeReply(outcome: PollOutcome): Reply {
    match outcome
    case TimedOut => Failed(Thrown(TimeoutMessage))
    case PollFailed(f) => Failed(f)
    case Done(videoData) =>
      match ResolveVideo(videoData)
      case Ok(video) => Generated(video)
      case Err(message) => Failed(Thrown(message))
  }

  /** The reply the route gives for the status replies `polls` once it
      holds an operation name: the first decisive reply decides, and with
      none the request times out. */
  function PolledReply(polls: seq<PollReply>): Reply {
    match FirstDecisive(polls, 0)
    case None => OutcomeReply(TimedOut)
    case Some(k) => OutcomeReply(DecisiveOutcome(polls[k]))
  }

  /** How many status requests the route makes for `polls`. */
  function PollCount(polls: seq<PollReply>): nat
    requires |polls| == MaxPolls
  {
    match FirstDecisive(polls, 0)
    case None => MaxPolls
    case Some(k) => k + 1
  }

  /** The reply to the submission carries an operation name that polling
      can use: a non-empty string. */
  predicate HasOperationName(submit: SubmitReply) {
    && submit.SubmitOk? && submit.operation != JNull
    && var name := Get(Some(submit.operation), "name");
       Truthy(name) && name.value.JStr?
  }

  /** Which reply the poll loop yields: the video is generated exactly when
      the first decisive status reply is a finished operation from which a
      video can be read; a thrown status request fails with its message;
      with no decisive reply the request times out. */
  lemma PolledReplyCases(polls: seq<PollReply>)
    requires |polls| == MaxPolls
    ensures PolledReply(polls).Generated? <==>
              var k := FirstDecisive(polls, 0);
              k.Some? && polls[k.value].PollOk? && polls[k.value].payload != JNull &&
              ResolveVideo(polls[k.value].payload).Ok?
    ensures PolledReply(polls).Generated? ==>
              ResolveVideo(polls[FirstDecisive(polls, 0).value].payload) == Ok(PolledReply(polls).editedVideo)
    ensures FirstDecisive(polls, 0).None? ==> PolledReply(polls) == Failed(Thrown(TimeoutMessage))
    ensures var k := FirstDecisive(polls, 0);
            k.Some? && polls[k.value].PollThrew? ==> PolledReply(polls) == Failed(Thrown(polls[k.value].message))
    ensures var k := FirstDecisive(polls, 0);
            k.Some? && polls[k.value].PollOk? && polls[k.value].payload != JNull &&
            ResolveVideo(polls[k.value].payload).Err? ==>
              PolledReply(polls) == Failed(Thrown(ResolveVideo(polls[k.value].payload).error))
  {
    match FirstDecisive(polls, 0)
    case None =>
    case Some(k) =>
      var reply := polls[k];
      assert PolledReply(polls) == OutcomeReply(DecisiveOutcome(reply));
      if reply.PollOk? && reply.payload != JNull {
        assert DecisiveOutcome(reply) == Done(reply.payload);
      } else {
        assert DecisiveOutcome(reply).PollFailed?;
      }
  }

  // -------------------------------------------------------------- POST

  /** `frames` passes the first check: present, an array, not empty. */
  predicate FramesGiven(frames: Option<JVal>) {
    frames.Some? && frames.value.JArr? && |frames.value.elems| > 0
  }

  /** Both GCP settings are set and non-empty. */
  predicate EnvReady(env: Env) {
    env.projectId.Some? && env.projectId.value != "" && env.accessToken.Some? && env.accessToken.value != ""
  }

  /** The request gets as far as the submission to the model. */
  predicate Submits(body: Option<JVal>, env: Env) {
    body.Some? && FramesGiven(Get(body, "frames")) && Truthy(Get(body, "prompt")) &&
    var frames := Get(body, "frames").value.elems;
    |frames| >= 2 && frames[0].JStr? && frames[|frames| - 1].JStr? && EnvReady(env)
  }

  /** `POST(request)`. `body` is `None` when the request body is not JSON.
      Returns the reply, what was submitted to the model (if anything), and
      how many status requests were made. */
  method Post(body: Option<JVal>, env: Env, submit: SubmitReply, polls: seq<PollReply>)
    returns (reply: Reply, submitted: Option<Submission>, attempts: nat)
    requires |polls| == MaxPolls
    ensures attempts <= MaxPolls
    ensures submitted.None? ==> attempts == 0
    ensures submitted.Some? <==> Submits(body, env)
    ensures (body.None? || body == Some(JNull)) ==> reply == Failed(RuntimeError) && submitted.None?
    ensures body.Some? && body.value != JNull && !FramesGiven(Get(body, "frames")) ==>
              reply == BadRequest("Missing or invalid frames array") && submitted.None?
    ensures body.Some? && FramesGiven(Get(body, "frames")) && !Truthy(Get(body, "prompt")) ==>
              reply == BadRequest("Missing prompt") && submitted.None?
    ensures body.Some? && FramesGiven(Get(body, "frames")) && Truthy(Get(body, "prompt")) &&
            |Get(body, "frames").value.elems| < 2 ==>
              reply == BadRequest("At least 2 frames (first and last) are required") && submitted.None?
    ensures body.Some? && FramesGiven(Get(body, "frames")) && Truthy(Get(body, "prompt")) &&
            |Get(body, "frames").value.elems| >= 2 ==>
              var frames := Get(body, "frames").value.elems;
              && (!frames[0].JStr? || !frames[|frames| - 1].JStr? ==> reply == Failed(RuntimeError))
              && (frames[0].JStr? && frames[|frames| - 1].JStr? && !EnvReady(env) ==>
                    reply == Failed(Thrown(CredentialsMessage)))
    ensures submitted.Some? ==>
              var frames := Get(body, "frames").value.elems;
              FramesGiven(Get(body, "frames")) && |frames| >= 2 && Truthy(Get(body, "prompt")) &&
              frames[0].JStr? && frames[|frames| - 1].JStr? &&
              submitted.value == Submission(FullPrompt(Get(body, "prompt").value, Get(body, "companyName")),
                                            frames[0].s, frames[|frames| - 1].s)
    ensures submitted.Some? && submit.SubmitNotOk? ==>
              reply == Failed(Thrown("Vertex AI error (" + NatToString(submit.status) + "): " + submit.text)) &&
              attempts == 0
    ensures submitted.Some? && submit.SubmitOk? && !Truthy(Get(Some(submit.operation), "name")) &&
            submit.operation != JNull ==>
              reply == Failed(Thrown("No operation name returned")) && attempts == 0
    ensures submitted.Some? && submit.SubmitThrew? ==> reply == Failed(Thrown(submit.message)) && attempts == 0
    ensures attempts > 0 <==> submitted.Some? && HasOperationName(submit)
    ensures submitted.Some? && HasOperationName(submit) ==> reply == PolledReply(polls) && attempts == PollCount(polls)
    ensures reply.Generated? ==>
              attempts > 0 && FirstDecisive(polls, 0) == Some(attempts - 1) &&
              polls[attempts - 1].PollOk? && ResolveVideo(polls[attempts - 1].payload) == Ok(reply.editedVideo)
  {
    submitted, attempts := None, 0;
    if body.None? || body.value == JNull {
      return Failed(RuntimeError), submitted, attempts;
    }
    var frames := Get(body, "frames");
    var prompt := Get(body, "prompt");
    var companyName := Get(body, "companyName");
    if !Truthy(frames) || !frames.value.JArr? || |frames.value.elems| == 0 {
      return BadRequest("Missing or invalid frames array"), submitted, attempts;
    }
    if !Truthy(prompt) {
      return BadRequest("Missing prompt"), submitted, attempts;
    }
    var elems := frames.value.elems;
    if |elems| < 2 {
      return BadRequest("At least 2 frames (first and last) are required"), submitted, attempts;
    }
    var firstFrame := elems[0];
    var lastFrame := elems[|elems| - 1];
    // `.length` and `.substring` are read from both frames
    if !firstFrame.JStr? || !lastFrame.JStr? {
      return Failed(RuntimeError), submitted, attempts;
    }
    if !EnvReady(env) {
      return Failed(Thrown(CredentialsMessage)), submitted, attempts;
    }
    var fullPrompt := FullPrompt(prompt.value, companyName);
    submitted := Some(Submission(fullPrompt, firstFrame.s, lastFrame.s));
    reply, attempts := Generate(submit, polls);
  }

  /** The part of `POST` after the request has been sent to the model: read
      the operation name from the reply, then poll the operation until it is
      done and pull the video out of it. */
  method Generate(submit: SubmitReply, polls: seq<PollReply>) returns (reply: Reply, attempts: nat)
    requires |polls| == MaxPolls
    ensures attempts <= MaxPolls
    ensures submit.SubmitThrew? ==> reply == Failed(Thrown(submit.message)) && attempts == 0
    ensures submit.SubmitNotOk? ==>
              reply == Failed(Thrown("Vertex AI error (" + NatToString(submit.status) + "): " + submit.text)) &&
              attempts == 0
    ensures submit.SubmitOk? && !Truthy(Get(Some(submit.operation), "name")) && submit.operation != JNull ==>
              reply == Failed(Thrown("No operation name returned")) && attempts == 0
    ensures submit.SubmitOk? && (submit.operation == JNull || (Truthy(Get(Some(submit.operation), "name")) &&
                                 !Get(Some(submit.operation), "name").value.JStr?)) ==>
              reply == Failed(RuntimeError) && attempts == 0
    ensures attempts > 0 <==> HasOperationName(submit)
    ensures HasOperationName(submit) ==> reply == PolledReply(polls) && attempts == PollCount(polls)
    ensures reply.Generated? ==>
              attempts > 0 && FirstDecisive(polls, 0) == Some(attempts - 1) &&
              polls[attempts - 1].PollOk? && ResolveVideo(polls[attempts - 1].payload) == Ok(reply.editedVideo)
  {
    attempts := 0;
    match submit {
      case SubmitThrew(m) =>
        return Failed(Thrown(m)), attempts;
      case SubmitNotOk(status, text) =>
        return Failed(Thrown("Vertex AI error (" + NatToString(status) + "): " + text)), attempts;
      case SubmitOk(operationData) =>
        if operationData == JNull {
          return Failed(RuntimeError), attempts;
        }
        var operationName := Get(Some(operationData), "name");
        if !Truthy(operationName) {
          return Failed(Thrown("No operation name returned")), attempts;
        }
        // `operationName.split('/')` throws before the first status request
        if !operationName.value.JStr? {
          return Failed(RuntimeError), attempts;
        }
    }
    var outcome;
    outcome, attempts := PollUntilDone(polls);
    match outcome {
      case TimedOut =>
        reply := Failed(Thrown(TimeoutMessage));
      case PollFailed(f) =>
        reply := Failed(f);
      case Done(videoData) =>
        var video := ResolveVideo(videoData);
        if video.Err? {
          reply := Failed(Thrown(video.error));
        } else {
          reply := Generated(video.value);
        }
    }
  }

  /** Only the first and the last frame reach the model: two requests whose
      frame arrays agree at both ends submit the same thing. */
  method MiddleFramesIgnored(body1: JVal, body2: JVal, env: Env, submit: SubmitReply, polls: seq<PollReply>)
    returns (s1: Option<Submission>, s2: Option<Submission>)
    requires |polls| == MaxPolls
    requires body1.JObj? && body2.JObj?
    requires Get(Some(body1), "prompt") == Get(Some(body2), "prompt")
    requires Get(Some(body1), "companyName") == Get(Some(body2), "companyName")
    requires FramesGiven(Get(Some(body1), "frames")) && FramesGiven(Get(Some(body2), "frames"))
    requires var f1, f2 := Get(Some(body1), "frames").value.elems, Get(Some(body2), "frames").value.elems;
             |f1| >= 2 && |f2| >= 2 && f1[0] == f2[0] && f1[|f1| - 1] == f2[|f2| - 1]
    ensures s1 == s2
  {
    var r1, r2, a1, a2;
    r1, s1, a1 := Post(Some(body1), env, submit, polls);
    r2, s2, a2 := Post(Some(body2), env, submit, polls);
  }
}
