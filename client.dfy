/** The generative-model client: request assembly and the bounded retry
    loops of `analyze_section` and `generate_image`. The service is an
    oracle (`service(k)` is what attempt `k` gets back); the requests it
    receives and the sleeps taken are recorded in ghost logs. */
module Client {

  import opened Wrappers
  import opened Text

  const MODEL: String := "gemini-3-flash-preview"
  const IMAGE_MODEL: String := "gemini-3-pro-image-preview"
  const MAX_RETRIES: nat := 3
  /** Seconds slept after every answered call. */
  const BASE_DELAY: nat := 5
  /** Seconds of the retry back-off. */
  const RETRY_BACKOFF: nat := 15

  /** `str(RuntimeError(...))` once every attempt was throttled. */
  const EXHAUSTED: String := "Máximo de tentativas (3) excedido"

  /** One item of a request's `contents`. */
  datatype Part =
    | PdfPart(file: String)
    | ImagePart(path: String)
    | TextPart(text: String)

  /** The generation settings a request carries. */
  datatype Config = Thinking(level: String) | TextAndImage

  datatype Request = Request(model: String, contents: seq<Part>, config: Config)

  /** What a text call gets back: a response whose `text` may be None, or an exception's message. */
  datatype Reply = Answer(text: Option<String>) | Failure(message: String)

  /** The inline data of a response part. */
  datatype InlineData = InlineData(mimeType: String, data: seq<bv8>)

  datatype ResponsePart = ResponsePart(inlineData: Option<InlineData>)

  /** What an image attempt meets: the parts of the first candidate, with the
      message of the exception that creating the directory or writing the
      image file would raise, if it would; or an exception's message (raised
      by the call or while reading the response). */
  datatype ImageReply = Parts(parts: seq<ResponsePart>, writeError: Option<String>) | ImageFailure(message: String)

  /** A rate-limit error: its message names HTTP 429 or RESOURCE_EXHAUSTED. */
  predicate IsThrottle(message: String) {
    Contains(message, "429") || Contains(message, "RESOURCE_EXHAUSTED")
  }

  // ------------------------------------------------------------------
  // Request contents
  // ------------------------------------------------------------------

  /** The prompt text: system prompt, a rule, then the section prompt. */
  function PromptText(system: String, section: String): String {
    system + "\n\n---\n\n" + section
  }

  /** The image paths that exist, in order, as image parts. */
  function ExistingImages(paths: seq<String>, onDisk: String -> bool): (r: seq<Part>)
    ensures |r| <= |paths|
    ensures forall x :: x in r ==> x.ImagePart? && x.path in paths && onDisk(x.path)
  {
    if paths == [] then []
    else
      var last := paths[|paths| - 1];
      ExistingImages(paths[..|paths| - 1], onDisk) + (if onDisk(last) then [ImagePart(last)] else [])
  }

  /** Every existing path is attached. */
  lemma {:induction false} ExistingImagesComplete(paths: seq<String>, onDisk: String -> bool, p: String)
    requires p in paths && onDisk(p)
    ensures ImagePart(p) in ExistingImages(paths, onDisk)
  {
    var last := paths[|paths| - 1];
    if p != last {
      assert p in paths[..|paths| - 1] by {
        var k :| 0 <= k < |paths| && paths[k] == p;
        assert k < |paths| - 1;
        assert paths[..|paths| - 1][k] == p;
      }
      ExistingImagesComplete(paths[..|paths| - 1], onDisk, p);
    }
  }

  /** The contents of an analysis request. */
  function Contents(includePdf: bool, pdfFile: Option<String>, paths: seq<String>, onDisk: String -> bool,
                    system: String, section: String): seq<Part>
  {
    (if includePdf && pdfFile.Some? then [PdfPart(pdfFile.value)] else []) +
    ExistingImages(paths, onDisk) + [TextPart(PromptText(system, section))]
  }

  /** The PDF comes first, and only when asked for and uploaded; the prompt
      text comes last and only there; everything between is an image part. */
  lemma ContentsOrder(includePdf: bool, pdfFile: Option<String>, paths: seq<String>, onDisk: String -> bool,
                      system: String, section: String)
    ensures var c := Contents(includePdf, pdfFile, paths, onDisk, system, section);
            |c| >= 1 && c[|c| - 1] == TextPart(PromptText(system, section)) &&
            (c[0].PdfPart? <==> includePdf && pdfFile.Some?) &&
            (forall i :: 0 <= i < |c| - 1 ==> !c[i].TextPart?) &&
            (forall i :: 0 < i < |c| - 1 ==> c[i].ImagePart?)
  {
    var c := Contents(includePdf, pdfFile, paths, onDisk, system, section);
    var pdf := if includePdf && pdfFile.Some? then [PdfPart(pdfFile.value)] else [];
    var images := ExistingImages(paths, onDisk);
    assert c == pdf + images + [TextPart(PromptText(system, section))];
    if pdf == [] && images != [] {
      assert c[0] == images[0] && images[0] in images;
    }
    forall i | 0 <= i < |c| - 1
      ensures !c[i].TextPart? && (0 < i ==> c[i].ImagePart?)
    {
      if i >= |pdf| {
        assert c[i] == images[i - |pdf|];
        assert c[i] in images;
      }
    }
  }

  // ------------------------------------------------------------------
  // analyze_section
  // ------------------------------------------------------------------

  /** The outcome of a retry loop: its result, how many calls it made and
      the sleeps it took, in order. */
  datatype Run<R> = Run(result: R, calls: nat, sleeps: seq<nat>)

  /** The wait before retrying after a failure on attempt `k`: longer and
      longer for rate limits, `RETRY_BACKOFF` for anything else. */
  function Wait(message: String, k: nat): nat {
    if IsThrottle(message) then RETRY_BACKOFF * (k + 1) else RETRY_BACKOFF
  }

  /** The text loop from attempt `k` on. */
  function AnalyzeFrom(service: nat -> Reply, k: nat): Run<Result<String>>
    requires k <= MAX_RETRIES
    decreases MAX_RETRIES - k
  {
    if k == MAX_RETRIES then Run(Err(EXHAUSTED), 0, [])
    else match service(k)
      case Answer(text) =>
        Run(Ok(if text.Some? then text.value else ""), 1, [BASE_DELAY])
      case Failure(message) =>
        if !IsThrottle(message) && k == MAX_RETRIES - 1 then Run(Err(message), 1, [])
        else
          var rest := AnalyzeFrom(service, k + 1);
          Run(rest.result, 1 + rest.calls, [Wait(message, k)] + rest.sleeps)
  }

  function Analyze(service: nat -> Reply): Run<Result<String>> {
    AnalyzeFrom(service, 0)
  }

  /** The first attempt that got an answer, if any of the three did. */
  function FirstAnswer(service: nat -> Reply, k: nat): (r: Option<nat>)
    requires k <= MAX_RETRIES
    ensures r.Some? ==> k <= r.value < MAX_RETRIES && service(r.value).Answer? &&
                        forall j :: k <= j < r.value ==> service(j).Failure?
    ensures r.None? ==> forall j :: k <= j < MAX_RETRIES ==> service(j).Failure?
    decreases MAX_RETRIES - k
  {
    if k == MAX_RETRIES then None
    else if service(k).Answer? then Some(k)
    else FirstAnswer(service, k + 1)
  }

  /** The call succeeds exactly when one of the three attempts is answered,
      and then returns the first answer's text, or "" when it has none; it
      makes one call per attempt up to that one, and sleeps `BASE_DELAY`
      once, last. */
  lemma {:induction false} AnalyzeAnswered(service: nat -> Reply, k: nat)
    requires k <= MAX_RETRIES
    ensures var run := AnalyzeFrom(service, k);
            var first := FirstAnswer(service, k);
            (run.result.Ok? <==> first.Some?) &&
            (first.Some? ==> run.result.value == (if service(first.value).text.Some? then service(first.value).text.value else "") &&
                             run.calls == first.value - k + 1 &&
                             |run.sleeps| == run.calls && run.sleeps[|run.sleeps| - 1] == BASE_DELAY)
    decreases MAX_RETRIES - k
  {
    if k < MAX_RETRIES && service(k).Failure? {
      AnalyzeAnswered(service, k + 1);
    }
  }

  /** An error is either the exhaustion error, after a throttled last
      attempt, or the last attempt's own error re-raised; either way all
      three attempts failed and three calls were made. */
  lemma {:induction false} AnalyzeErrors(service: nat -> Reply, k: nat)
    requires k <= MAX_RETRIES
    ensures var run := AnalyzeFrom(service, k);
            run.result.Err? ==>
              run.calls == MAX_RETRIES - k &&
              (forall j :: k <= j < MAX_RETRIES ==> service(j).Failure?) &&
              (k < MAX_RETRIES ==>
                 var last := service(MAX_RETRIES - 1).message;
                 run.result.error == (if IsThrottle(last) then EXHAUSTED else last))
    decreases MAX_RETRIES - k
  {
    if k < MAX_RETRIES && service(k).Failure? && (IsThrottle(service(k).message) || k < MAX_RETRIES - 1) {
      AnalyzeErrors(service, k + 1);
    }
  }

  /** Every sleep is a back-off of at least `RETRY_BACKOFF` seconds, except
      the single `BASE_DELAY` after an answer, which is the last one. */
  lemma {:induction false} AnalyzeSleeps(service: nat -> Reply, k: nat)
    requires k <= MAX_RETRIES
    ensures var run := AnalyzeFrom(service, k);
            forall i :: 0 <= i < |run.sleeps| ==>
              if run.result.Ok? && i == |run.sleeps| - 1 then run.sleeps[i] == BASE_DELAY
              else run.sleeps[i] >= RETRY_BACKOFF
    decreases MAX_RETRIES - k
  {
    if k < MAX_RETRIES && service(k).Failure? && (IsThrottle(service(k).message) || k < MAX_RETRIES - 1) {
      AnalyzeSleeps(service, k + 1);
      var rest := AnalyzeFrom(service, k + 1);
      var run := AnalyzeFrom(service, k);
      assert run.sleeps == [Wait(service(k).message, k)] + rest.sleeps;
      forall i | 1 <= i < |run.sleeps|
        ensures run.sleeps[i] == rest.sleeps[i - 1]
      {
      }
    }
  }

  /** No invocation makes more than three calls, and every one makes at least one. */
  lemma {:induction false} AnalyzeCallsBound(service: nat -> Reply, k: nat)
    requires k <= MAX_RETRIES
    ensures var run := AnalyzeFrom(service, k);
            run.calls <= MAX_RETRIES - k && (k < MAX_RETRIES ==> run.calls >= 1)
    decreases MAX_RETRIES - k
  {
    if k < MAX_RETRIES && service(k).Failure? && (IsThrottle(service(k).message) || k < MAX_RETRIES - 1) {
      AnalyzeCallsBound(service, k + 1);
    }
  }

  /** Three throttled attempts wait 15, 30 and 45 seconds and then raise the exhaustion error. */
  lemma AnalyzeAllThrottled(service: nat -> Reply)
    requires forall j :: 0 <= j < MAX_RETRIES ==> service(j).Failure? && IsThrottle(service(j).message)
    ensures Analyze(service) == Run(Err(EXHAUSTED), 3, [15, 30, 45])
  {
    assert service(0).Failure? && IsThrottle(service(0).message);
    assert service(1).Failure? && IsThrottle(service(1).message);
    assert service(2).Failure? && IsThrottle(service(2).message);
    assert AnalyzeFrom(service, 2) == Run(Err(EXHAUSTED), 1, [45]);
  }

  /** A non-throttling error before the last attempt waits `RETRY_BACKOFF` and tries again. */
  lemma AnalyzeRetriesError(service: nat -> Reply, k: nat)
    requires k < MAX_RETRIES - 1
    requires service(k).Failure? && !IsThrottle(service(k).message)
    ensures var rest := AnalyzeFrom(service, k + 1);
            AnalyzeFrom(service, k) == Run(rest.result, 1 + rest.calls, [RETRY_BACKOFF] + rest.sleeps)
  {
  }

  // ------------------------------------------------------------------
  // generate_image
  // ------------------------------------------------------------------

  /** The data of the first part holding an image, if any. */
  function FirstImage(parts: seq<ResponsePart>): (r: Option<seq<bv8>>)
    ensures r.Some? <==> exists i :: 0 <= i < |parts| && IsImage(parts[i])
  {
    if parts == [] then None
    else if IsImage(parts[0]) then Some(parts[0].inlineData.value.data)
    else
      var r := FirstImage(parts[1..]);
      assert forall i :: 1 <= i < |parts| ==> parts[i] == parts[1..][i - 1];
      r
  }

  predicate IsImage(p: ResponsePart) {
    p.inlineData.Some? && "image/" <= p.inlineData.value.mimeType
  }

  /** The image loop from attempt `k` on; its result is the image data written, if any. */
  function ImageFrom(service: nat -> ImageReply, k: nat): Run<Option<seq<bv8>>>
    requires k <= MAX_RETRIES
    decreases MAX_RETRIES - k
  {
    if k == MAX_RETRIES then Run(None, 0, [])
    else match AttemptError(service(k))
      case None =>
        Run(FirstImage(service(k).parts), 1, [BASE_DELAY])
      case Some(message) =>
        if !IsThrottle(message) && k == MAX_RETRIES - 1 then Run(None, 1, [])
        else
          var rest := ImageFrom(service, k + 1);
          Run(rest.result, 1 + rest.calls, [Wait(message, k)] + rest.sleeps)
  }

  /** The exception an image attempt ends in, if any: the call's own, or
      the write's when the response holds an image. */
  function AttemptError(reply: ImageReply): Option<String> {
    match reply
    case ImageFailure(message) => Some(message)
    case Parts(parts, writeError) => if FirstImage(parts).Some? then writeError else None
  }

  /** A response whose image cannot be written is retried like a failed
      call: after a back-off, or with false on the last attempt. */
  lemma ImageWriteFailureRetried(service: nat -> ImageReply, k: nat)
    requires k < MAX_RETRIES && service(k).Parts?
    requires FirstImage(service(k).parts).Some? && service(k).writeError.Some?
    ensures var message := service(k).writeError.value;
            ImageFrom(service, k) ==
              if !IsThrottle(message) && k == MAX_RETRIES - 1 then Run(None, 1, [])
              else
                var rest := ImageFrom(service, k + 1);
                Run(rest.result, 1 + rest.calls, [Wait(message, k)] + rest.sleeps)
  {
  }

  /** The first attempt that ended without an exception: a response without
      an image, or one whose image was written. */
  function FirstResponse(service: nat -> ImageReply, k: nat): (r: Option<nat>)
    requires k <= MAX_RETRIES
    ensures r.Some? ==> k <= r.value < MAX_RETRIES && service(r.value).Parts? &&
                        (FirstImage(service(r.value).parts).None? || service(r.value).writeError.None?) &&
                        forall j :: k <= j < r.value ==> AttemptError(service(j)).Some?
    ensures r.None? ==> forall j :: k <= j < MAX_RETRIES ==> AttemptError(service(j)).Some?
    decreases MAX_RETRIES - k
  {
    if k == MAX_RETRIES then None
    else if AttemptError(service(k)).None? then Some(k)
    else FirstResponse(service, k + 1)
  }

  /** An image is saved exactly when the first attempt to end without an
      exception got one, and it is that response's first image; a response
      without an image ends the loop at once, with no retry, while one whose
      image could not be written is retried. */
  lemma {:induction false} ImageSaved(service: nat -> ImageReply, k: nat)
    requires k <= MAX_RETRIES
    ensures var run := ImageFrom(service, k);
            var first := FirstResponse(service, k);
            (first.Some? ==> run.result == FirstImage(service(first.value).parts) &&
                             run.calls == first.value - k + 1 &&
                             run.sleeps[|run.sleeps| - 1] == BASE_DELAY) &&
            (first.None? ==> run.result == None)
    decreases MAX_RETRIES - k
  {
    if k < MAX_RETRIES && AttemptError(service(k)).Some? {
      ImageSaved(service, k + 1);
    }
  }

  /** No invocation makes more than three calls. */
  lemma {:induction false} ImageCallsBound(service: nat -> ImageReply, k: nat)
    requires k <= MAX_RETRIES
    ensures ImageFrom(service, k).calls <= MAX_RETRIES - k
    decreases MAX_RETRIES - k
  {
    if k < MAX_RETRIES && AttemptError(service(k)).Some? &&
       (IsThrottle(AttemptError(service(k)).value) || k < MAX_RETRIES - 1) {
      ImageCallsBound(service, k + 1);
    }
  }

  // ------------------------------------------------------------------
  // The client object
  // ------------------------------------------------------------------

  /** `n` copies of `x`. */
  function Repeat<T>(x: T, n: nat): (r: seq<T>)
    ensures |r| == n && forall i :: 0 <= i < n ==> r[i] == x
  {
    if n == 0 then [] else Repeat(x, n - 1) + [x]
  }

  lemma RepeatSnoc<T>(pre: seq<T>, x: T, n: nat)
    ensures (pre + Repeat(x, n)) + [x] == pre + Repeat(x, n + 1)
  {
    AppendAssoc(pre, Repeat(x, n), [x]);
  }

  class GeminiAuditClient {
    /** The uploaded PDF, once `upload_pdf` has run. */
    var pdfFile: Option<String>
    /** Every request sent to the service, in order. */
    ghost var requests: seq<Request>
    /** Every sleep, in seconds, in order. */
    ghost var sleeps: seq<nat>
    /** The files written, by path. */
    ghost var files: map<String, seq<bv8>>

    constructor()
      ensures pdfFile == None && requests == [] && sleeps == [] && files == map[]
    {
      pdfFile := None;
      requests := [];
      sleeps := [];
      files := map[];
    }

    /** `upload_pdf`: the uploaded file becomes part of later requests that ask for it. */
    method UploadPdf(uploaded: String)
      modifies this
      ensures pdfFile == Some(uploaded)
      ensures requests == old(requests) && sleeps == old(sleeps) && files == old(files)
    {
      pdfFile := Some(uploaded);
    }

    /** Assembles the contents of an analysis request. */
    method BuildContents(includePdf: bool, paths: seq<String>, onDisk: String -> bool,
                         system: String, section: String) returns (contents: seq<Part>)
      ensures contents == Contents(includePdf, pdfFile, paths, onDisk, system, section)
    {
      contents := [];
      if includePdf && pdfFile.Some? {
        contents := contents + [PdfPart(pdfFile.value)];
      }
      ghost var pdf := contents;
      for i := 0 to |paths|
        invariant contents == pdf + ExistingImages(paths[..i], onDisk)
      {
        assert paths[..i + 1][..i] == paths[..i];
        if onDisk(paths[i]) {
          contents := contents + [ImagePart(paths[i])];
        }
      }
      assert paths[..|paths|] == paths;
      contents := contents + [TextPart(PromptText(system, section))];
    }

    /** `analyze_section`: the answer's text, or the error it raises. */
    method AnalyzeSection(system: String, section: String, paths: seq<String>, onDisk: String -> bool,
                          thinkingLevel: String, includePdf: bool, service: nat -> Reply)
      returns (r: Result<String>)
      modifies this
      ensures r == Analyze(service).result
      ensures requests == old(requests) + Repeat(Request(MODEL, Contents(includePdf, pdfFile, paths, onDisk, system, section),
                                                         Thinking(thinkingLevel)), Analyze(service).calls)
      ensures sleeps == old(sleeps) + Analyze(service).sleeps
      ensures pdfFile == old(pdfFile) && files == old(files)
    {
      var contents := BuildContents(includePdf, paths, onDisk, system, section);
      var request := Request(MODEL, contents, Thinking(thinkingLevel));
      ghost var requests0 := requests;
      ghost var sleeps0 := sleeps;
      ghost var waited: seq<nat> := [];
      var attempt := 0;
      ghost var run := Analyze(service);
      while attempt < MAX_RETRIES
        invariant attempt <= MAX_RETRIES
        invariant requests == requests0 + Repeat(request, attempt)
        invariant sleeps == sleeps0 + waited
        invariant run.result == AnalyzeFrom(service, attempt).result
        invariant run.calls == attempt + AnalyzeFrom(service, attempt).calls
        invariant run.sleeps == waited + AnalyzeFrom(service, attempt).sleeps
        invariant pdfFile == old(pdfFile) && files == old(files)
        decreases MAX_RETRIES - attempt
      {
        ghost var here := AnalyzeFrom(service, attempt);
        requests := requests + [request];
        RepeatSnoc(requests0, request, attempt);
        var reply := service(attempt);
        if reply.Answer? {
          sleeps := sleeps + [BASE_DELAY];
          AppendAssoc(sleeps0, waited, [BASE_DELAY]);
          assert here == Run(Ok(if reply.text.Some? then reply.text.value else ""), 1, [BASE_DELAY]);
          return Ok(if reply.text.Some? then reply.text.value else "");
        }
        var wait := Wait(reply.message, attempt);
        if !IsThrottle(reply.message) && attempt == MAX_RETRIES - 1 {
          assert here == Run(Err(reply.message), 1, []);
          assert waited + [] == waited;
          return Err(reply.message);
        }
        ghost var rest := AnalyzeFrom(service, attempt + 1);
        assert here == Run(rest.result, 1 + rest.calls, [wait] + rest.sleeps);
        sleeps := sleeps + [wait];
        AppendAssoc(sleeps0, waited, [wait]);
        AppendAssoc(waited, [wait], rest.sleeps);
        waited := waited + [wait];
        attempt := attempt + 1;
      }
      assert waited + [] == waited;
      return Err(EXHAUSTED);
    }

    /** The image-part scan of `generate_image`: the first part holding an image. */
    static method ScanParts(parts: seq<ResponsePart>) returns (found: Option<seq<bv8>>)
      ensures found == FirstImage(parts)
    {
      var i := 0;
      while i < |parts|
        invariant i <= |parts|
        invariant FirstImage(parts) == FirstImage(parts[i..])
      {
        if IsImage(parts[i]) {
          return Some(parts[i].inlineData.value.data);
        }
        assert parts[i..][1..] == parts[i + 1..];
        i := i + 1;
      }
      return None;
    }

    /** A response arrived: its first image, if any, is written to
        `outputPath`, unless the write raises `writeError`; when nothing was
        raised the client sleeps `BASE_DELAY`, image or not. */
    method SaveFirstImage(parts: seq<ResponsePart>, outputPath: String, writeError: Option<String>)
      returns (saved: bool, raised: Option<String>)
      modifies this
      ensures raised == (if FirstImage(parts).Some? then writeError else None)
      ensures saved == (FirstImage(parts).Some? && raised.None?)
      ensures files == (if saved then old(files)[outputPath := FirstImage(parts).value] else old(files))
      ensures sleeps == old(sleeps) + (if raised.None? then [BASE_DELAY] else [])
      ensures requests == old(requests) && pdfFile == old(pdfFile)
    {
      var image := ScanParts(parts);
      if image.Some? && writeError.Some? {
        return false, writeError;
      }
      if image.Some? {
        files := files[outputPath := image.value];
      }
      sleeps := sleeps + [BASE_DELAY];
      saved, raised := image.Some?, None;
    }

    /** `generate_image`: never raises; true exactly when an image was written to `outputPath`. */
    method GenerateImage(prompt: String, outputPath: String, service: nat -> ImageReply) returns (saved: bool)
      modifies this
      ensures saved == ImageFrom(service, 0).result.Some?
      ensures files == (if saved then old(files)[outputPath := ImageFrom(service, 0).result.value] else old(files))
      ensures requests == old(requests) + Repeat(Request(IMAGE_MODEL, [TextPart(prompt)], TextAndImage), ImageFrom(service, 0).calls)
      ensures sleeps == old(sleeps) + ImageFrom(service, 0).sleeps
      ensures pdfFile == old(pdfFile)
    {
      var request := Request(IMAGE_MODEL, [TextPart(prompt)], TextAndImage);
      ghost var requests0 := requests;
      ghost var sleeps0 := sleeps;
      ghost var waited: seq<nat> := [];
      var attempt := 0;
      ghost var run := ImageFrom(service, 0);
      while attempt < MAX_RETRIES
        invariant attempt <= MAX_RETRIES
        invariant requests == requests0 + Repeat(request, attempt)
        invariant sleeps == sleeps0 + waited
        invariant run.result == ImageFrom(service, attempt).result
        invariant run.calls == attempt + ImageFrom(service, attempt).calls
        invariant run.sleeps == waited + ImageFrom(service, attempt).sleeps
        invariant pdfFile == old(pdfFile) && files == old(files)
        decreases MAX_RETRIES - attempt
      {
        ghost var here := ImageFrom(service, attempt);
        requests := requests + [request];
        RepeatSnoc(requests0, request, attempt);
        var reply := service(attempt);
        var message;
        if reply.Parts? {
          var raised;
          saved, raised := SaveFirstImage(reply.parts, outputPath, reply.writeError);
          if raised.None? {
            assert here == Run(FirstImage(reply.parts), 1, [BASE_DELAY]);
            AppendAssoc(sleeps0, waited, [BASE_DELAY]);
            return;
          }
          message := raised.value;
        } else {
          message := reply.message;
        }
        assert AttemptError(reply) == Some(message);
        var wait := Wait(message, attempt);
        if !IsThrottle(message) && attempt == MAX_RETRIES - 1 {
          assert here == Run(None, 1, []);
          assert waited + [] == waited;
          return false;
        }
        ghost var rest := ImageFrom(service, attempt + 1);
        assert here == Run(rest.result, 1 + rest.calls, [wait] + rest.sleeps);
        sleeps := sleeps + [wait];
        AppendAssoc(sleeps0, waited, [wait]);
        AppendAssoc(waited, [wait], rest.sleeps);
        waited := waited + [wait];
        attempt := attempt + 1;
      }
      assert waited + [] == waited;
      return false;
    }
  }
}
