/** The solo-comparison client, without the network: reading the MIME type
    out of a data URL, copying decoded characters into a byte array, the
    error message of a failed request, the fusion slot table, the morph
    fallback, and the progress reports and result mapping of a comparison.
    Server replies are inputs. */
module MatchClient {
  import opened Common
  import opened Text
  import opened Domain
  import Constants

  // ------------------------------------------------------------ mime type

  /** The line terminators JavaScript's `.` does not match. */
  predicate IsLineTerminator(c: char) {
    c == '\n' || c == '\r' || c == '\U{2028}' || c == '\U{2029}'
  }

  /** The lazy group `(.*?);` at the start of `t`: the text before the first
      `;`, provided no line terminator comes before it. */
  function LazyUpToSemicolon(t: string): (r: Option<string>)
    ensures r.Some? ==> |r.value| < |t| && t[..|r.value|] == r.value && t[|r.value|] == ';'
                        && ';' !in r.value
                        && forall k :: 0 <= k < |r.value| ==> !IsLineTerminator(r.value[k])
    ensures r.None? ==> forall k :: 0 <= k < |t| && t[k] == ';' ==>
                          exists j :: 0 <= j < k && IsLineTerminator(t[j])
  {
    if t == [] then None
    else if t[0] == ';' then Some([])
    else if IsLineTerminator(t[0]) then None
    else match LazyUpToSemicolon(t[1..])
         case None =>
           assert forall k :: 1 <= k < |t| && t[k] == ';' ==> t[1..][k - 1] == ';';
           None
         case Some(m) => Some([t[0]] + m)
  }

  /** `header.match(/:(.*?);/)?.[1]`: the group of the leftmost match. */
  function MimeCapture(h: string): (r: Option<string>)
    decreases |h|
  {
    if h == [] then None
    else if h[0] == ':' && LazyUpToSemicolon(h[1..]).Some? then LazyUpToSemicolon(h[1..])
    else MimeCapture(h[1..])
  }

  /** `… || 'image/jpeg'`: an empty or missing group gives the default. */
  function MimeOf(h: string): (r: string)
    ensures r != ""
    ensures MimeCapture(h).None? || MimeCapture(h) == Some("") ==> r == "image/jpeg"
  {
    OrElse(MimeCapture(h), "image/jpeg")
  }

  /** For a header `prefix:type;rest` with no colon in `prefix` and a
      non-empty `type` free of `;` and line breaks, the type is exactly the
      text between the first `:` and the next `;`. */
  lemma {:induction false} MimeOfHeader(prefix: string, mime: string, rest: string)
    requires ':' !in prefix && ';' !in mime && mime != ""
    requires forall k :: 0 <= k < |mime| ==> !IsLineTerminator(mime[k])
    ensures MimeOf(prefix + ":" + mime + ";" + rest) == mime
  {
    MimeCaptureAfterPrefix(prefix, mime, rest);
  }

  lemma {:induction false} MimeCaptureAfterPrefix(prefix: string, mime: string, rest: string)
    requires ':' !in prefix && ';' !in mime
    requires forall k :: 0 <= k < |mime| ==> !IsLineTerminator(mime[k])
    ensures MimeCapture(prefix + ":" + mime + ";" + rest) == Some(mime)
    decreases |prefix|
  {
    var h := prefix + ":" + mime + ";" + rest;
    if prefix == [] {
      assert h[0] == ':';
      assert h[1..] == mime + ";" + rest;
      LazyOfGroup(mime, rest);
    } else {
      assert h[0] == prefix[0];
      assert h[1..] == prefix[1..] + ":" + mime + ";" + rest;
      MimeCaptureAfterPrefix(prefix[1..], mime, rest);
    }
  }

  lemma {:induction false} LazyOfGroup(mime: string, rest: string)
    requires ';' !in mime
    requires forall k :: 0 <= k < |mime| ==> !IsLineTerminator(mime[k])
    ensures LazyUpToSemicolon(mime + ";" + rest) == Some(mime)
    decreases |mime|
  {
    var t := mime + ";" + rest;
    if mime == [] {
      assert t[0] == ';';
    } else {
      assert t[0] == mime[0];
      assert t[1..] == mime[1..] + ";" + rest;
      LazyOfGroup(mime[1..], rest);
      assert [mime[0]] + mime[1..] == mime;
    }
  }

  /** The two headers the client produces. */
  lemma MimeExamples()
    ensures MimeOf("data:image/png;base64") == "image/png"
    ensures MimeOf("data:;base64") == "image/jpeg"
  {
    MimeOfHeader("data", "image/png", "base64");
    assert "data:image/png;base64" == "data" + ":" + "image/png" + ";" + "base64";
    MimeCaptureAfterPrefix("data", "", "base64");
    assert "data:;base64" == "data" + ":" + "" + ";" + "base64";
  }

  /** `dataUrl.split(',')` destructured: the header and the payload (the
      payload is missing when there is no comma). */
  function SplitDataUrl(s: string): (r: (string, Option<string>))
    ensures r.0 == FirstField(s)
    ensures r.1.Some? <==> ',' in s
    ensures ',' in s ==> r.1 == Some(SecondField(s))
    ensures ',' !in s ==> r.0 == s
  {
    if ',' in s then (FirstField(s), Some(SecondField(s))) else (s, None)
  }

  // ------------------------------------------------------------- byte copy

  /** `Uint8Array` element assignment keeps the code modulo 256. */
  function ByteOf(c: char): bv8 {
    ((c as int) % 256) as bv8
  }

  /** The loop of `dataUrlToBlob`: one byte per decoded character. */
  method CopyBytes(decoded: string) returns (arr: array<bv8>)
    ensures fresh(arr) && arr.Length == |decoded|
    ensures forall i :: 0 <= i < |decoded| ==> arr[i] == ByteOf(decoded[i])
  {
    arr := new bv8[|decoded|];
    var i := 0;
    while i < |decoded|
      invariant 0 <= i <= |decoded|
      invariant forall k :: 0 <= k < i ==> arr[k] == ByteOf(decoded[k])
    {
      arr[i] := ByteOf(decoded[i]);
      i := i + 1;
    }
  }

  /** `atob` yields characters below 256, whose byte is their code. */
  lemma ByteOfLatin1(c: char)
    requires (c as int) < 256
    ensures ByteOf(c) as int == c as int
  {
  }

  // -------------------------------------------------------------- requests

  /** A server reply to a form post: a parsed body, an error status with the
      `detail` of its body (none when the body is missing, unreadable or has
      no detail), or a request that failed with a message. */
  datatype Reply<T> = Succeeded(body: T) | Rejected(status: int, detail: Option<string>) | Failed(message: string)

  /** The message `postForm` throws for an error status. */
  function ErrorMessage(path: string, status: int, detail: Option<string>): (msg: string)
    ensures Truthy(detail) ==> msg == detail.value
    ensures !Truthy(detail) ==> StartsWith(msg, path + " failed: ")
                                && msg[|path + " failed: "|..] == IntToString(status)
  {
    if Truthy(detail) then detail.value
    else
      var head := path + " failed: ";
      var msg := head + IntToString(status);
      assert msg[..|head|] == head;
      msg
  }

  /** `postForm`: the body, or the error it throws. */
  function PostForm<T>(path: string, reply: Reply<T>): (r: Result<T, string>)
    ensures reply.Succeeded? <==> r.Ok?
    ensures reply.Succeeded? ==> r.value == reply.body
    ensures reply.Rejected? ==> r == Err(ErrorMessage(path, reply.status, reply.detail))
    ensures reply.Failed? ==> r == Err(reply.message)
  {
    match reply
    case Succeeded(b) => Ok(b)
    case Rejected(status, detail) => Err(ErrorMessage(path, status, detail))
    case Failed(m) => Err(m)
  }

  // ---------------------------------------------------------------- morph

  /** The slot for the feature at position `i`: the two people alternate. */
  function SlotFor(i: nat): string {
    if i % 2 == 0 then "PersonA" else "PersonB"
  }

  /** The `forEach` that fills `fusionSlots`: every compared feature gets a
      slot, alternating from `PersonA`, and no other key is present. */
  method FusionSlots() returns (slots: map<string, string>)
    ensures slots.Keys == set k | k in Constants.COMPARE_FEATURES
    ensures forall i :: 0 <= i < |Constants.COMPARE_FEATURES| ==>
              slots[Constants.COMPARE_FEATURES[i]] == SlotFor(i)
  {
    var fs := Constants.COMPARE_FEATURES;
    Constants.FeatureTablesComplete();
    slots := map[];
    var i := 0;
    while i < |fs|
      invariant 0 <= i <= |fs|
      invariant slots.Keys == set k | k in fs[..i]
      invariant forall j :: 0 <= j < i ==> slots[fs[j]] == SlotFor(j)
    {
      assert fs[..i + 1] == fs[..i] + [fs[i]];
      slots := slots[fs[i] := if i % 2 == 0 then "PersonA" else "PersonB"];
      i := i + 1;
    }
    assert fs[..i] == fs;
  }

  /** The `/face/morph` body: `{image}`. */
  datatype MorphBody = MorphBody(image: Option<string>)

  /** `createMorph`: the image when the request succeeds with a non-empty
      one; any failure yields none instead of an error. */
  function CreateMorph(reply: Reply<MorphBody>): (r: Option<string>)
    ensures r.Some? <==> reply.Succeeded? && Truthy(reply.body.image)
    ensures r.Some? ==> r == reply.body.image && r.value != ""
  {
    match PostForm("/face/morph", reply)
    case Ok(b) => if Truthy(b.image) then b.image else None
    case Err(_) => None
  }

  // ----------------------------------------------------------- comparison

  /** The `/compare/faces` body, as far as `compareSolo` reads it. */
  datatype CompareBody = CompareBody(
    percentage: Option<int>,
    chemistryLabel: Option<string>,
    chemistryColor: Option<string>,
    embeddingSimilarity: Option<Json>,
    featureSimilarity: Option<Json>,
    featureComparisons: Option<seq<FeatureComparison>>,
    sharedFeatures: Option<Json>,
    calibratedA: Option<Json>,
    calibratedB: Option<Json>,
    nameA: Option<string>,
    nameB: Option<string>)

  /** JavaScript truthiness of a JSON value; absent is falsy. */
  predicate JsonTruthy(j: Option<Json>) {
    j.Some? && match j.value
               case JNull => false
               case JBool(b) => b
               case JNum(n) => n != 0.0
               case JStr(s) => s != ""
               case _ => true
  }

  /** `x || {}`. */
  function OrEmptyObject(j: Option<Json>): (r: Json)
    ensures JsonTruthy(j) ==> r == j.value
    ensures !JsonTruthy(j) ==> r == JObj([])
  {
    if JsonTruthy(j) then j.value else JObj([])
  }

  /** The result object of `compareSolo`. */
  function SoloResult(b: CompareBody, fusion: Option<string>): (r: Report)
    ensures r.percentage == b.percentage && r.chemistryLabel == b.chemistryLabel
    ensures r.chemistryColor == b.chemistryColor && r.featureComparisons == b.featureComparisons
    ensures r.embeddingSimilarity == b.embeddingSimilarity && r.featureSimilarity == b.featureSimilarity
    ensures r.sharedFeatures == b.sharedFeatures && r.fusionImage == fusion
    ensures r.calibratedA == Some(OrEmptyObject(b.calibratedA)) && r.calibratedB == Some(OrEmptyObject(b.calibratedB))
    ensures r.nameA == Some(OrElse(b.nameA, "Person A")) && r.nameB == Some(OrElse(b.nameB, "Person B"))
    ensures r.players.None? && r.pairs.None? && r.winnerPair.None?
  {
    Report(b.percentage, b.chemistryLabel, b.chemistryColor, b.embeddingSimilarity,
           b.featureSimilarity, b.featureComparisons, b.sharedFeatures, fusion,
           Some(OrEmptyObject(b.calibratedA)), Some(OrEmptyObject(b.calibratedB)),
           Some(OrElse(b.nameA, "Person A")), Some(OrElse(b.nameB, "Person B")),
           None, None, None, None, None)
  }

  /** One `onProgress(step, progress)` call. */
  datatype Progress = Progress(step: string, percent: int)

  const PROGRESS_STEPS: seq<Progress> := [
    Progress("Analyzing faces...", 20), Progress("Processing results...", 60),
    Progress("Creating fusion...", 80), Progress("Done!", 100)]

  /** The progress reports made and the outcome of one comparison. */
  datatype SoloRun = SoloRun(progress: seq<Progress>, result: Result<Report, string>)

  /** `compareSolo` given the two server replies: a failed comparison stops
      after the first report and propagates the error; otherwise all four
      reports are made in increasing order and the result carries the morph
      image, or none when the morph failed. */
  function CompareSolo(compare: Reply<CompareBody>, morph: Reply<MorphBody>): (run: SoloRun)
    ensures !compare.Succeeded? ==> run.progress == PROGRESS_STEPS[..1]
    ensures compare.Succeeded? ==> run.progress == PROGRESS_STEPS
    ensures forall i, j :: 0 <= i < j < |run.progress| ==> run.progress[i].percent < run.progress[j].percent
    ensures run.result.Ok? <==> compare.Succeeded?
    ensures compare.Rejected? ==>
              run.result == Err(ErrorMessage("/compare/faces", compare.status, compare.detail))
    ensures compare.Failed? ==> run.result == Err(compare.message)
    ensures compare.Succeeded? ==>
              run.result == Ok(SoloResult(compare.body, CreateMorph(morph)))
  {
    match PostForm("/compare/faces", compare)
    case Err(e) => SoloRun(PROGRESS_STEPS[..1], Err(e))
    case Ok(b) => SoloRun(PROGRESS_STEPS, Ok(SoloResult(b, CreateMorph(morph))))
  }
}
