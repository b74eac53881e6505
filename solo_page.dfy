/** The solo comparison page: two photos, the consent gate, a comparison run
    split at its waits (the request, then the minimum-duration pause), and
    reset. The clock is an input: the elapsed milliseconds when the request
    returns. */
module SoloPage {
  import opened Common
  import opened Domain
  import MatchClient

  /** The experience lasts at least this many milliseconds. */
  const MIN_DURATION: int := 8000

  /** `Math.max(0, 8000 - elapsed)`: the pause after a successful request. */
  function Padding(elapsed: int): (wait: nat)
    ensures elapsed >= MIN_DURATION ==> wait == 0
    ensures elapsed < MIN_DURATION ==> elapsed + wait == MIN_DURATION
  {
    if MIN_DURATION - elapsed > 0 then MIN_DURATION - elapsed else 0
  }

  /** The message shown for a failed comparison: the error's message, or a
      generic one when it has none. */
  function FailureMessage(message: Option<string>): (m: string)
    ensures m != ""
    ensures Truthy(message) ==> m == message.value
  {
    OrElse(message, "Comparison failed")
  }

  class SoloPage {
    var photoA: Option<string>
    var photoB: Option<string>
    var showConsent: bool
    var showOnboarding: bool
    var analyzing: bool
    var progress: Option<MatchClient.Progress>
    var results: Option<Report>
    var error: Option<string>

    /** `canCompare`: both photos present and no run in progress. */
    predicate CanCompare()
      reads this
    {
      Truthy(photoA) && Truthy(photoB) && !analyzing
    }

    /** The page opens with the onboarding screen exactly when no display
        name is known. */
    constructor (userName: string)
      ensures showOnboarding <==> userName == ""
      ensures photoA.None? && photoB.None? && !showConsent && !analyzing
      ensures progress.None? && results.None? && error.None?
    {
      photoA := None;
      photoB := None;
      showConsent := false;
      showOnboarding := userName == "";
      analyzing := false;
      progress := None;
      results := None;
      error := None;
    }

    /** The onboarding screen's completion hides it and changes nothing else. */
    method OnboardingDone()
      modifies this
      ensures !showOnboarding
      ensures photoA == old(photoA) && photoB == old(photoB) && showConsent == old(showConsent)
      ensures analyzing == old(analyzing) && progress == old(progress)
      ensures results == old(results) && error == old(error)
    {
      showOnboarding := false;
    }

    method SetPhotos(a: Option<string>, b: Option<string>)
      modifies this
      ensures photoA == a && photoB == b
      ensures analyzing == old(analyzing) && results == old(results) && error == old(error)
      ensures showConsent == old(showConsent) && progress == old(progress)
    {
      photoA := a;
      photoB := b;
    }

    /** The start of `runComparison`: nothing happens unless both photos are
        present; otherwise a run starts with no error and no results. */
    method StartComparison() returns (started: bool)
      modifies this
      ensures started <==> Truthy(photoA) && Truthy(photoB)
      ensures photoA == old(photoA) && photoB == old(photoB)
      ensures showConsent == old(showConsent) && progress == old(progress)
      ensures !started ==> analyzing == old(analyzing) && results == old(results) && error == old(error)
      ensures started ==> analyzing && error.None? && results.None? && !CanCompare()
    {
      if !Truthy(photoA) || !Truthy(photoB) {
        return false;
      }
      analyzing := true;
      error := None;
      results := None;
      started := true;
    }

    /** `handleCompare`: without consent only the consent modal opens. */
    method HandleCompare(consented: bool) returns (started: bool)
      modifies this
      ensures !consented ==> !started && showConsent && analyzing == old(analyzing)
                             && results == old(results) && error == old(error)
      ensures consented ==> showConsent == old(showConsent)
                            && (started <==> Truthy(old(photoA)) && Truthy(old(photoB)))
      ensures started ==> analyzing && error.None? && results.None?
      ensures photoA == old(photoA) && photoB == old(photoB)
    {
      if !consented {
        showConsent := true;
        return false;
      }
      started := StartComparison();
    }

    /** `handleConsented`: the modal closes and a run starts. */
    method HandleConsented() returns (started: bool)
      modifies this
      ensures !showConsent
      ensures started <==> Truthy(old(photoA)) && Truthy(old(photoB))
      ensures started ==> analyzing && error.None? && results.None?
      ensures photoA == old(photoA) && photoB == old(photoB)
    {
      showConsent := false;
      started := StartComparison();
    }

    /** The progress callback. */
    method ReportProgress(p: MatchClient.Progress)
      modifies this
      ensures progress == Some(p)
      ensures analyzing == old(analyzing) && results == old(results) && error == old(error)
      ensures photoA == old(photoA) && photoB == old(photoB) && showConsent == old(showConsent)
    {
      progress := Some(p);
    }

    /** The end of `runComparison` once the request has settled: a result
        is kept after the pause the result asks for; a failure shows its
        message. Either way the run ends and the progress is cleared. */
    method FinishComparison(outcome: Result<Report, Option<string>>, elapsed: int) returns (wait: nat)
      modifies this
      ensures !analyzing && progress.None?
      ensures outcome.Ok? ==> results == Some(outcome.value) && error == old(error) && wait == Padding(elapsed)
      ensures outcome.Err? ==> results == old(results) && error == Some(FailureMessage(outcome.error)) && wait == 0
      ensures photoA == old(photoA) && photoB == old(photoB) && showConsent == old(showConsent)
    {
      match outcome {
        case Ok(r) =>
          wait := Padding(elapsed);
          results := Some(r);
        case Err(m) =>
          wait := 0;
          error := Some(FailureMessage(m));
      }
      analyzing := false;
      progress := None;
    }

    /** A whole run against the two server replies: the comparison result
        or its error message lands on the page exactly as the client
        produced it. */
    method RunComparison(compare: MatchClient.Reply<MatchClient.CompareBody>,
                         morph: MatchClient.Reply<MatchClient.MorphBody>, elapsed: int)
      returns (started: bool, wait: nat)
      modifies this
      ensures started <==> Truthy(old(photoA)) && Truthy(old(photoB))
      ensures !started ==> results == old(results) && error == old(error) && analyzing == old(analyzing)
      ensures started ==> !analyzing && progress.None?
      ensures started && MatchClient.CompareSolo(compare, morph).result.Ok? ==>
                results == Some(MatchClient.CompareSolo(compare, morph).result.value) && error.None?
      ensures started && MatchClient.CompareSolo(compare, morph).result.Err? ==>
                results.None? && error == Some(FailureMessage(Some(MatchClient.CompareSolo(compare, morph).result.error)))
    {
      started := StartComparison();
      if !started {
        return false, 0;
      }
      var run := MatchClient.CompareSolo(compare, morph);
      var outcome: Result<Report, Option<string>> :=
        match run.result
        case Ok(r) => Ok(r)
        case Err(e) => Err(Some(e));
      wait := FinishComparison(outcome, elapsed);
    }

    /** `handleReset`: both photos, the results and the error are cleared. */
    method HandleReset()
      modifies this
      ensures photoA.None? && photoB.None? && results.None? && error.None?
      ensures analyzing == old(analyzing) && progress == old(progress) && showConsent == old(showConsent)
      ensures !CanCompare()
    {
      photoA := None;
      photoB := None;
      results := None;
      error := None;
    }
  }
}
