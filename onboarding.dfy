/** The onboarding screen: one name field, a submit that stores the trimmed
    name, and a skip that stores an empty name. Both end by calling the
    completion callback. */
module Onboarding {
  import opened Text
  import MatchContext

  /** The name field's `maxLength`. */
  const MAX_NAME: nat := 30

  /** What the screen asks for, in order. */
  datatype Call = Dispatch(action: MatchContext.Action) | Complete

  /** The submit button is disabled exactly when the name is blank. */
  predicate SubmitDisabled(name: string) {
    Trim(name) == ""
  }

  class OnboardingScreen {
    var name: string

    constructor ()
      ensures name == ""
    {
      name := "";
    }

    /** Typing: the field keeps at most 30 characters. */
    method Type(typed: string)
      modifies this
      ensures |name| <= MAX_NAME
      ensures name == (if |typed| <= MAX_NAME then typed else typed[..MAX_NAME])
    {
      name := if |typed| <= MAX_NAME then typed else typed[..MAX_NAME];
    }

    /** `handleSubmit`: a blank name does nothing; otherwise the trimmed name
        is stored and then the screen completes. */
    method Submit() returns (calls: seq<Call>)
      ensures SubmitDisabled(name) ==> calls == []
      ensures !SubmitDisabled(name) ==>
                calls == [Dispatch(MatchContext.SetUserName(Trim(name))), Complete]
    {
      var trimmed := Trim(name);
      if trimmed == "" {
        return [];
      }
      calls := [Dispatch(MatchContext.SetUserName(trimmed)), Complete];
    }

    /** The skip link: store an empty name, then complete. */
    method Skip() returns (calls: seq<Call>)
      ensures calls == [Dispatch(MatchContext.SetUserName("")), Complete]
    {
      calls := [Dispatch(MatchContext.SetUserName("")), Complete];
    }
  }

  /** A submitted name is never blank and carries no surrounding white space,
      so a stored name read back by the solo page skips onboarding; a skipped
      one does not. */
  lemma {:induction false} SubmittedNameIsClean(name: string)
    requires !SubmitDisabled(name)
    ensures Trim(name) != "" && Trim(Trim(name)) == Trim(name)
    ensures !IsJsSpace(Trim(name)[0]) && !IsJsSpace(Trim(name)[|Trim(name)| - 1])
  {
    TrimIdempotent(name);
    TrimEmptyIff(name);
  }
}
