/** Biometric-consent state of `ConsentContext`: read once from the local
    store, replaced by grant and revoke, and written back to the store after
    every change. The local store is modelled as the single entry the
    provider owns; whether a write succeeds is an input. */
module Consent {
  import opened Common

  /** `{bipaConsented, timestamp}`. */
  datatype ConsentRecord = ConsentRecord(bipaConsented: bool, timestamp: Option<int>)

  const NoConsent := ConsentRecord(false, None)

  /** What the local store yields for the consent key: nothing (or an empty
      string), a value that cannot be read or parsed, or a saved record. */
  datatype Stored = Absent | Unreadable | Saved(record: ConsentRecord)

  /** `loadConsent`: the saved record when there is one, otherwise no consent. */
  function LoadConsent(s: Stored): (c: ConsentRecord)
    ensures s.Saved? ==> c == s.record
    ensures !s.Saved? ==> !c.bipaConsented && c.timestamp.None?
  {
    match s
    case Saved(r) => r
    case _ => NoConsent
  }

  /** `saveConsent`: the store after writing `c`, unchanged when the write
      fails (the failure is swallowed). */
  function SaveConsent(s: Stored, c: ConsentRecord, writable: bool): (t: Stored)
    ensures writable ==> LoadConsent(t) == c
    ensures !writable ==> t == s
  {
    if writable then Saved(c) else s
  }

  class ConsentProvider {
    var consent: ConsentRecord
    var store: Stored

    /** Whether the persisted value agrees with the one in memory. */
    predicate InSync()
      reads this
    {
      LoadConsent(store) == consent
    }

    /** `useState(loadConsent)`: a provider always starts in sync with the store. */
    constructor (stored: Stored)
      ensures consent == LoadConsent(stored) && store == stored
      ensures InSync()
    {
      consent := LoadConsent(stored);
      store := stored;
    }

    /** `grantConsent`: consent with the time `now`, then saved. */
    method GrantConsent(now: int, writable: bool)
      modifies this
      ensures consent == ConsentRecord(true, Some(now))
      ensures store == SaveConsent(old(store), consent, writable)
      ensures writable ==> InSync()
    {
      var next := ConsentRecord(true, Some(now));
      consent := next;
      store := SaveConsent(store, next, writable);
    }

    /** `revokeConsent`: no consent and no time, then saved. */
    method RevokeConsent(writable: bool)
      modifies this
      ensures consent == NoConsent
      ensures store == SaveConsent(old(store), consent, writable)
      ensures writable ==> InSync()
    {
      var next := NoConsent;
      consent := next;
      store := SaveConsent(store, next, writable);
    }
  }

  /** A provider created later from what grant or revoke saved starts with
      the same consent. */
  lemma SavedConsentReloads(s: Stored, c: ConsentRecord)
    ensures LoadConsent(SaveConsent(s, c, true)) == c
    ensures SaveConsent(SaveConsent(s, c, true), c, true) == SaveConsent(s, c, true)
  {
  }

  /** `useConsent`: the context, or the error it throws outside a provider. */
  function UseConsent<T>(ctx: Option<T>): (r: Result<T, string>)
    ensures ctx.None? <==> r.Err?
    ensures ctx.None? ==> r == Err("useConsent must be inside ConsentProvider")
    ensures ctx.Some? ==> r == Ok(ctx.value)
  {
    FromProvider(ctx, "useConsent must be inside ConsentProvider")
  }
}
