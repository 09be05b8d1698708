/**
 * The shared sign-in flag and its persistence: the provider reads the flag
 * back from browser storage once, when it mounts, and writes `String(flag)`
 * back after every change. Storage is the single entry under the key
 * `isSignedIn`, absent (`None`) or holding a string.
 */
module UserContext {
  import opened Wrappers

  const MissingProvider: string := "useUser must be used within a UserProvider"

  /** How a stored value is read back: signed in only on the exact string "true". */
  function Decode(stored: Option<string>): bool {
    stored == Some("true")
  }

  /** How the flag is written: JavaScript's `String(flag)`. */
  function Encode(flag: bool): string {
    if flag then "true" else "false"
  }

  /** Absence, and every string other than "true", reads back as signed out. */
  lemma DecodeDefaultsToSignedOut(stored: Option<string>)
    ensures Decode(None) == false
    ensures stored != Some("true") ==> !Decode(stored)
    ensures Decode(Some("true"))
  {
  }

  /** What gets written is always one of the two strings, and the two flags are written differently. */
  lemma EncodeRange(flag: bool)
    ensures Encode(flag) == "true" || Encode(flag) == "false"
    ensures Encode(flag) != Encode(!flag)
  {
    assert "false"[0] != "true"[0];
  }

  /** Round trip: reading back what was written gives the flag that was written. */
  lemma RoundTrip(flag: bool)
    ensures Decode(Some(Encode(flag))) == flag
  {
    if !flag {
      assert "false"[0] != "true"[0];
    }
  }

  /** A stored value survives a mount unchanged exactly when it is already "true" or "false". */
  lemma MountNormalises(stored: Option<string>)
    ensures Some(Encode(Decode(stored))) == stored <==> stored == Some("true") || stored == Some("false")
  {
    if stored == Some("false") {
      RoundTrip(false);
    }
  }

  /** What `useUser` hands out inside a provider: the current flag (the setter is `Provider.SetIsSignedIn`). */
  datatype ContextValue = ContextValue(isSignedIn: bool)

  /** `useUser`: the enclosing provider's value, or the error thrown without one. */
  function UseUser(context: Option<ContextValue>): (r: Result<ContextValue, string>)
    ensures r.Failure? <==> context.None?
    ensures r.Failure? ==> r.error == MissingProvider
    ensures r.Success? ==> r.value == context.value
  {
    match context
    case None => Failure(MissingProvider)
    case Some(value) => Success(value)
  }

  /** A mounted `UserProvider` together with the storage entry it owns. */
  class Provider {
    var isSignedIn: bool
    var storage: Option<string>

    /** After every render and its effect, storage holds `String(flag)`. */
    ghost predicate Valid()
      reads this
    {
      storage == Some(Encode(isSignedIn))
    }

    function Context(): ContextValue
      reads this
    {
      ContextValue(isSignedIn)
    }

    /** Mounting over storage holding `stored`: decode once, then the persist effect writes the flag back. */
    constructor (stored: Option<string>)
      ensures Valid()
      ensures isSignedIn == Decode(stored)
      ensures isSignedIn <==> stored == Some("true")
    {
      var flag := stored == Some("true");
      isSignedIn := flag;
      storage := Some(Encode(flag));
    }

    /** `setIsSignedIn(value)`: the flag becomes `value` and the effect persists it; nothing else changes. */
    method SetIsSignedIn(value: bool)
      requires Valid()
      modifies this
      ensures Valid()
      ensures isSignedIn == value && storage == Some(Encode(value))
      ensures old(isSignedIn) == value ==> storage == old(storage)
    {
      isSignedIn := value;
      storage := Some(Encode(isSignedIn));
    }

    /** A page reload: a new provider mounts over the same storage and comes back with the same flag. */
    method Reload()
      requires Valid()
      modifies this
      ensures Valid()
      ensures isSignedIn == old(isSignedIn) && storage == old(storage)
    {
      RoundTrip(isSignedIn);
      isSignedIn := Decode(storage);
      storage := Some(Encode(isSignedIn));
    }
  }

  /** Inside a mounted provider, `useUser` returns that provider's current sign-in flag. */
  lemma UseUserInsideProvider(p: Provider)
    ensures UseUser(Some(p.Context())) == Success(ContextValue(p.isSignedIn))
  {
  }
}
