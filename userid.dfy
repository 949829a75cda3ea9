/** `sanitize_user_id`: the shape check every tool applies to the caller's
    Discord user id before anything is fetched. */
module UserId {
  import opened Wrappers
  import opened Text

  const MinLength := 17
  const MaxLength := 20

  /** The three `ValueError`s the check raises, in the order it checks them. */
  datatype InvalidReason = Empty | NonDigit | BadLength

  function Message(reason: InvalidReason): string {
    match reason
    case Empty => "User ID cannot be empty"
    case NonDigit => "User ID must contain only digits"
    case BadLength => "User ID must be between 17-20 digits"
  }

  /** A well-formed id: 17 to 20 ASCII digits, kept as text (it may exceed
      the 64-bit range, so it is never converted to a number). */
  predicate IsUserId(s: string) {
    AllDigits(s) && MinLength <= |s| <= MaxLength
  }

  /** Strip the input, then reject it if empty, else if it has a non-digit,
      else if its length is outside 17..20; otherwise hand it back as text. */
  function Sanitize(userId: string): (r: Result<string, InvalidReason>)
    ensures r.Success? <==> IsUserId(Trim(userId))
    ensures r.Success? ==> r.value == Trim(userId)
    ensures r == Failure(Empty) <==> Trim(userId) == []
    ensures r == Failure(NonDigit) <==> Trim(userId) != [] && !AllDigits(Trim(userId))
    ensures r == Failure(BadLength) <==> AllDigits(Trim(userId)) && !(MinLength <= |Trim(userId)| <= MaxLength) && Trim(userId) != []
  {
    var cleanId := Trim(userId);
    if cleanId == [] then Failure(Empty)
    else if !AllDigits(cleanId) then Failure(NonDigit)
    else if |cleanId| < MinLength || |cleanId| > MaxLength then Failure(BadLength)
    else Success(cleanId)
  }

  /** Exactly the inputs made of a well-formed id with whitespace around it
      are accepted, and the id comes back without the whitespace. */
  lemma AcceptsPaddedId(a: string, id: string, b: string)
    requires AllSpace(a) && AllSpace(b) && IsUserId(id)
    ensures Sanitize(a + id + b) == Success(id)
  {
    assert !IsSpace(id[0]) && !IsSpace(id[|id| - 1]);
    assert (a + id + b)[|a|..|a| + |id|] == id;
    assert (a + id + b)[..|a|] == a && (a + id + b)[|a| + |id|..] == b;
    StripIsTrim(id, a + id + b);
  }

  /** Conversely, what is accepted is a well-formed id that the input holds
      with only whitespace around it. */
  lemma AcceptedIsPaddedId(userId: string)
    requires Sanitize(userId).Success?
    ensures IsUserId(Sanitize(userId).value) && IsStripOf(Sanitize(userId).value, userId)
  {
    TrimIsStrip(userId);
  }

  /** Sanitizing is idempotent: a sanitized id passes the check unchanged. */
  lemma SanitizeIdempotent(userId: string)
    requires Sanitize(userId).Success?
    ensures Sanitize(Sanitize(userId).value) == Sanitize(userId)
  {
    var id := Sanitize(userId).value;
    AcceptsPaddedId([], id, []);
    assert [] + id + [] == id;
  }
}
