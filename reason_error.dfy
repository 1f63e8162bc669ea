/** The reason-tagged wrapper error: an optional wrapped error plus a
    reason, with `Error`, `Unwrap` and `Is`. */
module ReasonError {
  import opened Wrappers
  import opened Bytes

  /** `Reason` is a Go `uint`: a 64-bit unsigned value. */
  type Reason = u64

  const ReasonGasFee: Reason := 0
  const ReasonBlobSize: Reason := 1
  const ReasonUnknown: Reason := 2

  /** Any Go error value: a wrapper `Error`, or an error of another type,
      known only by its text. */
  datatype AnyError =
    | Wrapper(e: Error)
    | Other(text: string)

  /** The wrapper: `err` is `None` when the wrapped error is `nil`. */
  datatype Error = Error(err: Option<AnyError>, reason: Reason)

  /** The decimal digits of `n`, as `%d` prints them. */
  function Decimal(n: nat): (s: string)
    ensures |s| >= 1
    ensures forall i :: 0 <= i < |s| ==> '0' <= s[i] <= '9'
    ensures n >= 10 ==> s[0] != '0'
  {
    if n < 10 then [Digit(n)] else Decimal(n / 10) + [Digit(n % 10)]
  }

  function Digit(d: nat): (c: char)
    requires d < 10
    ensures '0' <= c <= '9' && (c as int) - ('0' as int) == d
  {
    (('0' as int) + d) as char
  }

  /** Reads a string of decimal digits back as a number. */
  function ParseDecimal(s: string): nat
    requires forall i :: 0 <= i < |s| ==> '0' <= s[i] <= '9'
  {
    if s == [] then 0
    else 10 * ParseDecimal(s[..|s| - 1]) + ((s[|s| - 1] as int) - ('0' as int))
  }

  lemma {:induction false} DecimalRoundTrip(n: nat)
    ensures ParseDecimal(Decimal(n)) == n
  {
    if n >= 10 {
      var s := Decimal(n);
      assert s == Decimal(n / 10) + [Digit(n % 10)];
      assert s[..|s| - 1] == Decimal(n / 10);
      DecimalRoundTrip(n / 10);
    }
  }

  /** `Reason.String`: the two named reasons print their names, and no
      other value prints either name. */
  function ReasonString(r: Reason): (s: string)
    ensures s == "ErrGasFee" <==> r == ReasonGasFee
    ensures s == "ErrBlobSize" <==> r == ReasonBlobSize
  {
    if r == ReasonGasFee then "ErrGasFee"
    else if r == ReasonBlobSize then "ErrBlobSize"
    else
      var u := "unknown(" + Decimal(r) + ")";
      assert u[0] == 'u';
      u
  }

  /** The two named reasons print their names; every other value,
      `ReasonUnknown` included, prints as "unknown(<n>)"; and different
      reasons always print differently. */
  lemma ReasonStringSpec(r1: Reason, r2: Reason)
    ensures ReasonString(ReasonGasFee) == "ErrGasFee"
    ensures ReasonString(ReasonBlobSize) == "ErrBlobSize"
    ensures ReasonString(ReasonUnknown) == "unknown(2)"
    ensures r1 != ReasonGasFee && r1 != ReasonBlobSize ==> ReasonString(r1) == "unknown(" + Decimal(r1) + ")"
    ensures r1 != r2 ==> ReasonString(r1) != ReasonString(r2)
  {
    assert Decimal(2) == "2";
    if r1 != r2 && ReasonString(r1) == ReasonString(r2) && r1 > ReasonBlobSize && r2 > ReasonBlobSize {
      var s1, s2 := ReasonString(r1), ReasonString(r2);
      var prefix := "unknown(";
      assert s1[|prefix|..|s1| - 1] == Decimal(r1);
      assert s2[|prefix|..|s2| - 1] == Decimal(r2);
      DecimalRoundTrip(r1);
      DecimalRoundTrip(r2);
    }
  }

  /** The text of any error. */
  function Text(a: AnyError): string
    decreases a
  {
    match a
    case Wrapper(e) => ErrorText(e)
    case Other(t) => t
  }

  /** `Error.Error`: the reason's string, followed by ": " and the wrapped
      error's text when there is one. */
  function ErrorText(e: Error): (s: string)
    ensures ReasonString(e.reason) <= s
    decreases e
  {
    match e.err
    case None => ReasonString(e.reason)
    case Some(inner) => ReasonString(e.reason) + ": " + Text(inner)
  }

  /** The reason's string always leads the text, and the text is exactly
      that string when nothing is wrapped. */
  lemma ErrorTextSpec(e: Error)
    ensures ReasonString(e.reason) <= ErrorText(e)
    ensures e.err.None? <==> ErrorText(e) == ReasonString(e.reason)
    ensures e.err.Some? ==> ErrorText(e) == ReasonString(e.reason) + ": " + Text(e.err.value)
  {
  }

  /** `Error.Unwrap`: what it returns is the error whose text follows the
      reason in `Error()`, and `nil` exactly when `Error()` is the reason's
      string alone. */
  function Unwrap(e: Error): (r: Option<AnyError>)
    ensures r.Some? ==> ErrorText(e) == ReasonString(e.reason) + ": " + Text(r.value)
    ensures r.None? ==> ErrorText(e) == ReasonString(e.reason)
  {
    e.err
  }

  /** `Error.Is`: `nil` and errors of other types never match; a wrapper
      matches exactly when the reasons agree, whatever either wraps. */
  function Is(e: Error, target: Option<AnyError>): (r: bool)
    ensures r ==> target.Some? && target.value.Wrapper?
    ensures target.Some? && target.value.Wrapper? ==> (r <==> e.reason == target.value.e.reason)
  {
    match target
    case None => false
    case Some(Other(_)) => false
    case Some(Wrapper(t)) => e.reason == t.reason
  }

  /** On wrappers, `Is` is an equivalence relation: the one induced by the
      reason. */
  lemma IsEquivalence(a: Error, b: Error, c: Error)
    ensures Is(a, Some(Wrapper(a)))
    ensures Is(a, Some(Wrapper(b))) == Is(b, Some(Wrapper(a)))
    ensures Is(a, Some(Wrapper(b))) && Is(b, Some(Wrapper(c))) ==> Is(a, Some(Wrapper(c)))
    ensures Is(a, Some(Wrapper(b))) <==> a.reason == b.reason
    ensures !Is(a, None)
    ensures forall t :: !Is(a, Some(Other(t)))
  {
  }

  /** `NewError`: wraps `err` with `reason`. */
  function NewError(err: Option<AnyError>, reason: Reason): (e: Error)
    ensures Unwrap(e) == err && e.reason == reason
  {
    Error(err, reason)
  }

  /** `NewGasFeeError`: wraps `err` with the gas-fee reason; its text starts
      with "ErrGasFee". */
  function NewGasFeeError(err: Option<AnyError>): (e: Error)
    ensures Unwrap(e) == err && e.reason == ReasonGasFee
    ensures "ErrGasFee" <= ErrorText(e)
  {
    NewError(err, ReasonGasFee)
  }

  /** `NewBlobSizeError`: wraps `err` with the blob-size reason; its text
      starts with "ErrBlobSize". */
  function NewBlobSizeError(err: Option<AnyError>): (e: Error)
    ensures Unwrap(e) == err && e.reason == ReasonBlobSize
    ensures "ErrBlobSize" <= ErrorText(e)
  {
    NewError(err, ReasonBlobSize)
  }

  /** The sentinel errors: the two reasons with nothing wrapped. */
  const ErrGasFee: Error := NewGasFeeError(None)
  const ErrBlobSize: Error := NewBlobSizeError(None)

  /** Whatever they wrap, gas-fee errors are `ErrGasFee` and not
      `ErrBlobSize`, and blob-size errors the other way round; unwrapping
      gives back what was wrapped. */
  lemma ConstructorsMatchSentinels(x: Option<AnyError>)
    ensures Is(NewGasFeeError(x), Some(Wrapper(ErrGasFee)))
    ensures !Is(NewGasFeeError(x), Some(Wrapper(ErrBlobSize)))
    ensures Is(NewBlobSizeError(x), Some(Wrapper(ErrBlobSize)))
    ensures !Is(NewBlobSizeError(x), Some(Wrapper(ErrGasFee)))
    ensures Unwrap(NewGasFeeError(x)) == x && Unwrap(NewBlobSizeError(x)) == x
    ensures ErrorText(ErrGasFee) == "ErrGasFee" && ErrorText(ErrBlobSize) == "ErrBlobSize"
  {
  }
}
