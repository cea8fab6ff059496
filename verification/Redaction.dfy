/** The PIN codes a lock takes, and the masking of digits before a message reaches a log. */
module Redaction {
  import opened Wrappers

  const SANE_MIN: nat := 4
  const SANE_MAX: nat := 20
  const FALLBACK: (nat, nat) := (4, 8)
  const MASK := "****"

  /** An attribute the lock reported, or something that is no number. */
  datatype Attribute = Missing | Number(n: int) | Garbled

  datatype Capabilities = Capabilities(minPinLength: Attribute, maxPinLength: Attribute)

  function ReportedLength(a: Attribute): Option<nat> {
    if a.Number? && SANE_MIN <= a.n <= SANE_MAX then Some(a.n) else None
  }

  function PinLengthRange(c: Capabilities): (nat, nat) {
    var low := if ReportedLength(c.minPinLength).Some? then ReportedLength(c.minPinLength).value else FALLBACK.0;
    var high := if ReportedLength(c.maxPinLength).Some? then ReportedLength(c.maxPinLength).value else FALLBACK.1;
    if low > high then FALLBACK else (low, high)
  }

  predicate IsAsciiDigit(c: char) {
    '0' <= c <= '9'
  }

  predicate IsValidPin(code: string, c: Capabilities) {
    (forall d | d in code :: IsAsciiDigit(d)) && code != "" && PinLengthRange(c).0 <= |code| <= PinLengthRange(c).1
  }

  /** What the pattern takes for a digit: the ASCII ones, and any others but the mask's own character. */
  ghost predicate Digits(digits: set<char>) {
    (forall c: char | IsAsciiDigit(c) :: c in digits) && '*' !in digits
  }

  /** How many digits the text begins with. */
  function DigitRun(text: string, digits: set<char>): (n: nat)
    ensures n <= |text| && (n < |text| ==> text[n] !in digits) && forall i | 0 <= i < n :: text[i] in digits
  {
    if text != "" && text[0] in digits then 1 + DigitRun(text[1..], digits) else 0
  }

  /** Every run of SANE_MIN or more digits, found from the left and taken whole, becomes the mask. */
  function Redacted(text: string, digits: set<char>): string
    decreases |text|
  {
    if text == "" then ""
    else
      var n := DigitRun(text, digits);
      if n >= SANE_MIN then MASK + Redacted(text[n..], digits) else [text[0]] + Redacted(text[1..], digits)
  }

  /** No run long enough to be masked. */
  ghost predicate Clear(text: string, digits: set<char>) {
    forall i | 0 <= i <= |text| :: DigitRun(text[i..], digits) < SANE_MIN
  }

  /** A code of the shortest accepted length is as long as the shortest run that is masked, whatever is reported. */
  lemma RangeIsSane(c: Capabilities)
    ensures SANE_MIN <= PinLengthRange(c).0 <= PinLengthRange(c).1 <= SANE_MAX
  {
  }

  predicate IsSane(a: Attribute) {
    a.Number? && 4 <= a.n <= 20
  }

  /** The reported bounds hold when both are sane and do not cross; one alone holds if it does not cross 4 or 8. */
  lemma PinLengthsAre(c: Capabilities)
    ensures var (min, max, range) := (c.minPinLength, c.maxPinLength, PinLengthRange(c));
            && (IsSane(min) && IsSane(max) ==> range == if min.n <= max.n then (min.n, max.n) else (4, 8))
            && (IsSane(min) && !IsSane(max) ==> range == if min.n <= 8 then (min.n, 8) else (4, 8))
            && (!IsSane(min) && IsSane(max) ==> range == (4, max.n))
            && (!IsSane(min) && !IsSane(max) ==> range == (4, 8))
  {
  }

  /** A code is taken exactly when it is digits alone, as many as the lock takes. */
  lemma PinIsTakenIff(code: string, c: Capabilities)
    ensures IsValidPin(code, c)
            <==> PinLengthRange(c).0 <= |code| <= PinLengthRange(c).1
                 && forall i | 0 <= i < |code| :: code[i] in "0123456789"
  {
    assert forall i | 0 <= i < |code| :: code[i] in code;
    forall d: char
      ensures IsAsciiDigit(d) <==> d in "0123456789"
    {
      if IsAsciiDigit(d) {
        assert "0123456789"[d as int - '0' as int] == d;
      }
    }
    RangeIsSane(c);
  }

  lemma RunOfSum(a: string, b: string, digits: set<char>)
    requires forall c | c in a :: c in digits
    ensures DigitRun(a + b, digits) == |a| + DigitRun(b, digits)
  {
    if a == "" {
      assert a + b == b;
    } else {
      assert (a + b)[1..] == a[1..] + b;
      RunOfSum(a[1..], b, digits);
    }
  }

  lemma {:induction false} RunAfterRedaction(text: string, digits: set<char>)
    requires Digits(digits)
    ensures DigitRun(Redacted(text, digits), digits)
            == if DigitRun(text, digits) >= SANE_MIN then 0 else DigitRun(text, digits)
    decreases |text|
  {
    if text != "" {
      var n := DigitRun(text, digits);
      if n < SANE_MIN {
        RunAfterRedaction(text[1..], digits);
        assert ([text[0]] + Redacted(text[1..], digits))[1..] == Redacted(text[1..], digits);
      } else {
        assert Redacted(text, digits)[0] == '*';
      }
    }
  }

  lemma ClearSum(front: string, text: string, digits: set<char>)
    requires Clear(text, digits)
    requires forall i | 0 <= i < |front| :: DigitRun((front + text)[i..], digits) < SANE_MIN
    ensures Clear(front + text, digits)
  {
    hide DigitRun;
    forall i | |front| <= i <= |front + text|
      ensures DigitRun((front + text)[i..], digits) < SANE_MIN
    {
      assert (front + text)[i..] == text[i - |front|..];
    }
  }

  /** Redacted text has no run left. */
  lemma {:induction false} RedactedIsClear(text: string, digits: set<char>)
    requires Digits(digits)
    ensures Clear(Redacted(text, digits), digits)
    decreases |text|
  {
    if text != "" {
      var n := DigitRun(text, digits);
      var front, rest := if n >= SANE_MIN then MASK else [text[0]], if n >= SANE_MIN then text[n..] else text[1..];
      RedactedIsClear(rest, digits);
      forall i | 0 <= i < |front|
        ensures DigitRun((front + Redacted(rest, digits))[i..], digits) < SANE_MIN
      {
        if n >= SANE_MIN {
          assert (front + Redacted(rest, digits))[i..][0] == '*';
        } else {
          assert (front + Redacted(rest, digits))[i..] == Redacted(text, digits);
          RunAfterRedaction(text, digits);
        }
      }
      ClearSum(front, Redacted(rest, digits), digits);
    }
  }

  /** Text without a run is left as it is, and nothing else is. */
  lemma {:induction false} OnlyRunsAreMasked(text: string, digits: set<char>)
    requires Digits(digits)
    ensures Redacted(text, digits) == text <==> Clear(text, digits)
    decreases |text|
  {
    RedactedIsClear(text, digits);
    if Clear(text, digits) && text != "" {
      assert text[0..] == text;
      forall i | 0 <= i <= |text[1..]|
        ensures DigitRun(text[1..][i..], digits) < SANE_MIN
      {
        assert text[1..][i..] == text[i + 1..];
      }
      OnlyRunsAreMasked(text[1..], digits);
    }
  }

  lemma RedactionSettles(text: string, digits: set<char>)
    requires Digits(digits)
    ensures Redacted(Redacted(text, digits), digits) == Redacted(text, digits)
  {
    RedactedIsClear(text, digits);
    OnlyRunsAreMasked(Redacted(text, digits), digits);
  }

  /** No accepted code is ever part of redacted text, whatever the lock reports. */
  lemma NoAcceptedPinIsLogged(code: string, c: Capabilities, text: string, digits: set<char>, i: nat)
    requires Digits(digits) && IsValidPin(code, c)
    requires i + |code| <= |Redacted(text, digits)|
    ensures Redacted(text, digits)[i..i + |code|] != code
  {
    var r := Redacted(text, digits);
    RangeIsSane(c);
    RedactedIsClear(text, digits);
    hide Redacted;
    var n := DigitRun(r[i..], digits);
    assert r[i..i + |code|][n] == r[i..][n];
    assert code[n] in code;
  }

  lemma RedactedRun(run: string, rest: string, digits: set<char>)
    requires |run| >= SANE_MIN && (forall c | c in run :: c in digits) && (rest == "" || rest[0] !in digits)
    ensures Redacted(run + rest, digits) == MASK + Redacted(rest, digits)
  {
    RunOfSum(run, rest, digits);
    assert (run + rest)[|run|..] == rest;
  }

  /** What the first step of a redaction takes from the text, and what it puts out for it. */
  function Taken(text: string, digits: set<char>): (k: nat)
    requires text != ""
    ensures 1 <= k <= |text|
  {
    if DigitRun(text, digits) >= SANE_MIN then DigitRun(text, digits) else 1
  }

  function Given(text: string, digits: set<char>): string
    requires text != ""
  {
    if DigitRun(text, digits) >= SANE_MIN then MASK else [text[0]]
  }

  lemma RedactedStep(text: string, digits: set<char>)
    requires text != ""
    ensures Redacted(text, digits) == Given(text, digits) + Redacted(text[Taken(text, digits)..], digits)
  {
  }

  lemma SameRun(before: string, more: string, digits: set<char>)
    requires before != "" && before[|before| - 1] !in digits
    ensures DigitRun(before + more, digits) == DigitRun(before, digits) < |before|
  {
    var n := DigitRun(before, digits);
    assert before[n..] + more != "" && (before[n..] + more)[0] == before[n];
    assert before + more == before[..n] + (before[n..] + more);
    RunOfSum(before[..n], before[n..] + more, digits);
  }

  lemma SameStep(before: string, more: string, digits: set<char>)
    requires before != "" && before[|before| - 1] !in digits
    ensures Taken(before + more, digits) == Taken(before, digits)
        && Given(before + more, digits) == Given(before, digits)
    ensures (before + more)[Taken(before, digits)..] == before[Taken(before, digits)..] + more
    ensures var rest := before[Taken(before, digits)..]; rest == "" || rest[|rest| - 1] !in digits
  {
    SameRun(before, more, digits);
    hide DigitRun;
  }

  /** A text is redacted piece by piece wherever it is cut behind something that is no digit. */
  lemma {:induction false} RedactedSum(before: string, more: string, digits: set<char>)
    requires before == "" || before[|before| - 1] !in digits
    ensures Redacted(before + more, digits) == Redacted(before, digits) + Redacted(more, digits)
    decreases |before|
  {
    if before == "" {
      assert before + more == more;
    } else {
      SameStep(before, more, digits);
      RedactedSum(before[Taken(before, digits)..], more, digits);
      hide Redacted, Given, Taken;
      RedactedStep(before + more, digits);
      RedactedStep(before, digits);
    }
  }

  /** A run between non-digits is masked alone and whole, so the mask tells nothing of the code, not even its length. */
  lemma RunIsMasked(before: string, run: string, after: string, digits: set<char>)
    requires |run| >= 4 && forall c | c in run :: c in digits
    requires before == "" || before[|before| - 1] !in digits
    requires after == "" || after[0] !in digits
    ensures Redacted(before + (run + after), digits) == Redacted(before, digits) + ("****" + Redacted(after, digits))
  {
    RedactedSum(before, run + after, digits);
    RedactedRun(run, after, digits);
  }
}
