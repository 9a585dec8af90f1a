/** The two contact-format regular expressions of the subscription gateway,
    written as explicit character predicates:
      email  `^[^\s@]+@[^\s@]+\.[^\s@]+$`  (src/app/api/subscribe/route.ts:131)
      phone  `^\+?[1-9]\d{6,14}$`          (src/app/api/subscribe/route.ts:178,
                                            src/collections/Subscribers.ts:75) */
module ContactFormat {
  import Text

  /** A character of the class `[^\s@]`. */
  predicate IsEmailChar(c: char) {
    c != '@' && !Text.IsJsWhitespace(c)
  }

  predicate AllEmailChars(s: string) {
    forall i :: 0 <= i < |s| ==> IsEmailChar(s[i])
  }

  /** The part after `@`: `[^\s@]+\.[^\s@]+`. The first `[^\s@]+` may itself
      contain dots, so it suffices that some dot is neither first nor last. */
  predicate IsEmailDomain(d: string) {
    AllEmailChars(d) && exists dot: nat | dot < |d| :: 0 < dot < |d| - 1 && d[dot] == '.'
  }

  /** `^[^\s@]+@[^\s@]+\.[^\s@]+$`: a non-empty local part, one `@`, and a
      domain with an inner dot, none of them containing whitespace. */
  predicate IsEmailAddress(s: string) {
    exists at: nat | at < |s| :: s[at] == '@' && 0 < at && AllEmailChars(s[..at]) && IsEmailDomain(s[at + 1..])
  }

  /** Every address built from a local part, a domain head and a domain
      tail, all non-empty and free of whitespace and `@`, matches. */
  lemma EmailAddressFromParts(local: string, head: string, tail: string)
    requires local != [] && head != [] && tail != []
    requires AllEmailChars(local) && AllEmailChars(head) && AllEmailChars(tail)
    ensures IsEmailAddress(local + "@" + head + "." + tail)
  {
    var s := local + "@" + head + "." + tail;
    var d := head + "." + tail;
    Text.Regroup5(local, "@", head, ".", tail);
    assert s == local + "@" + d;
    assert s[..|local|] == local;
    assert s[|local| + 1..] == d;
    assert d[|head|] == '.';
    assert AllEmailChars(d) by {
      forall i | 0 <= i < |d| ensures IsEmailChar(d[i]) {
        if i < |head| {
          assert d[i] == head[i];
        } else if i > |head| {
          assert d[i] == tail[i - |head| - 1];
        }
      }
    }
    assert s[|local|] == '@';
  }

  /** Conversely, every matching address splits into those three parts. */
  lemma EmailAddressParts(s: string) returns (local: string, head: string, tail: string)
    requires IsEmailAddress(s)
    ensures local != [] && head != [] && tail != []
    ensures AllEmailChars(local) && AllEmailChars(head) && AllEmailChars(tail)
    ensures s == local + "@" + head + "." + tail
  {
    var at: nat :| at < |s| && s[at] == '@' && 0 < at && AllEmailChars(s[..at]) && IsEmailDomain(s[at + 1..]);
    var d := s[at + 1..];
    var dot: nat :| dot < |d| && 0 < dot < |d| - 1 && d[dot] == '.';
    local, head, tail := s[..at], d[..dot], d[dot + 1..];
    EmailCharsOfSlice(d, 0, dot);
    EmailCharsOfSlice(d, dot + 1, |d|);
    SplitAround(d, dot);
    SplitAround(s, at);
    Text.Regroup5(local, "@", head, ".", tail);
  }

  /** A slice of a text free of whitespace and `@` is free of them too. */
  lemma EmailCharsOfSlice(s: string, i: nat, j: nat)
    requires AllEmailChars(s) && i <= j <= |s|
    ensures AllEmailChars(s[i..j])
    ensures j == |s| ==> AllEmailChars(s[i..])
  {
    forall k | 0 <= k < j - i ensures IsEmailChar(s[i..j][k]) {
      assert s[i..j][k] == s[i + k];
    }
    assert j == |s| ==> s[i..] == s[i..j];
  }

  /** A sequence is what lies before an element, the element, and what
      lies after it. */
  lemma SplitAround<T>(s: seq<T>, i: nat)
    requires i < |s|
    ensures s == s[..i] + [s[i]] + s[i + 1..]
  {
  }

  /** An address matching the pattern has exactly one `@`. */
  lemma EmailAtIsUnique(s: string, i: nat, j: nat)
    requires IsEmailAddress(s)
    requires i < |s| && j < |s| && s[i] == '@' && s[j] == '@'
    ensures i == j
  {
    var at: nat :| at < |s| && s[at] == '@' && 0 < at && AllEmailChars(s[..at]) && IsEmailDomain(s[at + 1..]);
    assert forall k :: 0 <= k < at ==> s[k] == s[..at][k];
    assert forall k :: at < k < |s| ==> s[k] == s[at + 1..][k - at - 1];
  }

  /** `^\+?[1-9]\d{6,14}$`: an optional `+`, then 7 to 15 ASCII digits of
      which the first is not `0`. */
  predicate IsPhoneNumber(s: string) {
    var digits := if |s| > 0 && s[0] == '+' then s[1..] else s;
    7 <= |digits| <= 15 && '1' <= digits[0] <= '9'
    && forall i :: 0 <= i < |digits| ==> Text.IsAsciiDigit(digits[i])
  }

  /** A number matching the pattern is 7 to 15 digits, the first not `0`,
      with at most a leading `+` besides. */
  lemma PhoneNumberShape(s: string)
    requires IsPhoneNumber(s)
    ensures 7 <= |s| <= 16
    ensures forall k :: 0 <= k < |s| ==> Text.IsAsciiDigit(s[k]) || (k == 0 && s[k] == '+')
    ensures s[0] == '+' ==> '1' <= s[1] <= '9'
    ensures s[0] != '+' ==> '1' <= s[0] <= '9'
  {
    var off := if s[0] == '+' then 1 else 0;
    var digits := s[off..];
    forall k | off <= k < |s| ensures Text.IsAsciiDigit(s[k]) {
      assert s[k] == digits[k - off];
    }
  }

  /** Conversely, 7 to 15 digits, the first not `0`, match, with or
      without a leading `+`. */
  lemma PhoneNumberFromDigits(plus: bool, digits: string)
    requires 7 <= |digits| <= 15 && '1' <= digits[0] <= '9'
    requires forall i :: 0 <= i < |digits| ==> Text.IsAsciiDigit(digits[i])
    ensures IsPhoneNumber((if plus then "+" else "") + digits)
  {
    var s := (if plus then "+" else "") + digits;
    if plus {
      assert s[1..] == digits;
    } else {
      assert s == digits;
    }
  }

  /** A contact cannot pass both checks: a phone number has no `@`. */
  lemma PhoneIsNeverEmail(s: string)
    requires IsPhoneNumber(s)
    ensures !IsEmailAddress(s)
  {
    var off := if |s| > 0 && s[0] == '+' then 1 else 0;
    var digits := s[off..];
    assert forall k :: off <= k < |s| ==> s[k] == digits[k - off];
    assert forall k :: off <= k < |s| ==> Text.IsAsciiDigit(s[k]);
    assert forall k :: 0 <= k < |s| ==> s[k] != '@';
  }
}
