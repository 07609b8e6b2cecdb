/** The Joi rules the request schemas under validation/ are built from, as
    predicates on a request whose keys may be missing (`None`). A request
    is accepted when every rule of its schema holds. The format checks
    Joi performs (uuid, email, uri, ISO date) are given by the caller. */
module Joi {
  import opened Wrappers
  import opened Text

  datatype Formats = Formats(
    uuid: string -> bool, email: string -> bool, uri: string -> bool, isoDate: string -> bool)

  /** Joi.string() on a present value, converted: trimmed first when the
      rule trims; then the empty string is refused unless it is allowed, and
      any other value must have between `min` and `max` characters. */
  predicate StringOk(v: string, trim: bool, allowEmpty: bool, min: nat, max: Option<nat>) {
    var s := if trim then Trim(v) else v;
    if s == "" then allowEmpty
    else min <= |s| && (max.None? || |s| <= max.value)
  }

  /** A required string key with a length range, not trimmed. */
  predicate RequiredText(v: Option<string>, min: nat, max: nat) {
    v.Some? && StringOk(v.value, false, false, min, Some(max))
  }

  /** A string key checked by a format: present when required, and when
      present, not empty and in the format. */
  predicate FormatKey(v: Option<string>, required: bool, format: string -> bool) {
    if v.None? then !required else v.value != "" && format(v.value)
  }

  /** An integer key between `min` and, when given, `max`. */
  predicate IntKey(v: Option<int>, required: bool, min: int, max: Option<int>) {
    if v.None? then !required else min <= v.value && (max.None? || v.value <= max.value)
  }

  /** A number key at least `min`. */
  predicate NumberKey(v: Option<real>, required: bool, min: real) {
    if v.None? then !required else min <= v.value
  }

  /** The pattern /^[0-9]{n}$/: exactly `n` characters, each a digit, read
      one at a time as the pattern does. */
  predicate DigitRun(s: string, n: nat) {
    if n == 0 then s == ""
    else s != "" && IsDigit(s[0]) && DigitRun(s[1..], n - 1)
  }

  /** The pattern accepts exactly the strings of `n` decimal digits. */
  lemma {:induction false} DigitRunMeaning(s: string, n: nat)
    ensures DigitRun(s, n) <==> |s| == n && AllDigits(s)
  {
    if n > 0 && s != "" {
      DigitRunMeaning(s[1..], n - 1);
      if AllDigits(s) {
        assert AllDigits(s[1..]) by {
          forall i | 0 <= i < |s[1..]| ensures IsDigit(s[1..][i]) {
            assert s[1..][i] == s[i + 1];
          }
        }
      }
      if IsDigit(s[0]) && AllDigits(s[1..]) {
        forall i | 0 <= i < |s| ensures IsDigit(s[i]) {
          if i > 0 {
            assert s[i] == s[1..][i - 1];
          }
        }
      }
    }
  }

  /** The value Joi sees after trimming is part of the value given: a
      trimmed length bound says nothing about the spaces around it. */
  lemma TrimmedWithin(v: string)
    ensures |Trim(v)| <= |v|
  {
    TrimProperties(v);
  }
}
