/** String operations the services apply to request text: JavaScript's
    trim and toLowerCase, the backslash escaping put in front of SQL LIKE
    wildcards, list joining for messages, and the decimal rendering of
    integers. */
module Text {

  /** The characters String.prototype.trim removes: the ECMAScript white
      space (tab, vertical tab, form feed, space, no-break space, the
      byte-order mark and the Unicode space separators) and the line
      terminators (line feed, carriage return, line and paragraph
      separator). */
  predicate IsSpace(c: char) {
    c == ' ' || c == '\t' || c == '\n' || c == '\r' ||
    c == '\U{000B}' || c == '\U{000C}' || c == '\U{00A0}' || c == '\U{FEFF}' ||
    c == '\U{1680}' || ('\U{2000}' <= c <= '\U{200A}') || c == '\U{2028}' || c == '\U{2029}' ||
    c == '\U{202F}' || c == '\U{205F}' || c == '\U{3000}'
  }

  /** `s` with its leading white space removed. */
  function TrimStart(s: string): (r: string)
    ensures |r| <= |s| && r == s[|s| - |r|..]
    ensures r == [] || !IsSpace(r[0])
    ensures forall i :: 0 <= i < |s| - |r| ==> IsSpace(s[i])
  {
    if s != [] && IsSpace(s[0]) then TrimStart(s[1..]) else s
  }

  /** `s` with its trailing white space removed. */
  function TrimEnd(s: string): (r: string)
    ensures |r| <= |s| && r == s[..|r|]
    ensures r == [] || !IsSpace(r[|r| - 1])
    ensures forall i :: |r| <= i < |s| ==> IsSpace(s[i])
  {
    if s != [] && IsSpace(s[|s| - 1]) then TrimEnd(s[..|s| - 1]) else s
  }

  /** String.prototype.trim. */
  function Trim(s: string): string {
    TrimEnd(TrimStart(s))
  }

  predicate Trimmed(s: string) {
    s == [] || (!IsSpace(s[0]) && !IsSpace(s[|s| - 1]))
  }

  /** Trim leaves a contiguous piece of its input with no white space at
      either end, and trimming twice changes nothing more. */
  lemma TrimProperties(s: string)
    ensures Trimmed(Trim(s))
    ensures exists i, j :: 0 <= i <= j <= |s| && Trim(s) == s[i..j]
    ensures Trim(Trim(s)) == Trim(s)
  {
    var a := TrimStart(s);
    var r := TrimEnd(a);
    if r != [] {
      assert r[0] == a[0];
    }
    assert r == s[|s| - |a|..][..|r|];
    assert s[|s| - |a|..][..|r|] == s[|s| - |a|..|s| - |a| + |r|];
    TrimFixed(r);
  }

  lemma TrimFixed(s: string)
    requires Trimmed(s)
    ensures Trim(s) == s
  {
  }

  function LowerChar(c: char): char {
    if 'A' <= c <= 'Z' then (c as int + 32) as char else c
  }

  /** String.prototype.toLowerCase on the ASCII letters. */
  function Lower(s: string): (r: string)
    ensures |r| == |s|
  {
    seq(|s|, i requires 0 <= i < |s| => LowerChar(s[i]))
  }

  /** `String.replace(/[...]/g, "\\$&")`: a backslash in front of every
      character of `specials`. */
  function Escape(s: string, specials: set<char>): (r: string)
    ensures |r| >= |s|
  {
    if s == [] then []
    else (if s[0] in specials then ['\\', s[0]] else [s[0]]) + Escape(s[1..], specials)
  }

  /** One element of a LIKE pattern as PostgreSQL reads it, with the
      backslash as escape character. */
  datatype LikeToken = Lit(c: char) | AnyOne | AnyRun

  function LikeTokens(p: string): seq<LikeToken>
    decreases |p|
  {
    if p == [] then []
    else if p[0] == '\\' && |p| >= 2 then [Lit(p[1])] + LikeTokens(p[2..])
    else if p[0] == '%' then [AnyRun] + LikeTokens(p[1..])
    else if p[0] == '_' then [AnyOne] + LikeTokens(p[1..])
    else [Lit(p[0])] + LikeTokens(p[1..])
  }

  /** The tokens that match exactly the characters of `s`. */
  function Literal(s: string): (r: seq<LikeToken>)
    ensures |r| == |s|
  {
    seq(|s|, i requires 0 <= i < |s| => Lit(s[i]))
  }

  /** A search term placed between two `%` wildcards: "contains". */
  function ContainsPattern(k: string): string {
    "%" + k + "%"
  }

  const LikeSpecials: set<char> := {'%', '_', '\\'}

  /** Escaping `%`, `_` and the backslash makes every character of the
      term a literal, whatever follows it in the pattern. */
  lemma {:induction false} EscapedIsLiteral(s: string, rest: string)
    ensures LikeTokens(Escape(s, LikeSpecials) + rest) == Literal(s) + LikeTokens(rest)
  {
    if s != [] {
      var x := Escape(s[1..], LikeSpecials) + rest;
      var head := if s[0] in LikeSpecials then ['\\', s[0]] else [s[0]];
      calc {
        LikeTokens(Escape(s, LikeSpecials) + rest);
        { assert Escape(s, LikeSpecials) + rest == head + x; }
        LikeTokens(head + x);
        { EscapedHead(s[0], x); }
        [Lit(s[0])] + LikeTokens(x);
        { EscapedIsLiteral(s[1..], rest); }
        [Lit(s[0])] + (Literal(s[1..]) + LikeTokens(rest));
        { assert Literal(s) == [Lit(s[0])] + Literal(s[1..]); }
        Literal(s) + LikeTokens(rest);
      }
    } else {
      assert Literal(s) == [];
      assert Escape(s, LikeSpecials) + rest == rest;
    }
  }

  /** One escaped character reads as that character. */
  lemma EscapedHead(c: char, x: string)
    ensures LikeTokens((if c in LikeSpecials then ['\\', c] else [c]) + x) == [Lit(c)] + LikeTokens(x)
  {
    if c in LikeSpecials {
      assert (['\\', c] + x)[2..] == x;
    } else {
      assert ([c] + x)[1..] == x;
    }
  }

  /** With the three characters escaped, the contains-pattern matches the
      search term literally, between two unbounded runs. */
  lemma ContainsPatternIsLiteral(s: string)
    ensures LikeTokens(ContainsPattern(Escape(s, LikeSpecials))) == [AnyRun] + Literal(s) + [AnyRun]
  {
    var e := Escape(s, LikeSpecials);
    assert ContainsPattern(e) == "%" + (e + "%");
    assert ("%" + (e + "%"))[1..] == e + "%";
    EscapedIsLiteral(s, "%");
    assert LikeTokens("%") == [AnyRun];
  }

  /** Whether the tokens of a LIKE pattern match the whole of `s`. */
  predicate TokensMatch(ts: seq<LikeToken>, s: string)
    decreases |ts| + |s|
  {
    if ts == [] then s == []
    else match ts[0]
      case Lit(c) => s != [] && s[0] == c && TokensMatch(ts[1..], s[1..])
      case AnyOne => s != [] && TokensMatch(ts[1..], s[1..])
      case AnyRun => TokensMatch(ts[1..], s) || (s != [] && TokensMatch(ts, s[1..]))
  }

  /** `s` holds `k` starting at position `i`. */
  predicate OccursAt(s: string, k: string, i: int) {
    0 <= i <= |s| - |k| && s[i..i + |k|] == k
  }

  /** `s` holds `k` at some position. */
  predicate Contains(s: string, k: string) {
    exists i :: 0 <= i <= |s| && OccursAt(s, k, i)
  }

  lemma {:induction false} AnyRunMatchesAll(s: string)
    ensures TokensMatch([AnyRun], s)
  {
    if s != [] {
      AnyRunMatchesAll(s[1..]);
    }
  }

  /** A literal followed by a run matches exactly the strings that start
      with the literal. */
  lemma {:induction false} LiteralPrefixMatch(k: string, s: string)
    ensures TokensMatch(Literal(k) + [AnyRun], s) <==> |k| <= |s| && s[..|k|] == k
  {
    if k == [] {
      assert Literal(k) + [AnyRun] == [AnyRun];
      AnyRunMatchesAll(s);
    } else {
      var ts := Literal(k) + [AnyRun];
      assert ts[1..] == Literal(k[1..]) + [AnyRun];
      if s != [] {
        LiteralPrefixMatch(k[1..], s[1..]);
        if |k| <= |s| && s[..|k|] == k {
          assert s[1..][..|k| - 1] == k[1..];
        }
        if |k| <= |s| && s[0] == k[0] && s[1..][..|k| - 1] == k[1..] {
          assert s[..|k|] == [s[0]] + s[1..][..|k| - 1];
          assert k == [k[0]] + k[1..];
        }
      }
    }
  }

  /** A leading run matches exactly when the rest matches some suffix. */
  lemma {:induction false} LeadingRunMatch(t: seq<LikeToken>, s: string)
    ensures TokensMatch([AnyRun] + t, s) <==> exists i :: 0 <= i <= |s| && TokensMatch(t, s[i..])
  {
    var ts := [AnyRun] + t;
    assert ts[1..] == t;
    assert s[0..] == s;
    if s != [] {
      LeadingRunMatch(t, s[1..]);
      if exists i :: 0 <= i <= |s| && TokensMatch(t, s[i..]) {
        var i :| 0 <= i <= |s| && TokensMatch(t, s[i..]);
        if i > 0 {
          assert s[1..][i - 1..] == s[i..];
        }
      }
      if exists i :: 0 <= i <= |s| - 1 && TokensMatch(t, s[1..][i..]) {
        var i :| 0 <= i <= |s| - 1 && TokensMatch(t, s[1..][i..]);
        assert s[1..][i..] == s[i + 1..];
      }
    }
  }

  /** The contains-pattern of a literal term matches exactly the values
      that contain the term. */
  lemma ContainsMatch(k: string, s: string)
    ensures TokensMatch([AnyRun] + Literal(k) + [AnyRun], s) <==> Contains(s, k)
  {
    assert [AnyRun] + Literal(k) + [AnyRun] == [AnyRun] + (Literal(k) + [AnyRun]);
    LeadingRunMatch(Literal(k) + [AnyRun], s);
    if Contains(s, k) {
      var i :| 0 <= i <= |s| && OccursAt(s, k, i);
      LiteralPrefixMatch(k, s[i..]);
      assert s[i..][..|k|] == s[i..i + |k|];
    }
    if exists i :: 0 <= i <= |s| && TokensMatch(Literal(k) + [AnyRun], s[i..]) {
      var i :| 0 <= i <= |s| && TokensMatch(Literal(k) + [AnyRun], s[i..]);
      LiteralPrefixMatch(k, s[i..]);
      assert s[i..][..|k|] == s[i..i + |k|];
      assert OccursAt(s, k, i);
    }
  }

  /** The order of an ORDER BY on a text column, taken character by
      character on code points: a prefix comes first. */
  predicate LexLe(a: string, b: string) {
    a == [] || (b != [] && (a[0] < b[0] || (a[0] == b[0] && LexLe(a[1..], b[1..]))))
  }

  lemma {:induction false} LexLeTotal(a: string, b: string)
    ensures LexLe(a, b) || LexLe(b, a)
  {
    if a != [] && b != [] && a[0] == b[0] {
      LexLeTotal(a[1..], b[1..]);
    }
  }

  lemma {:induction false} LexLeTransitive(a: string, b: string, c: string)
    requires LexLe(a, b) && LexLe(b, c)
    ensures LexLe(a, c)
  {
    if a != [] && a[0] == b[0] && b[0] == c[0] {
      LexLeTransitive(a[1..], b[1..], c[1..]);
    }
  }

  /** Two strings each ordered before the other are equal. */
  lemma {:induction false} LexLeAntisymmetric(a: string, b: string)
    requires LexLe(a, b) && LexLe(b, a)
    ensures a == b
  {
    if a != [] {
      LexLeAntisymmetric(a[1..], b[1..]);
      assert a == [a[0]] + a[1..] && b == [b[0]] + b[1..];
    }
  }

  /** The parts separated by `sep`, as Array.prototype.join. */
  function Join(parts: seq<string>, sep: string): string {
    if parts == [] then ""
    else if |parts| == 1 then parts[0]
    else parts[0] + sep + Join(parts[1..], sep)
  }

  const Digits: string := "0123456789"

  predicate IsDigit(c: char) {
    '0' <= c <= '9'
  }

  predicate AllDigits(s: string) {
    forall i :: 0 <= i < |s| ==> IsDigit(s[i])
  }

  function DigitChar(d: nat): (c: char)
    requires d < 10
    ensures IsDigit(c) && c as int - '0' as int == d
  {
    Digits[d]
  }

  /** Number.prototype.toString on a non-negative integer. */
  function Decimal(n: nat): (r: string)
    ensures r != [] && AllDigits(r)
    decreases n
  {
    if n < 10 then [DigitChar(n)] else Decimal(n / 10) + [DigitChar(n % 10)]
  }

  /** The number a string of decimal digits denotes. */
  function DecimalValue(s: string): nat
    requires AllDigits(s)
  {
    if s == [] then 0 else DecimalValue(s[..|s| - 1]) * 10 + (s[|s| - 1] as int - '0' as int)
  }

  /** Rendering a number in decimal loses nothing. */
  lemma {:induction false} DecimalRoundTrip(n: nat)
    ensures DecimalValue(Decimal(n)) == n
    decreases n
  {
    if n >= 10 {
      DecimalRoundTrip(n / 10);
      var d := Decimal(n);
      assert d[..|d| - 1] == Decimal(n / 10);
    }
  }

  function Pow10(k: nat): (r: nat)
    ensures r >= 1
  {
    if k == 0 then 1 else 10 * Pow10(k - 1)
  }

  /** A number with k digits renders as exactly k characters. */
  lemma {:induction false} DecimalLength(n: nat, k: nat)
    requires k >= 1 && Pow10(k - 1) <= n < Pow10(k)
    ensures |Decimal(n)| == k
    decreases k
  {
    if k > 1 {
      assert n >= 10;
      DecimalLength(n / 10, k - 1);
    } else {
      assert n < 10;
    }
  }
}
