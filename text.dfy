/**
 * The string operations the router and the recording proxy rely on:
 * `String.prototype.split` and `Array.prototype.join` with a one-character
 * separator, the two anchored `replace` calls of `normalizeUrl`, the first-
 * occurrence `replace(":", "")` applied to parameter names, and the decimal
 * text JavaScript gives a numeric property key.
 */
module Text {

  /** Index of the first occurrence of `c` in `s`. */
  function IndexOf(s: string, c: char): (i: nat)
    requires c in s
    ensures i < |s| && s[i] == c
    ensures c !in s[..i]
  {
    if s[0] == c then 0
    else
      var j := IndexOf(s[1..], c);
      assert s[..j + 1] == [s[0]] + s[1..][..j];
      j + 1
  }

  /** `s.split(sep)`: the pieces between occurrences of `sep`, empty pieces kept. */
  function Split(s: string, sep: char): (parts: seq<string>)
    ensures |parts| >= 1
    ensures forall k :: 0 <= k < |parts| ==> sep !in parts[k]
    decreases |s|
  {
    if sep !in s then [s]
    else
      var i := IndexOf(s, sep);
      [s[..i]] + Split(s[i + 1..], sep)
  }

  /** `parts.join(sep)`. */
  function Join(parts: seq<string>, sep: char): string
  {
    if |parts| == 0 then ""
    else if |parts| == 1 then parts[0]
    else parts[0] + [sep] + Join(parts[1..], sep)
  }

  /** Joining the pieces of a split gives back the original string. */
  lemma {:induction false} JoinSplit(s: string, sep: char)
    ensures Join(Split(s, sep), sep) == s
    decreases |s|
  {
    if sep in s {
      var i := IndexOf(s, sep);
      var rest := Split(s[i + 1..], sep);
      var parts := [s[..i]] + rest;
      assert Split(s, sep) == parts;
      assert parts[0] == s[..i] && parts[1..] == rest && |parts| > 1;
      assert Join(rest, sep) == s[i + 1..] by {
        JoinSplit(s[i + 1..], sep);
      }
      assert Join(parts, sep) == s[..i] + [sep] + s[i + 1..];
      assert s == s[..i] + [sep] + s[i + 1..];
    }
  }

  /** Splitting a join of separator-free pieces gives back the pieces. */
  lemma {:induction false} SplitJoin(parts: seq<string>, sep: char)
    requires |parts| >= 1
    requires forall k :: 0 <= k < |parts| ==> sep !in parts[k]
    ensures Split(Join(parts, sep), sep) == parts
  {
    if |parts| > 1 {
      var head, rest := parts[0], parts[1..];
      var tail := Join(rest, sep);
      var s := Join(parts, sep);
      assert sep !in head;
      assert s == head + ([sep] + tail) by {
        assert s == head + [sep] + tail;
      }
      assert sep in s && IndexOf(s, sep) == |head| by {
        IndexOfPrefix(head, [sep] + tail, sep);
      }
      assert s[..|head|] == head && s[|head| + 1..] == tail;
      assert Split(tail, sep) == rest by {
        assert forall k :: 0 <= k < |rest| ==> sep !in rest[k] by {
          forall k | 0 <= k < |rest| ensures sep !in rest[k] {
            assert rest[k] == parts[k + 1];
          }
        }
        SplitJoin(rest, sep);
      }
      assert Split(s, sep) == [head] + Split(tail, sep);
      assert parts == [head] + rest;
    }
  }

  /** The first `sep` of `a + b` is the first of `b` when `a` holds none. */
  lemma IndexOfPrefix(a: string, b: string, sep: char)
    requires sep !in a && |b| > 0 && b[0] == sep
    ensures sep in a + b && IndexOf(a + b, sep) == |a|
  {
    var s := a + b;
    assert s[|a|] == sep;
    var i := IndexOf(s, sep);
    assert s[..|a|] == a;
  }

  /** True when `s` starts with `/` (the match of `/^\//`). */
  predicate LeadingSlash(s: string)
  {
    |s| > 0 && s[0] == '/'
  }

  /** True when `s` ends with `/` (the match of `/\/$/`, no multiline flag). */
  predicate TrailingSlash(s: string)
  {
    |s| > 0 && s[|s| - 1] == '/'
  }

  /**
   * `normalizeUrl`: drop one leading `/`, then drop one trailing `/` of what
   * is left. The result is the rest of the input after the optional leading
   * slash, with at most one final slash removed, and nothing else changed.
   */
  function NormalizeUrl(url: string): (r: string)
    ensures |url| - 2 <= |r| <= |url|
    ensures var rest := if LeadingSlash(url) then url[1..] else url;
            if TrailingSlash(rest) then r + "/" == rest else r == rest
  {
    var rest := if LeadingSlash(url) then url[1..] else url;
    if TrailingSlash(rest) then rest[..|rest| - 1] else rest
  }

  /** Each character of the result was in the URL, and `:` is kept or lost with it. */
  lemma NormalizeKeepsColons(url: string)
    ensures ':' in NormalizeUrl(url) <==> ':' in url
  {
    var rest := if LeadingSlash(url) then url[1..] else url;
    var r := NormalizeUrl(url);
    if ':' in url {
      var i :| 0 <= i < |url| && url[i] == ':';
      if LeadingSlash(url) {
        assert rest[i - 1] == ':';
        if TrailingSlash(rest) {
          assert (r + "/")[i - 1] == ':';
        }
      } else if TrailingSlash(rest) {
        assert (r + "/")[i] == ':';
      }
    }
  }

  /** `s.replace(c, "")` with a string pattern: only the first occurrence goes. */
  function RemoveFirst(s: string, c: char): (r: string)
    ensures c !in s ==> r == s
    ensures c in s ==> |r| == |s| - 1 && multiset(r) + multiset{c} == multiset(s)
    ensures c in s ==> exists i :: 0 <= i < |s| && s[i] == c && c !in s[..i] && r == s[..i] + s[i + 1..]
  {
    if c in s then
      var i := IndexOf(s, c);
      assert s == s[..i] + [c] + s[i + 1..];
      assert s[i] == c && c !in s[..i];
      s[..i] + s[i + 1..]
    else s
  }

  /** The character of a decimal digit. */
  function DigitChar(d: nat): (c: char)
    requires d < 10
    ensures '0' <= c <= '9' && (c - '0') as int == d
  {
    ('0' as int + d) as char
  }

  /** The value of a decimal digit character. */
  function DigitValue(c: char): nat
    requires '0' <= c <= '9'
  {
    (c - '0') as nat
  }

  /** The string JavaScript gives a non-negative integer property key, such as `99`. */
  function DecimalText(n: nat): (r: string)
    ensures |r| >= 1
    ensures forall k :: 0 <= k < |r| ==> '0' <= r[k] <= '9'
    ensures |r| > 1 ==> r[0] != '0'
  {
    if n < 10 then [DigitChar(n)] else DecimalText(n / 10) + [DigitChar(n % 10)]
  }

  /** Reads a string of decimal digits back as a number. */
  function DecimalValue(s: string): nat
    requires forall k :: 0 <= k < |s| ==> '0' <= s[k] <= '9'
  {
    if |s| == 0 then 0 else 10 * DecimalValue(s[..|s| - 1]) + DigitValue(s[|s| - 1])
  }

  /** Decimal text is read back as the number it was written from. */
  lemma {:induction false} DecimalRoundTrip(n: nat)
    ensures DecimalValue(DecimalText(n)) == n
  {
    if n >= 10 {
      DecimalRoundTrip(n / 10);
      var r := DecimalText(n);
      assert r == DecimalText(n / 10) + [DigitChar(n % 10)];
      assert r[..|r| - 1] == DecimalText(n / 10);
      assert DigitValue(r[|r| - 1]) == n % 10;
    }
  }
}
