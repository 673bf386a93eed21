/** The string operations of the Kotlin standard library that the plugin
    relies on: `String.replace(old, new)`, `split(",")` and `Int.toString()`;
    `Join` is not used by the plugin, it is the inverse of `Split` that states
    what splitting keeps. */
module Text {

  /** `key` occurs in `s` starting at index `i`. */
  predicate OccursAt(s: string, key: string, i: nat) {
    i + |key| <= |s| && s[i..i + |key|] == key
  }

  ghost predicate Contains(s: string, key: string) {
    exists i: nat :: OccursAt(s, key, i)
  }

  /** No character of `value` occurs anywhere in `key`. */
  predicate SharesNoChar(value: string, key: string) {
    forall i, j :: 0 <= i < |value| && 0 <= j < |key| ==> value[i] != key[j]
  }

  /** Replaces every occurrence of `key`, scanning left to right and never
      re-examining replaced text (no overlapping matches). */
  function ReplaceAll(s: string, key: string, value: string): string
    requires |key| > 0
    decreases |s|
  {
    if |s| < |key| then s
    else if s[..|key|] == key then value + ReplaceAll(s[|key|..], key, value)
    else [s[0]] + ReplaceAll(s[1..], key, value)
  }

  /** Text without the key is left as it is. */
  lemma {:induction false} ReplaceAllWithoutKey(s: string, key: string, value: string)
    requires |key| > 0
    requires !Contains(s, key)
    ensures ReplaceAll(s, key, value) == s
    decreases |s|
  {
    if |s| >= |key| {
      assert !OccursAt(s, key, 0);
      forall i: nat ensures !OccursAt(s[1..], key, i) {
        assert !OccursAt(s, key, i + 1);
        if i + |key| <= |s| - 1 {
          assert s[1..][i..i + |key|] == s[i + 1..i + 1 + |key|];
        }
      }
      ReplaceAllWithoutKey(s[1..], key, value);
    }
  }

  /** Replacing the key by itself changes nothing. */
  lemma {:induction false} ReplaceAllBySelf(s: string, key: string)
    requires |key| > 0
    ensures ReplaceAll(s, key, key) == s
    decreases |s|
  {
    if |s| < |key| {
    } else if s[..|key|] == key {
      ReplaceAllBySelf(s[|key|..], key);
      assert s == s[..|key|] + s[|key|..];
    } else {
      ReplaceAllBySelf(s[1..], key);
      assert s == [s[0]] + s[1..];
    }
  }

  /** A prefix of the output made only of characters of the key (so holding
      no replacement text) is a prefix of the input. */
  lemma {:induction false} KeyCharPrefixUnchanged(s: string, key: string, value: string, n: nat)
    requires |key| > 0 && |value| > 0 && SharesNoChar(value, key)
    requires n <= |ReplaceAll(s, key, value)|
    ensures (forall t :: 0 <= t < n ==> ReplaceAll(s, key, value)[t] in key) ==>
              n <= |s| && ReplaceAll(s, key, value)[..n] == s[..n]
    decreases |s|
  {
    var r := ReplaceAll(s, key, value);
    if n == 0 || |s| < |key| {
    } else if s[..|key|] == key {
      assert r[0] == value[0];
      assert forall j :: 0 <= j < |key| ==> value[0] != key[j];
      assert r[0] !in key;
    } else {
      var rest := ReplaceAll(s[1..], key, value);
      assert r == [s[0]] + rest;
      KeyCharPrefixUnchanged(s[1..], key, value, n - 1);
      if forall t :: 0 <= t < n ==> r[t] in key {
        forall t | 0 <= t < n - 1 ensures rest[t] in key {
          assert rest[t] == r[t + 1];
        }
        assert r[..n] == [s[0]] + rest[..n - 1];
        assert s[..n] == [s[0]] + s[1..][..n - 1];
      }
    }
  }

  /** When the replacement text is non-empty and shares no character with
      the key, no occurrence of the key survives, not even one straddling a
      replacement. */
  lemma {:induction false} ReplaceAllRemovesKey(s: string, key: string, value: string)
    requires |key| > 0 && |value| > 0 && SharesNoChar(value, key)
    ensures !Contains(ReplaceAll(s, key, value), key)
    decreases |s|
  {
    var r := ReplaceAll(s, key, value);
    if |s| < |key| {
    } else if s[..|key|] == key {
      var rest := ReplaceAll(s[|key|..], key, value);
      ReplaceAllRemovesKey(s[|key|..], key, value);
      assert r == value + rest;
      forall i: nat ensures !OccursAt(r, key, i) {
        if i + |key| <= |r| {
          if i < |value| {
            assert r[i..i + |key|][0] == value[i];
            assert value[i] != key[0];
          } else {
            assert r[i..i + |key|] == rest[i - |value|..i - |value| + |key|];
            assert !OccursAt(rest, key, i - |value|);
          }
        }
      }
    } else {
      var rest := ReplaceAll(s[1..], key, value);
      ReplaceAllRemovesKey(s[1..], key, value);
      assert r == [s[0]] + rest;
      forall i: nat ensures !OccursAt(r, key, i) {
        if i + |key| <= |r| {
          if i == 0 {
            KeyCharPrefixUnchanged(s, key, value, |key|);
            if forall t :: 0 <= t < |key| ==> r[t] in key {
              assert r[..|key|] == s[..|key|];
            } else {
              var t :| 0 <= t < |key| && r[t] !in key;
              assert r[..|key|][t] == r[t];
            }
          } else {
            assert r[i..i + |key|] == rest[i - 1..i - 1 + |key|];
            assert !OccursAt(rest, key, i - 1);
          }
        }
      }
    }
  }

  /** Kotlin's `split(sep)`: every separator ends a segment, and empty
      segments (leading, inner and trailing) are kept. */
  function Split(s: string, sep: char): (parts: seq<string>)
    ensures |parts| >= 1
    ensures forall i :: 0 <= i < |parts| ==> sep !in parts[i]
    decreases |s|
  {
    if s == [] then [[]]
    else
      var rest := Split(s[1..], sep);
      if s[0] == sep then [[]] + rest
      else [[s[0]] + rest[0]] + rest[1..]
  }

  /** The segments with the separator between them: the inverse of Split. */
  function Join(parts: seq<string>, sep: char): string
  {
    if |parts| == 0 then []
    else if |parts| == 1 then parts[0]
    else parts[0] + [sep] + Join(parts[1..], sep)
  }

  /** Splitting loses nothing: joining the segments restores the input. */
  lemma {:induction false} JoinSplit(s: string, sep: char)
    ensures Join(Split(s, sep), sep) == s
    decreases |s|
  {
    if s != [] {
      var rest := Split(s[1..], sep);
      JoinSplit(s[1..], sep);
      if s[0] == sep {
        assert Split(s, sep) == [[]] + rest;
        assert ([[]] + rest)[1..] == rest;
      } else {
        var parts := [[s[0]] + rest[0]] + rest[1..];
        assert Split(s, sep) == parts;
        if |rest| == 1 {
          assert Join(parts, sep) == [s[0]] + rest[0];
        } else {
          assert parts[1..] == rest[1..];
          assert Join(rest, sep) == rest[0] + [sep] + Join(rest[1..], sep);
        }
      }
    }
  }

  /** Prepending separator-free text extends the first segment. */
  lemma {:induction false} SplitPrepend(p: string, t: string, sep: char)
    requires sep !in p
    ensures Split(p + t, sep) == [p + Split(t, sep)[0]] + Split(t, sep)[1..]
    decreases |p|
  {
    if p != [] {
      var parts := Split(t, sep);
      SplitPrepend(p[1..], t, sep);
      var rest := Split(p[1..] + t, sep);
      assert rest == [p[1..] + parts[0]] + parts[1..];
      assert (p + t)[1..] == p[1..] + t;
      assert (p + t)[0] == p[0] && p[0] != sep;
      assert Split(p + t, sep) == [[p[0]] + rest[0]] + rest[1..];
      assert [p[0]] + (p[1..] + parts[0]) == p + parts[0];
    } else {
      var parts := Split(t, sep);
      assert p + t == t;
      assert p + parts[0] == parts[0];
      assert parts == [parts[0]] + parts[1..];
    }
  }

  /** Segments free of the separator are recovered by splitting their join. */
  lemma {:induction false} SplitJoin(parts: seq<string>, sep: char)
    requires |parts| >= 1
    requires forall i :: 0 <= i < |parts| ==> sep !in parts[i]
    ensures Split(Join(parts, sep), sep) == parts
    decreases |parts|
  {
    if |parts| == 1 {
      SplitPrepend(parts[0], [], sep);
      assert parts[0] + [] == parts[0];
    } else {
      var tail := Join(parts[1..], sep);
      SplitJoin(parts[1..], sep);
      SplitPrepend(parts[0], [sep] + tail, sep);
      assert parts[0] + [sep] + tail == parts[0] + ([sep] + tail);
      assert ([sep] + tail)[1..] == tail;
      assert Split([sep] + tail, sep) == [[]] + parts[1..];
      assert parts[0] + [] == parts[0];
      assert parts == [parts[0]] + parts[1..];
    }
  }

  predicate IsDigit(c: char) {
    '0' <= c <= '9'
  }

  function DigitChar(d: nat): (c: char)
    requires d < 10
    ensures IsDigit(c)
  {
    (('0' as int) + d) as char
  }

  /** Decimal digits of a natural number, most significant first, without
      leading zeros. */
  function Digits(n: nat): (s: string)
    ensures |s| >= 1
    ensures forall i :: 0 <= i < |s| ==> IsDigit(s[i])
    ensures s[0] == '0' <==> n == 0
    ensures n == 0 ==> s == "0"
    decreases n
  {
    if n < 10 then [DigitChar(n)] else Digits(n / 10) + [DigitChar(n % 10)]
  }

  /** `Int.toString()`: a minus sign for negative numbers, then the digits. */
  function Decimal(n: int): (s: string)
    ensures |s| >= 1
    ensures forall i :: 0 <= i < |s| ==> s[i] == '-' || IsDigit(s[i])
    ensures s[0] == '-' <==> n < 0
    ensures n < 0 ==> |s| >= 2 && s[1] != '0'
    ensures n >= 0 && |s| > 1 ==> s[0] != '0'
  {
    if n < 0 then "-" + Digits(-n) else Digits(n)
  }

  /** The number a string of digits denotes. */
  function DigitsValue(s: string): int
    requires forall i :: 0 <= i < |s| ==> IsDigit(s[i])
  {
    if s == [] then 0 else 10 * DigitsValue(s[..|s| - 1]) + ((s[|s| - 1] as int) - ('0' as int))
  }

  /** The number a decimal string denotes (the inverse of Decimal). */
  function DecimalValue(s: string): int
    requires |s| >= 1
    requires forall i :: 0 <= i < |s| ==> s[i] == '-' || IsDigit(s[i])
    requires forall i :: 1 <= i < |s| ==> IsDigit(s[i])
  {
    if s[0] == '-' then -DigitsValue(s[1..]) else DigitsValue(s)
  }

  lemma {:induction false} DigitsRoundTrip(n: nat)
    ensures DigitsValue(Digits(n)) == n
    decreases n
  {
    if n >= 10 {
      DigitsRoundTrip(n / 10);
      var s := Digits(n);
      assert s[..|s| - 1] == Digits(n / 10);
    }
  }

  /** The decimal form names the number exactly. */
  lemma DecimalRoundTrip(n: int)
    ensures forall i :: 1 <= i < |Decimal(n)| ==> IsDigit(Decimal(n)[i])
    ensures DecimalValue(Decimal(n)) == n
  {
    if n < 0 {
      DigitsRoundTrip(-n);
      assert Decimal(n)[1..] == Digits(-n);
    } else {
      DigitsRoundTrip(n);
    }
  }

  /** An upper-case letter of the ASCII range. */
  predicate IsUpper(c: char) {
    'A' <= c <= 'Z'
  }

  /** `toLowerCase` on the ASCII range: every capital letter becomes its
      small letter and every other character is kept. */
  function Lower(s: string): (r: string)
    ensures |r| == |s|
    ensures forall i :: 0 <= i < |s| ==> !IsUpper(r[i])
    ensures forall i :: 0 <= i < |s| && !IsUpper(s[i]) ==> r[i] == s[i]
    ensures forall i :: 0 <= i < |s| && IsUpper(s[i]) ==> r[i] as int == s[i] as int + 32
    decreases |s|
  {
    if s == [] then []
    else [if IsUpper(s[0]) then (s[0] as int + 32) as char else s[0]] + Lower(s[1..])
  }

  /** Folding twice is folding once. */
  lemma LowerIdempotent(s: string)
    ensures Lower(Lower(s)) == Lower(s)
  {
  }
}
