/** String helpers the check-in code relies on: JavaScript's `Array.prototype.join`,
    `String.prototype.split` with a one-character separator, the decimal rendering of a
    number inside a template literal, and the ASCII case-insensitive substring search
    that a `/.../i` regular expression performs. */
module Text {

  /** `parts.join(sep)`: the pieces with `sep` between neighbours; `[].join(sep)` is "". */
  function Join(parts: seq<string>, sep: string): string
    decreases |parts|
  {
    if |parts| == 0 then ""
    else if |parts| == 1 then parts[0]
    else parts[0] + sep + Join(parts[1..], sep)
  }

  /** Total length of the pieces. */
  function TotalLength(parts: seq<string>): nat
    decreases |parts|
  {
    if parts == [] then 0 else |parts[0]| + TotalLength(parts[1..])
  }

  /** The joined text holds every character of every piece and one separator per gap. */
  lemma {:induction false} JoinLength(parts: seq<string>, sep: string)
    requires parts != []
    ensures |Join(parts, sep)| == TotalLength(parts) + (|parts| - 1) * |sep|
    decreases |parts|
  {
    if |parts| > 1 {
      JoinLength(parts[1..], sep);
    }
  }

  /** `s.split(c)`: the maximal runs between occurrences of `c`, empty runs kept, so that
      "" gives [""] and "a,,b" gives ["a", "", "b"]. */
  function Split(s: string, c: char): (parts: seq<string>)
    ensures |parts| >= 1
    ensures forall p :: p in parts ==> c !in p
    decreases |s|
  {
    if s == [] then [""]
    else
      var rest := Split(s[1..], c);
      if s[0] == c then [""] + rest
      else [[s[0]] + rest[0]] + rest[1..]
  }

  /** Splitting loses nothing: joining the pieces back with the separator gives `s`. */
  lemma {:induction false} JoinSplit(s: string, c: char)
    ensures Join(Split(s, c), [c]) == s
    decreases |s|
  {
    if s != [] {
      var rest := Split(s[1..], c);
      JoinSplit(s[1..], c);
      if s[0] == c {
        assert ([""] + rest)[1..] == rest;
        assert s == [s[0]] + s[1..];
      } else if |rest| == 1 {
        assert s == [s[0]] + s[1..];
      } else {
        var parts := [[s[0]] + rest[0]] + rest[1..];
        assert parts[1..] == rest[1..];
        assert Join(rest, [c]) == rest[0] + [c] + Join(rest[1..], [c]);
        assert s == [s[0]] + s[1..];
      }
    }
  }

  /** Splitting undoes joining when no piece contains the separator. */
  lemma {:induction false} SplitJoin(parts: seq<string>, c: char)
    requires parts != []
    requires forall p :: p in parts ==> c !in p
    ensures Split(Join(parts, [c]), c) == parts
    decreases TotalLength(parts), |parts|
  {
    var p := parts[0];
    if p == [] {
      if |parts| > 1 {
        var tail := Join(parts[1..], [c]);
        assert Join(parts, [c]) == [c] + tail;
        assert ([c] + tail)[1..] == tail;
        SplitJoin(parts[1..], c);
        assert parts == [""] + parts[1..];
      }
    } else {
      assert p[0] != c by { assert p[0] in p; }
      var shorter := [p[1..]] + parts[1..];
      assert shorter[1..] == parts[1..];
      assert Join(parts, [c]) == [p[0]] + Join(shorter, [c]) by {
        if |parts| > 1 {
          assert Join(shorter, [c]) == p[1..] + [c] + Join(parts[1..], [c]);
        }
        assert p == [p[0]] + p[1..];
      }
      forall q | q in shorter ensures c !in q {
        if q != p[1..] {
          assert q in parts[1..];
        }
      }
      SplitJoin(shorter, c);
      var s := Join(parts, [c]);
      assert s[1..] == Join(shorter, [c]);
      assert p == [p[0]] + shorter[0];
      assert parts == [p] + shorter[1..];
    }
  }

  /** How many times `c` occurs in `s`. */
  function Occurrences(s: string, c: char): nat
    decreases |s|
  {
    if s == [] then 0 else (if s[0] == c then 1 else 0) + Occurrences(s[1..], c)
  }

  /** There is one more piece than there are separators. */
  lemma {:induction false} SplitCount(s: string, c: char)
    ensures |Split(s, c)| == Occurrences(s, c) + 1
    decreases |s|
  {
    if s != [] {
      SplitCount(s[1..], c);
    }
  }

  /** The decimal digit for `d`. */
  function Digit(d: nat): char
    requires d < 10
  {
    "0123456789"[d]
  }

  /** The decimal notation of a non-negative integer, as a template literal renders it. */
  function NatToString(n: nat): (s: string)
    ensures |s| >= 1
    ensures forall i :: 0 <= i < |s| ==> '0' <= s[i] <= '9'
    ensures n > 0 ==> s[0] != '0'
    ensures n == 0 ==> s == "0"
    decreases n
  {
    if n < 10 then [Digit(n)] else NatToString(n / 10) + [Digit(n % 10)]
  }

  /** The value a string of decimal digits denotes. */
  function DigitsValue(s: string): nat
    requires forall i :: 0 <= i < |s| ==> '0' <= s[i] <= '9'
    decreases |s|
  {
    if s == [] then 0 else 10 * DigitsValue(s[..|s| - 1]) + (s[|s| - 1] - '0') as nat
  }

  /** Reading the rendered digits back gives the number: the rendering is faithful. */
  lemma {:induction false} NatToStringValue(n: nat)
    ensures DigitsValue(NatToString(n)) == n
    decreases n
  {
    var s := NatToString(n);
    if n < 10 {
      assert s[..0] == [];
    } else {
      NatToStringValue(n / 10);
      assert s[..|s| - 1] == NatToString(n / 10);
    }
  }

  /** The rendering of an integer, with a leading '-' when it is negative. */
  function IntToString(i: int): (s: string)
    ensures |s| >= 1
    ensures (s[0] == '-') <==> i < 0
    ensures forall k :: (if i < 0 then 1 else 0) <= k < |s| ==> '0' <= s[k] <= '9'
  {
    if i < 0 then "-" + NatToString(-i) else NatToString(i)
  }

  /** The digits after the sign denote the magnitude, with no leading zero. */
  lemma IntToStringValue(i: int)
    ensures var s := IntToString(i);
      var digits := if i < 0 then s[1..] else s;
      |digits| >= 1 && DigitsValue(digits) == (if i < 0 then -i else i) &&
      (i != 0 ==> digits[0] != '0') && (i == 0 ==> digits == "0")
  {
    var m: nat := if i < 0 then -i else i;
    var digits := NatToString(m);
    NatToStringValue(m);
    if i < 0 {
      assert IntToString(i) == "-" + digits;
      assert IntToString(i)[1..] == digits;
    } else {
      assert IntToString(i) == digits;
    }
  }

  /** ASCII lower-casing, the folding a non-Unicode `/.../i` expression applies. */
  function Lower(ch: char): char
  {
    if 'A' <= ch <= 'Z' then (ch as int + 32) as char else ch
  }

  /** Whether `t` (written in lower case) occurs in `s` when case is ignored. */
  function ContainsIgnoringCase(s: string, t: string): bool
    decreases |s|
  {
    if |t| > |s| then false
    else if MatchesAt(s, t) then true
    else s != [] && ContainsIgnoringCase(s[1..], t)
  }

  /** Whether `s` starts with `t`, case ignored; `|t| <= |s|` is required. */
  predicate MatchesAt(s: string, t: string)
    requires |t| <= |s|
  {
    forall i :: 0 <= i < |t| ==> Lower(s[i]) == t[i]
  }

  /** A match in a suffix is a match in the whole string. */
  lemma {:induction false} ContainsInSuffix(s: string, t: string, k: nat)
    requires k <= |s|
    requires ContainsIgnoringCase(s[k..], t)
    ensures ContainsIgnoringCase(s, t)
    decreases k
  {
    if k > 0 {
      assert s[1..][k - 1..] == s[k..];
      ContainsInSuffix(s[1..], t, k - 1);
      if !MatchesAt(s, t) {
        assert s != [];
      }
    }
  }

  /** A match of a longer pattern yields a match of any pattern it contains. */
  lemma {:induction false} ContainsInfix(s: string, long: string, short: string, off: nat)
    requires off + |short| <= |long|
    requires long[off..off + |short|] == short
    requires ContainsIgnoringCase(s, long)
    ensures ContainsIgnoringCase(s, short)
    decreases |s|
  {
    if MatchesAt(s, long) {
      var rest := s[off..];
      assert MatchesAt(rest, short) by {
        forall i | 0 <= i < |short| ensures Lower(rest[i]) == short[i] {
          assert rest[i] == s[off + i];
          assert long[off + i] == short[i];
        }
      }
      ContainsInSuffix(s, short, off);
    } else {
      ContainsInfix(s[1..], long, short, off);
      ContainsInSuffix(s, short, 1);
    }
  }
}
