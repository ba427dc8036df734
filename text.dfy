/** The parts of Python's str and int built-ins that the report pipeline
    relies on: str.strip, int(text), str(n), the `02d`, `<w` and `>w` format
    specifications, str.replace on one character, and str.join / str.split. */
module PyText {
  import opened Maybe

  /** ASCII whitespace as str.strip() and int() skip it: tab to carriage
      return, the four separators 0x1C..0x1F, and space. */
  predicate IsSpace(c: char) {
    (9 <= c as int <= 13) || (28 <= c as int <= 32)
  }

  predicate AllSpace(s: string) {
    forall k :: 0 <= k < |s| ==> IsSpace(s[k])
  }

  /** s without its leading whitespace. */
  function TrimLeft(s: string): (r: string)
    ensures |r| <= |s| && r == s[|s| - |r|..]
    ensures AllSpace(s[..|s| - |r|])
    ensures r != [] ==> !IsSpace(r[0])
  {
    if s != [] && IsSpace(s[0]) then TrimLeft(s[1..]) else s
  }

  /** s without its trailing whitespace. */
  function TrimRight(s: string): (r: string)
    ensures |r| <= |s| && r == s[..|r|]
    ensures AllSpace(s[|r|..])
    ensures r != [] ==> !IsSpace(r[|r| - 1])
  {
    if s != [] && IsSpace(s[|s| - 1]) then TrimRight(s[..|s| - 1]) else s
  }

  /** str.strip(): a slice of s that neither starts nor ends with whitespace,
      and is empty exactly when s is all whitespace. */
  function Strip(s: string): (r: string)
    ensures r == [] <==> AllSpace(s)
    ensures r != [] ==> !IsSpace(r[0]) && !IsSpace(r[|r| - 1])
    ensures |r| <= |s|
  {
    var l := TrimLeft(s);
    var r := TrimRight(l);
    assert r == [] && AllSpace(l) ==> AllSpace(s) by {
      if r == [] && AllSpace(l) {
        assert s == s[..|s| - |l|] + l;
      }
    }
    assert r == [] ==> AllSpace(l) by {
      if r == [] {
        assert l[|r|..] == l;
      }
    }
    r
  }

  /** A string with no whitespace at either end is its own strip. */
  lemma StripTight(s: string)
    requires s != [] ==> !IsSpace(s[0]) && !IsSpace(s[|s| - 1])
    ensures Strip(s) == s
  {
  }

  /** Whitespace around a tight string is exactly what strip removes. */
  lemma {:induction false} StripAround(pre: string, s: string, post: string)
    requires AllSpace(pre) && AllSpace(post)
    requires s != [] && !IsSpace(s[0]) && !IsSpace(s[|s| - 1])
    ensures Strip(pre + s + post) == s
  {
    TrimLeftSpaces(pre, s + post);
    assert pre + s + post == pre + (s + post);
    TrimRightSpaces(s, post);
  }

  lemma {:induction false} TrimLeftSpaces(pre: string, t: string)
    requires AllSpace(pre) && t != [] && !IsSpace(t[0])
    ensures TrimLeft(pre + t) == t
  {
    if pre != [] {
      assert (pre + t)[1..] == pre[1..] + t;
      TrimLeftSpaces(pre[1..], t);
    }
  }

  lemma {:induction false} TrimRightSpaces(t: string, post: string)
    requires AllSpace(post) && t != [] && !IsSpace(t[|t| - 1])
    ensures TrimRight(t + post) == t
  {
    if post != [] {
      assert (t + post)[..|t + post| - 1] == t + post[..|post| - 1];
      TrimRightSpaces(t, post[..|post| - 1]);
    } else {
      assert t + post == t;
    }
  }

  /** Right-aligning a tight string and stripping it gives the string back. */
  lemma PadLeftStrips(s: string, w: nat)
    requires s != [] && !IsSpace(s[0]) && !IsSpace(s[|s| - 1])
    ensures Strip(PadLeft(s, w)) == s
  {
    var pad := if |s| < w then Spaces(w - |s|) else [];
    assert PadLeft(s, w) == pad + s + [];
    StripAround(pad, s, []);
  }

  /** Stripping twice is stripping once. */
  lemma StripIdempotent(s: string)
    ensures Strip(Strip(s)) == Strip(s)
  {
    StripTight(Strip(s));
  }

  predicate IsDigit(c: char) {
    '0' <= c <= '9'
  }

  predicate AllDigits(s: string) {
    forall k :: 0 <= k < |s| ==> IsDigit(s[k])
  }

  function DigitValue(c: char): (n: nat)
    requires IsDigit(c)
    ensures n < 10
  {
    c as int - '0' as int
  }

  function DigitChar(n: nat): (c: char)
    requires n < 10
    ensures IsDigit(c) && DigitValue(c) == n
  {
    ('0' as int + n) as char
  }

  /** The value of a decimal numeral, most significant digit first. */
  function DigitsValue(s: string): nat
    requires AllDigits(s)
  {
    if s == [] then 0 else DigitsValue(s[..|s| - 1]) * 10 + DigitValue(s[|s| - 1])
  }

  /** Appending one digit shifts the value one place. */
  lemma DigitsValueSnoc(s: string, c: char)
    requires AllDigits(s) && IsDigit(c)
    ensures AllDigits(s + [c]) && DigitsValue(s + [c]) == DigitsValue(s) * 10 + DigitValue(c)
  {
    assert (s + [c])[..|s|] == s;
  }

  /** Leading zeros do not change a numeral's value. */
  lemma {:induction false} DigitsValueLeadingZero(s: string)
    requires AllDigits(s)
    ensures AllDigits("0" + s) && DigitsValue("0" + s) == DigitsValue(s)
  {
    if s != [] {
      var init := s[..|s| - 1];
      DigitsValueLeadingZero(init);
      assert ("0" + s)[..|s|] == "0" + init;
    }
  }

  /** str(n) for a natural number: a numeral without leading zeros whose
      value is n. */
  function NatText(n: nat): (r: string)
    ensures r != [] && AllDigits(r) && DigitsValue(r) == n
    ensures r[0] != '0' || n == 0
    ensures |r| == 1 <==> n < 10
    ensures n < 100 ==> |r| <= 2
    ensures n < 1000 ==> |r| <= 3
    ensures 10 <= n < 100 ==> |r| == 2
    ensures 100 <= n < 1000 ==> |r| == 3
    ensures 1000 <= n < 10000 ==> |r| == 4
  {
    if n < 10 then [DigitChar(n)]
    else
      var init := NatText(n / 10);
      DigitsValueSnoc(init, DigitChar(n % 10));
      init + [DigitChar(n % 10)]
  }

  /** str(n) for any integer. */
  function IntText(n: int): string {
    if n < 0 then "-" + NatText(-n) else NatText(n)
  }

  /** An optional sign followed by at least one digit. */
  predicate IsNumeral(t: string) {
    if t != [] && (t[0] == '-' || t[0] == '+') then t[1..] != [] && AllDigits(t[1..])
    else t != [] && AllDigits(t)
  }

  /** Python's int(text): surrounding whitespace is ignored, then an optional
      sign and one or more decimal digits; anything else is a ValueError,
      here None. */
  function ParseInt(text: string): (r: Option<int>)
    ensures r.Some? <==> IsNumeral(Strip(text))
  {
    NumeralValue(Strip(text))
  }

  /** The value of an optionally signed numeral with nothing around it. */
  function NumeralValue(t: string): (r: Option<int>)
  {
    if !IsNumeral(t) then None
    else if t[0] == '-' then Some(-(DigitsValue(t[1..]) as int))
    else if t[0] == '+' then Some(DigitsValue(t[1..]) as int)
    else Some(DigitsValue(t) as int)
  }

  /** int() ignores the whitespace around its argument. */
  lemma ParseIntIgnoresStrip(text: string)
    ensures ParseInt(Strip(text)) == ParseInt(text)
  {
    StripIdempotent(text);
  }

  /** A blank or all-whitespace string is not a number. */
  lemma ParseIntBlank(text: string)
    requires AllSpace(text)
    ensures ParseInt(text) == None
  {
  }

  /** int(str(n)) == n, with any whitespace around the numeral. */
  lemma ParseIntText(n: int, pre: string, post: string)
    requires AllSpace(pre) && AllSpace(post)
    ensures ParseInt(pre + IntText(n) + post) == Some(n)
  {
    var t := IntText(n);
    assert !IsSpace(t[0]) && !IsSpace(t[|t| - 1]);
    StripAround(pre, t, post);
    NumeralValueIntText(n);
  }

  lemma NumeralValueIntText(n: int)
    ensures NumeralValue(IntText(n)) == Some(n)
  {
    if n < 0 {
      assert IntText(n)[1..] == NatText(-n);
    }
  }

  /** f"{n:02d}" for a natural number: zero-padded to at least two digits. */
  function Pad2(n: nat): (r: string)
    ensures AllDigits(r) && DigitsValue(r) == n
    ensures n < 100 ==> |r| == 2
  {
    if n < 10 then
      DigitsValueLeadingZero(NatText(n));
      "0" + NatText(n)
    else NatText(n)
  }

  function Spaces(n: nat): (r: string)
    ensures |r| == n && AllSpace(r)
    ensures forall k :: 0 <= k < n ==> r[k] == ' '
  {
    seq(n, _ => ' ')
  }

  /** f"{s:>w}": s right-aligned in a field of width w; never truncated. */
  function PadLeft(s: string, w: nat): (r: string)
    ensures |r| == if |s| < w then w else |s|
    ensures r[|r| - |s|..] == s
    ensures forall k :: 0 <= k < |r| - |s| ==> r[k] == ' '
  {
    if |s| < w then Spaces(w - |s|) + s else s
  }

  /** Padding on the left adds only spaces. */
  lemma PadLeftAvoids(s: string, w: nat, c: char)
    requires c != ' ' && c !in s
    ensures c !in PadLeft(s, w)
  {
    if |s| < w {
      assert PadLeft(s, w) == Spaces(w - |s|) + s;
    }
  }

  /** f"{s:<w}": s left-aligned in a field of width w; never truncated. */
  function PadRight(s: string, w: nat): (r: string)
    ensures |r| == if |s| < w then w else |s|
    ensures r[..|s|] == s
    ensures forall k :: |s| <= k < |r| ==> r[k] == ' '
  {
    if |s| < w then s + Spaces(w - |s|) else s
  }

  /** s.replace(a, b) for single characters a and b. */
  function ReplaceChar(s: string, a: char, b: char): (r: string)
    ensures |r| == |s|
    ensures forall k :: 0 <= k < |s| ==> r[k] == (if s[k] == a then b else s[k])
  {
    seq(|s|, k requires 0 <= k < |s| => if s[k] == a then b else s[k])
  }

  /** A character in neither the parts nor the separator is not in their
      join. */
  lemma {:induction false} JoinAvoids(parts: seq<string>, sep: string, c: char)
    requires c !in sep && forall k :: 0 <= k < |parts| ==> c !in parts[k]
    ensures c !in Join(parts, sep)
  {
    if |parts| > 1 {
      JoinAvoids(parts[..|parts| - 1], sep, c);
    }
  }

  /** Three parts joined. */
  lemma JoinThree(a: string, b: string, c: string, sep: string)
    ensures Join([a, b, c], sep) == a + sep + b + sep + c
  {
    assert [a, b, c][..2] == [a, b];
    assert [a, b][..1] == [a];
    assert Join([a, b], sep) == a + sep + b;
  }

  /** sep.join(parts). */
  function Join(parts: seq<string>, sep: string): string
  {
    if parts == [] then ""
    else if |parts| == 1 then parts[0]
    else Join(parts[..|parts| - 1], sep) + sep + parts[|parts| - 1]
  }

  /** s.split(c): the pieces of s between occurrences of c, read character by
      character. */
  function Split(s: string, c: char): (r: seq<string>)
    ensures |r| >= 1
  {
    if s == [] then [""]
    else
      var pieces := Split(s[..|s| - 1], c);
      var last := s[|s| - 1];
      if last == c then pieces + [""]
      else pieces[..|pieces| - 1] + [pieces[|pieces| - 1] + [last]]
  }

  /** A string without the separator splits into itself. */
  lemma {:induction false} SplitWhole(s: string, c: char)
    requires c !in s
    ensures Split(s, c) == [s]
  {
    if s != [] {
      var init := s[..|s| - 1];
      SplitWhole(init, c);
      assert init + [s[|s| - 1]] == s;
    }
  }

  /** A separator ends the pieces of what is before it and starts those of
      what is after it. */
  lemma {:induction false} SplitAtSeparator(a: string, c: char, b: string)
    ensures Split(a + [c] + b, c) == Split(a, c) + Split(b, c)
  {
    if b == [] {
      assert a + [c] + b == a + [c];
      assert (a + [c])[..|a|] == a;
    } else {
      var init := b[..|b| - 1];
      var x := b[|b| - 1];
      var s := a + [c] + b;
      SplitAtSeparator(a, c, init);
      assert s[..|s| - 1] == a + [c] + init;
      assert s[|s| - 1] == x;
      SplitLast(s, c);
      SplitLast(b, c);
      assert b[..|b| - 1] == init;
      PiecesExtend(Split(a, c), Split(init, c), c, x);
    }
  }

  /** Extending the pieces of a + [c] + init by one character is extending
      the pieces of init. */
  lemma PiecesExtend(left: seq<string>, right: seq<string>, c: char, x: char)
    requires |right| >= 1
    ensures var p := left + right;
      (if x == c then p + [""] else p[..|p| - 1] + [p[|p| - 1] + [x]])
        == left + (if x == c then right + [""] else right[..|right| - 1] + [right[|right| - 1] + [x]])
  {
    var p := left + right;
    if x != c {
      assert p[..|p| - 1] == left + right[..|right| - 1];
    }
  }

  /** Split unfolded once: the last character either starts a new piece or
      extends the last one. */
  lemma SplitLast(s: string, c: char)
    requires s != []
    ensures var p := Split(s[..|s| - 1], c);
      Split(s, c) == if s[|s| - 1] == c then p + [""] else p[..|p| - 1] + [p[|p| - 1] + [s[|s| - 1]]]
  {
  }

  /** The concatenation of a sequence of line lists. */
  function Flatten(xss: seq<seq<string>>): seq<string>
  {
    if xss == [] then [] else Flatten(xss[..|xss| - 1]) + xss[|xss| - 1]
  }

  /** Splitting a joined text gives the pieces of every part, in order. */
  lemma {:induction false} SplitJoin(parts: seq<string>, c: char)
    requires parts != []
    ensures Split(Join(parts, [c]), c) == Flatten(seq(|parts|, i requires 0 <= i < |parts| => Split(parts[i], c)))
  {
    var pieces := seq(|parts|, i requires 0 <= i < |parts| => Split(parts[i], c));
    if |parts| == 1 {
      assert Flatten(pieces) == Flatten([]) + pieces[0];
    } else {
      var init := parts[..|parts| - 1];
      SplitJoin(init, c);
      SplitAtSeparator(Join(init, [c]), c, parts[|parts| - 1]);
      assert pieces[..|pieces| - 1] == seq(|init|, i requires 0 <= i < |init| => Split(init[i], c));
    }
  }

  /** Splitting a joined text on the separator gives the parts back, provided
      no part contains the separator. */
  lemma SplitJoinLines(parts: seq<string>, c: char)
    requires parts != []
    requires forall k :: 0 <= k < |parts| ==> c !in parts[k]
    ensures Split(Join(parts, [c]), c) == parts
  {
    SplitJoin(parts, c);
    var pieces := seq(|parts|, i requires 0 <= i < |parts| => Split(parts[i], c));
    forall i | 0 <= i < |parts| ensures pieces[i] == [parts[i]] {
      SplitWhole(parts[i], c);
    }
    FlattenSingletons(parts, pieces);
  }

  lemma {:induction false} FlattenSingletons(parts: seq<string>, pieces: seq<seq<string>>)
    requires |pieces| == |parts| && forall i :: 0 <= i < |parts| ==> pieces[i] == [parts[i]]
    ensures Flatten(pieces) == parts
  {
    if parts != [] {
      FlattenSingletons(parts[..|parts| - 1], pieces[..|pieces| - 1]);
      assert parts[..|parts| - 1] + [parts[|parts| - 1]] == parts;
    }
  }

  /** Joining two non-empty runs of parts puts one separator between them. */
  lemma {:induction false} JoinAppend(xs: seq<string>, ys: seq<string>, sep: string)
    requires xs != [] && ys != []
    ensures Join(xs + ys, sep) == Join(xs, sep) + sep + Join(ys, sep)
  {
    if |ys| == 1 {
      assert (xs + ys)[..|xs + ys| - 1] == xs;
    } else {
      var init := ys[..|ys| - 1];
      JoinAppend(xs, init, sep);
      assert (xs + ys)[..|xs + ys| - 1] == xs + init;
    }
  }
}
