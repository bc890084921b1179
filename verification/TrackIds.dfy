/** Printing the track counter, and why generated track ids never coincide. */
module TrackIds {

  /** The decimal digits, least significant first. */
  function DigitsOf(v: nat): (digits: seq<nat>)
    ensures forall i :: 0 <= i < |digits| ==> digits[i] < 10
  {
    if v == 0 then [] else [v % 10] + DigitsOf(v / 10)
  }

  function DigitChar(d: nat): char
    requires d < 10
  {
    "0123456789"[d]
  }

  function Reversed<T>(s: seq<T>): (r: seq<T>)
    ensures |r| == |s|
    ensures forall i :: 0 <= i < |s| ==> r[i] == s[|s| - 1 - i]
  {
    seq(|s|, i requires 0 <= i < |s| => s[|s| - 1 - i])
  }

  function Chars(digits: seq<nat>): (s: string)
    requires forall i :: 0 <= i < |digits| ==> digits[i] < 10
    ensures |s| == |digits|
  {
    seq(|digits|, i requires 0 <= i < |digits| => DigitChar(digits[i]))
  }

  /** The value of a decimal numeral read from left to right; characters other than digits do not occur. */
  function Parse(s: string): nat {
    if s == "" then 0
    else
      var c := s[|s| - 1];
      10 * Parse(s[..|s| - 1]) + if '0' <= c <= '9' then c as nat - '0' as nat else 0
  }

  /** The canonical decimal form: digits only, no leading zero unless the number is zero itself. */
  predicate Canonical(s: string) {
    && s != ""
    && (forall i :: 0 <= i < |s| ==> '0' <= s[i] <= '9')
    && (s[0] == '0' ==> |s| == 1)
  }

  /** How FormatTrackSeq prints a number. */
  function Format(v: nat): string {
    if v == 0 then "0" else Reversed(Chars(DigitsOf(v)))
  }

  lemma {:induction false} DigitsParse(v: nat)
    requires v > 0
    ensures Parse(Reversed(Chars(DigitsOf(v)))) == v
    ensures DigitsOf(v) != [] && DigitsOf(v)[|DigitsOf(v)| - 1] != 0
    decreases v
  {
    var digits := DigitsOf(v);
    var s := Reversed(Chars(digits));
    assert s[|s| - 1] == DigitChar(v % 10);
    if v / 10 == 0 {
      assert digits[1..] == [] && |digits| == 1;
      assert Parse(s[..|s| - 1]) == 0;
    } else {
      DigitsParse(v / 10);
      assert digits[1..] == DigitsOf(v / 10);
      assert s[..|s| - 1] == Reversed(Chars(DigitsOf(v / 10)));
    }
  }

  /** Printing and reading back gives the number, and the print is canonical. */
  lemma {:induction false} FormatParses(v: nat)
    ensures Parse(Format(v)) == v && Canonical(Format(v))
  {
    if v > 0 {
      DigitsParse(v);
      var s := Format(v);
      assert s[0] == DigitChar(DigitsOf(v)[|DigitsOf(v)| - 1]);
    } else {
      assert "0"[..0] == "";
    }
  }

  lemma {:induction false} ReversedExtends(d: nat, digits: seq<nat>)
    requires d < 10 && forall i :: 0 <= i < |digits| ==> digits[i] < 10
    ensures Reversed(Chars([d] + digits)) == Reversed(Chars(digits)) + [DigitChar(d)]
  {
    assert Chars([d] + digits) == [DigitChar(d)] + Chars(digits);
  }

  lemma {:induction false} FormatExtends(p: nat, d: nat)
    requires p > 0 && d < 10
    ensures Format(10 * p + d) == Format(p) + [DigitChar(d)]
  {
    var v := 10 * p + d;
    assert v % 10 == d && v / 10 == p;
    ReversedExtends(d, DigitsOf(p));
  }

  lemma {:induction false} SingleDigit(d: nat)
    requires d < 10
    ensures Format(d) == [DigitChar(d)]
  {
    if d > 0 { assert DigitsOf(d) == [d] + DigitsOf(0) == [d]; }
  }

  lemma {:induction false} ParseExtends(front: string, d: nat)
    requires d < 10
    ensures Parse(front + [DigitChar(d)]) == 10 * Parse(front) + d
  {
    var s := front + [DigitChar(d)];
    assert s[..|s| - 1] == front;
  }

  lemma {:induction false} CanonicalFront(front: string, c: char)
    requires Canonical(front + [c]) && front != ""
    ensures Canonical(front) && front != "0"
  {
    var s := front + [c];
    assert forall i :: 0 <= i < |front| ==> front[i] == s[i];
  }

  lemma {:induction false} LastDigit(s: string) returns (d: nat)
    requires Canonical(s)
    ensures d < 10 && s == s[..|s| - 1] + [DigitChar(d)]
    ensures |s| == 1 && d == 0 ==> s == "0"
  {
    d := s[|s| - 1] as nat - '0' as nat;
  }

  lemma {:induction false} PrintExtends(front: string, d: nat)
    requires d < 10 && Parse(front) > 0 && Format(Parse(front)) == front
    ensures var s := front + [DigitChar(d)]; Parse(s) > 0 && Format(Parse(s)) == s
  {
    ParseExtends(front, d);
    FormatExtends(Parse(front), d);
  }

  /** The print of its value, and positive unless it is "0". */
  predicate Printed(s: string) {
    Format(Parse(s)) == s && (s != "0" ==> Parse(s) > 0)
  }

  lemma {:induction false} OneDigitPrinted(s: string)
    requires Canonical(s) && |s| == 1
    ensures Printed(s)
  {
    var d := LastDigit(s);
    assert s[..0] == "" && s == "" + [DigitChar(d)] == [DigitChar(d)];
    ParseExtends("", d);
    SingleDigit(d);
  }

  lemma {:induction false} MoreDigitsPrinted(front: string, d: nat)
    requires d < 10 && Printed(front) && front != "0"
    ensures Printed(front + [DigitChar(d)])
  {
    PrintExtends(front, d);
  }

  /** Conversely every canonical numeral is the print of its value. */
  lemma {:induction false} CanonicalFormat(s: string)
    requires Canonical(s)
    ensures Printed(s)
    decreases |s|
  {
    if |s| == 1 {
      OneDigitPrinted(s);
    } else {
      var front := s[..|s| - 1];
      var d := LastDigit(s);
      CanonicalFront(front, DigitChar(d));
      CanonicalFormat(front);
      MoreDigitsPrinted(front, d);
    }
  }

  lemma {:induction false} NextChar(rest: nat, buf: string)
    requires rest > 0
    ensures buf + Chars(DigitsOf(rest)) == buf + [DigitChar(rest % 10)] + Chars(DigitsOf(rest / 10))
  {
    var digits := DigitsOf(rest);
    assert digits == [rest % 10] + DigitsOf(rest / 10);
    assert Chars(digits) == [DigitChar(rest % 10)] + Chars(DigitsOf(rest / 10));
  }

  /** The loop that appends digits and the one that reverses them in place. */
  method FormatTrackSeq(v: nat) returns (s: string)
    requires v < 0x1_0000_0000_0000_0000
    ensures s == Format(v)
  {
    if v == 0 {
      return "0";
    }
    var buf: seq<char> := [];
    var rest := v;
    ghost var goal := Chars(DigitsOf(v));
    while rest > 0
      invariant goal == buf + Chars(DigitsOf(rest))
      decreases rest
    {
      NextChar(rest, buf);
      buf := buf + [DigitChar(rest % 10)];
      rest := rest / 10;
    }
    assert goal == buf;
    var a := new char[|buf|](i requires 0 <= i < |buf| => buf[i]);
    assert a[..] == buf;
    ReverseInPlace(a);
    s := a[..];
  }

  /** Swaps the ends inwards. */
  method ReverseInPlace(a: array<char>)
    modifies a
    ensures a[..] == Reversed(old(a[..]))
  {
    var i, j := 0, a.Length - 1;
    while i < j
      invariant 0 <= i <= a.Length && i + j == a.Length - 1 && -1 <= j
      invariant i <= j + 1
      invariant forall k :: 0 <= k < i ==> a[k] == old(a[a.Length - 1 - k]) && a[a.Length - 1 - k] == old(a[k])
      invariant forall k :: i <= k <= j ==> a[k] == old(a[k])
      decreases j - i
    {
      a[i], a[j] := a[j], a[i];
      i, j := i + 1, j - 1;
    }
  }

  // ----- track ids

  function TrackID(prefix: string, id: string, n: nat): string {
    prefix + "-" + id + "-" + Format(n)
  }

  /** Ids generated in one session for the two prefixes are equal only for the same prefix and number,
      whatever characters the session id has. */
  lemma {:induction false} TrackIDsDiffer(p: string, q: string, id: string, m: nat, n: nat)
    requires p in {"tts", "play"} && q in {"tts", "play"}
    requires TrackID(p, id, m) == TrackID(q, id, n)
    ensures p == q && m == n
  {
    assert TrackID(p, id, m)[0] == p[0] && TrackID(q, id, n)[0] == q[0];
    assert p == q;
    var k := |p + "-" + id + "-"|;
    assert TrackID(p, id, m)[k..] == Format(m) && TrackID(q, id, n)[k..] == Format(n);
    FormatParses(m);
    FormatParses(n);
  }

  /** A track id is the prefix, the session id and a canonical numeral of its number, joined by dashes. */
  lemma {:induction false} TrackIDParts(prefix: string, id: string, n: nat)
    ensures var t := TrackID(prefix, id, n);
      var head := prefix + "-" + id + "-";
      && head <= t && Canonical(t[|head|..]) && Parse(t[|head|..]) == n
  {
    var head := prefix + "-" + id + "-";
    assert TrackID(prefix, id, n)[|head|..] == Format(n);
    FormatParses(n);
  }
}
