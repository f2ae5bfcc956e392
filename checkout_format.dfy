/**
  The checkout form's text rules: the input formatters for the card number,
  the expiry date and the phone number, and the field validators (the email
  pattern, the phone pattern after reformatting, the card and CVV lengths).
 */
module CheckoutFormat {
  import opened Common
  import opened Text

  /** `s.substring(start, end)` for `start <= end`: both ends clamped to the length. */
  function Substring(s: string, start: nat, end: nat): (r: string)
    requires start <= end
    ensures |r| == if end <= |s| then end - start else if start <= |s| then |s| - start else 0
    ensures start <= |s| ==> r == s[start..if end <= |s| then end else |s|]
  {
    if start >= |s| then "" else if end <= |s| then s[start..end] else s[start..]
  }

  /** Removing whitespace never removes a digit. */
  lemma {:induction false} DigitsOnlyStripSpaces(s: string)
    ensures DigitsOnly(StripSpaces(s)) == DigitsOnly(s)
  {
    if s != [] {
      DigitsOnlyStripSpaces(s[1..]);
      var head := if IsSpace(s[0]) then [] else [s[0]];
      DigitsOnlyAppend(head, StripSpaces(s[1..]));
    }
  }

  // ---------------------------------------------------------------- card

  /** The groups `formatCardNumber`'s loop pushes from position `i` on:
      `m.substring(i, i + 4)` for `i` stepping by 4 while below the length. */
  function ChunksFrom(m: string, i: nat): (parts: seq<string>)
    decreases |m| - i
  {
    if i >= |m| then [] else [Substring(m, i, i + 4)] + ChunksFrom(m, i + 4)
  }

  function Concat(parts: seq<string>): string {
    if parts == [] then "" else parts[0] + Concat(parts[1..])
  }

  /** `parts.join(" ")`. */
  function Join(parts: seq<string>): string {
    if parts == [] then ""
    else if |parts| == 1 then parts[0]
    else parts[0] + " " + Join(parts[1..])
  }

  /** The groups cut the tail of `m` into pieces of 1 to 4 characters,
      ceil(length / 4) of them, which put back together give the tail. */
  lemma {:induction false} ChunksFromSpec(m: string, i: nat)
    requires i <= |m|
    ensures Concat(ChunksFrom(m, i)) == m[i..]
    ensures |ChunksFrom(m, i)| == (|m| - i + 3) / 4
    ensures forall k :: 0 <= k < |ChunksFrom(m, i)| ==> 1 <= |ChunksFrom(m, i)[k]| <= 4
    decreases |m| - i
  {
    if i < |m| {
      if i + 4 <= |m| {
        ChunksFromSpec(m, i + 4);
        assert m[i..] == m[i..i + 4] + m[i + 4..];
      } else {
        assert ChunksFrom(m, i + 4) == [];
      }
    }
  }

  /** Removing the spaces of a join of digit groups gives the groups back. */
  lemma {:induction false} JoinStripSpaces(parts: seq<string>)
    requires forall k :: 0 <= k < |parts| ==> AllDigits(parts[k])
    ensures StripSpaces(Join(parts)) == Concat(parts)
  {
    if |parts| == 1 {
      assert Concat(parts[1..]) == "";
      NoSpaceInDigits(parts[0]);
    } else if |parts| > 1 {
      var rest := Join(parts[1..]);
      JoinStripSpaces(parts[1..]);
      NoSpaceInDigits(parts[0]);
      assert parts[0] + " " + rest == parts[0] + (" " + rest);
      StripSpacesAppend(parts[0], " " + rest);
      StripSpacesAppend(" ", rest);
      assert StripSpaces(" ") == "";
    }
  }

  /** The digits of a join of digit groups are the groups, in order. */
  lemma {:induction false} JoinDigits(parts: seq<string>)
    requires forall k :: 0 <= k < |parts| ==> AllDigits(parts[k])
    ensures DigitsOnly(Join(parts)) == Concat(parts)
  {
    if |parts| == 1 {
      assert Concat(parts[1..]) == "";
      NoSpaceInDigits(parts[0]);
    } else if |parts| > 1 {
      var rest := Join(parts[1..]);
      JoinDigits(parts[1..]);
      NoSpaceInDigits(parts[0]);
      assert parts[0] + " " + rest == parts[0] + (" " + rest);
      DigitsOnlyAppend(parts[0], " " + rest);
      DigitsOnlyAppend(" ", rest);
      assert DigitsOnly(" ") == "";
    }
  }

  /** A join adds one separator between neighbouring groups. */
  lemma {:induction false} JoinLength(parts: seq<string>)
    requires parts != []
    ensures |Join(parts)| == |Concat(parts)| + |parts| - 1
  {
    if |parts| == 1 {
      assert Concat(parts[1..]) == "";
    } else {
      JoinLength(parts[1..]);
    }
  }

  lemma NoSpaceInDigits(s: string)
    requires AllDigits(s)
    ensures StripSpaces(s) == s && DigitsOnly(s) == s
  {
  }

  lemma {:induction false} StripSpacesAppend(a: string, b: string)
    ensures StripSpaces(a + b) == StripSpaces(a) + StripSpaces(b)
  {
    if a == [] {
      assert a + b == b;
    } else {
      assert (a + b)[1..] == a[1..] + b;
      StripSpacesAppend(a[1..], b);
    }
  }

  /** Every group but the last has four characters. */
  lemma {:induction false} ChunksFull(m: string, i: nat)
    ensures forall k :: 0 <= k < |ChunksFrom(m, i)| - 1 ==> |ChunksFrom(m, i)[k]| == 4
    decreases |m| - i
  {
    if i < |m| {
      ChunksFull(m, i + 4);
      if i + 4 >= |m| {
        assert ChunksFrom(m, i + 4) == [];
      }
    }
  }

  /** Joining digit groups of four (the last may be shorter) puts a space at
      every fifth position and nowhere else. */
  lemma {:induction false} JoinLayout(parts: seq<string>)
    requires forall k :: 0 <= k < |parts| ==> AllDigits(parts[k]) && |parts[k]| <= 4
    requires forall k :: 0 <= k < |parts| - 1 ==> |parts[k]| == 4
    ensures forall i :: 0 <= i < |Join(parts)| ==> (Join(parts)[i] == ' ' <==> i % 5 == 4)
  {
    if |parts| == 1 {
      assert Join(parts) == parts[0];
    } else if |parts| > 1 {
      var rest := Join(parts[1..]);
      JoinLayout(parts[1..]);
      var j := Join(parts);
      assert j == parts[0] + " " + rest;
      forall i | 0 <= i < |j| ensures (j[i] == ' ' <==> i % 5 == 4) {
        if i < 4 {
          assert j[i] == parts[0][i];
        } else if i > 4 {
          assert j[i] == rest[i - 5];
        }
      }
    }
  }

  lemma ChunksAreDigits(m: string, i: nat)
    requires AllDigits(m)
    ensures forall k :: 0 <= k < |ChunksFrom(m, i)| ==> AllDigits(ChunksFrom(m, i)[k])
    decreases |m| - i
  {
    if i < |m| {
      ChunksAreDigits(m, i + 4);
    }
  }

  /** What `formatCardNumber` returns: the digits; when there are at least
      four, the first match of `\d{4,16}` (the first sixteen at most) in
      groups of four joined by spaces. */
  function CardFormat(value: string): string {
    var v := DigitsOnly(StripSpaces(value));
    var m := if |v| >= 4 then SliceTo(v, 16) else "";
    var parts := ChunksFrom(m, 0);
    if |parts| > 0 then Join(parts) else v
  }

  /** `formatCardNumber`, with its loop over the match. */
  method FormatCardNumber(value: string) returns (r: string)
    ensures r == CardFormat(value)
  {
    var v := DigitsOnly(StripSpaces(value));
    var m := if |v| >= 4 then SliceTo(v, 16) else "";
    var parts: seq<string> := [];
    var i: nat := 0;
    while i < |m|
      invariant parts + ChunksFrom(m, i) == ChunksFrom(m, 0)
    {
      assert ChunksFrom(m, i) == [Substring(m, i, i + 4)] + ChunksFrom(m, i + 4);
      parts := parts + [Substring(m, i, i + 4)];
      i := i + 4;
    }
    assert ChunksFrom(m, i) == [];
    assert parts == ChunksFrom(m, 0);
    if |parts| > 0 {
      r := Join(parts);
    } else {
      r := v;
    }
  }

  /** The card formatter keeps only digits: fewer than four come back as they
      are, otherwise the first sixteen at most, four to a group; the result
      fits the 19-character field. */
  lemma CardFormatSpec(value: string)
    ensures var d := DigitsOnly(value);
            |d| < 4 ==> CardFormat(value) == d
    ensures var d := DigitsOnly(value);
            |d| >= 4 ==> StripSpaces(CardFormat(value)) == SliceTo(d, 16)
    ensures DigitsOnly(CardFormat(value)) == SliceTo(DigitsOnly(value), 16)
    ensures |CardFormat(value)| <= 19
    ensures var r := CardFormat(value);
            |DigitsOnly(value)| >= 4 ==> forall i :: 0 <= i < |r| ==> (r[i] == ' ' <==> i % 5 == 4)
    ensures var m, r := SliceTo(DigitsOnly(value), 16), CardFormat(value);
            |DigitsOnly(value)| >= 4 ==> |r| == |m| + (|m| + 3) / 4 - 1
  {
    DigitsOnlyStripSpaces(value);
    var v := DigitsOnly(value);
    if |v| >= 4 {
      var m := SliceTo(v, 16);
      ChunksFromSpec(m, 0);
      ChunksAreDigits(m, 0);
      ChunksFull(m, 0);
      JoinLayout(ChunksFrom(m, 0));
      JoinStripSpaces(ChunksFrom(m, 0));
      JoinDigits(ChunksFrom(m, 0));
      JoinLength(ChunksFrom(m, 0));
    }
  }

  /** Formatting an already formatted card number changes nothing. */
  lemma CardFormatIdempotent(value: string)
    ensures CardFormat(CardFormat(value)) == CardFormat(value)
  {
    CardFormatSpec(value);
    var y := CardFormat(value);
    CardFormatSpec(y);
    DigitsOnlyStripSpaces(y);
    DigitsOnlyStripSpaces(value);
    var d := DigitsOnly(value);
    if |d| >= 4 {
      assert DigitsOnly(StripSpaces(y)) == SliceTo(d, 16);
      assert SliceTo(SliceTo(d, 16), 16) == SliceTo(d, 16);
    }
  }

  /** After formatting, the 16-digit check passes exactly when at least
      sixteen digits were typed: extra digits are cut off. */
  lemma CardFormatValid(value: string)
    ensures |StripSpaces(CardFormat(value))| == 16 <==> |DigitsOnly(value)| >= 16
  {
    CardFormatSpec(value);
    var d := DigitsOnly(value);
    if |d| < 4 {
      NoSpaceInDigits(d);
    }
  }

  // ---------------------------------------------------------------- expiry

  /** What `formatExpiryDate` returns: the digits; from two on, the first two,
      a slash and at most two more. */
  function ExpiryFormat(value: string): (r: string)
    ensures |r| <= 5
  {
    var v := DigitsOnly(StripSpaces(value));
    if |v| >= 2 then v[..2] + "/" + Substring(v, 2, 4) else v
  }

  /** The expiry formatter keeps only digits, the first four at most, and
      puts the slash after the first two. */
  lemma ExpiryFormatSpec(value: string)
    ensures var v, r := DigitsOnly(value), ExpiryFormat(value);
            |v| >= 2 ==> |r| >= 3 && r[..2] == v[..2] && r[2] == '/' && AllDigits(r[3..])
    ensures var v, r := DigitsOnly(value), ExpiryFormat(value);
            |v| < 2 ==> r == v
    ensures DigitsOnly(ExpiryFormat(value)) == SliceTo(DigitsOnly(value), 4)
  {
    DigitsOnlyStripSpaces(value);
    var v := DigitsOnly(StripSpaces(value));
    if |v| >= 2 {
      ExpiryOfDigits(v);
      var r := ExpiryFormat(value);
      assert r[3..] == Substring(v, 2, 4);
    } else {
      assert SliceTo(v, 4) == v;
    }
  }

  lemma ExpiryOfDigits(v: string)
    requires AllDigits(v) && |v| >= 2
    ensures DigitsOnly(v[..2] + "/" + Substring(v, 2, 4)) == SliceTo(v, 4)
  {
    var month, year := v[..2], Substring(v, 2, 4);
    var left := month + "/";
    assert DigitsOnly(month) == month by {
      assert AllDigits(month);
    }
    assert DigitsOnly(year) == year by {
      assert AllDigits(year);
    }
    assert DigitsOnly(left) == month by {
      DigitsOnlyAppend(month, "/");
      assert DigitsOnly("/") == [];
    }
    DigitsOnlyAppend(left, year);
    assert SliceTo(v, 4) == month + year;
  }

  lemma ExpiryFormatIdempotent(value: string)
    ensures ExpiryFormat(ExpiryFormat(value)) == ExpiryFormat(value)
  {
    var y := ExpiryFormat(value);
    var v := DigitsOnly(value);
    ExpiryFormatSpec(value);
    DigitsOnlyStripSpaces(value);
    DigitsOnlyStripSpaces(y);
    assert DigitsOnly(y) == SliceTo(v, 4);
    if |v| >= 2 {
      assert SliceTo(v, 4)[..2] == v[..2];
      assert Substring(SliceTo(v, 4), 2, 4) == Substring(v, 2, 4);
    }
  }

  // ---------------------------------------------------------------- phone

  /** What `formatPhone` returns: from six digits on "(ddd) ddd-" and up to
      four more, from three on "(ddd) " and the rest, otherwise the digits. */
  function PhoneFormat(value: string): (r: string)
    ensures |r| <= 14
    ensures DigitsOnly(r) == SliceTo(DigitsOnly(value), 10)
    ensures var v := DigitsOnly(value);
            |v| < 3 ==> r == v
    ensures var v := DigitsOnly(value);
            |v| >= 3 ==> |r| >= 6 && r[0] == '(' && r[1..4] == v[..3] && r[4..6] == ") "
    ensures var v := DigitsOnly(value);
            |v| >= 6 ==> |r| >= 10 && r[6..9] == v[3..6] && r[9] == '-'
    ensures var v := DigitsOnly(value);
            3 <= |v| < 6 ==> AllDigits(r[6..])
    ensures var v := DigitsOnly(value);
            |v| >= 6 ==> AllDigits(r[10..])
  {
    var v := DigitsOnly(value);
    if |v| >= 6 then
      var tail := Substring(v, 6, 10);
      Parenthesised(v[..3], v[3..6]);
      WithDash("(" + v[..3] + ") " + v[3..6], tail);
      assert SliceTo(v, 10) == v[..3] + v[3..6] + tail;
      PhoneLayout(v[..3], v[3..6], tail);
      assert AllDigits(tail);
      "(" + v[..3] + ") " + v[3..6] + "-" + tail
    else if |v| >= 3 then
      var tail := Substring(v, 3, 6);
      Parenthesised(v[..3], tail);
      assert v == v[..3] + tail;
      PhoneLayout(v[..3], tail, "");
      assert AllDigits(tail);
      "(" + v[..3] + ") " + tail
    else v
  }

  /** Where the area code, the separators and the next digits sit. */
  lemma PhoneLayout(area: string, middle: string, tail: string)
    requires |area| == 3
    ensures var r := "(" + area + ") " + middle;
            |r| == 6 + |middle| && r[0] == '(' && r[1..4] == area && r[4..6] == ") " && r[6..] == middle
    ensures var r := "(" + area + ") " + middle + "-" + tail;
            |middle| == 3 ==> |r| == 10 + |tail| && r[0] == '(' && r[1..4] == area && r[4..6] == ") " &&
                              r[6..9] == middle && r[9] == '-' && r[10..] == tail
  {
    var p := "(" + area + ") " + middle;
    assert p[1..4] == area;
    var r := p + "-" + tail;
    assert r[..|p|] == p;
  }

  /** A leading non-digit adds nothing to the digits. */
  lemma SkipNonDigit(c: char, x: string)
    requires !IsDigit(c)
    ensures DigitsOnly([c] + x) == DigitsOnly(x)
  {
    assert ([c] + x)[1..] == x;
  }

  /** The digits of "(a) b" are those of a and b. */
  lemma Parenthesised(a: string, b: string)
    requires AllDigits(a) && AllDigits(b)
    ensures DigitsOnly("(" + a + ") " + b) == a + b
  {
    var open, close := "(", ") ";
    assert DigitsOnly(open) == [];
    assert DigitsOnly(close) == [];
    var x := open + a;
    DigitsOnlyAppend(open, a);
    assert DigitsOnly(x) == a;
    var y := x + close;
    DigitsOnlyAppend(x, close);
    assert DigitsOnly(y) == a;
    DigitsOnlyAppend(y, b);
  }

  /** A dash adds no digit. */
  lemma WithDash(x: string, c: string)
    requires AllDigits(c)
    ensures DigitsOnly(x + "-" + c) == DigitsOnly(x) + c
  {
    NoSpaceInDigits(c);
    assert x + "-" + c == x + (['-'] + c);
    DigitsOnlyAppend(x, ['-'] + c);
    SkipNonDigit('-', c);
  }

  lemma PhoneFormatIdempotent(value: string)
    ensures PhoneFormat(PhoneFormat(value)) == PhoneFormat(value)
  {
    var v := DigitsOnly(value);
    var y := PhoneFormat(value);
    var w := DigitsOnly(y);
    assert w == SliceTo(v, 10);
    if |v| >= 6 {
      assert w[..3] == v[..3] && w[3..6] == v[3..6];
      assert Substring(w, 6, 10) == Substring(v, 6, 10);
    } else {
      assert w == v;
    }
  }

  // ---------------------------------------------------------------- validators

  /** A match of `\S+@\S+\.\S+` with the '@' at `at` and the '.' at `dot`. */
  predicate EmailAt(s: string, at: int, dot: int) {
    0 < at && at + 1 < dot && dot + 1 < |s| &&
    !IsSpace(s[at - 1]) && s[at] == '@' &&
    (forall k :: at < k < dot ==> !IsSpace(s[k])) &&
    s[dot] == '.' && !IsSpace(s[dot + 1])
  }

  /** `/\S+@\S+\.\S+/.test(s)`: the pattern is not anchored, so a match
      anywhere will do. */
  predicate EmailShaped(s: string) {
    exists at, dot | 0 < at < |s| && 0 < dot < |s| :: EmailAt(s, at, dot)
  }

  /** The pattern wants something before the '@', something between it and
      a later '.', and something after that '.', with no whitespace inside. */
  lemma EmailExamples()
    ensures EmailShaped("a@b.c")
    ensures EmailShaped("to: a@b.c ")
    ensures !EmailShaped("a@b")
    ensures !EmailShaped("@b.c")
    ensures !EmailShaped("a@.c")
  {
    assert EmailAt("a@b.c", 1, 3);
    assert EmailAt("to: a@b.c ", 5, 7);
  }

  /** The pattern is not anchored: text around a match does not spoil it. A
      matching string has at least five characters, an '@' with a non-space
      before it, and a '.' two or more places after that '@'. */
  lemma EmailUnanchored(s: string, before: string, after: string)
    requires EmailShaped(s)
    ensures EmailShaped(before + s + after)
    ensures |s| >= 5
    ensures exists at, dot :: 0 < at && at + 1 < dot < |s| && s[at] == '@' && !IsSpace(s[at - 1]) && s[dot] == '.'
  {
    var at, dot :| 0 < at < |s| && 0 < dot < |s| && EmailAt(s, at, dot);
    EmailAtShifted(s, before, after, at, dot);
    assert 0 < |before| + at < |before + s + after| && 0 < |before| + dot < |before + s + after|;
    assert 0 < at && at + 1 < dot < |s| && s[at] == '@' && !IsSpace(s[at - 1]) && s[dot] == '.';
  }

  /** A match stays a match, shifted, once text is put around it. */
  lemma EmailAtShifted(s: string, before: string, after: string, at: int, dot: int)
    requires EmailAt(s, at, dot)
    ensures EmailAt(before + s + after, |before| + at, |before| + dot)
  {
    var t := before + s + after;
    var n := |before|;
    assert forall k :: 0 <= k < |s| ==> t[n + k] == s[k];
  }

  /** `d.replace(/(\d{3})(\d{3})(\d{4})/, "($1) $2-$3")` on a digit string:
      the first ten digits become "(ddd) ddd-dddd" and the rest follow. */
  function PhoneReformat(d: string): string
    requires AllDigits(d)
  {
    if |d| >= 10 then "(" + d[..3] + ") " + d[3..6] + "-" + d[6..10] + d[10..] else d
  }

  /** `/^\(\d{3}\)\s\d{3}-\d{4}$/.test(s)`. */
  predicate PhonePatternOk(s: string) {
    |s| == 14 && s[0] == '(' && AllDigits(s[1..4]) && s[4] == ')' && IsSpace(s[5]) &&
    AllDigits(s[6..9]) && s[9] == '-' && AllDigits(s[10..14])
  }

  /** The phone check: the digits, reformatted, must match the pattern. */
  predicate PhoneValid(phone: string) {
    PhonePatternOk(PhoneReformat(DigitsOnly(phone)))
  }

  /** The phone check passes exactly when the number has ten digits, whatever
      else it contains. */
  lemma PhoneValidIff(phone: string)
    ensures PhoneValid(phone) <==> |DigitsOnly(phone)| == 10
  {
    var d := DigitsOnly(phone);
    var s := PhoneReformat(d);
    if |d| == 10 {
      assert s[1..4] == d[..3] && s[6..9] == d[3..6] && s[10..14] == d[6..10];
    } else if |d| < 10 && |d| > 0 {
      assert s[0] == d[0];
    }
  }

  /** A formatted phone number passes the check exactly when at least ten
      digits were typed. */
  lemma PhoneFormatValid(value: string)
    ensures PhoneValid(PhoneFormat(value)) <==> |DigitsOnly(value)| >= 10
  {
    PhoneValidIff(PhoneFormat(value));
  }

  /** The card check: sixteen characters once whitespace is removed. */
  predicate CardNumberValid(card: string) {
    |StripSpaces(card)| == 16
  }

  /** The CVV check: three or four characters. */
  predicate CvvValid(cvv: string) {
    3 <= |cvv| <= 4
  }
}
