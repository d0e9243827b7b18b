/**
 * The string operations the loader applies to a sale's `date` column, with
 * the meaning Python gives them: `s.split(sep)` keeps empty pieces, while
 * `s.split()` splits on runs of whitespace and drops leading whitespace.
 */
module Dates {
  import opened Wrappers

  /** The pieces joined back together with sep between them. */
  function Join(parts: seq<string>, sep: char): string {
    if |parts| == 0 then ""
    else if |parts| == 1 then parts[0]
    else parts[0] + [sep] + Join(parts[1..], sep)
  }

  /** s.split(sep): the pieces hold no separator and join back into s. */
  function Split(s: string, sep: char): (parts: seq<string>)
    ensures |parts| >= 1
    ensures forall i :: 0 <= i < |parts| ==> sep !in parts[i]
    ensures Join(parts, sep) == s
    decreases |s|
  {
    if |s| == 0 then [""]
    else
      var rest := Split(s[1..], sep);
      if s[0] == sep then
        assert ([""] + rest)[1..] == rest;
        [""] + rest
      else
        var parts := [[s[0]] + rest[0]] + rest[1..];
        assert |rest| > 1 ==> parts[1..] == rest[1..];
        assert s == [s[0]] + s[1..];
        parts
  }

  lemma {:induction false} SplitNoSeparator(a: string, sep: char)
    requires sep !in a
    ensures Split(a, sep) == [a]
  {
    if a != [] {
      SplitNoSeparator(a[1..], sep);
      assert [a[0]] + a[1..] == a;
    }
  }

  lemma {:induction false} SplitAtSeparator(a: string, b: string, sep: char)
    requires sep !in a
    ensures Split(a + [sep] + b, sep) == [a] + Split(b, sep)
  {
    var s := a + [sep] + b;
    if a == [] {
      assert s[1..] == b;
    } else {
      assert s[1..] == a[1..] + [sep] + b;
      SplitAtSeparator(a[1..], b, sep);
      assert [a[0]] + a[1..] == a;
    }
  }

  /** Splitting undoes joining pieces that hold no separator. */
  lemma {:induction false} SplitJoin(parts: seq<string>, sep: char)
    requires |parts| >= 1
    requires forall i :: 0 <= i < |parts| ==> sep !in parts[i]
    ensures Split(Join(parts, sep), sep) == parts
  {
    if |parts| == 1 {
      SplitNoSeparator(parts[0], sep);
    } else {
      SplitAtSeparator(parts[0], Join(parts[1..], sep), sep);
      SplitJoin(parts[1..], sep);
      assert [parts[0]] + parts[1..] == parts;
    }
  }

  /** Python's str.isspace: the characters `s.split()` splits on. */
  predicate IsSpace(c: char) {
    var n := c as int;
    || n == 0x20 || 0x09 <= n <= 0x0D || 0x1C <= n <= 0x1F
    || n == 0x85 || n == 0xA0 || n == 0x1680 || 0x2000 <= n <= 0x200A
    || n == 0x2028 || n == 0x2029 || n == 0x202F || n == 0x205F || n == 0x3000
  }

  /** The number of whitespace characters s starts with. */
  function LeadingSpace(s: string): (n: nat)
    ensures n <= |s|
    ensures forall k :: 0 <= k < n ==> IsSpace(s[k])
    ensures n < |s| ==> !IsSpace(s[n])
  {
    if s == [] || !IsSpace(s[0]) then 0 else 1 + LeadingSpace(s[1..])
  }

  /** The number of non-whitespace characters s starts with. */
  function TokenLength(s: string): (n: nat)
    ensures n <= |s|
    ensures forall k :: 0 <= k < n ==> !IsSpace(s[k])
    ensures n < |s| ==> IsSpace(s[n])
  {
    if s == [] || IsSpace(s[0]) then 0 else 1 + TokenLength(s[1..])
  }

  /** s.split()[0]: the first maximal run of non-whitespace, or None
      (IndexError) when s holds only whitespace. The run starts right after
      the leading whitespace and ends at the next whitespace or at the end. */
  function FirstToken(s: string): (r: Option<string>)
    ensures r.None? <==> forall k :: 0 <= k < |s| ==> IsSpace(s[k])
    ensures r.Some? ==> r.value != [] && forall k :: 0 <= k < |r.value| ==> !IsSpace(r.value[k])
    ensures r.Some? ==>
              var i := LeadingSpace(s);
              var j := i + |r.value|;
              && j <= |s| && r.value == s[i..j]
              && (forall k :: 0 <= k < i ==> IsSpace(s[k]))
              && (j == |s| || IsSpace(s[j]))
  {
    var i := LeadingSpace(s);
    if i == |s| then None else Some(s[i..i + TokenLength(s[i..])])
  }

  predicate IsDigit(c: char) {
    '0' <= c <= '9'
  }

  predicate Digits(s: string) {
    forall k :: 0 <= k < |s| ==> IsDigit(s[k])
  }

  /** The number a string of decimal digits denotes. */
  function Decimal(s: string): nat
    requires Digits(s)
  {
    if s == [] then 0 else 10 * Decimal(s[..|s| - 1]) + (s[|s| - 1] as int - '0' as int)
  }

  /** Two decimal digits denote ten times the first plus the second. */
  lemma DecimalOfTwo(a: char, b: char)
    requires IsDigit(a) && IsDigit(b)
    ensures Decimal([a, b]) == 10 * (a as int - '0' as int) + (b as int - '0' as int)
  {
    assert [a][..0] == [];
    assert Decimal([a]) == a as int - '0' as int;
    assert [a, b][..1] == [a];
  }

  /** Four decimal digits denote their positional value. */
  lemma DecimalOfFour(a: char, b: char, c: char, d: char)
    requires IsDigit(a) && IsDigit(b) && IsDigit(c) && IsDigit(d)
    ensures Decimal([a, b, c, d]) ==
              1000 * (a as int - '0' as int) + 100 * (b as int - '0' as int)
              + 10 * (c as int - '0' as int) + (d as int - '0' as int)
  {
    assert [a, b, c, d][..3] == [a, b, c];
    assert [a, b, c][..2] == [a, b];
    DecimalOfTwo(a, b);
  }

  datatype DateParts = DateParts(year: string, month: string, day: string, time: string)

  /** The four pieces the loader cuts out of a `date` value: year and month
      are the first two '-'-separated pieces, day is the first word of the
      third, and time is the piece after the first ' '. None stands for the
      IndexError raised when one of those pieces does not exist. */
  function SplitDate(date: string): Option<DateParts> {
    var dashed := Split(date, '-');
    var spaced := Split(date, ' ');
    if |dashed| < 3 then None
    else
      match FirstToken(dashed[2])
      case None => None
      case Some(day) => if |spaced| < 2 then None else Some(DateParts(dashed[0], dashed[1], day, spaced[1]))
  }

  /** A date written YYYY-MM-DD HH:MM splits into exactly those pieces. */
  lemma DateLayout(y: string, m: string, d: string, t: string)
    requires Digits(y) && Digits(m) && Digits(d) && d != []
    requires ' ' !in t && '-' !in t
    ensures SplitDate(y + "-" + m + "-" + d + " " + t) == Some(DateParts(y, m, d, t))
  {
    var date := y + "-" + m + "-" + d + " " + t;
    var rest := d + " " + t;
    assert '-' !in y && '-' !in m && '-' !in d by {
      assert forall k :: 0 <= k < |y| ==> y[k] != '-';
      assert forall k :: 0 <= k < |m| ==> m[k] != '-';
      assert forall k :: 0 <= k < |d| ==> d[k] != '-';
    }
    assert '-' !in rest;
    assert [y, m, rest][1..] == [m, rest] && [m, rest][1..] == [rest];
    assert Join([m, rest], '-') == m + "-" + rest;
    assert Join([y, m, rest], '-') == y + "-" + (m + "-" + rest);
    assert date == Join([y, m, rest], '-');
    SplitJoin([y, m, rest], '-');
    var ymd := y + "-" + m + "-" + d;
    assert ' ' !in ymd by {
      assert forall k :: 0 <= k < |ymd| ==> ymd[k] != ' ';
    }
    assert [ymd, t][1..] == [t];
    assert date == Join([ymd, t], ' ');
    SplitJoin([ymd, t], ' ');
    DayToken(d, t);
  }

  /** The first word of a day followed by a space is the day. */
  lemma DayToken(d: string, t: string)
    requires Digits(d) && d != []
    ensures FirstToken(d + " " + t) == Some(d)
  {
    var rest := d + " " + t;
    assert LeadingSpace(rest) == 0 by {
      assert rest[0] == d[0] && !IsSpace(d[0]);
    }
    TokenOfWord(d, ' ', t);
    assert rest[0..|d|] == d;
  }

  /** A date with no time part ("2024-03-05") has no second ' '-piece:
      splitting it raises IndexError, however well formed the day is. */
  lemma DateWithoutTime(date: string)
    requires ' ' !in date
    ensures SplitDate(date) == None
  {
    SplitNoSeparator(date, ' ');
  }

  /** The first word of a word followed by whitespace is that word. */
  lemma TokenOfWord(w: string, c: char, t: string)
    requires Digits(w) && IsSpace(c)
    ensures TokenLength(w + [c] + t) == |w|
  {
    var s := w + [c] + t;
    assert forall k :: 0 <= k < |w| ==> s[k] == w[k] && !IsSpace(s[k]);
    assert s[|w|] == c;
  }
}
