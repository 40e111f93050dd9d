/** The string operations the controller relies on: the parts of Go's strings and strconv
    packages that plans, pool names and annotations are written and read with. */
module Text {

  datatype Option<+T> = None | Some(value: T)

  /** unicode.IsSpace */
  predicate IsSpace(c: char) {
    || c in " \t\n\r"
    || c as int in {0x0B, 0x0C, 0x85, 0xA0, 0x1680, 0x2028, 0x2029, 0x202F, 0x205F, 0x3000}
    || 0x2000 <= c as int <= 0x200A
  }

  /** A word: what an identifier must be to survive a space-separated action line. */
  predicate Token(s: string) {
    s != "" && forall i :: 0 <= i < |s| ==> !IsSpace(s[i])
  }

  predicate AllTokens(ts: seq<string>) {
    forall i :: 0 <= i < |ts| ==> Token(ts[i])
  }

  predicate Distinct<T(==)>(s: seq<T>) {
    forall i, j :: 0 <= i < j < |s| ==> s[i] != s[j]
  }

  function Elements(s: seq<string>): set<string> {
    set x | x in s
  }

  /** strings.Join */
  function Join(ts: seq<string>, sep: string): string {
    if ts == [] then ""
    else if |ts| == 1 then ts[0]
    else ts[0] + sep + Join(ts[1..], sep)
  }

  // ----- strings.Fields -----

  function Fields(s: string): seq<string> {
    FieldsFrom(s, "")
  }

  function FieldsFrom(s: string, word: string): seq<string> {
    var done := if word == "" then [] else [word];
    if s == "" then done
    else if IsSpace(s[0]) then done + FieldsFrom(s[1..], "")
    else FieldsFrom(s[1..], word + [s[0]])
  }

  lemma {:induction false} FieldsReadWord(t: string, rest: string, word: string)
    requires forall i :: 0 <= i < |t| ==> !IsSpace(t[i])
    ensures FieldsFrom(t + rest, word) == FieldsFrom(rest, word + t)
  {
    if t == "" {
      assert t + rest == rest && word + t == word;
    } else {
      var s := t + rest;
      assert s[1..] == t[1..] + rest;
      FieldsReadWord(t[1..], rest, word + [t[0]]);
      assert word + [t[0]] + t[1..] == word + t;
    }
  }

  /** Splitting a line of words gives the words back. */
  lemma {:induction false} FieldsOfJoin(ts: seq<string>)
    requires AllTokens(ts)
    ensures Fields(Join(ts, " ")) == ts
  {
    if ts == [] {
    } else if |ts| == 1 {
      FieldsReadWord(ts[0], "", "");
      assert ts[0] + "" == ts[0] && "" + ts[0] == ts[0];
      assert ts == [ts[0]];
    } else {
      var rest := Join(ts[1..], " ");
      FieldsReadWord(ts[0], " " + rest, "");
      assert "" + ts[0] == ts[0];
      assert ts[0] + " " + rest == ts[0] + (" " + rest);
      assert (" " + rest)[1..] == rest;
      FieldsOfJoin(ts[1..]);
      assert ts == [ts[0]] + ts[1..];
    }
  }

  // ----- strings.TrimPrefix and strings.TrimSpace -----

  function TrimPrefix(s: string, prefix: string): string {
    if prefix <= s then s[|prefix|..] else s
  }

  function TrimLeft(s: string): string {
    if s != "" && IsSpace(s[0]) then TrimLeft(s[1..]) else s
  }

  function TrimRight(s: string): string {
    if s != "" && IsSpace(s[|s| - 1]) then TrimRight(s[..|s| - 1]) else s
  }

  function TrimSpace(s: string): string {
    TrimRight(TrimLeft(s))
  }

  /** A joined line starts and ends with a letter of a word. */
  lemma {:induction false} JoinEnds(ts: seq<string>)
    requires ts != [] && AllTokens(ts)
    ensures var s := Join(ts, " "); s != "" && !IsSpace(s[0]) && !IsSpace(s[|s| - 1])
  {
    if |ts| > 1 {
      JoinEnds(ts[1..]);
    }
  }

  /** Cutting the verb off an action line leaves exactly the joined arguments. */
  lemma ArgumentsOfLine(verb: string, args: seq<string>)
    requires Token(verb) && args != [] && AllTokens(args)
    ensures Fields(Join([verb] + args, " ")) == [verb] + args
    ensures TrimSpace(TrimPrefix(Join([verb] + args, " "), verb)) == Join(args, " ")
  {
    FieldsOfJoin([verb] + args);
    var line, rest := Join([verb] + args, " "), Join(args, " ");
    assert ([verb] + args)[1..] == args;
    assert line == verb + " " + rest;
    assert line[|verb|..] == " " + rest;
    JoinEnds(args);
    assert (" " + rest)[1..] == rest;
    assert TrimLeft(" " + rest) == TrimLeft(rest) == rest;
  }

  // ----- strings.Contains on a space-delimited list -----

  ghost predicate OccursAt(s: string, sub: string, i: int) {
    0 <= i <= |s| - |sub| && s[i..i + |sub|] == sub
  }

  /** strings.Contains */
  ghost predicate Contains(s: string, sub: string) {
    exists i :: OccursAt(s, sub, i)
  }

  /** That is: the text is the part with something before it and something after it. */
  lemma ContainsIff(s: string, sub: string)
    ensures Contains(s, sub) <==> exists a, b :: s == a + sub + b
  {
    if Contains(s, sub) {
      var i :| OccursAt(s, sub, i);
      assert s == s[..i] + sub + s[i + |sub|..];
    }
    if a, b :| s == a + sub + b {
      assert OccursAt(s, sub, |a|);
    }
  }

  /** strings.Contains, computed. */
  method ContainsText(s: string, sub: string) returns (found: bool)
    ensures found <==> Contains(s, sub)
  {
    found := false;
    var i := 0;
    while i + |sub| <= |s|
      invariant 0 <= i
      invariant forall k :: 0 <= k < i ==> !OccursAt(s, sub, k)
      decreases |s| - i
    {
      if s[i..i + |sub|] == sub {
        assert OccursAt(s, sub, i);
        return true;
      }
      i := i + 1;
    }
  }

  /** The list the two callers build: every item between single spaces. */
  function Padded(items: seq<string>): string {
    " " + Join(items, " ") + " "
  }

  function Fenced(items: seq<string>): string {
    if items == [] then " " else " " + items[0] + Fenced(items[1..])
  }

  lemma {:induction false} PaddedIsFenced(items: seq<string>)
    requires items != []
    ensures Padded(items) == Fenced(items)
  {
    if |items| > 1 {
      PaddedIsFenced(items[1..]);
      var tail := Join(items[1..], " ");
      assert " " + (items[0] + " " + tail) + " " == " " + items[0] + (" " + tail + " ");
    } else {
      assert Fenced(items[1..]) == " ";
    }
  }

  lemma OccursAtFront(x: string, h: string, tail: string)
    requires ' ' !in x && ' ' !in h && |tail| > 0 && tail[0] == ' '
    requires OccursAt(" " + h + tail, " " + x + " ", 0)
    ensures x == h
  {
    var s, w := " " + h + tail, " " + x + " ";
    assert forall k :: 0 <= k < |w| ==> s[k] == s[0..|w|][k] == w[k];
    assert w[|x| + 1] == ' ' && s[|h| + 1] == tail[0];
    assert |x| == |h|;
    forall k | 0 <= k < |x| ensures x[k] == h[k] {
      assert w[k + 1] == x[k] && s[k + 1] == h[k];
    }
  }

  /** A match starts with a space, so it cannot start inside an item. */
  lemma NoMatchInside(x: string, h: string, tail: string, i: int)
    requires ' ' !in h && 0 < i <= |h|
    ensures !OccursAt(" " + h + tail, " " + x + " ", i)
  {
    var s, w := " " + h + tail, " " + x + " ";
    if i + |w| <= |s| {
      assert s[i] == h[i - 1];
      assert s[i..i + |w|][0] != w[0];
    }
  }

  lemma OccursLater(front: string, s: string, sub: string)
    ensures Contains(s, sub) ==> Contains(front + s, sub)
  {
    if Contains(s, sub) {
      var i :| OccursAt(s, sub, i);
      assert (front + s)[|front| + i..|front| + i + |sub|] == s[i..i + |sub|];
      assert OccursAt(front + s, sub, |front| + i);
    }
  }

  lemma OccursInTail(front: string, s: string, sub: string, i: int)
    requires OccursAt(front + s, sub, i) && i >= |front|
    ensures Contains(s, sub)
  {
    var j := i - |front|;
    assert s[j..j + |sub|] == (front + s)[i..i + |sub|];
    assert OccursAt(s, sub, j);
  }

  lemma FencedHead(x: string, tail: string)
    requires |tail| > 0 && tail[0] == ' '
    ensures Contains(" " + x + tail, " " + x + " ")
  {
    assert (" " + x + tail)[0..|x| + 2] == " " + x + " ";
    assert OccursAt(" " + x + tail, " " + x + " ", 0);
  }

  /** A match is the first item or lies behind it. */
  lemma MatchIsItem(x: string, h: string, tail: string, i: int)
    requires ' ' !in x && ' ' !in h && |tail| > 0 && tail[0] == ' '
    requires OccursAt(" " + h + tail, " " + x + " ", i)
    ensures x == h || Contains(tail, " " + x + " ")
  {
    if i == 0 {
      OccursAtFront(x, h, tail);
    } else if i > |h| {
      OccursInTail(" " + h, tail, " " + x + " ", i);
    } else {
      NoMatchInside(x, h, tail, i);
    }
  }

  lemma {:induction false} FencedContains(items: seq<string>, x: string)
    requires x != "" && ' ' !in x
    requires forall i :: 0 <= i < |items| ==> ' ' !in items[i]
    ensures Contains(Fenced(items), " " + x + " ") <==> x in items
  {
    var w := " " + x + " ";
    if items != [] {
      var h, tail := items[0], Fenced(items[1..]);
      var s := " " + h + tail;
      FencedContains(items[1..], x);
      assert tail[0] == ' ';
      hide OccursAt;
      OccursLater(" " + h, tail, w);
      if x == h {
        FencedHead(x, tail);
      }
      if Contains(s, w) {
        var i :| OccursAt(s, w, i);
        MatchIsItem(x, h, tail, i);
      }
    }
  }

  /** The substring test on a space-delimited list is exactly list membership. */
  lemma PaddedContains(items: seq<string>, x: string)
    requires x != "" && ' ' !in x
    requires forall i :: 0 <= i < |items| ==> ' ' !in items[i]
    ensures Contains(Padded(items), " " + x + " ") <==> x in items
  {
    if items == [] {
      assert |Padded(items)| == 2;
    } else {
      PaddedIsFenced(items);
      FencedContains(items, x);
    }
  }

  // ----- strings.Split on one character -----

  function Split(s: string, sep: char): (parts: seq<string>)
    ensures |parts| > 0
  {
    if s == "" then [""]
    else
      var rest := Split(s[1..], sep);
      if s[0] == sep then [""] + rest else [[s[0]] + rest[0]] + rest[1..]
  }

  lemma {:induction false} SplitWhole(s: string, sep: char)
    requires sep !in s
    ensures Split(s, sep) == [s]
  {
    if s != "" {
      SplitWhole(s[1..], sep);
      assert s == [s[0]] + s[1..];
    }
  }

  lemma {:induction false} SplitConcat(a: string, b: string, sep: char)
    ensures Split(a + [sep] + b, sep) == Split(a, sep) + Split(b, sep)
  {
    var s := a + [sep] + b;
    if a == "" {
      assert s[1..] == b;
    } else {
      assert s[1..] == a[1..] + [sep] + b;
      SplitConcat(a[1..], b, sep);
    }
  }

  // ----- decimal numbers -----

  predicate IsDigit(c: char) { '0' <= c <= '9' }

  predicate AllDigits(s: string) {
    forall i :: 0 <= i < |s| ==> IsDigit(s[i])
  }

  function Digit(d: int): char
    requires 0 <= d < 10
  {
    '0' + d as char
  }

  /** The %d of fmt.Sprintf for a non-negative number. */
  function Decimal(n: nat): (s: string)
    ensures s != "" && forall i :: 0 <= i < |s| ==> IsDigit(s[i])
  {
    if n < 10 then [Digit(n)] else Decimal(n / 10) + [Digit(n % 10)]
  }

  function DecimalInt(n: int): string {
    if n < 0 then "-" + Decimal(-n) else Decimal(n)
  }

  function DigitsValue(s: string): nat
    requires forall i :: 0 <= i < |s| ==> IsDigit(s[i])
  {
    if s == "" then 0
    else assert IsDigit(s[|s| - 1]); 10 * DigitsValue(s[..|s| - 1]) + (s[|s| - 1] as int - '0' as int)
  }

  const MAX_INT64: int := 0x7FFF_FFFF_FFFF_FFFF

  /** strconv.Atoi with a 64-bit int: an optional sign, then one or more digits, in range. */
  function Atoi(s: string): Option<int> {
    var signed := s != "" && (s[0] == '-' || s[0] == '+');
    var digits := if signed then s[1..] else s;
    if digits == "" || !AllDigits(digits) then None
    else
      var v: int := DigitsValue(digits);
      if signed && s[0] == '-' then (if v <= MAX_INT64 + 1 then Some(-v) else None)
      else if v <= MAX_INT64 then Some(v) else None
  }

  lemma {:induction false} DecimalRoundTrip(n: nat)
    ensures DigitsValue(Decimal(n)) == n
  {
    if n < 10 {
      assert Decimal(n)[..0] == "";
    } else {
      DecimalRoundTrip(n / 10);
      var s := Decimal(n);
      assert s[..|s| - 1] == Decimal(n / 10);
    }
  }

  function Zeros(k: nat): (s: string)
    ensures |s| == k && forall i :: 0 <= i < k ==> IsDigit(s[i])
  {
    seq(k, _ => '0')
  }

  lemma {:induction false} ValueOfZeros(k: nat)
    ensures DigitsValue(Zeros(k)) == 0
  {
    if k > 0 {
      assert Zeros(k)[..k - 1] == Zeros(k - 1);
      ValueOfZeros(k - 1);
    }
  }

  /** Leading zeros do not count. */
  lemma {:induction false} ZerosFirst(k: nat, s: string)
    requires forall i :: 0 <= i < |s| ==> IsDigit(s[i])
    ensures DigitsValue(Zeros(k) + s) == DigitsValue(s)
  {
    if s == "" {
      ValueOfZeros(k);
      assert Zeros(k) + s == Zeros(k);
    } else {
      var t := Zeros(k) + s;
      assert t[..|t| - 1] == Zeros(k) + s[..|s| - 1];
      ZerosFirst(k, s[..|s| - 1]);
    }
  }

  /** The digits of a number, perhaps with zeros before them. */
  ghost predicate Digits(s: string, n: nat) {
    exists zeros: nat :: s == Zeros(zeros) + Decimal(n)
  }

  lemma DigitAdded(init: string, last: char, w: nat)
    requires Digits(init, w) && IsDigit(last)
    ensures Digits(init + [last], 10 * w + (last as int - '0' as int))
  {
    var zeros: nat :| init == Zeros(zeros) + Decimal(w);
    var d := last as int - '0' as int;
    assert Digit(d) == last;
    if w == 0 {
      assert Decimal(0) == "0" && Decimal(d) == [last];
      assert init + [last] == Zeros(zeros + 1) + Decimal(d);
    } else {
      assert (10 * w + d) / 10 == w && (10 * w + d) % 10 == d;
      assert Decimal(10 * w + d) == Decimal(w) + [last];
      assert init + [last] == Zeros(zeros) + Decimal(10 * w + d);
    }
  }

  /** Digits are those of the number they stand for. */
  lemma {:induction false} DigitsAreDecimal(s: string)
    requires s != "" && AllDigits(s)
    ensures Digits(s, DigitsValue(s))
  {
    var init, last := s[..|s| - 1], s[|s| - 1];
    assert s == init + [last] && IsDigit(last);
    if init == "" {
      var d := last as int - '0' as int;
      assert s == Zeros(0) + Decimal(d) && DigitsValue(init) == 0;
    } else {
      hide Digits;
      DigitsAreDecimal(init);
      DigitAdded(init, last, DigitsValue(init));
    }
  }

  lemma {:induction false} ValueOfDigits(s: string, n: nat)
    requires Digits(s, n)
    ensures s != "" && AllDigits(s) && DigitsValue(s) == n
  {
    var zeros: nat :| s == Zeros(zeros) + Decimal(n);
    ZerosFirst(zeros, Decimal(n));
    DecimalRoundTrip(n);
  }

  /** The texts of a number: its digits with its sign, which is optional for one that is not negative. */
  ghost predicate Numeral(s: string, v: int) {
    || (v >= 0 && Digits(s, v))
    || (s != "" && v >= 0 && s[0] == '+' && Digits(s[1..], v))
    || (s != "" && v <= 0 && s[0] == '-' && Digits(s[1..], -v))
  }

  /** Exactly the texts of 64-bit numbers are read, each as its number; every other text is an error. */
  lemma AtoiIff(s: string, v: int)
    ensures Atoi(s) == Some(v) <==> Numeral(s, v) && -0x8000_0000_0000_0000 <= v < 0x8000_0000_0000_0000
  {
    hide Digits, DigitsValue;
    var digits := if s != "" && (s[0] == '-' || s[0] == '+') then s[1..] else s;
    if digits != "" && AllDigits(digits) {
      DigitsAreDecimal(digits);
    }
    if v >= 0 && Digits(s, v) {
      ValueOfDigits(s, v);
      assert IsDigit(s[0]);
    } else if v >= 0 && Digits(digits, v) {
      ValueOfDigits(digits, v);
    } else if v <= 0 && Digits(digits, -v) {
      ValueOfDigits(digits, -v);
    }
  }

  lemma AtoiSigned(n: int)
    requires 0 <= n <= MAX_INT64
    ensures Atoi(Decimal(n)) == Atoi("+" + Decimal(n)) == Some(n)
    ensures Atoi("-" + Decimal(n)) == Some(-n)
  {
    var text := Decimal(n);
    OwnDigits(n);
    hide Digits, Decimal, Atoi, Zeros;
    assert ("+" + text)[1..] == text && ("-" + text)[1..] == text;
    AtoiIff(text, n);
    AtoiIff("+" + text, n);
    AtoiIff("-" + text, -n);
  }

  lemma OwnDigits(n: nat)
    ensures Digits(Decimal(n), n)
  {
    hide Decimal;
    assert Decimal(n) == Zeros(0) + Decimal(n);
  }

  // ----- letter case (ASCII, which covers the protocol names) -----

  function LowerChar(c: char): char {
    if 'A' <= c <= 'Z' then (c as int + 32) as char else c
  }

  /** strings.ToLower */
  function ToLower(s: string): (r: string)
    ensures |r| == |s|
  {
    seq(|s|, i requires 0 <= i < |s| => LowerChar(s[i]))
  }

  /** Capital letters become small ones, and nothing else changes. */
  lemma LowerLetters(a: string, b: string)
    ensures ToLower("ABCDEFGHIJKLM") == "abcdefghijklm" && ToLower("NOPQRSTUVWXYZ") == "nopqrstuvwxyz"
    ensures ToLower(a + b) == ToLower(a) + ToLower(b)
    ensures (forall i :: 0 <= i < |a| ==> !('A' <= a[i] <= 'Z')) ==> ToLower(a) == a
  {
    assert ToLower("ABCDEFGHIJKLM") == "abcdefghijklm";
    assert ToLower("NOPQRSTUVWXYZ") == "nopqrstuvwxyz";
  }

  /** strings.EqualFold */
  predicate EqualFold(a: string, b: string) {
    ToLower(a) == ToLower(b)
  }
}
