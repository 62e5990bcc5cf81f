/** String operations of the JavaScript runtime that the scrapers, the price
    sheet and the notifier rely on, on `string` = `seq<char>`: decimal
    conversion (`String(n)`, `Number(s)`), `padStart(2, '0')`, thousands
    grouping (`toLocaleString()`), `includes`, a first-occurrence `replace`,
    `trim`, the default string order of `Array.prototype.sort`, and the
    newline-terminated lines the message builders emit. */
module Text {
  import opened Wrappers

  // ---------------------------------------------------------------- digits

  predicate IsDigit(c: char) { '0' <= c <= '9' }

  predicate AllDigits(s: string) {
    forall i :: 0 <= i < |s| ==> IsDigit(s[i])
  }

  function DigitChar(d: nat): (c: char)
    requires d < 10
    ensures IsDigit(c)
  {
    (48 + d) as char
  }

  function DigitValue(c: char): (d: nat)
    requires IsDigit(c)
    ensures d < 10
  {
    c as int - 48
  }

  /** `String(n)` for a non-negative integer: its decimal digits, no leading zero. */
  function NatToString(n: nat): (s: string)
    ensures 1 <= |s| && AllDigits(s)
  {
    if n < 10 then [DigitChar(n)] else NatToString(n / 10) + [DigitChar(n % 10)]
  }

  /** The value of a string of decimal digits (`Number(s)` on such a string; `""` is 0). */
  function ParseDigits(s: string): nat
    requires AllDigits(s)
  {
    if s == [] then 0 else ParseDigits(s[..|s| - 1]) * 10 + DigitValue(s[|s| - 1])
  }

  /** Reading the digits of `String(n)` back gives `n`. */
  lemma {:induction false} ParseNatToString(n: nat)
    ensures ParseDigits(NatToString(n)) == n
  {
    if n >= 10 {
      ParseNatToString(n / 10);
      var s := NatToString(n);
      assert s[..|s| - 1] == NatToString(n / 10);
    }
  }

  lemma NatToStringInjective(a: nat, b: nat)
    requires NatToString(a) == NatToString(b)
    ensures a == b
  {
    ParseNatToString(a);
    ParseNatToString(b);
  }

  lemma {:induction false} ParseLeadingZero(s: string)
    requires AllDigits(s)
    ensures AllDigits("0" + s) && ParseDigits("0" + s) == ParseDigits(s)
  {
    if s != [] {
      var t := "0" + s;
      assert t[..|t| - 1] == "0" + s[..|s| - 1];
      ParseLeadingZero(s[..|s| - 1]);
    }
  }

  /** `String(n).padStart(2, '0')`. */
  function Pad2(n: nat): (s: string)
    ensures AllDigits(s)
  {
    if n < 10 then "0" + NatToString(n) else NatToString(n)
  }

  /** Below 100 the padded text has exactly two digits and reads back as `n`. */
  lemma Pad2RoundTrip(n: nat)
    ensures n < 100 ==> |Pad2(n)| == 2
    ensures ParseDigits(Pad2(n)) == n
  {
    ParseNatToString(n);
    if n < 10 {
      ParseLeadingZero(NatToString(n));
    } else if n < 100 {
      assert NatToString(n) == NatToString(n / 10) + [DigitChar(n % 10)];
    }
  }

  // ------------------------------------------------------ thousands grouping

  /** Three digits, zero-padded: the group after a separator. */
  function Pad3(k: nat): (s: string)
    requires k < 1000
    ensures |s| == 3 && AllDigits(s)
  {
    [DigitChar(k / 100), DigitChar(k / 10 % 10), DigitChar(k % 10)]
  }

  /** `n.toLocaleString()` for a natural number: digits grouped by three with `,`. */
  function Grouped(n: nat): (s: string)
    ensures 1 <= |s|
    ensures forall i :: 0 <= i < |s| ==> IsDigit(s[i]) || s[i] == ','
  {
    if n < 1000 then NatToString(n) else Grouped(n / 1000) + "," + Pad3(n % 1000)
  }

  /** `s` with every occurrence of `c` taken out. */
  function Without(s: string, c: char): (r: string)
    ensures c !in r
  {
    if s == [] then [] else (if s[0] == c then [] else [s[0]]) + Without(s[1..], c)
  }

  lemma {:induction false} WithoutAppend(a: string, b: string, c: char)
    ensures Without(a + b, c) == Without(a, c) + Without(b, c)
  {
    if a != [] {
      assert (a + b)[1..] == a[1..] + b;
      WithoutAppend(a[1..], b, c);
    } else {
      assert a + b == b;
    }
  }

  lemma {:induction false} WithoutNoOccurrence(s: string, c: char)
    requires c !in s
    ensures Without(s, c) == s
  {
    if s != [] {
      WithoutNoOccurrence(s[1..], c);
    }
  }

  /** The last three digits of `String(n)` are the zero-padded remainder. */
  lemma NatToStringThousands(n: nat)
    requires n >= 1000
    ensures NatToString(n) == NatToString(n / 1000) + Pad3(n % 1000)
  {
    var q, r := n / 1000, n % 1000;
    assert n / 10 == q * 100 + r / 10;
    assert n / 10 / 10 == q * 10 + r / 100;
    assert n / 10 / 10 / 10 == q;
    assert n % 10 == r % 10;
    assert n / 10 % 10 == r / 10 % 10;
    assert n / 10 / 10 % 10 == r / 100;
    calc {
      NatToString(n);
      NatToString(n / 10) + [DigitChar(n % 10)];
      NatToString(n / 10 / 10) + [DigitChar(n / 10 % 10)] + [DigitChar(n % 10)];
      NatToString(q) + [DigitChar(r / 100)] + [DigitChar(r / 10 % 10)] + [DigitChar(r % 10)];
    }
  }

  /** Grouping only inserts separators: without the commas it is `String(n)`. */
  lemma DigitsWithoutComma(s: string)
    requires AllDigits(s)
    ensures Without(s, ',') == s
  {
    assert ',' !in s by {
      forall i | 0 <= i < |s| ensures s[i] != ',' {
        assert IsDigit(s[i]);
      }
    }
    WithoutNoOccurrence(s, ',');
  }

  /** Taking the commas out of `a,p`, where `p` is a digit group. */
  lemma WithoutGroup(a: string, p: string, q: string)
    requires Without(a, ',') == q && AllDigits(p)
    ensures Without(a + "," + p, ',') == q + p
  {
    WithoutAppend(a + ",", p, ',');
    WithoutAppend(a, ",", ',');
    assert Without(",", ',') == [];
    DigitsWithoutComma(p);
    assert q + [] == q;
  }

  lemma {:induction false} GroupedDigits(n: nat)
    ensures Without(Grouped(n), ',') == NatToString(n)
  {
    if n < 1000 {
      DigitsWithoutComma(NatToString(n));
    } else {
      GroupedDigits(n / 1000);
      WithoutGroup(Grouped(n / 1000), Pad3(n % 1000), NatToString(n / 1000));
      NatToStringThousands(n);
    }
  }

  // ----------------------------------------------------- search and replace

  predicate StartsWith(s: string, p: string) {
    |p| <= |s| && s[..|p|] == p
  }

  predicate EndsWith(s: string, p: string) {
    |p| <= |s| && s[|s| - |p|..] == p
  }

  /** `t` occurs in `s` starting at index `i`. */
  predicate OccursAt(s: string, t: string, i: nat) {
    i + |t| <= |s| && s[i..i + |t|] == t
  }

  /** The first index at or after `from` where `t` occurs in `s`. */
  function IndexOfFrom(s: string, t: string, from: nat): (r: Option<nat>)
    ensures r.Some? ==> from <= r.value && OccursAt(s, t, r.value)
    ensures r.Some? ==> forall j :: from <= j < r.value ==> !OccursAt(s, t, j)
    ensures r.None? ==> forall j :: from <= j ==> !OccursAt(s, t, j)
    decreases |s| - from
  {
    if |s| < from + |t| then None
    else if OccursAt(s, t, from) then Some(from)
    else IndexOfFrom(s, t, from + 1)
  }

  /** `s.indexOf(t)`, with `None` for -1. */
  function IndexOf(s: string, t: string): Option<nat> {
    IndexOfFrom(s, t, 0)
  }

  /** `s.includes(t)`. */
  predicate Contains(s: string, t: string) {
    IndexOf(s, t).Some?
  }

  lemma ContainsAt(s: string, t: string, i: nat)
    requires OccursAt(s, t, i)
    ensures Contains(s, t)
  {
  }

  /** `s.replace(pattern, rep)` for a pattern without special characters: only
      the first occurrence is replaced. */
  function ReplaceFirst(s: string, pattern: string, rep: string): string {
    match IndexOf(s, pattern)
    case None => s
    case Some(i) => s[..i] + rep + s[i + |pattern|..]
  }

  /** The replacement happens at the leftmost occurrence and nowhere else; a
      string without the pattern is returned unchanged. */
  lemma ReplaceFirstSpec(s: string, pattern: string, rep: string)
    ensures !Contains(s, pattern) ==> ReplaceFirst(s, pattern, rep) == s
    ensures Contains(s, pattern) ==> exists i: nat ::
      OccursAt(s, pattern, i) && (forall j :: 0 <= j < i ==> !OccursAt(s, pattern, j)) &&
      ReplaceFirst(s, pattern, rep) == s[..i] + rep + s[i + |pattern|..]
  {
    if Contains(s, pattern) {
      var i := IndexOf(s, pattern).value;
      assert OccursAt(s, pattern, i);
    }
  }

  // ------------------------------------------------------------------ trim

  /** The characters `String.prototype.trim` removes: white space (including
      every space separator) and line terminators. */
  predicate IsJsSpace(c: char) {
    c == '\t' || c == '\U{000B}' || c == '\U{000C}' || c == ' ' || c == '\U{00A0}' ||
    c == '\U{FEFF}' || c == '\U{1680}' || ('\U{2000}' <= c <= '\U{200A}') ||
    c == '\U{202F}' || c == '\U{205F}' || c == '\U{3000}' ||
    c == '\n' || c == '\r' || c == '\U{2028}' || c == '\U{2029}'
  }

  function TrimStart(s: string): (r: string)
    ensures |r| <= |s| && r == s[|s| - |r|..]
    ensures r != [] ==> !IsJsSpace(r[0])
    ensures forall i :: 0 <= i < |s| - |r| ==> IsJsSpace(s[i])
  {
    if s != [] && IsJsSpace(s[0]) then TrimStart(s[1..]) else s
  }

  function TrimEnd(s: string): (r: string)
    ensures |r| <= |s| && r == s[..|r|]
    ensures r != [] ==> !IsJsSpace(r[|r| - 1])
    ensures forall i :: |r| <= i < |s| ==> IsJsSpace(s[i])
  {
    if s != [] && IsJsSpace(s[|s| - 1]) then TrimEnd(s[..|s| - 1]) else s
  }

  /** `s.trim()`: the longest slice of `s` that neither starts nor ends with white space. */
  function Trim(s: string): (r: string)
    ensures r != [] ==> !IsJsSpace(r[0]) && !IsJsSpace(r[|r| - 1])
    ensures exists i, j ::
              (0 <= i <= j <= |s| && r == s[i..j] &&
               (forall k :: 0 <= k < i ==> IsJsSpace(s[k])) && (forall k :: j <= k < |s| ==> IsJsSpace(s[k])))
  {
    var t := TrimStart(s);
    var r := TrimEnd(t);
    var i := |s| - |t|;
    assert r == s[i..i + |r|];
    r
  }

  // ---------------------------------------------------- default string order

  /** The order `Array.prototype.sort()` uses without a comparator: compare
      character by character; a proper prefix comes first. */
  predicate LexLess(a: string, b: string)
    decreases |a|
  {
    if b == [] then false
    else if a == [] then true
    else if a[0] != b[0] then a[0] < b[0]
    else LexLess(a[1..], b[1..])
  }

  predicate LexLe(a: string, b: string) {
    a == b || LexLess(a, b)
  }

  lemma {:induction false} LexLessIrreflexive(a: string)
    ensures !LexLess(a, a)
  {
    if a != [] {
      LexLessIrreflexive(a[1..]);
    }
  }

  lemma {:induction false} LexLessTotal(a: string, b: string)
    ensures a == b || LexLess(a, b) || LexLess(b, a)
    decreases |a|
  {
    if a != [] && b != [] && a[0] == b[0] {
      LexLessTotal(a[1..], b[1..]);
      if a[1..] == b[1..] {
        assert a == [a[0]] + a[1..] && b == [b[0]] + b[1..];
      }
    }
  }

  lemma {:induction false} LexLessTransitive(a: string, b: string, c: string)
    requires LexLess(a, b) && LexLess(b, c)
    ensures LexLess(a, c)
    decreases |a|
  {
    if a != [] && b != [] && c != [] && a[0] == b[0] && b[0] == c[0] {
      LexLessTransitive(a[1..], b[1..], c[1..]);
    }
  }

  lemma {:induction false} LexLessAsymmetric(a: string, b: string)
    requires LexLess(a, b)
    ensures !LexLess(b, a)
    decreases |a|
  {
    if a != [] && b != [] && a[0] == b[0] {
      LexLessAsymmetric(a[1..], b[1..]);
    }
  }

  // ------------------------------------------------------------------ lines

  /** Each line followed by `\n`: what a builder that appends `line + '\n'` in
      a loop produces. */
  function JoinLines(lines: seq<string>): string {
    if lines == [] then "" else lines[0] + "\n" + JoinLines(lines[1..])
  }

  lemma {:induction false} JoinLinesAppend(lines: seq<string>, more: seq<string>)
    ensures JoinLines(lines + more) == JoinLines(lines) + JoinLines(more)
  {
    if lines == [] {
      assert lines + more == more;
    } else {
      assert (lines + more)[1..] == lines[1..] + more;
      JoinLinesAppend(lines[1..], more);
    }
  }

  lemma JoinLinesSnoc(lines: seq<string>, line: string)
    ensures JoinLines(lines + [line]) == JoinLines(lines) + line + "\n"
  {
    JoinLinesAppend(lines, [line]);
    assert JoinLines([line]) == line + "\n" + JoinLines([]);
  }

  /** Each item as a `・` bullet line. */
  function Bulleted(items: seq<string>): (lines: seq<string>)
    ensures |lines| == |items|
    ensures forall i :: 0 <= i < |items| ==> lines[i] == "・" + items[i]
  {
    seq(|items|, i requires 0 <= i < |items| => "・" + items[i])
  }

  /** `for (const x of items) message += `・${x}\n``, in place. */
  method AppendBullets(message: string, items: seq<string>) returns (r: string)
    ensures r == message + JoinLines(Bulleted(items))
  {
    r := message;
    for i := 0 to |items|
      invariant r == message + JoinLines(Bulleted(items[..i]))
    {
      JoinLinesSnoc(Bulleted(items[..i]), "・" + items[i]);
      assert Bulleted(items[..i + 1]) == Bulleted(items[..i]) + ["・" + items[i]];
      r := r + "・" + items[i] + "\n";
    }
    assert items[..|items|] == items;
  }

  /** The index of the first line terminator in `s`, or `|s|`. */
  function LineEnd(s: string): (i: nat)
    ensures i <= |s| && (i < |s| ==> s[i] == '\n')
    ensures forall j :: 0 <= j < i ==> s[j] != '\n'
  {
    if s == [] || s[0] == '\n' then 0 else 1 + LineEnd(s[1..])
  }

  /** The lines of a text, each ended by `\n` or by the end of the text. */
  function SplitLines(s: string): seq<string>
    decreases |s|
  {
    if s == [] then []
    else
      var i := LineEnd(s);
      [s[..i]] + (if i < |s| then SplitLines(s[i + 1..]) else [])
  }

  /** The first line ends at the first terminator. */
  lemma {:induction false} LineEndAt(s: string, i: nat)
    requires i < |s| && s[i] == '\n' && '\n' !in s[..i]
    ensures LineEnd(s) == i
  {
    if i > 0 {
      assert s[0] in s[..i];
      assert s[1..][..i - 1] == s[1..i];
      assert forall c :: c in s[1..i] ==> c in s[..i];
      LineEndAt(s[1..], i - 1);
    }
  }

  /** A text whose first terminator is at `i` is the line before it, then
      the lines after it. */
  lemma SplitLinesAt(s: string, i: nat)
    requires i < |s| && s[i] == '\n' && '\n' !in s[..i]
    ensures SplitLines(s) == [s[..i]] + SplitLines(s[i + 1..])
  {
    LineEndAt(s, i);
  }

  lemma AppendAssoc<T>(p: seq<T>, q: seq<T>, r: seq<T>)
    ensures p + (q + r) == p + q + r
  {
  }

  lemma PrefixStep<T>(s: seq<T>, i: nat, x: T)
    requires i < |s| && s[i] == x
    ensures s[..i + 1] == s[..i] + [x]
  {
  }

  lemma ConsAppend(x: string, p: seq<string>, q: seq<string>)
    ensures [x] + (p + q) == ([x] + p) + q
  {
  }

  /** Splitting a text whose first part ends a line splits each part on its own. */
  lemma {:induction false} SplitLinesAppend(a: string, b: string)
    requires a == [] || a[|a| - 1] == '\n'
    ensures SplitLines(a + b) == SplitLines(a) + SplitLines(b)
    decreases |a|
  {
    if a == [] {
      assert a + b == b;
    } else {
      var i := LineEnd(a);
      var line, rest := a[..i], a[i + 1..];
      assert i < |a| && '\n' !in line;
      assert a == line + "\n" + rest;
      SplitLinesAppend(rest, b);
      SplitLinesCons(line, rest, b);
    }
  }

  /** A line and its terminator come off the front of a text. */
  lemma LineFirst(line: string, rest: string)
    requires '\n' !in line
    ensures SplitLines(line + "\n" + rest) == [line] + SplitLines(rest)
  {
    var s := line + "\n" + rest;
    var i := |line|;
    assert s[i] == '\n' && s[..i] == line && s[i + 1..] == rest;
    SplitLinesAt(s, i);
  }

  /** The step of `SplitLinesAppend`: the first line of `a` is the first line
      of `a + b`, and the rest splits on its own. */
  lemma SplitLinesCons(line: string, rest: string, b: string)
    requires '\n' !in line
    requires SplitLines(rest + b) == SplitLines(rest) + SplitLines(b)
    ensures SplitLines(line + "\n" + rest + b) == SplitLines(line + "\n" + rest) + SplitLines(b)
  {
    LineFirst(line, rest);
    LineFirst(line, rest + b);
    AppendAssoc(line + "\n", rest, b);
    ConsAppend(line, SplitLines(rest), SplitLines(b));
  }

  /** A non-empty text without a line terminator is one line. */
  lemma OneLine(s: string)
    requires s != [] && '\n' !in s
    ensures SplitLines(s) == [s]
  {
    assert s[..LineEnd(s)] == s;
  }

  lemma NoNewlineConcat(a: string, b: string)
    requires '\n' !in a && '\n' !in b
    ensures '\n' !in a + b
  {
  }

  predicate NoNewlines(lines: seq<string>) {
    forall k :: 0 <= k < |lines| ==> '\n' !in lines[k]
  }

  /** Splitting what `JoinLines` built gives back exactly its lines, in order. */
  lemma {:induction false} SplitJoinLines(lines: seq<string>)
    requires NoNewlines(lines)
    ensures SplitLines(JoinLines(lines)) == lines
  {
    if lines != [] {
      var l := lines[0];
      var rest := JoinLines(lines[1..]);
      var s := l + "\n" + rest;
      assert s[..|l|] == l;
      assert s[|l| + 1..] == rest;
      SplitLinesAt(s, |l|);
      SplitJoinLines(lines[1..]);
      assert lines == [l] + lines[1..];
    }
  }

  lemma BulletsNoNewlines(items: seq<string>)
    requires NoNewlines(items)
    ensures NoNewlines(Bulleted(items))
  {
    forall k | 0 <= k < |items| ensures '\n' !in Bulleted(items)[k] {
      assert Bulleted(items)[k] == "・" + items[k];
    }
  }

  /** What `JoinLines` builds from at least one line ends a line. */
  lemma {:induction false} JoinLinesEndsLine(lines: seq<string>)
    requires lines != []
    ensures JoinLines(lines) != [] && JoinLines(lines)[|JoinLines(lines)| - 1] == '\n'
  {
    if lines[1..] != [] {
      JoinLinesEndsLine(lines[1..]);
    }
  }

  /** Whole lines followed by a last unterminated line split back into
      those lines and the last. */
  lemma JoinThenLast(lines: seq<string>, last: string)
    requires NoNewlines(lines) && last != [] && '\n' !in last
    ensures SplitLines(JoinLines(lines) + last) == lines + [last]
  {
    OneLine(last);
    if lines != [] {
      JoinLinesEndsLine(lines);
    }
    SplitLinesAppend(JoinLines(lines), last);
    SplitJoinLines(lines);
  }

  /** A text that ends a line, then whole lines, then a last unterminated
      line, splits into the first text's lines, those lines and the last. */
  lemma LinesThenLast(head: string, lines: seq<string>, last: string)
    requires head != [] && head[|head| - 1] == '\n'
    requires NoNewlines(lines) && last != [] && '\n' !in last
    ensures SplitLines(head + JoinLines(lines) + last) == SplitLines(head) + lines + [last]
  {
    var body := JoinLines(lines);
    var tail := body + last;
    AppendAssoc(head, body, last);
    SplitLinesAppend(head, tail);
    JoinThenLast(lines, last);
    AppendAssoc(SplitLines(head), lines, [last]);
  }

  lemma NoNewlinesAppend(a: seq<string>, b: seq<string>)
    requires NoNewlines(a) && NoNewlines(b)
    ensures NoNewlines(a + b)
  {
    forall k | 0 <= k < |a + b| ensures '\n' !in (a + b)[k] {
      if k >= |a| {
        assert (a + b)[k] == b[k - |a|];
      }
    }
  }
}
