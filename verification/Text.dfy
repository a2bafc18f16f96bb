/** Characters and strings as the Rust code sees them: Unicode scalars, ASCII case
    folding, Unicode white space, joining, UTF-8 length. */
module Text {

  /** `char::to_ascii_lowercase` */
  function LowerChar(c: char): char {
    if 'A' <= c <= 'Z' then (c as int + 32) as char else c
  }

  function Lower(s: string): (r: string)
    ensures |r| == |s|
    ensures forall i :: 0 <= i < |s| ==> r[i] == LowerChar(s[i])
  {
    seq(|s|, i requires 0 <= i < |s| => LowerChar(s[i]))
  }

  lemma LowerConcat(a: string, b: string)
    ensures Lower(a + b) == Lower(a) + Lower(b)
  {
  }

  /** `char::is_whitespace`: the Unicode White_Space property. */
  predicate IsWhite(c: char) {
    var n := c as int;
    || 0x09 <= n <= 0x0D || n == 0x20 || n == 0x85 || n == 0xA0 || n == 0x1680
    || 0x2000 <= n <= 0x200A || n == 0x2028 || n == 0x2029 || n == 0x202F || n == 0x205F || n == 0x3000
  }

  predicate IsIdent(c: char) {
    'a' <= c <= 'z' || 'A' <= c <= 'Z' || '0' <= c <= '9' || c == '_'
  }

  /** How many leading characters are white space. */
  function WhiteLen(s: string): (k: nat)
    ensures k <= |s| && (k < |s| ==> !IsWhite(s[k]))
  {
    if s != "" && IsWhite(s[0]) then 1 + WhiteLen(s[1..]) else 0
  }

  /** `str::trim_start` */
  function TrimStart(s: string): string {
    s[WhiteLen(s)..]
  }

  /** `str::trim_end` */
  function TrimEnd(s: string): (r: string)
    ensures r <= s
  {
    if s != "" && IsWhite(s[|s| - 1]) then TrimEnd(s[..|s| - 1]) else s
  }

  function Trim(s: string): string {
    TrimEnd(TrimStart(s))
  }

  ghost predicate AllWhite(s: string) { forall i :: 0 <= i < |s| ==> IsWhite(s[i]) }

  /** What trimming leaves: the text between white space at both ends, with none at its own ends. */
  ghost predicate IsTrimmed(s: string, before: string, t: string, after: string) {
    && s == before + t + after && AllWhite(before) && AllWhite(after)
    && (t != "" ==> !IsWhite(t[0]) && !IsWhite(t[|t| - 1]))
  }

  lemma {:induction false} LeadingWhite(s: string)
    ensures AllWhite(s[..WhiteLen(s)])
  {
    if s != "" && IsWhite(s[0]) {
      LeadingWhite(s[1..]);
      assert s[..WhiteLen(s)] == [s[0]] + s[1..][..WhiteLen(s[1..])];
    }
  }

  lemma {:induction false} TrailingWhite(s: string)
    ensures AllWhite(s[|TrimEnd(s)|..]) && (TrimEnd(s) != "" ==> !IsWhite(TrimEnd(s)[|TrimEnd(s)| - 1]))
  {
    if s != "" && IsWhite(s[|s| - 1]) {
      var init := s[..|s| - 1];
      TrailingWhite(init);
      assert s[|TrimEnd(s)|..] == init[|TrimEnd(s)|..] + [s[|s| - 1]];
    }
  }

  lemma TrimIs(s: string)
    ensures IsTrimmed(s, s[..WhiteLen(s)], Trim(s), TrimStart(s)[|Trim(s)|..])
  {
    var rest := TrimStart(s);
    LeadingWhite(s);
    TrailingWhite(rest);
    ThreeParts(s, WhiteLen(s), |Trim(s)|);
    assert Trim(s) == rest[..|Trim(s)|] && (rest != "" ==> !IsWhite(rest[0]));
  }

  lemma ThreeParts(s: string, i: nat, n: nat)
    requires i <= |s| && n <= |s[i..]|
    ensures s == s[..i] + s[i..][..n] + s[i..][n..]
  {
  }

  /** `[..].join(sep)` */
  function Join(parts: seq<string>, sep: string): string {
    if |parts| == 0 then ""
    else if |parts| == 1 then parts[0]
    else parts[0] + sep + Join(parts[1..], sep)
  }

  // ----- where the pieces of a text are -----

  predicate OccursAt(s: string, part: string, i: nat) {
    i + |part| <= |s| && s[i..i + |part|] == part
  }

  ghost predicate Contains(s: string, part: string) {
    exists i: nat :: OccursAt(s, part, i)
  }

  lemma ContainsMiddle(a: string, part: string, b: string)
    ensures Contains(a + part + b, part)
  {
    OccursSecond(a, part, b);
  }

  /** Where the `i`-th part of a joined text starts: after the parts before it and as many gaps. */
  function Offset(parts: seq<string>, gap: nat, i: nat): nat
    requires i <= |parts|
  {
    if i == 0 then 0 else |parts[0]| + gap + Offset(parts[1..], gap, i - 1)
  }

  /** `text` is these parts, in order and without overlap, with one `sep` between them. */
  ghost predicate IsJoined(text: string, parts: seq<string>, sep: string) {
    && |text| + (if parts == [] then 0 else |sep|) == Offset(parts, |sep|, |parts|)
    && HasParts(text, parts, |sep|) && HasSeparators(text, parts, sep)
  }

  ghost predicate HasParts(text: string, parts: seq<string>, gap: nat) {
    forall i :: 0 <= i < |parts| ==> OccursAt(text, parts[i], Offset(parts, gap, i))
  }

  ghost predicate HasSeparators(text: string, parts: seq<string>, sep: string) {
    forall i :: 0 < i < |parts| ==> OccursAt(text, sep, Offset(parts, |sep|, i) - |sep|)
  }

  lemma OccursBehind(a: string, s: string, part: string, i: nat)
    requires OccursAt(s, part, i)
    ensures OccursAt(a + s, part, |a| + i)
  {
    assert (a + s)[|a| + i..|a| + i + |part|] == s[i..i + |part|];
  }

  lemma {:induction false} OffsetGrows(parts: seq<string>, gap: nat, i: nat)
    requires 0 < i <= |parts|
    ensures Offset(parts, gap, i) >= |parts[0]| + gap
  {
  }

  lemma {:induction false} JoinIsJoined(parts: seq<string>, sep: string)
    ensures IsJoined(Join(parts, sep), parts, sep)
  {
    if |parts| == 1 {
      assert parts[1..] == [] && Offset(parts[1..], |sep|, 0) == 0;
    } else if |parts| > 1 {
      var rest := parts[1..];
      JoinIsJoined(rest, sep);
      JoinedBehind(parts, sep, Join(rest, sep));
    }
  }

  lemma PartsBehind(before: string, text: string, parts: seq<string>, gap: nat)
    requires |parts| > 1 && |before| == |parts[0]| + gap && OccursAt(before, parts[0], 0)
    requires HasParts(text, parts[1..], gap)
    ensures HasParts(before + text, parts, gap)
  {
    forall i | 0 <= i < |parts|
      ensures OccursAt(before + text, parts[i], Offset(parts, gap, i))
    {
      if i == 0 {
        OccursBefore(before, text, parts[0], 0);
      } else {
        LaterOffset(parts, gap, i);
        OccursBehind(before, text, parts[i], Offset(parts[1..], gap, i - 1));
      }
    }
  }

  lemma SeparatorsBehind(before: string, text: string, parts: seq<string>, sep: string)
    requires |parts| > 1 && |before| == |parts[0]| + |sep| && OccursAt(before, sep, |parts[0]|)
    requires HasSeparators(text, parts[1..], sep)
    ensures HasSeparators(before + text, parts, sep)
  {
    forall i | 0 < i < |parts|
      ensures OccursAt(before + text, sep, Offset(parts, |sep|, i) - |sep|)
    {
      LaterOffset(parts, |sep|, i);
      if i == 1 {
        OccursBefore(before, text, sep, |parts[0]|);
      } else {
        OffsetGrows(parts[1..], |sep|, i - 1);
        OccursBehind(before, text, sep, Offset(parts[1..], |sep|, i - 1) - |sep|);
      }
    }
  }

  lemma JoinedBehind(parts: seq<string>, sep: string, text: string)
    requires |parts| > 1 && IsJoined(text, parts[1..], sep)
    ensures IsJoined(parts[0] + sep + text, parts, sep)
  {
    var before := parts[0] + sep;
    assert before[0..0 + |parts[0]|] == parts[0] && before[|parts[0]|..|parts[0]| + |sep|] == sep;
    PartsBehind(before, text, parts, |sep|);
    SeparatorsBehind(before, text, parts, sep);
  }

  lemma LaterOffset(parts: seq<string>, gap: nat, i: nat)
    requires 0 < i < |parts|
    ensures parts[1..][i - 1] == parts[i] && Offset(parts, gap, i) == |parts[0]| + gap + Offset(parts[1..], gap, i - 1)
    ensures i == 1 ==> Offset(parts, gap, i) == |parts[0]| + gap
  {
  }

  lemma OccursBefore(s: string, b: string, part: string, i: nat)
    requires OccursAt(s, part, i)
    ensures OccursAt(s + b, part, i)
  {
    assert (s + b)[i..i + |part|] == s[i..i + |part|];
  }

  lemma OccursSecond(a: string, b: string, c: string)
    ensures OccursAt(a + b + c, b, |a|)
  {
    assert (a + b + c)[|a|..|a| + |b|] == b;
  }

  lemma JoinedContains(text: string, parts: seq<string>, sep: string)
    requires IsJoined(text, parts, sep)
    ensures forall i :: 0 <= i < |parts| ==> Contains(text, parts[i])
  {
  }

  /** What is in a part is in the whole. */
  lemma ContainsThrough(s: string, part: string, piece: string)
    requires Contains(s, part) && Contains(part, piece)
    ensures Contains(s, piece)
  {
    var i: nat :| OccursAt(s, part, i);
    var j: nat :| OccursAt(part, piece, j);
    var at := s[i + j..i + j + |piece|];
    forall k | 0 <= k < |piece|
      ensures at[k] == piece[k]
    {
      assert piece[k] == part[j..j + |piece|][k] == part[j + k] == s[i..i + |part|][j + k];
    }
    assert at == piece && OccursAt(s, piece, i + j);
  }

  /** `char::len_utf8` */
  function Utf8Len(c: char): nat {
    var n := c as int;
    if n < 0x80 then 1 else if n < 0x800 then 2 else if n < 0x10000 then 3 else 4
  }

  /** `str::len`: a length in bytes, not in characters. */
  function ByteLen(s: string): (n: nat)
    ensures |s| <= n
  {
    if s == "" then 0 else Utf8Len(s[0]) + ByteLen(s[1..])
  }

  predicate IsAscii(s: string) {
    forall i :: 0 <= i < |s| ==> s[i] as int < 0x80
  }

  lemma {:induction false} AsciiBytesAreChars(s: string)
    requires IsAscii(s)
    ensures ByteLen(s) == |s|
  {
    if s != "" {
      AsciiBytesAreChars(s[1..]);
    }
  }

  /** Decimal rendering of a natural number. */
  function Decimal(n: nat): (r: string)
    ensures r != "" && forall i :: 0 <= i < |r| ==> '0' <= r[i] <= '9'
  {
    var d := [(('0' as int) + n % 10) as char];
    if n < 10 then d else Decimal(n / 10) + d
  }

  /** The number that a string of decimal digits stands for. */
  function NumberOf(digits: string): nat
    requires forall i :: 0 <= i < |digits| ==> '0' <= digits[i] <= '9'
  {
    if digits == "" then 0
    else 10 * NumberOf(digits[..|digits| - 1]) + (digits[|digits| - 1] as nat - '0' as nat)
  }

  /** The rendering reads as the number, and starts with no superfluous zero. */
  lemma {:induction false} DecimalReads(n: nat)
    ensures NumberOf(Decimal(n)) == n && (n > 0 ==> Decimal(n)[0] != '0') && (n < 10 ==> |Decimal(n)| == 1)
  {
    if n >= 10 {
      DecimalReads(n / 10);
      var head, whole := Decimal(n / 10), Decimal(n);
      assert whole[..|whole| - 1] == head && whole[0] == head[0];
    } else {
      assert Decimal(n)[..0] == "";
    }
  }
}
