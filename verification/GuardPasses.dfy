/** The loops of agent-core/src/guard.rs, each proved to perform its edit script. */
module GuardPasses {
  import opened Text
  import opened Guard
  import opened GuardLaws
  import opened GuardMarkers

  function TagsFrom(hay: string, i: nat, needle: string, to: string): string
    requires needle != "" && i <= |hay|
  {
    Target(TagScript(hay[i..], needle, to))
  }

  /** The loop's test: the lower-cased slice at `i` equals the lower-cased needle. */
  predicate Hit(lower: string, i: nat, needle: string) {
    i + |needle| <= |lower| && lower[i..i + |needle|] == needle
  }

  lemma HitIsMatch(hay: string, i: nat, needle: string)
    requires i <= |hay|
    ensures Hit(Lower(hay), i, needle) <==> MatchAt(hay[i..], 0, needle)
  {
    var rest, lower := hay[i..], Lower(hay);
    if i + |needle| <= |hay| {
      var slice := lower[i..i + |needle|];
      forall k | 0 <= k < |needle|
        ensures slice[k] == LowerChar(rest[0 + k])
      {
      }
      assert slice == needle <==> forall k :: 0 <= k < |needle| ==> slice[k] == needle[k];
    }
  }

  /** One turn of the loop of `replace_ci`, at index `i`. */
  lemma ReplaceStep(hay: string, i: nat, needle: string, to: string)
    requires needle != "" && i < |hay|
    ensures var n := if Hit(Lower(hay), i, needle) then |needle| else 1;
            && i + n <= |hay|
            && TagsFrom(hay, i, needle, to)
               == (if Hit(Lower(hay), i, needle) then to else [hay[i]]) + TagsFrom(hay, i + n, needle, to)
  {
    HitIsMatch(hay, i, needle);
    var rest := hay[i..];
    assert rest[1..] == hay[i + 1..];
    if MatchAt(rest, 0, needle) { assert rest[|needle|..] == hay[i + |needle|..]; }
  }

  ghost predicate Replacing(out: string, hay: string, i: nat, needle: string, to: string) {
    needle != "" && i <= |hay| && out + TagsFrom(hay, i, needle, to) == TagsFrom(hay, 0, needle, to)
  }

  lemma ReplaceTurn(out: string, hay: string, i: nat, needle: string, to: string)
    requires Replacing(out, hay, i, needle, to) && i < |hay|
    ensures if Hit(Lower(hay), i, needle) then Replacing(out + to, hay, i + |needle|, needle, to)
            else Replacing(out + [hay[i]], hay, i + 1, needle, to)
  {
    ReplaceStep(hay, i, needle, to);
    var hit := Hit(Lower(hay), i, needle);
    var piece, rest := if hit then to else [hay[i]], TagsFrom(hay, if hit then i + |needle| else i + 1, needle, to);
    Associative(out, piece, rest);
  }

  method ReplaceCi(haystack: string, needle: string, replacement: string) returns (out: string)
    requires needle != ""
    ensures out == Target(TagScript(haystack, Lower(needle), replacement))
  {
    var hayLower, needleLower := Lower(haystack), Lower(needle);
    out := "";
    var i := 0;
    while i < |haystack|
      invariant 0 <= i <= |haystack|
      invariant Replacing(out, haystack, i, needleLower, replacement)
    {
      ReplaceTurn(out, haystack, i, needleLower, replacement);
      if Hit(hayLower, i, needleLower) {
        out := out + replacement;
        i := i + |needleLower|;
      } else {
        out := out + [haystack[i]];
        i := i + 1;
      }
    }
    assert haystack[0..] == haystack;
  }

  /** The length of the first piece of `split_inclusive('\n')`. */
  function LineLength(s: string): (k: nat)
    requires s != ""
    ensures 0 < k <= |s| && '\n' !in s[..k - 1] && (k < |s| ==> s[k - 1] == '\n')
  {
    if s[0] == '\n' || |s| == 1 then 1
    else
      var k := LineLength(s[1..]);
      assert s[..k] == [s[0]] + s[1..][..k - 1];
      1 + k
  }

  /** `neutralize_line_role`: escape the colon of a role word after leading white space. */
  function NeutralizeLineRole(line: string): string {
    var trimmed := TrimStart(line);
    var ws := line[..|line| - |trimmed|];
    var k := RoleWord(trimmed);
    if k > 0 then ws + (trimmed[..k] + COLON_ESCAPE + trimmed[k + 1..]) else line
  }

  lemma {:induction false} RoleScriptInsideLine(s: string)
    requires s == "" || '\n' !in s[..|s| - 1]
    ensures Target(RoleScript(s, false)) == s
  {
    if s != "" {
      if |s| > 1 { assert s[0] == s[..|s| - 1][0]; }
      assert |s| > 1 ==> s[1..][..|s| - 2] == s[..|s| - 1][1..];
      if |s| == 1 {
        assert RoleScript(s[1..], After(false, s[0])) == [];
      } else {
        RoleScriptInsideLine(s[1..]);
      }
    }
  }

  function EscapeHead(trimmed: string): string {
    var k := RoleWord(trimmed);
    if k > 0 then trimmed[..k] + COLON_ESCAPE + trimmed[k + 1..] else trimmed
  }

  lemma LineRoleParts(line: string)
    ensures var w := WhiteLen(line); NeutralizeLineRole(line) == line[..w] + EscapeHead(line[w..])
  {
    var w := WhiteLen(line);
    assert line == line[..w] + line[w..] && |line| - |line[w..]| == w;
  }

  lemma BlankHeadLine(line: string)
    requires line != "" && IsWhite(line[0])
    ensures NeutralizeLineRole(line) == [line[0]] + NeutralizeLineRole(line[1..])
  {
    var w := WhiteLen(line[1..]);
    LineRoleParts(line);
    LineRoleParts(line[1..]);
    assert WhiteLen(line) == 1 + w && line[1..][w..] == line[1 + w..];
    assert line[..1 + w] == [line[0]] + line[1..][..w];
    Associative([line[0]], line[1..][..w], EscapeHead(line[1 + w..]));
  }

  lemma Associative(a: string, b: string, c: string)
    ensures (a + b) + c == a + (b + c)
  {
  }

  lemma VisibleHeadLine(line: string)
    requires line != "" && !IsWhite(line[0])
    ensures var k := RoleWord(line);
            NeutralizeLineRole(line) == if k > 0 then line[..k] + COLON_ESCAPE + line[k + 1..] else line
  {
    assert TrimStart(line) == line && line[..0] == "";
  }

  lemma RoleCopyStep(s: string, start: bool)
    requires s != "" && !(start && RoleWord(s) > 0)
    ensures Target(RoleScript(s, start)) == [s[0]] + Target(RoleScript(s[1..], After(start, s[0])))
  {
  }

  /** One line's rewriting is the whole-text scan of that line. */
  lemma {:induction false} LineRoleIsScript(line: string)
    requires line == "" || '\n' !in line[..|line| - 1]
    ensures NeutralizeLineRole(line) == Target(RoleScript(line, true))
  {
    if line != "" {
      var k := RoleWord(line);
      var n := if k > 0 then k + 1 else 1;
      var rest := line[n..];
      assert rest != "" ==> rest[..|rest| - 1] == line[..|line| - 1][n..];
      if IsWhite(line[0]) {
        BlankHeadLine(line);
        RoleCopyStep(line, true);
        LineRoleIsScript(rest);
      } else {
        VisibleHeadLine(line);
        RoleScriptInsideLine(rest);
        if k > 0 { RoleStep(line); } else { VisibleLineIsCopied(line); }
      }
    }
  }

  lemma VisibleLineIsCopied(line: string)
    requires line != "" && !IsWhite(line[0]) && RoleWord(line) == 0
    requires Target(RoleScript(line[1..], false)) == line[1..]
    ensures Target(RoleScript(line, true)) == line
  {
    RoleCopyStep(line, true);
    assert !After(true, line[0]);
    assert line == [line[0]] + line[1..];
  }

  lemma RolesOfLines(a: string, b: string)
    ensures Roles(a + "\n" + b) == Roles(a) + "\n" + Roles(b)
  {
    RoleScriptLines(a, b, true);
    LinesTarget(RoleScript(a, true), RoleScript(b, true));
  }

  lemma RolesOfFirstLine(text: string)
    requires text != ""
    ensures var k := LineLength(text); Roles(text) == Roles(text[..k]) + Roles(text[k..])
  {
    var k := LineLength(text);
    if k < |text| {
      var a, rest := text[..k - 1], text[k..];
      assert text == a + "\n" + rest && text[..k] == a + "\n" + "";
      RolesOfLines(a, rest);
      RolesOfLines(a, "");
      assert Roles(a) + "\n" + Roles("") == Roles(a) + "\n";
    } else {
      assert text[..k] == text && text[k..] == "";
    }
  }

  /** Taking one line off the text. */
  lemma TakeLine(text: string)
    requires text != ""
    ensures var k := LineLength(text);
            Roles(text) == NeutralizeLineRole(text[..k]) + Roles(text[k..])
  {
    var k := LineLength(text);
    assert text[..k][..k - 1] == text[..k - 1];
    LineRoleIsScript(text[..k]);
    RolesOfFirstLine(text);
  }

  /** `neutralize_line_role` as it runs: the first role word that the trimmed line starts with. */
  method NeutralizeLine(line: string) returns (out: string)
    ensures out == NeutralizeLineRole(line)
  {
    var trimmed := TrimStart(line);
    var wsLen, lower := |line| - |trimmed|, Lower(trimmed);
    var roles := ["human:", "assistant:", "system:"];
    for i := 0 to |roles|
      invariant forall j :: 0 <= j < i ==> !(roles[j] <= lower)
    {
      PrefixIsMatch(trimmed, roles[i]);
      if roles[i] <= lower {
        var wordLen := |roles[i]| - 1;
        OneRole(trimmed, roles[i]);
        return line[..wsLen] + (trimmed[..wordLen] + "&#58;" + trimmed[wordLen + 1..]);
      }
    }
    PrefixIsMatch(trimmed, roles[0]);
    PrefixIsMatch(trimmed, roles[1]);
    PrefixIsMatch(trimmed, roles[2]);
    return line;
  }

  lemma PrefixIsMatch(s: string, role: string)
    ensures role <= Lower(s) <==> MatchAt(s, 0, role)
  {
    StandsIsMatch(s, 0, role);
    if |role| <= |s| { assert Lower(s[0..0 + |role|]) == Lower(s)[..|role|]; }
  }

  method NeutralizeRolePrefixes(text: string) returns (out: string)
    ensures out == Roles(text) && !ShowsRole(out)
    ensures out == text <==> !ShowsRole(text)
  {
    out := "";
    var rest := text;
    while rest != ""
      invariant out + Roles(rest) == Roles(text)
      decreases |rest|
    {
      TakeLine(rest);
      var k := LineLength(rest);
      var line := NeutralizeLine(rest[..k]);
      out := out + line;
      rest := rest[k..];
    }
    NoRoleLeft(text);
  }

  /** One turn of the loop of `neutralize_permission_strings`, at index `i`. */
  lemma PermStep(chars: string, i: nat)
    requires i < |chars|
    ensures var sep := chars[i] == ':' && i + 1 < |chars| && chars[i + 1] == ':' && i > 0
                       && IsIdent(chars[i - 1]) && i + 2 < |chars| && IsIdent(chars[i + 2]);
            var n := if sep then 2 else 1;
            PermsFrom(chars, i) == (if sep then "&#58;&#58;" else [chars[i]]) + PermsFrom(chars, i + n)
  {
    var rest := chars[i..];
    assert |rest| > 1 ==> rest[1] == chars[i + 1];
    assert |rest| > 2 ==> rest[2] == chars[i + 2] && rest[2..] == chars[i + 2..];
    assert rest[1..] == chars[i + 1..];
  }

  function PermsFrom(chars: string, i: nat): string
    requires i <= |chars|
  {
    Target(PermScript(chars[i..], i > 0 && IsIdent(chars[i - 1])))
  }

  ghost predicate PermsDone(out: string, chars: string, i: nat) {
    i <= |chars| && out + PermsFrom(chars, i) == Perms(chars)
  }

  predicate IsSeparator(chars: string, i: nat) {
    && 0 < i && i + 2 < |chars| && chars[i] == ':' && chars[i + 1] == ':'
    && IsIdent(chars[i - 1]) && IsIdent(chars[i + 2])
  }

  lemma PermTurn(out: string, chars: string, i: nat)
    requires i < |chars| && PermsDone(out, chars, i)
    ensures if IsSeparator(chars, i) then PermsDone(out + "&#58;&#58;", chars, i + 2)
            else PermsDone(out + [chars[i]], chars, i + 1)
  {
    PermStep(chars, i);
    var sep := IsSeparator(chars, i);
    Associative(out, if sep then "&#58;&#58;" else [chars[i]], PermsFrom(chars, if sep then i + 2 else i + 1));
  }

  method NeutralizePermissionStrings(chars: string) returns (out: string)
    ensures out == Perms(chars)
  {
    out := "";
    var i := 0;
    assert chars[0..] == chars;
    while i < |chars|
      invariant 0 <= i <= |chars| && PermsDone(out, chars, i)
    {
      PermTurn(out, chars, i);
      if && chars[i] == ':' && i + 1 < |chars| && chars[i + 1] == ':'
         && i > 0 && IsIdent(chars[i - 1])
         && i + 2 < |chars| && IsIdent(chars[i + 2])
      {
        out := out + "&#58;&#58;";
        i := i + 2;
      } else {
        out := out + [chars[i]];
        i := i + 1;
      }
    }
  }

  method NeutralizeUntrusted(text: string) returns (out: string)
    ensures out == Neutralized(text) && Clean(out)
    ensures Clean(text) ==> out == text
    ensures !ShowsTag(out) && !ShowsRole(out) && !ShowsPermission(out)
    ensures out == text <==> !ShowsTag(text) && !ShowsRole(text) && !ShowsPermission(text)
  {
    LowerTags();
    var step := ReplaceCi(text, OPEN_TAG, OPEN_ESCAPE);
    var escapedTags := ReplaceCi(step, CLOSE_TAG, CLOSE_ESCAPE);
    var escapedRoles := NeutralizeRolePrefixes(escapedTags);
    out := NeutralizePermissionStrings(escapedRoles);
    NeutralizedIsClean(text);
    NeutralizeFixedPoint(text);
    NoMarkerLeft(text);
  }

  lemma LowerTags()
    ensures Lower(OPEN_TAG) == OPEN_TAG && Lower(CLOSE_TAG) == CLOSE_TAG
  {
  }

  // ----- merge_summaries (agent-core/src/core_tools.rs:286-300) -----

  /** The label in front of the `i`-th summary. */
  function ResultLabel(i: nat): string {
    "Sub-agent " + Decimal(i + 1) + " result:"
  }

  /** The note of `prepare_child_specs` when `requested` exceeds `cap`. */
  function CapNote(requested: nat, cap: nat): string
    requires cap < requested
  {
    "Note" + ":" + NoteTail(requested, cap)
  }

  function MergeParts(summaries: seq<string>, note: seq<string>): (parts: seq<string>)
    ensures |parts| == |note| + |summaries|
  {
    note + seq(|summaries|, i requires 0 <= i < |summaries| => ResultLabel(i) + "\n" + summaries[i])
  }

  /** `text` is the note, if any, and then each summary under its numbered label, with an empty line
      between them. */
  ghost predicate IsMerge(summaries: seq<string>, note: seq<string>, parts: seq<string>, text: string) {
    && |parts| == |note| + |summaries|
    && (forall i :: 0 <= i < |note| ==> parts[i] == note[i])
    && (forall i :: 0 <= i < |summaries| ==>
          parts[|note| + i] == "Sub-agent " + Decimal(i + 1) + " result:" + "\n" + summaries[i])
    && IsJoined(text, parts, "\n\n")
  }

  lemma PartsMerge(summaries: seq<string>, note: seq<string>)
    ensures IsMerge(summaries, note, MergeParts(summaries, note), Join(MergeParts(summaries, note), "\n\n"))
  {
    JoinIsJoined(MergeParts(summaries, note), "\n\n");
  }

  lemma CapNoteReads(requested: nat, cap: nat)
    requires cap < requested
    ensures CapNote(requested, cap)
         == "Note:" + (" " + Decimal(requested) + (" sub-agents were" + " requested")
                       + (" but the per-call" + " limit is ") + Decimal(cap) + "; capped at " + Decimal(cap)
                       + " (" + Decimal(requested - cap) + " not run).")
  {
    assert "Note" + ":" == "Note:";
  }

  function Merged(summaries: seq<string>, note: seq<string>): string {
    Neutralized(Join(MergeParts(summaries, note), "\n\n"))
  }

  method MergeSummaries(summaries: seq<string>, cappedNote: seq<string>) returns (text: string)
    requires |cappedNote| <= 1
    ensures text == Merged(summaries, cappedNote) && Clean(text)
    ensures exists parts, joined :: IsMerge(summaries, cappedNote, parts, joined) && text == Neutralized(joined)
  {
    var parts: seq<string> := [];
    if |cappedNote| > 0 {
      parts := parts + [cappedNote[0]];
    }
    for i := 0 to |summaries|
      invariant parts == MergeParts(summaries, cappedNote)[..|cappedNote| + i]
    {
      parts := parts + [ResultLabel(i) + "\n" + summaries[i]];
    }
    assert parts == MergeParts(summaries, cappedNote);
    PartsMerge(summaries, cappedNote);
    text := NeutralizeUntrusted(Join(parts, "\n\n"));
  }

  predicate IsPlainText(s: string) {
    forall i :: 0 <= i < |s| ==> s[i] != '<' && s[i] != '\n' && s[i] != ':'
  }

  lemma PlainDecimal(n: nat)
    ensures IsPlainText(Decimal(n))
  {
  }

  lemma RoleHead(s: string)
    requires RoleWord(s) > 0
    ensures LowerChar(s[0]) == 'h' || LowerChar(s[0]) == 'a' || (LowerChar(s[0]) == 's' && LowerChar(s[1]) == 'y')
  {
    var k := RoleWord(s);
    var role := if k == 5 then "human:" else if k == 9 then "assistant:" else "system:";
    assert LowerChar(s[0 + 0]) == role[0] && LowerChar(s[0 + 1]) == role[1];
  }

  /** A line with a single colon, no tag bracket and no role word at its head is clean. */
  lemma OneColonIsClean(a: string, b: string)
    requires IsPlainText(a) && IsPlainText(b) && a != "" && !IsWhite(a[0])
    requires RoleWord(a + ":" + b) == 0
    ensures Clean(a + ":" + b)
  {
    var s := a + ":" + b;
    assert forall i :: 0 <= i < |s| ==> s[i] == if i < |a| then a[i] else if i == |a| then ':' else b[i - |a| - 1];
    forall i: nat | i < |s|
      ensures !MatchAt(s, i, OPEN_TAG) && !MatchAt(s, i, CLOSE_TAG)
    {
      assert s[i] != '<' && OPEN_TAG[0] == '<' && CLOSE_TAG[0] == '<';
      assert LowerChar(s[i + 0]) != '<';
    }
    forall i: nat | i < |s| && Leading(s, i, true)
      ensures RoleWord(s[i..]) == 0
    {
      assert s[0..] == s && s + "" == s;
      if i > 0 { LeadingSkip(s, "", i, true); }
    }
  }

  lemma LabelIsClean(i: nat)
    ensures Clean(ResultLabel(i))
  {
    var a := "Sub-agent " + Decimal(i + 1) + " result";
    PlainDecimal(i + 1);
    assert ResultLabel(i) == a + ":" + "";
    assert a[0] == 'S' && a[1] == 'u';
    if RoleWord(a + ":" + "") > 0 { RoleHead(a + ":" + ""); }
    OneColonIsClean(a, "");
  }

  const REQUESTED := " sub-agents were" + " requested"
  const BUT_LIMIT := " but the per-call" + " limit is "

  function NoteTail(requested: nat, cap: nat): string
    requires cap < requested
  {
    " " + Decimal(requested) + REQUESTED + BUT_LIMIT + Decimal(cap)
    + "; capped at " + Decimal(cap) + " (" + Decimal(requested - cap) + " not run)."
  }

  lemma PlainConcat(a: string, b: string)
    requires IsPlainText(a) && IsPlainText(b)
    ensures IsPlainText(a + b)
  {
  }

  lemma PlainPhrases()
    ensures IsPlainText(REQUESTED) && IsPlainText(BUT_LIMIT) && IsPlainText("; capped at ")
    ensures IsPlainText(" (") && IsPlainText(" not run).")
  {
    assert IsPlainText(" sub-agents were") && IsPlainText(" requested");
    assert IsPlainText(" but the per-call") && IsPlainText(" limit is ");
  }

  lemma NoteTailIsPlain(requested: nat, cap: nat)
    requires cap < requested
    ensures IsPlainText(NoteTail(requested, cap))
  {
    var a := " " + Decimal(requested);
    var b := a + REQUESTED + BUT_LIMIT;
    var c := b + Decimal(cap);
    var d := c + "; capped at ";
    var e := d + Decimal(cap);
    var f := e + " (";
    var g := f + Decimal(requested - cap);
    PlainPhrases();
    PlainConcat(" ", Decimal(requested));
    PlainConcat(a, REQUESTED);
    PlainConcat(a + REQUESTED, BUT_LIMIT);
    PlainConcat(b, Decimal(cap));
    PlainConcat(c, "; capped at ");
    PlainConcat(d, Decimal(cap));
    PlainConcat(e, " (");
    PlainConcat(f, Decimal(requested - cap));
    PlainConcat(g, " not run).");
  }

  lemma NoteIsClean(requested: nat, cap: nat)
    requires cap < requested
    ensures Clean(CapNote(requested, cap))
  {
    var tail := NoteTail(requested, cap);
    var s := "Note" + ":" + tail;
    NoteTailIsPlain(requested, cap);
    assert s[0] == 'N';
    if RoleWord(s) > 0 { RoleHead(s); }
    OneColonIsClean("Note", tail);
  }

  lemma {:induction false} JoinOfFixed(parts: seq<string>)
    requires forall i :: 0 <= i < |parts| ==> Neutralized(parts[i]) == parts[i]
    ensures Neutralized(Join(parts, "\n\n")) == Join(parts, "\n\n")
  {
    if |parts| == 0 {
      assert Clean("");
      CleanIsUnchanged("");
    } else if |parts| > 1 {
      var rest := Join(parts[1..], "\n\n");
      JoinOfFixed(parts[1..]);
      assert Join(parts, "\n\n") == parts[0] + "\n" + ("" + "\n" + rest);
      NeutralizeLines(parts[0], "" + "\n" + rest);
      NeutralizeLines("", rest);
      assert Clean("");
      CleanIsUnchanged("");
    }
  }

  /** The second pass changes nothing: over summaries already neutralized, with or without the
      cap note, the merged text is the labelled summaries verbatim. */
  lemma MergeOfNeutralized(summaries: seq<string>, note: seq<string>)
    requires forall i :: 0 <= i < |summaries| ==> Neutralized(summaries[i]) == summaries[i]
    requires note == [] || exists r: nat, c: nat :: c < r && note == [CapNote(r, c)]
    ensures Merged(summaries, note) == Join(MergeParts(summaries, note), "\n\n")
  {
    var parts := MergeParts(summaries, note);
    forall i | 0 <= i < |parts|
      ensures Neutralized(parts[i]) == parts[i]
    {
      if i < |note| {
        var r: nat, c: nat :| c < r && note == [CapNote(r, c)];
        NoteIsClean(r, c);
        CleanIsUnchanged(parts[i]);
      } else {
        var j := i - |note|;
        LabelIsClean(j);
        CleanIsUnchanged(ResultLabel(j));
        NeutralizeLines(ResultLabel(j), summaries[j]);
      }
    }
    JoinOfFixed(parts);
  }
}
