/** What neutralization guarantees (agent-core/src/guard.rs:4-17): no marker is left, clean
    text is untouched, lines are treated one by one, and nothing is dropped. */
module GuardLaws {
  import opened Text
  import opened Guard

  // ----- every pass only makes entities, and reads the whole text -----

  lemma {:induction false} TagScriptIsEdit(s: string, needle: string, to: string)
    requires (needle == OPEN_TAG && to == OPEN_ESCAPE) || (needle == CLOSE_TAG && to == CLOSE_ESCAPE)
    ensures Entities(TagScript(s, needle, to)) && Source(TagScript(s, needle, to)) == s
    ensures Escapes(TagScript(s, needle, to))
  {
    if s != "" {
      if MatchAt(s, 0, needle) {
        var from := s[..|needle|];
        forall i | 0 <= i < |needle|
          ensures Lower(from)[i] == needle[i]
        {
          assert LowerChar(s[0 + i]) == needle[i];
        }
        assert Lower(from) == needle;
        TagScriptIsEdit(s[|needle|..], needle, to);
      } else {
        TagScriptIsEdit(s[1..], needle, to);
      }
    }
    EntitiesAreEscapes(TagScript(s, needle, to));
  }

  /** The two sides of the role script where it escapes a colon. */
  lemma RoleStep(s: string)
    requires RoleWord(s) > 0
    ensures var k := RoleWord(s); var rest := RoleScript(s[k + 1..], false);
            && Target(RoleScript(s, true)) == s[..k] + COLON_ESCAPE + Target(rest)
            && Source(RoleScript(s, true)) == s[..k] + ":" + Source(rest)
  {
    var k := RoleWord(s);
    var word, colon, rest := CopyAll(s[..k]), [Sub(":", COLON_ESCAPE)], RoleScript(s[k + 1..], false);
    CopyAllIdentity(s[..k]);
    ScriptConcat(word, colon);
    ScriptConcat(word + colon, rest);
    assert Source(colon) == ":" && Target(colon) == COLON_ESCAPE;
  }

  lemma RoleWordIsEdit(s: string)
    requires RoleWord(s) > 0
    requires Entities(RoleScript(s[RoleWord(s) + 1..], false))
    requires Source(RoleScript(s[RoleWord(s) + 1..], false)) == s[RoleWord(s) + 1..]
    ensures Entities(RoleScript(s, true)) && Source(RoleScript(s, true)) == s
  {
    var k := RoleWord(s);
    RoleStep(s);
    assert s == s[..k] + ":" + s[k + 1..];
  }

  lemma {:induction false} RoleScriptIsEdit(s: string, start: bool)
    ensures Entities(RoleScript(s, start)) && Source(RoleScript(s, start)) == s
    ensures Escapes(RoleScript(s, start))
    decreases |s|
  {
    if s != "" {
      if start && RoleWord(s) > 0 {
        RoleScriptIsEdit(s[RoleWord(s) + 1..], false);
        RoleWordIsEdit(s);
      } else {
        RoleScriptIsEdit(s[1..], After(start, s[0]));
      }
    }
    EntitiesAreEscapes(RoleScript(s, start));
  }

  lemma {:induction false} PermScriptIsEdit(s: string, afterIdent: bool)
    ensures Entities(PermScript(s, afterIdent)) && Source(PermScript(s, afterIdent)) == s
    ensures Escapes(PermScript(s, afterIdent))
    decreases |s|
  {
    if s != "" {
      if afterIdent && Separator(s) {
        PermScriptIsEdit(s[2..], false);
        assert s == "::" + s[2..];
      } else {
        PermScriptIsEdit(s[1..], IsIdent(s[0]));
      }
    }
    EntitiesAreEscapes(PermScript(s, afterIdent));
  }

  // ----- tags -----

  lemma MatchShift(a: string, b: string, i: nat, needle: string)
    ensures MatchAt(a + b, |a| + i, needle) <==> MatchAt(b, i, needle)
  {
    if MatchAt(a + b, |a| + i, needle) {
      forall k | 0 <= k < |needle|
        ensures LowerChar(b[i + k]) == needle[k]
      {
        assert (a + b)[|a| + i + k] == b[i + k];
      }
    }
    if MatchAt(b, i, needle) {
      forall k | 0 <= k < |needle|
        ensures LowerChar((a + b)[|a| + i + k]) == needle[k]
      {
        assert (a + b)[|a| + i + k] == b[i + k];
      }
    }
  }

  lemma MatchChars(s: string, i: nat, needle: string)
    requires IsTag(needle) && MatchAt(s, i, needle)
    ensures s[i] == '<' && '&' !in s[i..i + |needle|]
  {
    assert LowerChar(s[i + 0]) == needle[0];
    var w := s[i..i + |needle|];
    forall c | c in w
      ensures c != '&'
    {
      var k :| 0 <= k < |needle| && w[k] == c;
      assert LowerChar(s[i + k]) == needle[k] && needle[k] in needle;
    }
  }

  lemma MatchPrefix(s: string, t: string, needle: string)
    requires MatchAt(s, 0, needle) && |needle| <= |t| && s[..|needle|] == t[..|needle|]
    ensures MatchAt(t, 0, needle)
  {
    forall k | 0 <= k < |needle|
      ensures LowerChar(t[0 + k]) == needle[k]
    {
      assert t[0 + k] == t[..|needle|][k] == s[..|needle|][k] == s[0 + k];
    }
  }

  /** A tag at the very start of the target was copied from the source. */
  lemma CopiedTag(ps: Script, needle: string)
    requires Escapes(ps) && IsTag(needle) && MatchAt(Target(ps), 0, needle)
    ensures MatchAt(Source(ps), 0, needle) && Source(ps) != ""
  {
    MatchChars(Target(ps), 0, needle);
    forall i | 0 <= i < |needle|
      ensures Target(ps)[i] != '&'
    {
      assert Target(ps)[i] in Target(ps)[0..0 + |needle|];
    }
    CopiedPrefix(ps, |needle|);
    MatchPrefix(Target(ps), Source(ps), needle);
  }

  /** Where the target of an edit shows a tag, the source already had one. */
  lemma {:induction false} TagTrace(ps: Script, i: nat, needle: string) returns (j: nat)
    requires Escapes(ps) && IsTag(needle)
    requires i < |Target(ps)| && MatchAt(Target(ps), i, needle)
    ensures j < |Source(ps)| && MatchAt(Source(ps), j, needle)
  {
    if i == 0 {
      CopiedTag(ps, needle);
      j := 0;
    } else {
      var a := To(ps[0]);
      MatchChars(Target(ps), i, needle);
      forall k | 0 <= k < |a| && ps[0].Sub? ensures a[k] != '<' { assert a[k] in a; }
      MatchShift(a, Target(ps[1..]), i - |a|, needle);
      var j' := TagTrace(ps[1..], i - |a|, needle);
      MatchShift(From(ps[0]), Source(ps[1..]), j', needle);
      j := |From(ps[0])| + j';
    }
  }

  /** No pass re-creates a tag. */
  lemma EditKeepsTagFree(ps: Script, needle: string)
    requires Escapes(ps) && IsTag(needle) && Free(Source(ps), needle)
    ensures Free(Target(ps), needle)
  {
    forall i: nat | i < |Target(ps)|
      ensures !MatchAt(Target(ps), i, needle)
    {
      if MatchAt(Target(ps), i, needle) {
        var j := TagTrace(ps, i, needle);
      }
    }
  }

  lemma {:induction false} TagPassRemoves(s: string, needle: string, to: string)
    requires (needle == OPEN_TAG && to == OPEN_ESCAPE) || (needle == CLOSE_TAG && to == CLOSE_ESCAPE)
    ensures Free(Target(TagScript(s, needle, to)), needle)
  {
    if s != "" {
      var ps := TagScript(s, needle, to);
      TagScriptIsEdit(s, needle, to);
      TagPassRemoves(if MatchAt(s, 0, needle) then s[|needle|..] else s[1..], needle, to);
      TagPassStep(s, ps, needle);
    }
  }

  lemma TagPassStep(s: string, ps: Script, needle: string)
    requires Escapes(ps) && Source(ps) == s && ps != [] && IsTag(needle)
    requires ps[0].Sub? <==> MatchAt(s, 0, needle)
    requires Free(Target(ps[1..]), needle)
    ensures Free(Target(ps), needle)
  {
    var a := To(ps[0]);
    forall i: nat | i < |Target(ps)|
      ensures !MatchAt(Target(ps), i, needle)
    {
      if MatchAt(Target(ps), i, needle) {
        MatchChars(Target(ps), i, needle);
        if i >= |a| {
          MatchShift(a, Target(ps[1..]), i - |a|, needle);
        } else {
          assert Target(ps)[i] == a[i] && a[i] in a;
          CopiedTag(ps, needle);
        }
      }
    }
  }

  lemma {:induction false} TagPassKeepsFree(s: string, needle: string, to: string)
    requires needle != "" && Free(s, needle)
    ensures Target(TagScript(s, needle, to)) == s
  {
    if s != "" {
      assert !MatchAt(s, 0, needle);
      forall i: nat | i < |s[1..]|
        ensures !MatchAt(s[1..], i, needle)
      {
        MatchShift(s[..1], s[1..], i, needle);
        assert s == s[..1] + s[1..];
      }
      TagPassKeepsFree(s[1..], needle, to);
    }
  }

  // ----- role prefixes -----

  lemma {:induction false} LeadingTail(s: string, i: nat, start: bool)
    requires 0 < i <= |s|
    ensures Leading(s, i, start) == Leading(s[1..], i - 1, After(start, s[0]))
    decreases i
  {
    if i > 1 {
      LeadingTail(s, i - 1, start);
    }
  }

  /** After a visible character no position is leading until the next line. */
  lemma {:induction false} LeadingSkip(a: string, b: string, i: nat, start: bool)
    requires a != "" && '\n' !in a && 0 < i <= |a| + |b|
    requires !start || !IsWhite(a[0])
    ensures Leading(a + b, i, start) == (i >= |a| && Leading(b, i - |a|, false))
    decreases |a|
  {
    LeadingTail(a + b, i, start);
    assert (a + b)[1..] == a[1..] + b && a[0] in a;
    if |a| == 1 {
      assert a[1..] + b == b;
    } else if i > 1 {
      forall c | c in a[1..] ensures c in a { }
      LeadingSkip(a[1..], b, i - 1, false);
    }
  }

  /** The role word is decided by the characters up to its colon. */
  lemma RoleWordPrefix(s: string, t: string, k: nat)
    requires 0 < k == RoleWord(s) && k < |t| && s[..k + 1] == t[..k + 1]
    ensures RoleWord(t) == k
  {
    var role := if k == 5 then "human:" else if k == 9 then "assistant:" else "system:";
    MatchPrefix(s, t, role);
    var k' := RoleWord(t);
    assert t[k'] == ':';
    assert forall i :: 0 <= i <= k ==> s[i] == s[..k + 1][i] == t[..k + 1][i] == t[i];
  }

  lemma CopiedRole(ps: Script)
    requires Escapes(ps) && RoleWord(Target(ps)) > 0
    ensures RoleWord(Source(ps)) > 0
  {
    var k := RoleWord(Target(ps));
    CopiedPrefix(ps, k + 1);
    RoleWordPrefix(Target(ps), Source(ps), k);
  }

  /** How a piece moves the leading positions, on either of its sides. */
  lemma LeadingPiece(p: Piece, side: string, rest: string, i: nat, start: bool) returns (start': bool)
    requires IsEscape(p) && (side == To(p) || side == From(p)) && 0 < i <= |side| + |rest|
    ensures start' == (p.Copy? && After(start, p.c))
    ensures Leading(side + rest, i, start) == (i >= |side| && Leading(rest, i - |side|, start'))
  {
    if p.Copy? {
      start' := After(start, p.c);
      LeadingTail(side + rest, i, start);
      assert (side + rest)[1..] == rest;
    } else {
      start' := false;
      LeadingSkip(side, rest, i, start);
    }
  }

  /** Where the target of an edit shows a leading mark, the source already had one, for any
      mark an edit cannot create at the head of the text. */
  lemma {:induction false} LeadingTrace(ps: Script, i: nat, start: bool, mark: string -> bool) returns (j: nat)
    requires forall qs: Script :: Escapes(qs) && mark(Target(qs)) ==> mark(Source(qs))
    requires Escapes(ps) && i < |Target(ps)|
    requires Leading(Target(ps), i, start) && mark(Target(ps)[i..])
    ensures j < |Source(ps)| && Leading(Source(ps), j, start) && mark(Source(ps)[j..])
    decreases |ps|
  {
    if i == 0 {
      assert Target(ps)[0..] == Target(ps) && Source(ps)[0..] == Source(ps);
      HeadOfEdit(ps);
      j := 0;
    } else {
      var a, b, t, s := To(ps[0]), From(ps[0]), Target(ps[1..]), Source(ps[1..]);
      var start' := LeadingPiece(ps[0], a, t, i, start);
      assert (a + t)[i..] == t[i - |a|..];
      var j' := LeadingTrace(ps[1..], i - |a|, start', mark);
      j := |b| + j';
      start' := LeadingPiece(ps[0], b, s, j, start);
      assert (b + s)[j..] == s[j'..];
    }
  }

  /** No pass re-creates a line-leading role prefix. */
  lemma EditKeepsRoleFree(ps: Script)
    requires Escapes(ps) && NoRoles(Source(ps))
    ensures NoRoles(Target(ps))
  {
    var mark := (s: string) => RoleWord(s) > 0;
    forall qs: Script | Escapes(qs) && mark(Target(qs))
      ensures mark(Source(qs))
    {
      CopiedRole(qs);
    }
    forall i: nat | i < |Target(ps)| && Leading(Target(ps), i, true)
      ensures RoleWord(Target(ps)[i..]) == 0
    {
      if mark(Target(ps)[i..]) {
        var j := LeadingTrace(ps, i, true, mark);
      }
    }
  }

  lemma {:induction false} RolePassRemoves(s: string, start: bool)
    ensures NoRolesFrom(Target(RoleScript(s, start)), start)
    decreases |s|
  {
    if s != "" {
      var k := RoleWord(s);
      if start && k > 0 {
        RoleStep(s);
        RolePassRemoves(s[k + 1..], false);
        RolePassEscaped(s[..k], Target(RoleScript(s[k + 1..], false)));
      } else {
        RoleScriptIsEdit(s, start);
        RolePassRemoves(s[1..], After(start, s[0]));
        RolePassCopied(RoleScript(s, start), start);
      }
    }
  }

  lemma RolePassEscaped(word: string, t: string)
    requires word != "" && forall i :: 0 <= i < |word| ==> word[i] != '\n' && word[i] != ':' && !IsWhite(word[i])
    requires NoRolesFrom(t, false)
    ensures NoRolesFrom(word + COLON_ESCAPE + t, true)
  {
    var a := word + COLON_ESCAPE;
    assert (a + t)[|word|] == '&';
    forall i: nat | i < |a + t| && Leading(a + t, i, true)
      ensures RoleWord((a + t)[i..]) == 0
    {
      if i == 0 {
        assert (a + t)[0..] == a + t;
      } else {
        LeadingSkip(a, t, i, true);
        assert (a + t)[i..] == t[i - |a|..];
      }
    }
  }

  lemma RolePassCopied(ps: Script, start: bool)
    requires Escapes(ps) && ps != [] && ps[0].Copy? && !(start && RoleWord(Source(ps)) > 0)
    requires NoRolesFrom(Target(ps[1..]), After(start, ps[0].c))
    ensures NoRolesFrom(Target(ps), start)
  {
    var t := Target(ps);
    assert t[1..] == Target(ps[1..]);
    forall i: nat | i < |t| && Leading(t, i, start)
      ensures RoleWord(t[i..]) == 0
    {
      if i == 0 {
        assert t[0..] == t;
        if RoleWord(t) > 0 { CopiedRole(ps); }
      } else {
        LeadingTail(t, i, start);
        assert t[i..] == t[1..][i - 1..];
      }
    }
  }

  lemma {:induction false} RolePassKeepsFree(s: string, start: bool)
    requires NoRolesFrom(s, start)
    ensures Target(RoleScript(s, start)) == s
    decreases |s|
  {
    if s != "" {
      assert s[0..] == s;
      if start { assert Leading(s, 0, start); }
      forall i: nat | i < |s[1..]| && Leading(s[1..], i, After(start, s[0]))
        ensures RoleWord(s[1..][i..]) == 0
      {
        LeadingTail(s, i + 1, start);
        assert s[1..][i..] == s[i + 1..];
      }
      RolePassKeepsFree(s[1..], After(start, s[0]));
    }
  }

  // ----- permission strings -----

  lemma {:induction false} PermPassRemoves(s: string, afterIdent: bool)
    ensures NoPermsFrom(Target(PermScript(s, afterIdent)), afterIdent)
    decreases |s|
  {
    if s != "" {
      var ps := PermScript(s, afterIdent);
      if afterIdent && Separator(s) {
        PermPassRemoves(s[2..], false);
        assert Target(ps) == (COLON_ESCAPE + COLON_ESCAPE) + Target(ps[1..]);
        PermConcat(COLON_ESCAPE + COLON_ESCAPE, Target(ps[1..]), afterIdent);
      } else {
        PermScriptIsEdit(s, afterIdent);
        PermPassRemoves(s[1..], IsIdent(s[0]));
        PermPassCopied(ps, afterIdent);
      }
    }
  }

  lemma PermConcat(a: string, t: string, afterIdent: bool)
    requires a != "" && ':' !in a && !IsIdent(a[|a| - 1]) && NoPermsFrom(t, false)
    ensures NoPermsFrom(a + t, afterIdent)
  {
    assert (a + t)[0] == a[0] && a[0] in a;
    forall i: nat | 0 < i < |a + t| && IsIdent((a + t)[i - 1])
      ensures !Separator((a + t)[i..])
    {
      if i < |a| {
        assert (a + t)[i..][0] == a[i] && a[i] in a;
      } else {
        assert (a + t)[i..] == t[i - |a|..];
      }
    }
  }

  lemma CopiedSeparator(ps: Script)
    requires Escapes(ps) && Separator(Target(ps))
    ensures Separator(Source(ps))
  {
    var t, s := Target(ps), Source(ps);
    CopiedPrefix(ps, 3);
    assert forall c :: 0 <= c < 3 ==> s[c] == s[..3][c] == t[..3][c] == t[c];
  }

  lemma PermPassCopied(ps: Script, afterIdent: bool)
    requires Escapes(ps) && ps != [] && ps[0].Copy? && !(afterIdent && Separator(Source(ps)))
    requires NoPermsFrom(Target(ps[1..]), IsIdent(ps[0].c))
    ensures NoPermsFrom(Target(ps), afterIdent)
  {
    var t := Target(ps);
    assert t[1..] == Target(ps[1..]);
    if Separator(t) { CopiedSeparator(ps); }
    forall i: nat | 0 < i < |t| && IsIdent(t[i - 1])
      ensures !Separator(t[i..])
    {
      assert t[i..] == t[1..][i - 1..];
      if i == 1 { assert t[1..][0..] == t[1..]; }
    }
  }

  lemma {:induction false} PermPassKeepsFree(s: string, afterIdent: bool)
    requires NoPermsFrom(s, afterIdent)
    ensures Target(PermScript(s, afterIdent)) == s
    decreases |s|
  {
    if s != "" {
      if |s| > 1 && IsIdent(s[0]) { assert !Separator(s[1..]); }
      forall i: nat | 0 < i < |s[1..]| && IsIdent(s[1..][i - 1])
        ensures !Separator(s[1..][i..])
      {
        assert s[1..][i..] == s[i + 1..];
      }
      PermPassKeepsFree(s[1..], IsIdent(s[0]));
    }
  }

  // ----- the composition -----

  lemma EditKeepsNoTags(ps: Script)
    requires Escapes(ps) && NoTags(Source(ps))
    ensures NoTags(Target(ps))
  {
    EditKeepsTagFree(ps, OPEN_TAG);
    EditKeepsTagFree(ps, CLOSE_TAG);
  }

  lemma TagNeedles()
    ensures IsTag(OPEN_TAG) && IsTag(CLOSE_TAG)
  {
  }

  lemma ClosePassKeepsOpen(s: string)
    requires Free(s, OPEN_TAG)
    ensures Free(CloseTags(s), OPEN_TAG)
  {
    var ps := TagScript(s, CLOSE_TAG, CLOSE_ESCAPE);
    TagScriptIsEdit(s, CLOSE_TAG, CLOSE_ESCAPE);
    TagNeedles();
    EditKeepsTagFree(ps, OPEN_TAG);
  }

  lemma TagPassesRemove(s: string)
    ensures NoTags(CloseTags(OpenTags(s)))
  {
    var s1 := OpenTags(s);
    TagPassRemoves(s, OPEN_TAG, OPEN_ESCAPE);
    TagPassRemoves(s1, CLOSE_TAG, CLOSE_ESCAPE);
    ClosePassKeepsOpen(s1);
  }

  lemma RolePassKeepsTags(s: string)
    requires NoTags(s)
    ensures NoTags(Roles(s)) && NoRoles(Roles(s))
  {
    RoleScriptIsEdit(s, true);
    EditKeepsNoTags(RoleScript(s, true));
    RolePassRemoves(s, true);
  }

  lemma PermPassKeepsRest(s: string)
    requires NoTags(s) && NoRoles(s)
    ensures Clean(Perms(s))
  {
    PermScriptIsEdit(s, false);
    EditKeepsNoTags(PermScript(s, false));
    EditKeepsRoleFree(PermScript(s, false));
    PermPassRemoves(s, false);
  }

  /** The output carries no marker of any kind: no pass re-creates another pass's marker. */
  lemma NeutralizedIsClean(s: string)
    ensures Clean(Neutralized(s))
  {
    TagPassesRemove(s);
    RolePassKeepsTags(CloseTags(OpenTags(s)));
    PermPassKeepsRest(Roles(CloseTags(OpenTags(s))));
  }

  /** The texts left unchanged are exactly those without a marker; so a second application
      changes nothing. */
  lemma NeutralizeFixedPoint(s: string)
    ensures Neutralized(s) == s <==> Clean(s)
    ensures Neutralized(Neutralized(s)) == Neutralized(s)
  {
    NeutralizedIsClean(s);
    CleanIsUnchanged(Neutralized(s));
    if Clean(s) { CleanIsUnchanged(s); }
  }

  lemma CleanIsUnchanged(s: string)
    requires Clean(s)
    ensures Neutralized(s) == s
  {
    TagPassKeepsFree(s, OPEN_TAG, OPEN_ESCAPE);
    TagPassKeepsFree(s, CLOSE_TAG, CLOSE_ESCAPE);
    RolePassKeepsFree(s, true);
    PermPassKeepsFree(s, false);
  }

  // ----- lines are independent -----

  const NEWLINE: Script := [Copy('\n')]

  /** A needle without a line break matches at the head of the text iff it matches its first line. */
  lemma MatchLine(a: string, b: string, needle: string)
    requires '\n' !in needle
    ensures MatchAt(a + "\n" + b, 0, needle) <==> MatchAt(a, 0, needle)
  {
    var s := a + "\n" + b;
    assert s[0 + |a|] == '\n' && s[..|a|] == a;
    if |needle| <= |a| {
      assert s[..|needle|] == a[..|needle|];
      if MatchAt(s, 0, needle) { MatchPrefix(s, a, needle); }
      if MatchAt(a, 0, needle) { MatchPrefix(a, s, needle); }
    } else {
      assert needle[|a|] in needle;
    }
  }

  /** One step of a tag scan over a text of several lines, where the rest is known. */
  lemma TagStep(a: string, b: string, needle: string, to: string, n: nat)
    requires a != "" && needle != "" && '\n' !in needle && n == (if MatchAt(a, 0, needle) then |needle| else 1)
    requires TagScript(a[n..] + "\n" + b, needle, to)
          == TagScript(a[n..], needle, to) + NEWLINE + TagScript(b, needle, to)
    ensures TagScript(a + "\n" + b, needle, to) == TagScript(a, needle, to) + NEWLINE + TagScript(b, needle, to)
  {
    var s := a + "\n" + b;
    MatchLine(a, b, needle);
    assert s[n..] == a[n..] + "\n" + b && s[..n] == a[..n] && s[0] == a[0];
  }

  lemma {:induction false} TagScriptLines(a: string, b: string, needle: string, to: string)
    requires needle != "" && '\n' !in needle
    ensures TagScript(a + "\n" + b, needle, to)
         == TagScript(a, needle, to) + NEWLINE + TagScript(b, needle, to)
    decreases |a|
  {
    if a == "" {
      MatchLine(a, b, needle);
      assert ("" + "\n" + b) == "\n" + b && ("\n" + b)[1..] == b;
    } else {
      var n := if MatchAt(a, 0, needle) then |needle| else 1;
      TagScriptLines(a[n..], b, needle, to);
      TagStep(a, b, needle, to, n);
    }
  }

  lemma RoleWordLine(a: string, b: string)
    ensures RoleWord(a + "\n" + b) == RoleWord(a)
  {
    MatchLine(a, b, "human:");
    MatchLine(a, b, "assistant:");
    MatchLine(a, b, "system:");
  }

  /** One step of the role scan over a text of several lines, where the rest is known. */
  lemma RoleWordStep(a: string, b: string)
    requires RoleWord(a) > 0
    requires RoleScript(a[RoleWord(a) + 1..] + "\n" + b, false)
          == RoleScript(a[RoleWord(a) + 1..], false) + NEWLINE + RoleScript(b, true)
    ensures RoleScript(a + "\n" + b, true) == RoleScript(a, true) + NEWLINE + RoleScript(b, true)
  {
    var s, k := a + "\n" + b, RoleWord(a);
    RoleWordLine(a, b);
    LineAt(a, b, k);
    RoleReplaces(s);
    RoleReplaces(a);
    MorePieces(RoleScript(s, true), RoleScript(a, true), CopyAll(a[..k]) + [Sub(":", COLON_ESCAPE)],
               RoleScript(a[k + 1..], false), NEWLINE, RoleScript(b, true));
  }

  lemma RoleReplaces(s: string)
    requires RoleWord(s) > 0
    ensures var k := RoleWord(s);
            RoleScript(s, true) == CopyAll(s[..k]) + [Sub(":", COLON_ESCAPE)] + RoleScript(s[k + 1..], false)
  {
  }

  lemma LineAt(a: string, b: string, k: nat)
    requires k < |a|
    ensures (a + "\n" + b)[..k] == a[..k] && (a + "\n" + b)[k + 1..] == a[k + 1..] + "\n" + b
  {
  }

  lemma MorePieces(whole: Script, first: Script, head: Script, rest: Script, gap: Script, tail: Script)
    requires whole == head + (rest + gap + tail) && first == head + rest
    ensures whole == first + gap + tail
  {
  }

  lemma RoleCopiedStep(a: string, b: string, start: bool)
    requires a != "" && !(start && RoleWord(a) > 0)
    requires RoleScript(a[1..] + "\n" + b, After(start, a[0]))
          == RoleScript(a[1..], After(start, a[0])) + NEWLINE + RoleScript(b, true)
    ensures RoleScript(a + "\n" + b, start) == RoleScript(a, start) + NEWLINE + RoleScript(b, true)
  {
    RoleWordLine(a, b);
    LineTail(a, b);
    RoleCopies(a + "\n" + b, start);
    RoleCopies(a, start);
    MorePieces(RoleScript(a + "\n" + b, start), RoleScript(a, start), [Copy(a[0])],
               RoleScript(a[1..], After(start, a[0])), NEWLINE, RoleScript(b, true));
  }

  lemma LineTail(a: string, b: string)
    requires a != ""
    ensures (a + "\n" + b)[1..] == a[1..] + "\n" + b && (a + "\n" + b)[0] == a[0]
  {
  }

  lemma RoleCopies(s: string, start: bool)
    requires s != "" && !(start && RoleWord(s) > 0)
    ensures RoleScript(s, start) == [Copy(s[0])] + RoleScript(s[1..], After(start, s[0]))
  {
  }

  lemma {:induction false} RoleScriptLines(a: string, b: string, start: bool)
    ensures RoleScript(a + "\n" + b, start) == RoleScript(a, start) + NEWLINE + RoleScript(b, true)
    decreases |a|
  {
    if a == "" {
      RoleWordLine(a, b);
      assert ("" + "\n" + b) == "\n" + b && ("\n" + b)[1..] == b;
    } else if start && RoleWord(a) > 0 {
      RoleScriptLines(a[RoleWord(a) + 1..], b, false);
      RoleWordStep(a, b);
    } else {
      RoleScriptLines(a[1..], b, After(start, a[0]));
      RoleCopiedStep(a, b, start);
    }
  }

  lemma {:induction false} PermScriptLines(a: string, b: string, afterIdent: bool)
    ensures PermScript(a + "\n" + b, afterIdent)
         == PermScript(a, afterIdent) + NEWLINE + PermScript(b, false)
    decreases |a|
  {
    var s := a + "\n" + b;
    if a == "" {
      assert s == "\n" + b && s[1..] == b;
    } else {
      var n := if afterIdent && Separator(a) then 2 else 1;
      assert s[0] == a[0] && (|a| > 1 ==> s[1] == a[1]) && (|a| == 1 ==> s[1] == '\n');
      assert |a| > 2 ==> s[2] == a[2];
      assert |a| == 2 ==> s[2] == '\n';
      assert s[n..] == a[n..] + "\n" + b;
      PermScriptLines(a[n..], b, if n == 2 then false else IsIdent(a[0]));
    }
  }

  lemma LinesTarget(ps: Script, qs: Script)
    ensures Target(ps + NEWLINE + qs) == Target(ps) + "\n" + Target(qs)
  {
    ScriptConcat(ps, NEWLINE);
    ScriptConcat(ps + NEWLINE, qs);
    assert Target(NEWLINE) == "\n";
  }

  /** Neutralizing is done line by line. */
  lemma NeutralizeLines(a: string, b: string)
    ensures Neutralized(a + "\n" + b) == Neutralized(a) + "\n" + Neutralized(b)
  {
    TagScriptLines(a, b, OPEN_TAG, OPEN_ESCAPE);
    LinesTarget(TagScript(a, OPEN_TAG, OPEN_ESCAPE), TagScript(b, OPEN_TAG, OPEN_ESCAPE));
    var a1, b1 := OpenTags(a), OpenTags(b);
    TagScriptLines(a1, b1, CLOSE_TAG, CLOSE_ESCAPE);
    LinesTarget(TagScript(a1, CLOSE_TAG, CLOSE_ESCAPE), TagScript(b1, CLOSE_TAG, CLOSE_ESCAPE));
    var a2, b2 := CloseTags(a1), CloseTags(b1);
    RoleScriptLines(a2, b2, true);
    LinesTarget(RoleScript(a2, true), RoleScript(b2, true));
    var a3, b3 := Roles(a2), Roles(b2);
    PermScriptLines(a3, b3, false);
    LinesTarget(PermScript(a3, false), PermScript(b3, false));
  }

  // ----- nothing is dropped -----

  /** Read the two entities the passes write. */
  function Decode(s: string): string {
    if s == "" then ""
    else if Begins(s, "&lt;") then "<" + Decode(s[4..])
    else if Begins(s, COLON_ESCAPE) then ":" + Decode(s[5..])
    else [s[0]] + Decode(s[1..])
  }

  predicate Begins(s: string, w: string) {
    |w| <= |s| && forall i :: 0 <= i < |w| ==> s[i] == w[i]
  }

  lemma DecodeChar(c: char, x: string)
    ensures c != '&' ==> Decode([c] + x) == [c] + Decode(x)
    ensures !Begins(x, "lt;") && !Begins(x, "#58;") ==> Decode([c] + x) == [c] + Decode(x)
    ensures Begins(x, "lt;") ==> Decode("&" + x) == "<" + Decode(x[3..])
    ensures Begins(x, "#58;") ==> Decode("&" + x) == ":" + Decode(x[4..])
  {
    var s := [c] + x;
    assert s[1..] == x && forall i :: 0 < i < |s| ==> s[i] == x[i - 1];
    BeginsEntity(c, x);
    BeginsEntity('&', x);
    assert |x| >= 3 ==> ("&" + x)[4..] == x[3..];
    assert |x| >= 4 ==> ("&" + x)[5..] == x[4..];
  }

  lemma BeginsEntity(c: char, x: string)
    ensures Begins([c] + x, "&lt;") <==> c == '&' && Begins(x, "lt;")
    ensures Begins([c] + x, COLON_ESCAPE) <==> c == '&' && Begins(x, "#58;")
    ensures !(Begins(x, "lt;") && Begins(x, "#58;"))
  {
    var s := [c] + x;
    assert |x| >= 3 ==> s[0] == c && s[1] == x[0] && s[2] == x[1] && s[3] == x[2];
    assert |x| >= 4 ==> s[4] == x[3];
  }

  lemma {:induction false} DecodePlain(w: string, x: string)
    requires '&' !in w
    ensures Decode(w + x) == w + Decode(x)
  {
    if w == "" {
      assert w + x == x;
    } else {
      assert w[0] in w && w + x == [w[0]] + (w[1..] + x);
      forall c | c in w[1..] ensures c in w { }
      DecodePlain(w[1..], x);
      DecodeChar(w[0], w[1..] + x);
    }
  }

  lemma DecodeColon(x: string)
    ensures Decode(COLON_ESCAPE + x) == ":" + Decode(x)
  {
    assert COLON_ESCAPE + x == "&" + ("#58;" + x) && ("#58;" + x)[4..] == x;
    DecodeChar('&', "#58;" + x);
  }

  lemma DecodeAngle(x: string)
    ensures Decode("&lt;" + x) == "<" + Decode(x)
  {
    assert "&lt;" + x == "&" + ("lt;" + x) && ("lt;" + x)[3..] == x;
    DecodeChar('&', "lt;" + x);
  }

  predicate ColonsOnly(ps: Script) {
    forall i :: 0 <= i < |ps| && ps[i].Sub? ==> ps[i].from == ":" || ps[i].from == "::"
  }

  /** A substitution's two sides decode alike, whatever follows; exactly alike for a colon. */
  lemma DecodeSub(p: Piece, x: string, y: string)
    requires p.Sub? && IsEntity(p) && Lower(Decode(x)) == Lower(Decode(y))
    ensures Lower(Decode(p.to + x)) == Lower(Decode(p.from + y))
    ensures (p.from == ":" || p.from == "::") && Decode(x) == Decode(y) ==> Decode(p.to + x) == Decode(p.from + y)
  {
    EntityIsEscape(p);
    DecodePlain(p.from, y);
    LowerConcat(p.from, Decode(y));
    if p.from == ":" || p.from == "::" {
      DecodeColons(p, x);
      LowerConcat(p.from, Decode(x));
    } else {
      DecodeTag(p, x);
    }
  }

  lemma DecodeColons(p: Piece, x: string)
    requires p.Sub? && IsEntity(p) && (p.from == ":" || p.from == "::")
    ensures Decode(p.to + x) == p.from + Decode(x)
  {
    assert Lower(p.from)[0] == ':' && OPEN_TAG[0] == '<' && CLOSE_TAG[0] == '<';
    DecodeColon(x);
    if p.from == "::" {
      assert p.to + x == COLON_ESCAPE + (COLON_ESCAPE + x);
      DecodeColon(COLON_ESCAPE + x);
      assert ":" + (":" + Decode(x)) == "::" + Decode(x);
    }
  }

  lemma DecodeTag(p: Piece, x: string)
    requires p.Sub? && IsEntity(p) && p.from != ":" && p.from != "::"
    ensures Lower(Decode(p.to + x)) == Lower(p.from) + Lower(Decode(x))
  {
    PlainNames();
    DecodeAngleName(if p.to == OPEN_ESCAPE then OPEN_NAME else CLOSE_NAME, x);
    LowerConcat(Lower(p.from), Decode(x));
    assert Lower(Lower(p.from)) == Lower(p.from);
  }

  lemma DecodeAngleName(name: string, x: string)
    requires '&' !in name
    ensures Decode(("&lt;" + name) + x) == ("<" + name) + Decode(x)
  {
    assert ("&lt;" + name) + x == "&lt;" + (name + x);
    DecodeAngle(name + x);
    DecodePlain(name, x);
    assert "<" + (name + Decode(x)) == ("<" + name) + Decode(x);
  }

  predicate IsPlain(w: string) {
    '&' !in w && '<' !in w && ':' !in w
  }

  lemma PlainTails(t: string)
    ensures IsPlain("lt;") && IsPlain("#58;")
    ensures !(Begins(t, "lt;") && Begins(t, "#58;"))
  {
    if Begins(t, "lt;") { assert t[0] == "lt;"[0]; }
    if Begins(t, "#58;") { assert t[0] == "#58;"[0]; }
  }

  /** An entity at the head of either side of an edit was there before the edit. */
  lemma CopiedBeginning(ps: Script, w: string)
    requires Escapes(ps) && IsPlain(w)
    ensures Begins(Target(ps), w) <==> Begins(Source(ps), w)
    ensures Begins(Target(ps), w) ==>
              |w| <= |ps| && Target(ps)[|w|..] == Target(ps[|w|..]) && Source(ps)[|w|..] == Source(ps[|w|..])
  {
    if Begins(Target(ps), w) || Begins(Source(ps), w) {
      assert forall i :: 0 <= i < |w| ==> w[i] in w;
      CopiedPrefix(ps, |w|);
      assert forall i :: 0 <= i < |w| ==>
               Target(ps)[i] == Target(ps)[..|w|][i] == Source(ps)[..|w|][i] == Source(ps)[i];
    }
  }

  lemma CopiedEntities(ps: Script)
    requires Entities(ps)
    ensures var t, s := Target(ps), Source(ps);
            && (Begins(t, "lt;") <==> Begins(s, "lt;")) && (Begins(t, "#58;") <==> Begins(s, "#58;"))
            && (Begins(t, "lt;") ==> 3 <= |ps| && t[3..] == Target(ps[3..]) && s[3..] == Source(ps[3..]))
            && (Begins(t, "lt;") ==> !Begins(t, "#58;"))
            && (Begins(t, "#58;") ==> 4 <= |ps| && t[4..] == Target(ps[4..]) && s[4..] == Source(ps[4..]))
  {
    EntitiesAreEscapes(ps);
    PlainTails(Target(ps));
    CopiedBeginning(ps, "lt;");
    CopiedBeginning(ps, "#58;");
  }

  lemma {:induction false} DecodeEdit(ps: Script)
    requires Entities(ps)
    ensures Lower(Decode(Target(ps))) == Lower(Decode(Source(ps)))
    ensures ColonsOnly(ps) ==> Decode(Target(ps)) == Decode(Source(ps))
    decreases |ps|
  {
    if ps != [] {
      var rest, t, s := ps[1..], Target(ps[1..]), Source(ps[1..]);
      DecodeEdit(rest);
      if ps[0].Sub? {
        DecodeSub(ps[0], t, s);
      } else {
        CopiedEntities(rest);
        if Begins(t, "lt;") {
          DecodeEdit(rest[3..]);
        } else if Begins(t, "#58;") {
          DecodeEdit(rest[4..]);
        }
        DecodeCopy(ps[0].c, t, s);
      }
    }
  }

  lemma DecodeCopy(c: char, t: string, s: string)
    requires Begins(t, "lt;") <==> Begins(s, "lt;")
    requires Begins(t, "#58;") <==> Begins(s, "#58;")
    requires Lower(Decode(t)) == Lower(Decode(s))
    requires Begins(t, "lt;") ==> Lower(Decode(t[3..])) == Lower(Decode(s[3..]))
    requires Begins(t, "#58;") ==> Lower(Decode(t[4..])) == Lower(Decode(s[4..]))
    ensures Lower(Decode([c] + t)) == Lower(Decode([c] + s))
    ensures && Decode(t) == Decode(s)
            && (Begins(t, "lt;") ==> Decode(t[3..]) == Decode(s[3..]))
            && (Begins(t, "#58;") ==> Decode(t[4..]) == Decode(s[4..]))
            ==> Decode([c] + t) == Decode([c] + s)
  {
    DecodeChar(c, t);
    DecodeChar(c, s);
    if Begins(t, "lt;") {
      LowerConcat("<", Decode(t[3..]));
      LowerConcat("<", Decode(s[3..]));
    } else if Begins(t, "#58;") {
      LowerConcat(":", Decode(t[4..]));
      LowerConcat(":", Decode(s[4..]));
    } else {
      LowerConcat([c], Decode(t));
      LowerConcat([c], Decode(s));
    }
  }

  /** Escaped, never dropped: output and input decode to the same text up to ASCII case, and
      the role and permission passes keep the case too. */
  lemma NeutralizeKeepsContent(s: string)
    ensures Lower(Decode(Neutralized(s))) == Lower(Decode(s))
    ensures Decode(Roles(s)) == Decode(s) && Decode(Perms(s)) == Decode(s)
  {
    var s1 := OpenTags(s);
    var s2 := CloseTags(s1);
    var s3 := Roles(s2);
    TagScriptIsEdit(s, OPEN_TAG, OPEN_ESCAPE);
    DecodeEdit(TagScript(s, OPEN_TAG, OPEN_ESCAPE));
    TagScriptIsEdit(s1, CLOSE_TAG, CLOSE_ESCAPE);
    DecodeEdit(TagScript(s1, CLOSE_TAG, CLOSE_ESCAPE));
    RolesKeepContent(s);
    RolesKeepContent(s2);
    PermsKeepContent(s);
    PermsKeepContent(s3);
  }

  lemma RolesKeepContent(s: string)
    ensures Decode(Roles(s)) == Decode(s)
  {
    RoleScriptIsEdit(s, true);
    RoleSubs(s, true);
    DecodeEdit(RoleScript(s, true));
  }

  lemma PermsKeepContent(s: string)
    ensures Decode(Perms(s)) == Decode(s)
  {
    PermScriptIsEdit(s, false);
    PermSubs(s, false);
    DecodeEdit(PermScript(s, false));
  }

  lemma {:induction false} RoleSubs(s: string, start: bool)
    ensures ColonsOnly(RoleScript(s, start))
    decreases |s|
  {
    if s != "" {
      if start && RoleWord(s) > 0 {
        RoleSubs(s[RoleWord(s) + 1..], false);
      } else {
        RoleSubs(s[1..], After(start, s[0]));
      }
    }
  }

  lemma {:induction false} PermSubs(s: string, afterIdent: bool)
    ensures ColonsOnly(PermScript(s, afterIdent))
    decreases |s|
  {
    if s != "" {
      if afterIdent && Separator(s) {
        PermSubs(s[2..], false);
      } else {
        PermSubs(s[1..], IsIdent(s[0]));
      }
    }
  }
}
