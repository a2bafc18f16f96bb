/** The markers of agent-core/src/guard.rs:8-16 spelled out, and what each pass makes of one. */
module GuardMarkers {
  import opened Text
  import opened Guard
  import opened GuardLaws

  // ----- what a reader would call a marker -----

  /** `word` stands at index `i` in any ASCII case. */
  ghost predicate StandsAt(s: string, i: nat, word: string) {
    i + |word| <= |s| && Lower(s[i..i + |word|]) == word
  }

  /** Only white space comes between the start of the line and index `i`. */
  ghost predicate IsLineLeading(s: string, i: nat) {
    i <= |s| && exists j: nat :: LeadsFrom(s, j, i)
  }

  ghost predicate LeadsFrom(s: string, j: nat, i: nat)
    requires i <= |s|
  {
    j <= i && (j == 0 || s[j - 1] == '\n') && forall k :: j <= k < i ==> IsWhite(s[k])
  }

  ghost predicate ShowsTag(s: string) {
    exists i: nat, tag :: tag in {"<system-reminder", "</system-reminder"} && StandsAt(s, i, tag)
  }

  ghost predicate ShowsRole(s: string) { exists i: nat :: SomeRoleAt(s, i) && IsLineLeading(s, i) }

  ghost predicate SomeRoleAt(s: string, i: nat) {
    StandsAt(s, i, "human:") || StandsAt(s, i, "assistant:") || StandsAt(s, i, "system:")
  }

  predicate IsIdentifier(c: char) {
    c == '_' || 'a' <= c <= 'z' || 'A' <= c <= 'Z' || '0' <= c <= '9'
  }

  /** The colons at `i` join two identifier characters. */
  ghost predicate JoinsAt(s: string, i: nat) {
    0 < i < |s| - 2 && s[i] == ':' && s[i + 1] == ':' && IsIdentifier(s[i - 1]) && IsIdentifier(s[i + 2])
  }

  ghost predicate ShowsPermission(s: string) { exists i: nat :: JoinsAt(s, i) }

  // ----- they are what the passes look for -----

  lemma StandsIsMatch(s: string, i: nat, word: string)
    ensures StandsAt(s, i, word) <==> MatchAt(s, i, word)
  {
    if i + |word| <= |s| {
      var piece := s[i..i + |word|];
      assert forall k :: 0 <= k < |word| ==> piece[k] == s[i + k] && Lower(piece)[k] == LowerChar(s[i + k]);
    }
  }

  lemma TagsAre(s: string)
    ensures NoTags(s) <==> !ShowsTag(s)
  {
    forall i: nat, tag | tag in {"<system-reminder", "</system-reminder"}
      ensures StandsAt(s, i, tag) <==> MatchAt(s, i, tag)
    {
      StandsIsMatch(s, i, tag);
    }
    TagNames();
    if !NoTags(s) {
      var i: nat, tag :| i < |s| && tag in {"<system-reminder", "</system-reminder"} && MatchAt(s, i, tag);
      assert StandsAt(s, i, tag);
    }
  }

  lemma TagNames()
    ensures OPEN_TAG == "<system-reminder" && CLOSE_TAG == "</system-reminder"
  {
  }

  lemma {:induction false} LeadingIs(s: string, i: nat)
    requires i <= |s|
    ensures Leading(s, i, true) <==> IsLineLeading(s, i)
  {
    if i == 0 {
      assert LeadsFrom(s, 0, 0);
    } else {
      LeadingIs(s, i - 1);
      if s[i - 1] == '\n' {
        assert LeadsFrom(s, i, i);
      } else if Leading(s, i, true) {
        var j: nat :| LeadsFrom(s, j, i - 1);
        assert LeadsFrom(s, j, i);
      } else if j: nat :| LeadsFrom(s, j, i) {
        assert j < i && LeadsFrom(s, j, i - 1);
      }
    }
  }

  lemma RoleIs(s: string, i: nat)
    requires i < |s|
    ensures RoleWord(s[i..]) > 0 <==> SomeRoleAt(s, i)
  {
    SuffixMatch(s, i, "human:");
    SuffixMatch(s, i, "assistant:");
    SuffixMatch(s, i, "system:");
  }

  lemma SuffixMatch(s: string, i: nat, word: string)
    requires i <= |s|
    ensures MatchAt(s[i..], 0, word) <==> StandsAt(s, i, word)
  {
    StandsIsMatch(s, i, word);
    if MatchAt(s[i..], 0, word) {
      forall k | 0 <= k < |word| ensures LowerChar(s[i + k]) == word[k] { assert s[i..][0 + k] == s[i + k]; }
    }
    if MatchAt(s, i, word) {
      forall k | 0 <= k < |word| ensures LowerChar(s[i..][0 + k]) == word[k] { assert s[i..][0 + k] == s[i + k]; }
    }
  }

  lemma RolesAre(s: string)
    ensures NoRoles(s) <==> !ShowsRole(s)
  {
    forall i: nat | i < |s|
      ensures Leading(s, i, true) && RoleWord(s[i..]) > 0 <==> IsLineLeading(s, i) && SomeRoleAt(s, i)
    {
      LeadingIs(s, i);
      RoleIs(s, i);
    }
    if !NoRoles(s) {
      var i: nat :| i < |s| && Leading(s, i, true) && RoleWord(s[i..]) > 0;
      assert SomeRoleAt(s, i) && IsLineLeading(s, i);
    }
  }

  lemma PermissionsAre(s: string)
    ensures NoPerms(s) <==> !ShowsPermission(s)
  {
    forall i: nat | 0 < i < |s|
      ensures IsIdent(s[i - 1]) && Separator(s[i..]) <==> JoinsAt(s, i)
    {
      if i < |s| - 2 { assert s[i..][0] == s[i] && s[i..][1] == s[i + 1] && s[i..][2] == s[i + 2]; }
    }
    if !NoPerms(s) {
      var i: nat :| 0 < i < |s| && IsIdent(s[i - 1]) && Separator(s[i..]);
      assert JoinsAt(s, i);
    }
    if ShowsPermission(s) {
      var i: nat :| JoinsAt(s, i);
      assert Separator(s[i..]);
    }
  }

  /** No marker is left in any output, and a text is left alone exactly when it shows none; the
      role pass by itself does so for the role prefixes. */
  lemma NoMarkerLeft(s: string)
    ensures var out := Neutralized(s); !ShowsTag(out) && !ShowsRole(out) && !ShowsPermission(out)
    ensures Neutralized(s) == s <==> !ShowsTag(s) && !ShowsRole(s) && !ShowsPermission(s)
    ensures !ShowsRole(Roles(s)) && (Roles(s) == s <==> !ShowsRole(s))
  {
    NeutralizedIsClean(s);
    NeutralizeFixedPoint(s);
    NoRoleLeft(s);
    MarkersAre(s);
    MarkersAre(Neutralized(s));
  }

  lemma NoRoleLeft(s: string)
    ensures !ShowsRole(Roles(s)) && (Roles(s) == s <==> !ShowsRole(s))
  {
    RolePassRemoves(s, true);
    if NoRoles(s) { RolePassKeepsFree(s, true); }
    RolesAre(s);
    RolesAre(Roles(s));
  }

  lemma MarkersAre(s: string)
    ensures NoTags(s) <==> !ShowsTag(s)
    ensures NoRoles(s) <==> !ShowsRole(s)
    ensures NoPerms(s) <==> !ShowsPermission(s)
  {
    TagsAre(s);
    RolesAre(s);
    PermissionsAre(s);
  }

  // ----- what a pass makes of a marker -----

  lemma Glue(a: string, x: string, y: string)
    requires a != ""
    ensures [a[0]] + (a[1..] + x + y) == a + x + y && (a + x + y)[1..] == a[1..] + x + y && (a + x + y)[0] == a[0]
  {
  }

  lemma TagCopies(s: string, needle: string, to: string)
    requires s != "" && needle != "" && !MatchAt(s, 0, needle)
    ensures Target(TagScript(s, needle, to)) == [s[0]] + Target(TagScript(s[1..], needle, to))
  {
  }

  lemma TagReplaces(tag: string, b: string, needle: string, to: string)
    requires needle != "" && Lower(tag) == needle
    ensures Target(TagScript(tag + b, needle, to)) == to + Target(TagScript(b, needle, to))
  {
    var s := tag + b;
    assert s[..|tag|] == tag && s[|tag|..] == b && s[0..0 + |tag|] == tag;
    StandsIsMatch(s, 0, needle);
  }

  lemma {:induction false} TagEscaped(a: string, tag: string, b: string, needle: string, to: string)
    requires needle != "" && Lower(tag) == needle
    requires forall i: nat :: i < |a| ==> !StandsAt(a + tag + b, i, needle)
    ensures Target(TagScript(a + tag + b, needle, to)) == a + to + Target(TagScript(b, needle, to))
    decreases |a|
  {
    if a == "" {
      TagReplaces(tag, b, needle, to);
      assert "" + tag + b == tag + b && "" + to == to;
    } else {
      StandsIsMatch(a + tag + b, 0, needle);
      Glue(a, tag, b);
      LaterStands(a, tag, b, needle);
      TagEscaped(a[1..], tag, b, needle, to);
      TagCopies(a + tag + b, needle, to);
      Glue(a, to, Target(TagScript(b, needle, to)));
    }
  }

  lemma LaterStands(a: string, tag: string, b: string, needle: string)
    requires a != "" && forall i: nat :: i < |a| ==> !StandsAt(a + tag + b, i, needle)
    ensures forall i: nat :: i < |a[1..]| ==> !StandsAt(a[1..] + tag + b, i, needle)
  {
    Glue(a, tag, b);
    var s := a + tag + b;
    forall i: nat | i < |a[1..]|
      ensures !StandsAt(s[1..], i, needle)
    {
      assert !StandsAt(s, i + 1, needle);
      assert i + |needle| <= |s[1..]| ==> s[1..][i..i + |needle|] == s[i + 1..i + 1 + |needle|];
    }
  }

  /** The first tag of a text loses its angle bracket to an entity and keeps its letters' place;
      what comes before is left alone, what comes after is treated likewise. */
  lemma FirstTagEscaped(a: string, tag: string, b: string)
    requires forall i: nat :: i < |a| ==> !StandsAt(a + tag + b, i, Lower(tag))
    ensures Lower(tag) == "<system-reminder" ==> OpenTags(a + tag + b) == a + "&lt;system-reminder" + OpenTags(b)
    ensures Lower(tag) == "</system-reminder" ==> CloseTags(a + tag + b) == a + "&lt;/system-reminder" + CloseTags(b)
  {
    TagNames();
    EscapeNames();
    if Lower(tag) == OPEN_TAG { TagEscaped(a, tag, b, OPEN_TAG, OPEN_ESCAPE); }
    if Lower(tag) == CLOSE_TAG { TagEscaped(a, tag, b, CLOSE_TAG, CLOSE_ESCAPE); }
  }

  lemma EscapeNames()
    ensures OPEN_ESCAPE == "&lt;system-reminder" && CLOSE_ESCAPE == "&lt;/system-reminder" && COLON_ESCAPE == "&#58;"
  {
  }

  /** A line that starts, behind white space, with a role prefix has just the colon replaced. */
  lemma RoleEscaped(space: string, word: string, rest: string)
    requires (forall k :: 0 <= k < |space| ==> IsWhite(space[k])) && '\n' !in rest
    requires Lower(word + ":") in {"human:", "assistant:", "system:"}
    ensures Roles(space + word + (":" + rest)) == space + word + ("&#58;" + rest)
  {
    LeadingRole(space, word, rest);
    EscapeNames();
  }

  lemma {:induction false} LeadingRole(space: string, word: string, rest: string)
    requires (forall k :: 0 <= k < |space| ==> IsWhite(space[k])) && '\n' !in rest
    requires Lower(word + ":") in {"human:", "assistant:", "system:"}
    ensures Target(RoleScript(space + word + (":" + rest), true)) == space + word + (COLON_ESCAPE + rest)
    decreases |space|
  {
    if space == "" {
      WordEscaped(word, rest);
      assert "" + word == word;
    } else {
      Glue(space, word, ":" + rest);
      RoleCopies(space + word + (":" + rest));
      LeadingRole(space[1..], word, rest);
      Glue(space, word, COLON_ESCAPE + rest);
    }
  }

  lemma RoleCopies(s: string)
    requires s != "" && IsWhite(s[0])
    ensures Target(RoleScript(s, true)) == [s[0]] + Target(RoleScript(s[1..], true))
  {
    assert RoleWord(s) == 0;
  }

  lemma WordEscaped(word: string, rest: string)
    requires Lower(word + ":") in {"human:", "assistant:", "system:"} && '\n' !in rest
    ensures Target(RoleScript(word + (":" + rest), true)) == word + (COLON_ESCAPE + rest)
  {
    var s := word + (":" + rest);
    WordIsRole(word, rest);
    assert s[..|word|] == word && s[|word| + 1..] == rest;
    RestIsCopied(rest);
    EscapedWord(word, RoleScript(rest, false));
  }

  lemma EscapedWord(word: string, ps: Script)
    ensures Target(CopyAll(word) + [Sub(":", COLON_ESCAPE)] + ps) == word + (COLON_ESCAPE + Target(ps))
  {
    var colon := [Sub(":", COLON_ESCAPE)];
    ScriptConcat(CopyAll(word), colon);
    ScriptConcat(CopyAll(word) + colon, ps);
    CopyAllIdentity(word);
    assert colon[1..] == [] && Target(colon) == COLON_ESCAPE;
  }

  lemma WordIsRole(word: string, rest: string)
    requires Lower(word + ":") in {"human:", "assistant:", "system:"}
    ensures word != "" && RoleWord(word + (":" + rest)) == |word|
  {
    var s, role := word + (":" + rest), Lower(word + ":");
    assert |role| == |word| + 1 && s[0..0 + |role|] == word + ":";
    StandsIsMatch(s, 0, role);
    OneRole(s, role);
  }

  /** The role words differ in their first letters. */
  lemma OneRole(s: string, role: string)
    requires role in {"human:", "assistant:", "system:"} && MatchAt(s, 0, role)
    ensures RoleWord(s) == |role| - 1
  {
    assert LowerChar(s[0 + 0]) == role[0];
    if MatchAt(s, 0, "human:") { assert LowerChar(s[0 + 0]) == "human:"[0]; }
    if MatchAt(s, 0, "assistant:") { assert LowerChar(s[0 + 0]) == "assistant:"[0]; }
  }

  lemma {:induction false} RestIsCopied(rest: string)
    requires '\n' !in rest
    ensures Target(RoleScript(rest, false)) == rest
  {
    if rest != "" { RestIsCopied(rest[1..]); }
  }

  /** The first separator of a text becomes two entities. */
  lemma PermissionEscaped(a: string, b: string)
    requires a != "" && b != "" && IsIdentifier(a[|a| - 1]) && IsIdentifier(b[0])
    requires forall i: nat :: i < |a| ==> !JoinsAt(a + "::" + b, i)
    ensures Perms(a + "::" + b) == a + "&#58;&#58;" + Perms(b)
  {
    FirstSeparator(a, b, false);
    EscapeNames();
  }

  lemma {:induction false} FirstSeparator(a: string, b: string, afterIdent: bool)
    requires b != "" && IsIdentifier(b[0]) && (if a == "" then afterIdent else IsIdentifier(a[|a| - 1]))
    requires a != "" && afterIdent ==> !Separator(a + "::" + b)
    requires forall i: nat :: i < |a| ==> !JoinsAt(a + "::" + b, i)
    ensures Target(PermScript(a + "::" + b, afterIdent))
         == a + (COLON_ESCAPE + COLON_ESCAPE) + Target(PermScript(b, false))
    decreases |a|
  {
    if a == "" {
      SeparatorReplaced(b);
      assert "" + "::" + b == "::" + b;
    } else {
      Glue(a, "::", b);
      LaterJoins(a, b);
      PermCopies(a + "::" + b, afterIdent);
      FirstSeparator(a[1..], b, IsIdent(a[0]));
      Glue(a, COLON_ESCAPE + COLON_ESCAPE, Target(PermScript(b, false)));
    }
  }

  lemma SeparatorReplaced(b: string)
    requires b != "" && IsIdentifier(b[0])
    ensures Target(PermScript("::" + b, true)) == COLON_ESCAPE + COLON_ESCAPE + Target(PermScript(b, false))
  {
    var s := "::" + b;
    assert s[2..] == b && s[2] == b[0] && Separator(s);
  }

  lemma PermCopies(s: string, afterIdent: bool)
    requires s != "" && !(afterIdent && Separator(s))
    ensures Target(PermScript(s, afterIdent)) == [s[0]] + Target(PermScript(s[1..], IsIdent(s[0])))
  {
  }

  lemma LaterJoins(a: string, b: string)
    requires a != "" && forall i: nat :: i < |a| ==> !JoinsAt(a + "::" + b, i)
    ensures forall i: nat :: i < |a[1..]| ==> !JoinsAt(a[1..] + "::" + b, i)
    ensures a[1..] != "" && IsIdent(a[0]) ==> !Separator(a[1..] + "::" + b)
  {
    Glue(a, "::", b);
    var s := a + "::" + b;
    forall i: nat | i < |a[1..]|
      ensures !JoinsAt(s[1..], i)
    {
      assert !JoinsAt(s, i + 1);
    }
    if a[1..] != "" && IsIdent(a[0]) && Separator(s[1..]) { assert JoinsAt(s, 1); }
  }
}
