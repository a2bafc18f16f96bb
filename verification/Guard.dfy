/** agent-core/src/guard.rs: neutralization of untrusted text.
    Each of the passes is described by the edit script it performs: a list of pieces, each
    either one character copied or one marker substituted. What holds of every script
    (no pass re-creates another's marker, decoding gives the text back) is proved once. */
module Guard {
  import opened Text

  const OPEN_NAME := "system-reminder"
  const CLOSE_NAME := "/system-reminder"
  const OPEN_TAG := "<" + OPEN_NAME
  const CLOSE_TAG := "<" + CLOSE_NAME
  const OPEN_ESCAPE := "&lt;" + OPEN_NAME
  const CLOSE_ESCAPE := "&lt;" + CLOSE_NAME
  const COLON_ESCAPE := "&#58;"

  // ----- edit scripts -----

  datatype Piece = Copy(c: char) | Sub(from: string, to: string)

  type Script = seq<Piece>

  function From(p: Piece): string { if p.Copy? then [p.c] else p.from }
  function To(p: Piece): string { if p.Copy? then [p.c] else p.to }

  function Source(ps: Script): string {
    if ps == [] then "" else From(ps[0]) + Source(ps[1..])
  }

  function Target(ps: Script): string {
    if ps == [] then "" else To(ps[0]) + Target(ps[1..])
  }

  function CopyAll(s: string): (ps: Script)
    ensures |ps| == |s| && forall i :: 0 <= i < |s| ==> ps[i] == Copy(s[i])
  {
    seq(|s|, i requires 0 <= i < |s| => Copy(s[i]))
  }

  /** What no two passes may step on: a marker that starts with '<' or ':' becomes text that
      starts with an entity, and neither side spans a line or hides another tag. */
  predicate IsEscape(p: Piece) {
    p.Sub? ==>
      && p.from != "" && (p.from[0] == '<' || p.from[0] == ':')
      && p.to != "" && p.to[0] == '&'
      && '<' !in p.to && '\n' !in p.to && '\n' !in p.from && '&' !in p.from
  }

  predicate Escapes(ps: Script) {
    forall i :: 0 <= i < |ps| ==> IsEscape(ps[i])
  }

  /** The substitutions there are: a tag, one colon, or two colons. */
  predicate IsEntity(p: Piece) {
    p.Sub? ==>
      || (Lower(p.from) == OPEN_TAG && p.to == OPEN_ESCAPE)
      || (Lower(p.from) == CLOSE_TAG && p.to == CLOSE_ESCAPE)
      || (p.from == ":" && p.to == COLON_ESCAPE)
      || (p.from == "::" && p.to == COLON_ESCAPE + COLON_ESCAPE)
  }

  predicate Entities(ps: Script) {
    forall i :: 0 <= i < |ps| ==> IsEntity(ps[i])
  }

  lemma TagIsEscape(p: Piece, name: string)
    requires p.Sub? && Lower(p.from) == "<" + name && p.to == "&lt;" + name
    requires '&' !in name && '<' !in name && '\n' !in name
    ensures IsEscape(p)
  {
    assert Lower(p.from)[0] == '<';
    var w := Lower(p.from);
    forall i | 0 <= i < |w|
      ensures p.from[i] != '\n' && p.from[i] != '&'
    {
      assert LowerChar(p.from[i]) == w[i] && (i > 0 ==> w[i] == name[i - 1] && name[i - 1] in name);
    }
  }

  lemma PlainNames()
    ensures '&' !in OPEN_NAME && '<' !in OPEN_NAME && '\n' !in OPEN_NAME
    ensures '&' !in CLOSE_NAME && '<' !in CLOSE_NAME && '\n' !in CLOSE_NAME
  {
  }

  lemma EntityIsEscape(p: Piece)
    requires IsEntity(p)
    ensures IsEscape(p)
  {
    if p.Sub? {
      PlainNames();
      if Lower(p.from) == OPEN_TAG && p.to == OPEN_ESCAPE {
        TagIsEscape(p, OPEN_NAME);
      } else if Lower(p.from) == CLOSE_TAG && p.to == CLOSE_ESCAPE {
        TagIsEscape(p, CLOSE_NAME);
      }
    }
  }

  lemma EntitiesAreEscapes(ps: Script)
    requires Entities(ps)
    ensures Escapes(ps)
  {
    forall i | 0 <= i < |ps|
      ensures IsEscape(ps[i])
    {
      EntityIsEscape(ps[i]);
    }
  }

  lemma {:induction false} ScriptConcat(ps: Script, qs: Script)
    ensures Source(ps + qs) == Source(ps) + Source(qs)
    ensures Target(ps + qs) == Target(ps) + Target(qs)
  {
    if ps == [] {
      assert ps + qs == qs;
    } else {
      assert (ps + qs)[1..] == ps[1..] + qs;
      ScriptConcat(ps[1..], qs);
    }
  }

  lemma {:induction false} CopyAllIdentity(s: string)
    ensures Source(CopyAll(s)) == s && Target(CopyAll(s)) == s
  {
    if s != "" {
      assert CopyAll(s)[1..] == CopyAll(s[1..]);
      CopyAllIdentity(s[1..]);
    }
  }

  lemma HeadOfEdit(ps: Script)
    requires ps != [] && IsEscape(ps[0])
    ensures |Target(ps)| > 0 && |Source(ps)| > 0
    ensures ps[0].Sub? ==> Target(ps)[0] == '&' && (Source(ps)[0] == '<' || Source(ps)[0] == ':')
  {
  }

  /** A stretch free of '&' in the target (or free of '<' and ':' in the source) was copied. */
  lemma {:induction false} CopiedPrefix(ps: Script, k: nat)
    requires Escapes(ps)
    requires || (k <= |Target(ps)| && forall i :: 0 <= i < k ==> Target(ps)[i] != '&')
             || (k <= |Source(ps)| && forall i :: 0 <= i < k ==> Source(ps)[i] != '<' && Source(ps)[i] != ':')
    ensures k <= |ps| && k <= |Target(ps)| && k <= |Source(ps)|
    ensures Target(ps)[..k] == Source(ps)[..k]
    ensures Target(ps)[k..] == Target(ps[k..]) && Source(ps)[k..] == Source(ps[k..])
  {
    if k > 0 {
      assert ps != [];
      HeadOfEdit(ps);
      assert ps[0].Copy?;
      var rest := ps[1..];
      assert Target(ps) == [ps[0].c] + Target(rest) && Source(ps) == [ps[0].c] + Source(rest);
      assert Target(ps)[1..] == Target(rest) && Source(ps)[1..] == Source(rest);
      CopiedPrefix(rest, k - 1);
      assert rest[k - 1..] == ps[k..];
      assert Target(ps)[..k] == [ps[0].c] + Target(rest)[..k - 1];
      assert Source(ps)[..k] == [ps[0].c] + Source(rest)[..k - 1];
      assert Target(ps)[k..] == Target(rest)[k - 1..];
      assert Source(ps)[k..] == Source(rest)[k - 1..];
    }
  }

  // ----- the three kinds of marker -----

  /** A case-insensitive occurrence of the lower-case `needle` at index `i`. */
  predicate MatchAt(s: string, i: nat, needle: string) {
    i + |needle| <= |s| && forall k :: 0 <= k < |needle| ==> LowerChar(s[i + k]) == needle[k]
  }

  predicate Free(s: string, needle: string) {
    forall i: nat :: i < |s| ==> !MatchAt(s, i, needle)
  }

  /** All that the proofs use of the two tag needles. */
  predicate IsTag(needle: string) {
    && needle != "" && needle[0] == '<'
    && '&' !in needle && '\n' !in needle
  }

  predicate NoTags(s: string) {
    Free(s, OPEN_TAG) && Free(s, CLOSE_TAG)
  }

  /** The length of the role word when `s` begins with `human:`, `assistant:` or `system:`. */
  function RoleWord(s: string): (k: nat)
    ensures k > 0 ==> k < |s| && s[k] == ':'
    ensures k > 0 ==> forall i :: 0 <= i < k ==> s[i] != ':' && s[i] != '&' && s[i] != '\n' && !IsWhite(s[i])
  {
    if MatchAt(s, 0, "human:") then MatchFacts(s, "human:"); 5
    else if MatchAt(s, 0, "assistant:") then MatchFacts(s, "assistant:"); 9
    else if MatchAt(s, 0, "system:") then MatchFacts(s, "system:"); 6
    else 0
  }

  lemma MatchFacts(s: string, role: string)
    requires role in {"human:", "assistant:", "system:"} && MatchAt(s, 0, role)
    ensures s[|role| - 1] == ':'
    ensures forall i :: 0 <= i < |role| - 1 ==> s[i] != ':' && s[i] != '&' && s[i] != '\n' && !IsWhite(s[i])
  {
    forall i | 0 <= i < |role|
      ensures LowerChar(s[i]) == role[i] && (i < |role| - 1 ==> 'a' <= role[i] <= 'z')
    {
      assert LowerChar(s[0 + i]) == role[i];
    }
  }

  /** Index `i` is preceded on its line by white space only; `start` says so of index 0. */
  predicate Leading(s: string, i: nat, start: bool)
    requires i <= |s|
  {
    if i == 0 then start else s[i - 1] == '\n' || (IsWhite(s[i - 1]) && Leading(s, i - 1, start))
  }

  function After(start: bool, c: char): bool {
    c == '\n' || (start && IsWhite(c))
  }

  predicate NoRolesFrom(s: string, start: bool) {
    forall i: nat :: i < |s| && Leading(s, i, start) ==> RoleWord(s[i..]) == 0
  }

  predicate NoRoles(s: string) {
    NoRolesFrom(s, true)
  }

  /** `s` starts with a `::` directly before an identifier character. */
  predicate Separator(s: string) {
    |s| >= 3 && s[0] == ':' && s[1] == ':' && IsIdent(s[2])
  }

  predicate NoPermsFrom(s: string, afterIdent: bool) {
    && (afterIdent ==> !Separator(s))
    && forall i: nat :: 0 < i < |s| && IsIdent(s[i - 1]) ==> !Separator(s[i..])
  }

  predicate NoPerms(s: string) {
    NoPermsFrom(s, false)
  }

  predicate Clean(s: string) {
    NoTags(s) && NoRoles(s) && NoPerms(s)
  }

  // ----- the passes as scripts -----

  function TagScript(s: string, needle: string, to: string): Script
    requires needle != ""
  {
    if s == "" then []
    else if MatchAt(s, 0, needle) then
      [Sub(s[..|needle|], to)] + TagScript(s[|needle|..], needle, to)
    else [Copy(s[0])] + TagScript(s[1..], needle, to)
  }

  function RoleScript(s: string, start: bool): Script
    decreases |s|
  {
    if s == "" then []
    else
      var k := RoleWord(s);
      if start && k > 0 then
        CopyAll(s[..k]) + [Sub(":", COLON_ESCAPE)] + RoleScript(s[k + 1..], false)
      else [Copy(s[0])] + RoleScript(s[1..], After(start, s[0]))
  }

  function PermScript(s: string, afterIdent: bool): Script
    decreases |s|
  {
    if s == "" then []
    else if afterIdent && Separator(s) then
      [Sub("::", COLON_ESCAPE + COLON_ESCAPE)] + PermScript(s[2..], false)
    else [Copy(s[0])] + PermScript(s[1..], IsIdent(s[0]))
  }

  function OpenTags(s: string): string { Target(TagScript(s, OPEN_TAG, OPEN_ESCAPE)) }
  function CloseTags(s: string): string { Target(TagScript(s, CLOSE_TAG, CLOSE_ESCAPE)) }
  function Roles(s: string): string { Target(RoleScript(s, true)) }
  function Perms(s: string): string { Target(PermScript(s, false)) }

  function Neutralized(s: string): string {
    Perms(Roles(CloseTags(OpenTags(s))))
  }
}
