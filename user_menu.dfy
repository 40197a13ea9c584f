/** components/user-menu.tsx: the avatar initials, the role badge, the
    render guard and the "signing out" flag of the account menu. */
module UserMenu {
  import opened Wrappers
  import opened Text
  import opened SupabaseTypes
  import AuthContext

  /** `s.split(" ")`: the pieces between single spaces. Leading, trailing and
      repeated spaces give empty pieces, and there is always one piece. */
  function Split(s: string): (words: seq<string>)
    ensures |words| >= 1
    ensures forall w :: w in words ==> ' ' !in w
    decreases |s|
  {
    if s == [] then [""]
    else if s[0] == ' ' then [""] + Split(s[1..])
    else
      var rest := Split(s[1..]);
      [[s[0]] + rest[0]] + rest[1..]
  }

  /** `words.join(" ")`. */
  function Join(words: seq<string>): (s: string)
    requires |words| >= 1
    decreases |words|
  {
    if |words| == 1 then words[0] else words[0] + " " + Join(words[1..])
  }

  /** Joining the pieces again gives back the string. */
  lemma {:induction false} JoinSplit(s: string)
    ensures Join(Split(s)) == s
    decreases |s|
  {
    if s == [] {
    } else if s[0] == ' ' {
      JoinSplit(s[1..]);
      assert s == [' '] + s[1..];
    } else {
      var rest := Split(s[1..]);
      JoinSplit(s[1..]);
      if |rest| == 1 {
        assert s == [s[0]] + s[1..];
      } else {
        assert Join(rest) == rest[0] + " " + Join(rest[1..]);
        assert s == [s[0]] + s[1..];
      }
    }
  }

  /** Splitting a join of space-free pieces gives back the pieces. */
  lemma {:induction false} SplitJoin(words: seq<string>)
    requires |words| >= 1
    requires forall w :: w in words ==> ' ' !in w
    ensures Split(Join(words)) == words
    decreases |words|, |words[0]|
  {
    var w := words[0];
    if w == [] {
      if |words| > 1 {
        SplitJoin(words[1..]);
        assert Join(words) == [' '] + Join(words[1..]);
        assert words == [""] + words[1..];
      }
    } else {
      var tail := [w[1..]] + words[1..];
      assert forall v :: v in tail ==> ' ' !in v by {
        forall v | v in tail ensures ' ' !in v {
          if v == w[1..] {
            forall k | 0 <= k < |v| ensures v[k] != ' ' {
              assert v[k] == w[k + 1] && w[k + 1] in w;
            }
          } else {
            assert v in words[1..];
          }
        }
      }
      SplitJoin(tail);
      assert w[0] != ' ' by { assert w[0] in w; }
      if |words| == 1 {
        assert Join(words) == w;
        assert Join(tail) == w[1..];
      } else {
        assert Join(tail) == w[1..] + " " + Join(words[1..]);
        assert Join(words) == [w[0]] + Join(tail);
      }
      assert Join(words)[1..] == Join(tail);
      assert [w[0]] + w[1..] == w;
      assert words == [w] + tail[1..];
    }
  }

  /** `.map((word) => word[0]).join("")`: the first character of every
      non-empty piece; an empty piece yields `undefined`, which `join` writes
      as nothing. */
  function Heads(words: seq<string>): (r: string)
    ensures |r| <= |words|
  {
    if words == [] then []
    else (if words[0] == [] then [] else [words[0][0]]) + Heads(words[1..])
  }

  /** An independent description of the same characters: every non-space
      character that starts the string (when `atStart`) or follows a space. */
  function WordStarts(atStart: bool, s: string): (r: string)
    ensures forall c :: c in r ==> c in s && c != ' '
    decreases |s|
  {
    if s == [] then []
    else (if atStart && s[0] != ' ' then [s[0]] else []) + WordStarts(s[0] == ' ', s[1..])
  }

  /** The heads of the pieces are exactly the word starts of the string; so
      leading and repeated spaces contribute nothing. */
  lemma {:induction false} HeadsAreWordStarts(s: string)
    ensures Heads(Split(s)) == WordStarts(true, s)
    ensures Heads(Split(s)[1..]) == WordStarts(false, s)
    decreases |s|
  {
    if s == [] {
    } else if s[0] == ' ' {
      HeadsAreWordStarts(s[1..]);
      assert Split(s)[1..] == Split(s[1..]);
    } else {
      HeadsAreWordStarts(s[1..]);
      var rest := Split(s[1..]);
      assert Split(s)[1..] == rest[1..];
      assert Split(s)[0][0] == s[0];
    }
  }

  /** The first `n` characters, like `slice(0, n)`. */
  function Take(s: string, n: nat): (r: string)
    ensures |r| <= n && |r| <= |s|
    ensures r == s[..if |s| < n then |s| else n]
  {
    if |s| <= n then s else s[..n]
  }

  /** `getInitials`: the upper-cased word starts, at most two of them. */
  function GetInitials(name: string): (r: string)
    ensures |r| <= 2
    ensures forall i :: 0 <= i < |r| ==> !('a' <= r[i] <= 'z')
  {
    Take(Upper(Heads(Split(name))), 2)
  }

  /** The initials are the first two word starts, upper-cased. */
  lemma InitialsAreFirstWordStarts(name: string)
    ensures GetInitials(name) == Take(Upper(WordStarts(true, name)), 2)
  {
    HeadsAreWordStarts(name);
  }

  /** A name of one word, without spaces, has its first letter as initials. */
  lemma {:induction false} SingleWordInitials(name: string)
    requires name != [] && ' ' !in name
    ensures GetInitials(name) == [UpperChar(name[0])]
  {
    HeadsAreWordStarts(name);
    NoSpaceOneStart(name[1..]);
    assert WordStarts(true, name) == [name[0]] + WordStarts(false, name[1..]);
  }

  /** After the first character of a word there is no further start. */
  lemma {:induction false} NoSpaceOneStart(s: string)
    requires ' ' !in s
    ensures WordStarts(false, s) == []
    decreases |s|
  {
    if s != [] {
      assert s[0] in s;
      assert forall c :: c in s[1..] ==> c in s;
      NoSpaceOneStart(s[1..]);
    }
  }

  /** The avatar's initials come from the full name, or from the email when
      the full name is null or empty. */
  function AvatarInitials(p: Profile): (r: string)
    ensures p.fullName.Some? && p.fullName.value != [] ==> r == GetInitials(p.fullName.value)
    ensures (p.fullName.None? || p.fullName.value == []) ==> r == GetInitials(p.email)
  {
    GetInitials(OrElse(p.fullName, p.email))
  }

  /** The badge variants of the role badge. */
  datatype Variant = Default | Secondary | Outline

  /** `getRoleBadgeVariant`. */
  function RoleBadgeVariant(r: Role): (v: Variant)
    ensures v == Default <==> r == Admin
    ensures v == Secondary <==> r == Reviewer
    ensures v == Outline <==> r == Vendor
  {
    match r
    case Admin => Default
    case Reviewer => Secondary
    case Vendor => Outline
  }

  /** The icons of the role badge. */
  datatype Icon = Shield | FileText | Person

  /** `getRoleIcon`. */
  function RoleIcon(r: Role): (i: Icon)
    ensures i == Shield <==> r == Admin
    ensures i == FileText <==> r == Reviewer
    ensures i == Person <==> r == Vendor
  {
    match r
    case Admin => Shield
    case Reviewer => FileText
    case Vendor => Person
  }

  /** The icon and the variant make the same three-way split of the roles. */
  lemma IconFollowsVariant(r: Role, s: Role)
    ensures RoleIcon(r) == RoleIcon(s) <==> RoleBadgeVariant(r) == RoleBadgeVariant(s)
  {
  }

  /** The content of the open menu. */
  datatype Menu = Menu(initials: string, displayName: string, variant: Variant, icon: Icon,
                       roleName: string, email: string, organization: Option<string>)

  /** The component's output: nothing without a user or a profile, otherwise
      the menu; the organization line appears only for a non-empty one. */
  function Render(user: Option<User>, profile: Option<Profile>): (m: Option<Menu>)
    ensures m.None? <==> user.None? || profile.None?
    ensures m.Some? ==>
      m.value.initials == AvatarInitials(profile.value)
      && m.value.displayName == OrElse(profile.value.fullName, "User")
      && m.value.variant == RoleBadgeVariant(profile.value.role)
      && m.value.icon == RoleIcon(profile.value.role)
      && m.value.roleName == RoleName(profile.value.role)
      && m.value.email == profile.value.email
      && (m.value.organization.Some? <==>
          profile.value.organization.Some? && profile.value.organization.value != [])
      && (m.value.organization.Some? ==> m.value.organization == profile.value.organization)
  {
    if user.None? || profile.None? then None
    else
      var p := profile.value;
      var org := if p.organization.Some? && p.organization.value != [] then p.organization else None;
      Some(Menu(AvatarInitials(p), OrElse(p.fullName, "User"), RoleBadgeVariant(p.role),
                RoleIcon(p.role), RoleName(p.role), p.email, org))
  }

  /** The sign-out item's text. */
  function SignOutLabel(isSigningOut: bool): (text: string)
    ensures isSigningOut <==> text == "Signing out..."
    ensures !isSigningOut <==> text == "Sign out"
  {
    if isSigningOut then "Signing out..." else "Sign out"
  }

  /** The menu's own state: whether a sign-out is under way. */
  class UserMenu {
    var isSigningOut: bool

    constructor ()
      ensures !isSigningOut
    {
      isSigningOut := false;
    }

    /** `handleSignOut`: the flag is raised while the provider signs out and
        lowered afterwards. `flagDuring` records the flag as the provider's
        `signOut` saw it. */
    method HandleSignOut(auth: AuthContext.AuthProvider) returns (ghost flagDuring: bool)
      modifies this, auth
      ensures flagDuring
      ensures !isSigningOut
      ensures auth.profile.None?
      ensures auth.user == old(auth.user) && auth.session == old(auth.session)
      ensures auth.loading == old(auth.loading)
    {
      isSigningOut := true;
      flagDuring := isSigningOut;
      auth.SignOut();
      isSigningOut := false;
    }
  }
}
