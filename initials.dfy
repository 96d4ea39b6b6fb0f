/** The avatar header of the profile screen and of the drawer: `getInitials`
    (written identically in `ProfileScreen.tsx` and `CustomDrawerContent.tsx`) and
    the choice between the avatar picture, the initials, `'U'` and the fallback name
    and e-mail. */
module Initials {
  import opened Wrappers
  import opened Text
  import opened Users

  /** `word.charAt(0)`: the first character, or `''` for an empty word. */
  function FirstChar(word: string): (r: string)
    ensures |r| <= 1 && (word != "" ==> r == [word[0]]) && (word == "" ==> r == "")
  {
    if word == "" then "" else [word[0]]
  }

  /** `.map(word => word.charAt(0)).join('')`. */
  function Heads(words: seq<string>): (r: string)
    ensures |r| <= |words|
  {
    if words == [] then "" else FirstChar(words[0]) + Heads(words[1..])
  }

  /** `s.slice(0, n)`. */
  function Prefix(s: string, n: nat): (r: string)
    ensures |r| <= n && |r| <= |s| && r == s[..|r|]
    ensures |s| >= n ==> |r| == n
  {
    if |s| <= n then s else s[..n]
  }

  /** `getInitials(name)`, as the expression chain is written. */
  function GetInitials(name: string): (r: string)
    ensures |r| <= 2
  {
    Prefix(ToUpper(Heads(Split(name, ' '))), 2)
  }

  /** An independent reading: scanning the name, every non-space character right
      after a space (or at the start) begins a word and contributes itself. */
  function WordStarts(s: string, atStart: bool): (r: string)
    ensures |r| <= |s|
    ensures forall c :: c in r ==> c in s && c != ' '
  {
    if s == [] then ""
    else if s[0] == ' ' then WordStarts(s[1..], true)
    else (if atStart then [s[0]] else "") + WordStarts(s[1..], false)
  }

  /** The split-map-join chain picks exactly the word starts: of all the pieces, and
      of the pieces after the first. */
  lemma {:induction false} HeadsAreWordStarts(s: string)
    ensures Heads(Split(s, ' ')) == WordStarts(s, true)
    ensures Heads(Split(s, ' ')[1..]) == WordStarts(s, false)
    decreases |s|
  {
    if s != [] {
      var rest := Split(s[1..], ' ');
      HeadsAreWordStarts(s[1..]);
      if s[0] == ' ' {
        assert Split(s, ' ') == [""] + rest;
        assert ([""] + rest)[1..] == rest;
      } else {
        var ps := Split(s, ' ');
        assert ps == [[s[0]] + rest[0]] + rest[1..];
        assert ps[1..] == rest[1..];
        assert Heads(ps) == FirstChar(ps[0]) + Heads(ps[1..]);
      }
    }
  }

  /** The initials: the word starts, upper-cased, at most two. */
  lemma InitialsAreFirstLetters(name: string)
    ensures GetInitials(name) == Prefix(ToUpper(WordStarts(name, true)), 2)
    ensures |GetInitials(name)| <= 2
  {
    HeadsAreWordStarts(name);
  }

  /** A name of spaces only has no initials. */
  lemma {:induction false} SpacesHaveNoWordStarts(s: string, atStart: bool)
    requires forall k :: 0 <= k < |s| ==> s[k] == ' '
    ensures WordStarts(s, atStart) == ""
    decreases |s|
  {
    if s != [] {
      SpacesHaveNoWordStarts(s[1..], true);
    }
  }

  lemma AllSpacesNoInitials(name: string)
    requires forall k :: 0 <= k < |name| ==> name[k] == ' '
    ensures GetInitials(name) == ""
  {
    InitialsAreFirstLetters(name);
    SpacesHaveNoWordStarts(name, true);
  }

  /** Leading and repeated spaces add nothing; only the first two words count. */
  lemma ExtraSpacesIgnored()
    ensures GetInitials(" a  b c") == "AB"
  {
    var s := " a  b c";
    InitialsAreFirstLetters(s);
    assert s[1..] == "a  b c" && s[2..] == "  b c" && s[3..] == " b c";
    assert s[4..] == "b c" && s[5..] == " c" && s[6..] == "c";
    assert WordStarts("c", true) == "c";
    assert WordStarts(" c", false) == "c";
    assert WordStarts("b c", true) == "bc";
    assert WordStarts(" a  b c", true) == "abc";
    assert ToUpper("abc") == "ABC";
  }

  /** Only the space separates words: a tab does not. */
  lemma TabDoesNotSeparate()
    ensures GetInitials("jo\tdo") == "J"
  {
    InitialsAreFirstLetters("jo\tdo");
    assert WordStarts("jo\tdo", true) == "j";
    assert ToUpper("j") == "J";
  }

  /** What the avatar circle shows. */
  datatype Avatar = Picture(uri: string) | Letters(text: string)

  /** `user?.avatar ? <Image/> : user?.name ? getInitials(user.name) : 'U'`. */
  function AvatarOf(user: Option<User>): (a: Avatar)
    ensures user.Some? && Truthy(user.value.avatar) ==> a == Picture(user.value.avatar.value)
    ensures !(user.Some? && Truthy(user.value.avatar)) && user.Some? && user.value.name != "" ==>
              a == Letters(GetInitials(user.value.name))
    ensures !(user.Some? && Truthy(user.value.avatar)) && !(user.Some? && user.value.name != "") ==>
              a == Letters("U")
    ensures a.Letters? ==> |a.text| <= 2
  {
    if user.Some? && Truthy(user.value.avatar) then Picture(user.value.avatar.value)
    else if user.Some? && user.value.name != "" then
      InitialsAreFirstLetters(user.value.name);
      Letters(GetInitials(user.value.name))
    else Letters("U")
  }

  /** The header: avatar, shown name and shown e-mail. */
  datatype Header = Header(avatar: Avatar, name: string, email: string)

  /** The header with the given fallbacks for a missing or empty name and e-mail. */
  function HeaderWith(user: Option<User>, nameFallback: string, emailFallback: string): (h: Header)
    ensures h.avatar == AvatarOf(user)
    ensures h.name == (if user.Some? && user.value.name != "" then user.value.name else nameFallback)
    ensures h.email == (if user.Some? && user.value.email != "" then user.value.email else emailFallback)
  {
    Header(AvatarOf(user),
           if user.Some? && user.value.name != "" then user.value.name else nameFallback,
           if user.Some? && user.value.email != "" then user.value.email else emailFallback)
  }

  /** The profile screen's header. */
  function ProfileHeader(user: Option<User>): (h: Header)
    ensures user.None? ==> h == Header(Letters("U"), "Guest User", "guest@example.com")
    ensures h == HeaderWith(user, "Guest User", "guest@example.com")
  {
    HeaderWith(user, "Guest User", "guest@example.com")
  }

  /** The drawer's header. */
  function DrawerHeader(user: Option<User>): (h: Header)
    ensures user.None? ==> h == Header(Letters("U"), "User Name", "user@example.com")
    ensures h == HeaderWith(user, "User Name", "user@example.com")
  {
    HeaderWith(user, "User Name", "user@example.com")
  }

  /** The two headers differ only in their fallback texts. */
  lemma SameAvatarEverywhere(user: Option<User>)
    ensures ProfileHeader(user).avatar == DrawerHeader(user).avatar
    ensures user.Some? && user.value.name != "" ==> ProfileHeader(user).name == DrawerHeader(user).name
  {
  }

  /** A name of spaces is truthy, so it takes the initials branch and the circle shows
      no letters at all rather than `'U'`. */
  lemma BlankNameShowsNothing(u: User)
    requires u.avatar.None? && u.name == "  "
    ensures AvatarOf(Some(u)) == Letters("")
  {
    AllSpacesNoInitials(u.name);
  }
}
