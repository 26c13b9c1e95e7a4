/** The navigation bar: the avatar initials and which links and account controls are shown. */
module Navbar {
  import opened Wrappers
  import opened Types
  import BusinessForm

  /** `s.split(' ')`: the pieces between single spaces, empty pieces included. */
  function Split(s: string): (segs: seq<string>)
    ensures |segs| >= 1
    ensures forall k :: 0 <= k < |segs| ==> ' ' !in segs[k]
  {
    if s == [] then [[]]
    else if s[0] == ' ' then [[]] + Split(s[1..])
    else
      var rest := Split(s[1..]);
      [[s[0]] + rest[0]] + rest[1..]
  }

  /** `segs.join(' ')`. */
  function JoinWithSpaces(segs: seq<string>): (s: string)
    requires |segs| >= 1
  {
    if |segs| == 1 then segs[0] else segs[0] + " " + JoinWithSpaces(segs[1..])
  }

  /** Joining the pieces back with single spaces gives the original string. */
  lemma {:induction false} SplitJoin(s: string)
    ensures JoinWithSpaces(Split(s)) == s
  {
    if s != [] {
      SplitJoin(s[1..]);
      var rest := Split(s[1..]);
      if s[0] == ' ' {
        assert Split(s)[1..] == rest;
        assert s == [' '] + s[1..];
      } else if |rest| == 1 {
        assert s == [s[0]] + s[1..];
      } else {
        assert Split(s)[1..] == rest[1..];
        assert JoinWithSpaces(rest) == rest[0] + " " + JoinWithSpaces(rest[1..]);
        assert s == [s[0]] + s[1..];
      }
    }
  }

  /** `segs.map(n => n[0]).join('')`: the first character of each piece; an empty piece gives
      `undefined`, which `join` turns into nothing. */
  function Heads(segs: seq<string>): (r: string)
    ensures |r| <= |segs|
  {
    if segs == [] then []
    else (if segs[0] == [] then [] else [segs[0][0]]) + Heads(segs[1..])
  }

  /** ASCII `toUpperCase` of one character. */
  function UpperChar(c: char): (u: char)
    ensures 'a' <= c <= 'z' ==> u as int == c as int - 32
    ensures !('a' <= c <= 'z') ==> u == c
  {
    if 'a' <= c <= 'z' then (c as int - 32) as char else c
  }

  /** `toUpperCase`, character by character. */
  function Upper(s: string): (r: string)
    ensures |r| == |s|
    ensures forall k :: 0 <= k < |s| ==> r[k] == UpperChar(s[k])
  {
    if s == [] then [] else [UpperChar(s[0])] + Upper(s[1..])
  }

  /** `getInitials` as written: "U" for a missing or empty name, otherwise the upper-cased first
      character of every space-separated piece. */
  function GetInitials(name: Option<string>): (r: string)
    ensures name.None? || name == Some("") ==> r == "U"
    ensures name.Some? && name.value != "" ==> |r| <= |Split(name.value)|
  {
    if name.None? || name.value == "" then "U"
    else Upper(Heads(Split(name.value)))
  }

  /** A reference reading of "initials": scanning left to right, every non-space character that
      starts the string or follows a space. `atStart` says whether the previous character was a space. */
  function WordStarts(s: string, atStart: bool): (r: string)
    ensures forall k :: 0 <= k < |r| ==> r[k] != ' ' && r[k] in s
  {
    if s == [] then []
    else if s[0] == ' ' then WordStarts(s[1..], true)
    else (if atStart then [s[0]] else []) + WordStarts(s[1..], false)
  }

  /** The split-based computation picks exactly the word starts; the pieces after the first pick the
      word starts that do not begin the string. */
  lemma {:induction false} HeadsOfSplit(s: string)
    ensures Heads(Split(s)) == WordStarts(s, true)
    ensures Heads(Split(s)[1..]) == WordStarts(s, false)
  {
    if s != [] {
      HeadsOfSplit(s[1..]);
      var rest := Split(s[1..]);
      if s[0] == ' ' {
        assert Split(s)[1..] == rest;
      } else {
        assert Split(s)[0] == [s[0]] + rest[0];
        assert Split(s)[1..] == rest[1..];
      }
    }
  }

  /** For a non-empty name, the initials are the upper-cased first letters of its words, and they
      never contain a space. */
  lemma InitialsAreWordStarts(s: string)
    requires s != ""
    ensures GetInitials(Some(s)) == Upper(WordStarts(s, true))
    ensures forall k :: 0 <= k < |GetInitials(Some(s))| ==> GetInitials(Some(s))[k] != ' '
  {
    HeadsOfSplit(s);
  }

  /** A name of spaces only is non-empty, so it passes the "U" guard, yet has no word to take a
      letter from: the initials come out empty. */
  lemma {:induction false} SpacesOnlyNameHasNoInitials(s: string)
    requires s != "" && forall k :: 0 <= k < |s| ==> s[k] == ' '
    ensures GetInitials(Some(s)) == ""
  {
    HeadsOfSplit(s);
    NoWordStarts(s, true);
  }

  /** A string of spaces has no word starts. */
  lemma {:induction false} NoWordStarts(s: string, atStart: bool)
    requires forall k :: 0 <= k < |s| ==> s[k] == ' '
    ensures WordStarts(s, atStart) == []
  {
    if s != [] {
      NoWordStarts(s[1..], true);
    }
  }

  /** Two spaces alone give no initials at all. */
  lemma SpacesOnlyExample()
    ensures GetInitials(Some("  ")) == ""
  {
    SpacesOnlyNameHasNoInitials("  ");
  }

  /** Repeated spaces between words add nothing. */
  lemma RepeatedSpacesExample()
    ensures GetInitials(Some("al  b")) == "AB"
  {
    InitialsAreWordStarts("al  b");
    assert WordStarts("b", true) == "b";
    assert WordStarts(" b", false) == "b";
    assert WordStarts("  b", false) == "b";
    assert WordStarts("l  b", false) == "b";
    assert WordStarts("al  b", true) == "ab";
    assert Upper("ab") == "AB";
  }

  /** The initials the avatar shows: those of `GetInitials`, or "U" whenever there are none. */
  function AvatarInitials(name: Option<string>): (r: string)
    ensures |r| >= 1
    ensures name.None? || name == Some("") ==> r == "U"
    ensures name.Some? && name.value != "" && WordStarts(name.value, true) != [] ==>
              r == Upper(WordStarts(name.value, true))
    ensures name.Some? && WordStarts(name.value, true) == [] ==> r == "U"
  {
    if name.Some? && name.value != "" then
      InitialsAreWordStarts(name.value);
      var initials := GetInitials(name);
      if initials == "" then "U" else initials
    else "U"
  }

  /** The label of the account menu: the user's name, or "User" when it is missing or empty. */
  function DisplayName(u: User): (r: string)
    ensures r != ""
    ensures u.name.Some? && u.name.value != "" ==> r == u.name.value
    ensures u.name.None? || u.name.value == "" ==> r == "User"
  {
    if u.name.Some? && u.name.value != "" then u.name.value else "User"
  }

  /** The bar's navigation links. */
  datatype Link = MapLink | CreateEventLink | MyBusinessLink

  /** The links shown: the map always, "Create Event" when signed in, "My Business" for a business owner. */
  function VisibleLinks(user: Option<User>): (links: seq<Link>)
    ensures |links| >= 1 && links[0] == MapLink
    ensures CreateEventLink in links <==> user.Some?
    ensures MyBusinessLink in links <==> user.Some? && user.value.role == BusinessOwner
  {
    [MapLink] +
    (if user.Some? then [CreateEventLink] else []) +
    (if user.Some? && user.value.role == BusinessOwner then [MyBusinessLink] else [])
  }

  /** The "My Business" link is shown to exactly the users the business form lets through. */
  lemma MyBusinessLinkMatchesGate(user: Option<User>)
    ensures MyBusinessLink in VisibleLinks(user) <==> BusinessForm.CheckOwner(user).Allowed?
  {
  }

  /** The account area on the right of the bar. */
  datatype AccountArea = Placeholder | UserMenu(initials: string, displayName: string, email: string) | AuthButtons

  /** While loading a placeholder; then the user menu when signed in, with the avatar fallback
      `getInitials(user.name)` as written, else the Login and Sign Up buttons. */
  function Account(loading: bool, user: Option<User>): (a: AccountArea)
    ensures a.Placeholder? <==> loading
    ensures a.UserMenu? <==> !loading && user.Some?
    ensures a.AuthButtons? <==> !loading && user.None?
    ensures a.UserMenu? ==>
              a.initials == GetInitials(user.value.name) && a.displayName == DisplayName(user.value) &&
              a.email == user.value.email
  {
    if loading then Placeholder
    else if user.Some? then UserMenu(GetInitials(user.value.name), DisplayName(user.value), user.value.email)
    else AuthButtons
  }

  /** The account area with the corrected avatar fallback: the same as `Account` except for the initials. */
  function AccountCorrected(loading: bool, user: Option<User>): (a: AccountArea)
    ensures a.Placeholder? <==> loading
    ensures a.UserMenu? <==> !loading && user.Some?
    ensures a.AuthButtons? <==> !loading && user.None?
    ensures a.UserMenu? ==>
              a.initials == AvatarInitials(user.value.name) && a.displayName == DisplayName(user.value) &&
              a.email == user.value.email
    ensures a.UserMenu? ==> |a.initials| >= 1
  {
    if loading then Placeholder
    else if user.Some? then UserMenu(AvatarInitials(user.value.name), DisplayName(user.value), user.value.email)
    else AuthButtons
  }

  /** For a signed-in user whose name is spaces only, the account menu as written shows an empty
      avatar fallback, while the corrected one shows "U"; everything else in the menu agrees. */
  lemma SpacesOnlyAvatar(u: User)
    requires u.name.Some? && u.name.value != "" && forall k :: 0 <= k < |u.name.value| ==> u.name.value[k] == ' '
    ensures Account(false, Some(u)).initials == ""
    ensures AccountCorrected(false, Some(u)).initials == "U"
    ensures Account(false, Some(u)).(initials := "U") == AccountCorrected(false, Some(u))
  {
    SpacesOnlyNameHasNoInitials(u.name.value);
    NoWordStarts(u.name.value, true);
  }
}
