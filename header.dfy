/**
 * The application bar: the signed-in user's display name and avatar
 * initials, and the user menu with its profile, theme and logout entries.
 */
module Header {
  import opened Js
  import Auth

  /**
   * `v ? v[0] : ''` inside a template literal: the first character of a
   * non-empty string, the property "0" of an object, and `undefined` for
   * the other truthy values.
   */
  function Head(v: Option<Value>): (r: string)
    ensures !Truthy(v) ==> r == ""
    ensures Truthy(v) && v.value.Str? ==> r == [v.value.s[0]]
  {
    if !Truthy(v) then ""
    else match v.value
      case Str(s) => [s[0]]
      case Obj(fields) => ToStr(Get(fields, "0"))
      case _ => "undefined"
  }

  /** `getInitials`. */
  function Initials(user: Option<Record>): (r: string)
    ensures user.None? <==> r == ""
  {
    if user.None? then ""
    else
      var joined := Head(Get(user.value, "first_name")) + Head(Get(user.value, "last_name"));
      if joined == "" then "U" else joined
  }

  /** A name property as the profile form writes it: absent, empty or falsy, or a string. */
  predicate Textual(v: Option<Value>)
  {
    !Truthy(v) || v.value.Str?
  }

  /**
   * With textual names the initials are the first letters of the names
   * that are set, in order, or "U" when neither is; at most two characters.
   */
  lemma InitialsOfNames(u: Record)
    requires Textual(Get(u, "first_name")) && Textual(Get(u, "last_name"))
    ensures var first, last := Get(u, "first_name"), Get(u, "last_name");
      var r := Initials(Some(u));
      && 1 <= |r| <= 2
      && (Truthy(first) ==> r[0] == first.value.s[0])
      && (!Truthy(first) && Truthy(last) ==> r == [last.value.s[0]])
      && (Truthy(first) && Truthy(last) ==> r == [first.value.s[0], last.value.s[0]])
      && (!Truthy(first) && !Truthy(last) ==> r == "U")
      && (Truthy(first) && !Truthy(last) ==> r == [first.value.s[0]])
  {
  }

  /** The text `getFullName` trims: `${first_name || ''} ${last_name || ''}`. */
  function Joined(u: Record): string
  {
    OrElse(Get(u, "first_name"), "") + " " + OrElse(Get(u, "last_name"), "")
  }

  /** `getFullName`: never empty, and never with whitespace at either end. */
  function FullName(user: Option<Record>): (r: string)
    ensures user.None? ==> r == "Guest"
    ensures r != "" && !IsSpace(r[0]) && !IsSpace(r[|r| - 1])
    ensures user.Some? && Trim(Joined(user.value)) == "" ==> r == "User"
    ensures user.Some? && Trim(Joined(user.value)) != "" ==> r == Trim(Joined(user.value))
  {
    if user.None? then "Guest"
    else
      var trimmed := Trim(Joined(user.value));
      if trimmed == "" then "User" else trimmed
  }

  /** The fallback "User" is shown exactly when the names hold nothing but whitespace. */
  lemma FullNameFallback(u: Record)
    ensures Trim(Joined(u)) == "" <==> forall i :: 0 <= i < |Joined(u)| ==> IsSpace(Joined(u)[i])
    ensures !Truthy(Get(u, "first_name")) && !Truthy(Get(u, "last_name")) ==> FullName(Some(u)) == "User"
  {
    TrimEmpty(Joined(u));
    if !Truthy(Get(u, "first_name")) && !Truthy(Get(u, "last_name")) {
      assert Joined(u) == " ";
      assert IsSpace(Joined(u)[0]);
    }
  }

  /** Names without whitespace at their ends are shown as they are, one space apart. */
  lemma FullNameOfCleanNames(u: Record, first: string, last: string)
    requires Get(u, "first_name") == Some(Str(first)) && Get(u, "last_name") == Some(Str(last))
    requires first != "" && last != ""
    requires !IsSpace(first[0]) && !IsSpace(last[|last| - 1])
    ensures FullName(Some(u)) == first + " " + last
  {
    var j := first + " " + last;
    assert Joined(u) == j;
    assert j[0] == first[0] && j[|j| - 1] == last[|last| - 1];
    TrimNoSpace(j);
  }

  /**
   * The header's menu: the element it is anchored to (`anchorEl`, `None`
   * for null) and the number of times it asked its parent to switch theme.
   */
  class UserMenu {
    var anchor: Option<nat>
    var themeToggles: nat

    constructor ()
      ensures anchor == None && themeToggles == 0
    {
      anchor := None;
      themeToggles := 0;
    }

    /** `open = Boolean(anchorEl)`. */
    function IsOpen(): (b: bool)
      reads this
      ensures b <==> anchor.Some?
    {
      anchor.Some?
    }

    /** `handleMenuOpen`: anchor the menu at the clicked element. */
    method HandleMenuOpen(target: nat)
      modifies this
      ensures anchor == Some(target) && IsOpen()
      ensures themeToggles == old(themeToggles)
    {
      anchor := Some(target);
    }

    /** `handleMenuClose`. */
    method HandleMenuClose()
      modifies this
      ensures anchor == None && !IsOpen()
      ensures themeToggles == old(themeToggles)
    {
      anchor := None;
    }

    /** `handleProfileClick`: close the menu; the console message is not modelled. */
    method HandleProfileClick()
      modifies this
      ensures !IsOpen() && themeToggles == old(themeToggles)
    {
      HandleMenuClose();
    }

    /** `handleThemeToggle`: close the menu, then ask once for the other theme. */
    method HandleThemeToggle()
      modifies this
      ensures !IsOpen() && themeToggles == old(themeToggles) + 1
    {
      HandleMenuClose();
      themeToggles := themeToggles + 1;
    }

    /**
     * `handleLogout`: close the menu, then log out through the provider;
     * the header rendered with the provider's current user, so the
     * farewell names that user.
     */
    method HandleLogout(auth: Auth.AuthProvider)
      modifies this, auth
      ensures !IsOpen() && themeToggles == old(themeToggles)
      ensures auth.Current() == Auth.LoggedOut(old(auth.Current()), old(auth.user))
      ensures !auth.Authenticated()
    {
      HandleMenuClose();
      auth.Logout();
    }
  }
}
