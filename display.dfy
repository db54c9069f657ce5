/**
 * Small value rules the pages share when they render a row: the badge
 * styles, JavaScript's `a || b` on a nullable text, and the upper-cased
 * initial shown in place of a missing avatar.
 */
module Display {
  import opened Wrappers
  import opened Strings

  /** The badge styles of the tables. */
  datatype BadgeVariant = Default | Secondary | Outline

  /** `a || b` for a nullable text: `a`, unless it is null or empty. */
  function OrElse(a: Option<string>, b: string): (r: string)
    ensures a.Some? && a.value != "" ==> r == a.value
    ensures a.None? || a.value == "" ==> r == b
    ensures r == "" ==> b == ""
  {
    if a.Some? && a.value != "" then a.value else b
  }

  /** `s.charAt(0).toUpperCase()`: the first character upper-cased, or nothing for "". */
  function UpperInitial(s: string): (r: string)
    ensures |r| <= 1
    ensures r == [] <==> s == []
    ensures s != [] ==> r[0] == Upper(s[0]) && !IsAsciiLower(r[0])
  {
    if s == [] then [] else [Upper(s[0])]
  }

  /** `email?.split('@')[0]`: the text before the first '@', when there is an email. */
  function EmailLocalPart(email: Option<string>): (r: Option<string>)
    ensures r.Some? <==> email.Some?
    ensures r.Some? ==> '@' !in r.value && StartsWith(email.value, r.value)
    ensures r.Some? ==> |r.value| == |email.value| || email.value[|r.value|] == '@'
    ensures email.Some? && '@' !in email.value ==> r == email
  {
    if email.Some? then
      var local := BeforeFirst(email.value, '@');
      assert '@' !in email.value ==> local == email.value[..|email.value|] == email.value;
      Some(local)
    else None
  }

  /**
   * The letter in place of a missing avatar: the first character of the
   * name, else of the email, upper-cased, else "U".
   */
  function AvatarInitial(name: Option<string>, email: Option<string>): (r: string)
    ensures |r| == 1 && !IsAsciiLower(r[0])
    ensures name.Some? && name.value != [] ==> r == [Upper(name.value[0])]
    ensures (name.None? || name.value == []) && email.Some? && email.value != [] ==> r == [Upper(email.value[0])]
    ensures (name.None? || name.value == []) && (email.None? || email.value == []) ==> r == "U"
  {
    var fromName := if name.Some? then UpperInitial(name.value) else "";
    var fromEmail := if email.Some? then UpperInitial(email.value) else "";
    if fromName != "" then fromName else if fromEmail != "" then fromEmail else "U"
  }
}
