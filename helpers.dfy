/**
 * The string helpers of src/utils/helpers.ts. The two date formatters there
 * only post-process a date library's output and are not part of this model.
 */
module Helpers {
  import opened Types
  import opened JsText

  /** `truncateText(text, maxLength)`. `slice(0, m)` with a negative `m`
      counts from the end and stops at the start of the string. */
  function TruncateText(text: string, maxLength: int): (r: string)
    ensures |text| <= maxLength ==> r == text
  {
    if |text| <= maxLength then text
    else
      var end := if maxLength >= 0 then maxLength else if |text| + maxLength > 0 then |text| + maxLength else 0;
      text[..end] + "..."
  }

  /** A text that is too long keeps exactly its first `maxLength` characters,
      followed by an ellipsis: the result is `maxLength + 3` long. */
  lemma TruncateTextLong(text: string, maxLength: nat)
    requires |text| > maxLength
    ensures TruncateText(text, maxLength) == text[..maxLength] + "..."
    ensures |TruncateText(text, maxLength)| == maxLength + 3
  {
  }

  /** Truncation never yields text longer than `max(maxLength + 3, |text|)`,
      and keeps a prefix of the text. */
  lemma TruncateTextIsPrefix(text: string, maxLength: int)
    ensures var r := TruncateText(text, maxLength);
      r == text || (|r| >= 3 && r[..|r| - 3] == text[..|r| - 3] && r[|r| - 3..] == "...")
  {
  }

  /** The character class `[^\s@]`. */
  predicate IsEmailChar(c: char) {
    !IsWhitespace(c) && c != '@'
  }

  /** `[^\s@]+` matches `s[lo..hi]`. */
  predicate EmailRun(s: string, lo: int, hi: int)
    requires 0 <= lo <= hi <= |s|
  {
    lo < hi && forall k :: lo <= k < hi ==> IsEmailChar(s[k])
  }

  /** `/^[^\s@]+@[^\s@]+\.[^\s@]+$/.test(email)`: the string splits as
      local `@` host `.` tail, each of the three parts a non-empty run of
      characters that are neither white space nor '@'. */
  predicate IsValidEmail(email: string) {
    exists i, j | 0 <= i < j < |email| ::
      email[i] == '@' && email[j] == '.' &&
      EmailRun(email, 0, i) && EmailRun(email, i + 1, j) && EmailRun(email, j + 1, |email|)
  }

  predicate NoWhitespace(s: string) {
    forall k :: 0 <= k < |s| ==> !IsWhitespace(s[k])
  }

  /** The structural reading of the pattern: no white space, exactly one '@'
      with something before it, and after it a '.' that has at least one
      character on each side. */
  ghost predicate EmailShape(email: string) {
    NoWhitespace(email) && Count(email, '@') == 1 &&
    exists i | 0 <= i < |email| :: email[i] == '@' && i > 0 &&
      exists j | i + 1 < j < |email| - 1 :: email[j] == '.'
  }

  /** A pattern match has the structural shape. */
  lemma ValidEmailHasShape(email: string)
    requires IsValidEmail(email)
    ensures EmailShape(email)
  {
    var i, j :| 0 <= i < j < |email| && email[i] == '@' && email[j] == '.' &&
      EmailRun(email, 0, i) && EmailRun(email, i + 1, j) && EmailRun(email, j + 1, |email|);
    assert forall k :: 0 <= k < |email| && k != i ==> email[k] != '@';
    CountOnly(email, i, '@');
    assert i + 1 < j < |email| - 1;
  }

  /** A string of the structural shape matches the pattern. */
  lemma ShapeIsValidEmail(email: string)
    requires EmailShape(email)
    ensures IsValidEmail(email)
  {
    var i :| 0 <= i < |email| && email[i] == '@' && i > 0 &&
      exists j | i + 1 < j < |email| - 1 :: email[j] == '.';
    var j :| i + 1 < j < |email| - 1 && email[j] == '.';
    CountOnly(email, i, '@');
    assert EmailRun(email, 0, i) && EmailRun(email, i + 1, j) && EmailRun(email, j + 1, |email|);
  }

  /** Both readings of the pattern agree on every string. */
  lemma IsValidEmailIff(email: string)
    ensures IsValidEmail(email) <==> EmailShape(email)
  {
    if IsValidEmail(email) { ValidEmailHasShape(email); }
    if EmailShape(email) { ShapeIsValidEmail(email); }
  }

  /** Two examples: "a@b.co" passes, "not-an-email" fails. */
  lemma EmailExamples()
    ensures IsValidEmail("a@b.co")
    ensures !IsValidEmail("not-an-email")
  {
    assert "a@b.co"[1] == '@' && "a@b.co"[3] == '.';
    assert EmailRun("a@b.co", 0, 1) && EmailRun("a@b.co", 2, 3) && EmailRun("a@b.co", 4, 6);
    assert forall k :: 0 <= k < |"not-an-email"| ==> "not-an-email"[k] != '@';
  }

  const AvatarUrlPrefix := "https://ui-avatars.com/api/?name="
  const AvatarUrlSuffix := "&background=1976d2&color=fff&size=128"

  /** `toUpperCase` on one character, for the ASCII letters. */
  function ToUpperAscii(c: char): (u: char)
    ensures 'a' <= c <= 'z' ==> 'A' <= u <= 'Z' && u as int == c as int - 32
    ensures !('a' <= c <= 'z') ==> u == c
  {
    if 'a' <= c <= 'z' then (c as int - 32) as char else c
  }

  /** `generateAvatarUrl(name)`: the fixed template around the upper-cased
      first character of the name, or '?' for an empty name. */
  function GenerateAvatarUrl(name: string): (url: string)
    ensures name == "" ==> url == AvatarUrlPrefix + "?" + AvatarUrlSuffix
    ensures name != "" ==> url == AvatarUrlPrefix + [ToUpperAscii(name[0])] + AvatarUrlSuffix
  {
    var initial := if name != "" then [ToUpperAscii(name[0])] else "?";
    AvatarUrlPrefix + initial + AvatarUrlSuffix
  }

  /** Only the first character of the name matters. */
  lemma AvatarUrlIgnoresRest(a: string, b: string)
    requires a != "" && b != "" && a[0] == b[0]
    ensures GenerateAvatarUrl(a) == GenerateAvatarUrl(b)
  {
  }

  /** The initial can be read back from the URL, at the position after the prefix. */
  lemma AvatarUrlInitial(name: string)
    ensures var url := GenerateAvatarUrl(name);
      |url| == |AvatarUrlPrefix| + 1 + |AvatarUrlSuffix| &&
      url[|AvatarUrlPrefix|] == (if name == "" then '?' else ToUpperAscii(name[0]))
  {
  }

  /** The name fields the two user helpers look at; every one may be absent. */
  datatype NameFields = NameFields(
    firstName: Option<string>,
    lastName: Option<string>,
    username: Option<string>,
    email: Option<string>)

  function NamesOf(u: User): NameFields {
    NameFields(u.firstName, u.lastName, Some(u.username), Some(u.email))
  }

  function TextOr(o: Option<string>, fallback: string): string {
    if Truthy(o) then o.value else fallback
  }

  /** `getUserDisplayName(user)`. */
  function GetUserDisplayName(user: Option<NameFields>): (r: string)
    ensures user.None? ==> r == ""
    ensures user.Some? && Truthy(user.value.firstName) && Truthy(user.value.lastName) ==>
      r == user.value.firstName.value + " " + user.value.lastName.value
    ensures user.Some? && !(Truthy(user.value.firstName) && Truthy(user.value.lastName)) ==>
      r == (if Truthy(user.value.username) then user.value.username.value
            else if Truthy(user.value.email) then user.value.email.value
            else "")
  {
    match user
    case None => ""
    case Some(u) =>
      if Truthy(u.firstName) && Truthy(u.lastName) then u.firstName.value + " " + u.lastName.value
      else TextOr(u.username, TextOr(u.email, ""))
  }

  /** The display name is empty exactly when there is no user, or when the
      user lacks one of the two names and has neither username nor email. */
  lemma DisplayNameEmptyIff(user: Option<NameFields>)
    ensures GetUserDisplayName(user) == "" <==>
      user.None? ||
      (!(Truthy(user.value.firstName) && Truthy(user.value.lastName)) &&
       !Truthy(user.value.username) && !Truthy(user.value.email))
  {
  }

  /** `getUserHandle(user)`: the username, else the part of the email before
      its first '@', else the empty string. */
  function GetUserHandle(user: Option<NameFields>): (r: string)
    ensures user.None? ==> r == ""
    ensures user.Some? && Truthy(user.value.username) ==> r == user.value.username.value
  {
    match user
    case None => ""
    case Some(u) =>
      if Truthy(u.username) then u.username.value
      else if u.email.Some? then TextOr(Some(Split(u.email.value, '@')[0]), "")
      else ""
  }

  /** Without a username, the handle is the text of the email before its
      first '@' (the whole email when it has none), and it contains no '@'. */
  lemma HandleFromEmail(user: NameFields)
    requires !Truthy(user.username)
    ensures var r := GetUserHandle(Some(user));
      '@' !in r &&
      (user.email.None? ==> r == "") &&
      (user.email.Some? ==>
        var e := user.email.value;
        |r| <= |e| && r == e[..|r|] && (|r| == |e| || e[|r|] == '@'))
  {
    if user.email.Some? {
      SplitHead(user.email.value, '@');
    }
  }

  /** An email whose first character is '@' yields the empty handle, and a
      non-empty local part yields a non-empty handle. */
  lemma HandleEmptyIff(user: NameFields)
    requires !Truthy(user.username) && user.email.Some?
    ensures GetUserHandle(Some(user)) == "" <==> (user.email.value == "" || user.email.value[0] == '@')
  {
    SplitHead(user.email.value, '@');
  }
}
