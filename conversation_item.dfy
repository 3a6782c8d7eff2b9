/** `ConversationItem`: the name and the avatar letters shown for a
    conversation in the admin list. */
module ConversationItem {
  import opened Types

  const FallbackPrefix: string := "User "
  const IdPrefixLength: nat := 8
  const AvatarLength: nat := 2

  /** `s.slice(0, n)`: the first `n` characters, or all of a shorter string. */
  function Slice(s: string, n: nat): (r: string)
    ensures |r| == Min(n, |s|) && r == s[..|r|]
  {
    s[..Min(n, |s|)]
  }

  /** `getUserDisplayName`: the username when it is non-empty, else a name made
      from the sender id. */
  function DisplayName(senderId: string, username: Option<string>): (name: string)
    ensures Truthy(username) ==> name == username.value
    ensures !Truthy(username) ==> name == FallbackPrefix + Slice(senderId, IdPrefixLength)
  {
    if Truthy(username) then username.value else FallbackPrefix + Slice(senderId, IdPrefixLength)
  }

  /** The fallback name starts with `"User "`, is at most 13 characters, and
      continues with a prefix of the sender id (all of it when shorter than 8). */
  lemma FallbackNameShape(senderId: string, username: Option<string>)
    requires !Truthy(username)
    ensures var name := DisplayName(senderId, username);
      |name| <= |FallbackPrefix| + IdPrefixLength && name[..|FallbackPrefix|] == FallbackPrefix
      && name[|FallbackPrefix|..] == senderId[..|name| - |FallbackPrefix|]
      && (|senderId| <= IdPrefixLength ==> name == FallbackPrefix + senderId)
  {
    var name := DisplayName(senderId, username);
    assert name[|FallbackPrefix|..] == Slice(senderId, IdPrefixLength);
  }

  predicate IsLower(c: char) {
    'a' <= c <= 'z'
  }

  /** Upper-casing of one character (letters `a`..`z`; every other character is kept). */
  function UpperChar(c: char): (u: char)
    ensures !IsLower(u)
    ensures IsLower(c) ==> u as int == c as int - 32
    ensures !IsLower(c) ==> u == c
  {
    if IsLower(c) then (c as int - 32) as char else c
  }

  function ToUpper(s: string): (r: string)
    ensures |r| == |s|
    ensures forall i :: 0 <= i < |s| ==> r[i] == UpperChar(s[i])
  {
    if s == [] then [] else [UpperChar(s[0])] + ToUpper(s[1..])
  }

  /** Upper-casing twice is upper-casing once. */
  lemma ToUpperIdempotent(s: string)
    ensures ToUpper(ToUpper(s)) == ToUpper(s)
  {
    var once := ToUpper(s);
    assert forall i :: 0 <= i < |once| ==> UpperChar(once[i]) == once[i];
  }

  /** `getAvatarLetters`: the first two characters of the name source, upper-cased. */
  function AvatarLetters(senderId: string, username: Option<string>): (letters: string)
    ensures |letters| <= AvatarLength
    ensures var source := if Truthy(username) then username.value else senderId;
      |letters| == Min(AvatarLength, |source|) &&
      forall i :: 0 <= i < |letters| ==> letters[i] == UpperChar(source[i])
  {
    ToUpper(Slice(if Truthy(username) then username.value else senderId, AvatarLength))
  }

  /** The avatar letters are the upper-cased start of the display name whenever a
      username is shown; with the fallback name they come from the sender id instead
      of the name's own `"Us"`. */
  lemma AvatarMatchesName(senderId: string, username: Option<string>)
    ensures Truthy(username) ==> AvatarLetters(senderId, username) == ToUpper(Slice(DisplayName(senderId, username), AvatarLength))
    ensures !Truthy(username) && |senderId| > 0 ==> AvatarLetters(senderId, username)[0] == UpperChar(senderId[0])
  {
  }
}
