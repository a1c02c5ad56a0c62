/** The avatar of a Discord user (client/src/components/discord-avatar.tsx):
    the CDN image URL, the initials shown as fallback, and the size
    classes. Usernames are treated as ASCII text. */
module DiscordAvatar {
  import opened Wrappers
  import UrlSearchParams

  datatype Size = Sm | Md | Lg

  const DefaultSize := Md

  function SizeClass(size: Size): string
  {
    match size
    case Sm => "h-8 w-8"
    case Md => "h-10 w-10"
    case Lg => "h-12 w-12"
  }

  const CdnPrefix := "https://cdn.discordapp.com/avatars/"
  const CdnSuffix := ".png?size=128"

  /** The image URL: none for a missing or empty avatar hash, otherwise the
      CDN path built from the Discord id and the hash. */
  function AvatarUrl(discordId: string, avatar: Option<string>): (url: Option<string>)
    ensures url.None? <==> avatar.None? || avatar.value == ""
    ensures url.Some? ==> url.value == CdnPrefix + discordId + "/" + avatar.value + CdnSuffix
  {
    if avatar.None? || avatar.value == "" then None
    else Some(CdnPrefix + discordId + "/" + avatar.value + CdnSuffix)
  }

  predicate NoSlash(s: string)
  {
    forall i :: 0 <= i < |s| ==> s[i] != '/'
  }

  /** The id and hash read back from a URL: the text between the prefix and
      the first '/' after it, and the rest before the suffix. */
  function SplitAvatarUrl(url: string): Option<(string, string)>
  {
    if |url| < |CdnPrefix| + |CdnSuffix| || url[..|CdnPrefix|] != CdnPrefix
       || url[|url| - |CdnSuffix|..] != CdnSuffix then None
    else
      var middle := url[|CdnPrefix|..|url| - |CdnSuffix|];
      var j := UrlSearchParams.IndexOf(middle, '/');
      if j == |middle| then None else Some((middle[..j], middle[j + 1..]))
  }

  /** For Discord ids (which never contain '/'), the URL names its id and
      hash: both read back from it unchanged. */
  lemma AvatarUrlNamesIdAndHash(discordId: string, hash: string)
    requires NoSlash(discordId) && hash != ""
    ensures var url := AvatarUrl(discordId, Some(hash));
      url.Some? && SplitAvatarUrl(url.value) == Some((discordId, hash))
  {
    var url := CdnPrefix + discordId + "/" + hash + CdnSuffix;
    assert url[..|CdnPrefix|] == CdnPrefix;
    assert url[|url| - |CdnSuffix|..] == CdnSuffix;
    var middle := url[|CdnPrefix|..|url| - |CdnSuffix|];
    assert middle == discordId + "/" + hash;
    assert middle[|discordId|] == '/';
    assert UrlSearchParams.IndexOf(middle, '/') == |discordId|;
    assert middle[..|discordId|] == discordId;
    assert middle[|discordId| + 1..] == hash;
  }

  /** Two users with Discord ids get the same image URL only when both the
      id and the hash agree. */
  lemma AvatarUrlInjective(id1: string, hash1: string, id2: string, hash2: string)
    requires NoSlash(id1) && NoSlash(id2) && hash1 != "" && hash2 != ""
    requires AvatarUrl(id1, Some(hash1)) == AvatarUrl(id2, Some(hash2))
    ensures id1 == id2 && hash1 == hash2
  {
    AvatarUrlNamesIdAndHash(id1, hash1);
    AvatarUrlNamesIdAndHash(id2, hash2);
  }

  function ToUpperAscii(c: char): (u: char)
    ensures 'a' <= c <= 'z' ==> u as int == c as int - 32
    ensures !('a' <= c <= 'z') ==> u == c
    ensures !('a' <= u <= 'z')
  {
    if 'a' <= c <= 'z' then (c as int - 32) as char else c
  }

  /** `username.slice(0, 2).toUpperCase()`. */
  function Initials(username: string): (initials: string)
    ensures |initials| == if |username| < 2 then |username| else 2
    ensures forall i :: 0 <= i < |initials| ==> initials[i] == ToUpperAscii(username[i])
  {
    var head := if |username| < 2 then username else username[..2];
    seq(|head|, i requires 0 <= i < |head| => ToUpperAscii(head[i]))
  }

  /** Initials of initials are the same initials. */
  lemma InitialsIdempotent(username: string)
    ensures Initials(Initials(username)) == Initials(username)
  {
    var a := Initials(username);
    var b := Initials(a);
    assert |b| == |a|;
    forall i | 0 <= i < |b| ensures b[i] == a[i] {
      assert b[i] == ToUpperAscii(a[i]);
    }
  }

  /** What the avatar draws: its size class, the image if there is a URL,
      and always the initials as fallback. */
  datatype Rendered = Rendered(sizeClass: string, image: Option<string>, fallback: string)

  function Render(discordId: string, avatar: Option<string>, username: string, size: Option<Size>): (r: Rendered)
    ensures r.fallback == Initials(username)
    ensures r.image == AvatarUrl(discordId, avatar)
    ensures r.sizeClass == SizeClass(size.GetOr(DefaultSize))
    ensures size.None? ==> r.sizeClass == "h-10 w-10"
  {
    Rendered(SizeClass(size.GetOr(DefaultSize)), AvatarUrl(discordId, avatar), Initials(username))
  }
}
