/** Asset paths as the server builds them: a fixed directory, the asset's
    name, and the `.webp` extension. */
module StaticImage {

  const BoardDir: string := "src/assets/background/"
  const IconDir: string := "src/assets/objects/"
  const Extension: string := ".webp"

  /** Path of a background image; the name appears verbatim between the
      directory and the extension. */
  function GetBoardUrl(boardName: string): (url: string)
    ensures |url| == |BoardDir| + |boardName| + |Extension|
    ensures url[..|BoardDir|] == BoardDir
    ensures url[|BoardDir|..|BoardDir| + |boardName|] == boardName
    ensures url[|url| - |Extension|..] == Extension
  {
    BoardDir + boardName + Extension
  }

  /** Path of a marker image, laid out like `GetBoardUrl` under the objects
      directory. */
  function GetIconUrl(iconName: string): (url: string)
    ensures |url| == |IconDir| + |iconName| + |Extension|
    ensures url[..|IconDir|] == IconDir
    ensures url[|IconDir|..|IconDir| + |iconName|] == iconName
    ensures url[|url| - |Extension|..] == Extension
  {
    IconDir + iconName + Extension
  }

  /** Distinct background names give distinct paths. */
  lemma BoardUrlInjective(a: string, b: string)
    ensures GetBoardUrl(a) == GetBoardUrl(b) <==> a == b
  {
  }

  /** Distinct icon names give distinct paths. */
  lemma IconUrlInjective(a: string, b: string)
    ensures GetIconUrl(a) == GetIconUrl(b) <==> a == b
  {
  }

  /** A background path is never a marker path: the two directories part at
      the character after "src/assets/". */
  lemma BoardAndIconUrlsDiffer(a: string, b: string)
    ensures GetBoardUrl(a) != GetIconUrl(b)
  {
    var u, v := GetBoardUrl(a), GetIconUrl(b);
    assert u[11] == BoardDir[11] == 'b';
    assert v[11] == IconDir[11] == 'o';
  }
}
