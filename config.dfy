/** The command-line arguments of the player and the URI handed to the playbin. */
module Config {

  /** Where the media comes from. */
  datatype OriginType = File | Http

  const FileScheme: string := "file://"

  datatype Args = Args(uri: string, origin: OriginType) {

    /** `formatted_uri`: a file path gets the `file://` scheme prepended, verbatim; an HTTP URI is used as given. */
    function FormattedUri(): (r: string)
      ensures |uri| <= |r| && r[|r| - |uri|..] == uri
      ensures origin == File ==> |FileScheme| <= |r| && r[..|FileScheme|] == FileScheme && r[|FileScheme|..] == uri
      ensures origin == Http ==> r == uri
    {
      match origin
      case File => FileScheme + uri
      case Http => uri
    }
  }

  /** Two argument sets with the same origin give the same URI only when their uri arguments agree. */
  lemma FormattedUriInjective(a: Args, b: Args)
    requires a.origin == b.origin
    requires a.FormattedUri() == b.FormattedUri()
    ensures a.uri == b.uri
  {
    if a.origin == File {
      assert a.uri == a.FormattedUri()[|FileScheme|..];
    }
  }
}
