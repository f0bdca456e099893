/**
 * The connection-URL rewrite of db.py: a Heroku/Render style
 * `postgres://` or plain `postgresql://` URL is pointed at the asyncpg
 * driver by rewriting its scheme; anything else is used as given.
 */
module Database {
  import opened PyStr

  const LegacyScheme := "postgres://"
  const PlainScheme := "postgresql://"
  const AsyncScheme := "postgresql+asyncpg://"
  const DriverName := "asyncpg"

  /** `DATABASE_URL` after lines 8-11 of db.py, written with `str.replace(..., 1)`. */
  function NormalizeUrl(url: string): (r: string)
    ensures StartsWith(url, LegacyScheme) ==> r == AsyncScheme + url[|LegacyScheme|..]
    ensures !StartsWith(url, LegacyScheme) && StartsWith(url, PlainScheme) && !Contains(url, DriverName) ==>
      r == AsyncScheme + url[|PlainScheme|..]
    ensures !StartsWith(url, LegacyScheme) && !(StartsWith(url, PlainScheme) && !Contains(url, DriverName)) ==>
      r == url
  {
    if StartsWith(url, LegacyScheme) then
      ReplaceFirstAtStart(url, LegacyScheme, AsyncScheme);
      Replace(url, LegacyScheme, AsyncScheme, 1)
    else if StartsWith(url, PlainScheme) && !Contains(url, DriverName) then
      ReplaceFirstAtStart(url, PlainScheme, AsyncScheme);
      Replace(url, PlainScheme, AsyncScheme, 1)
    else url
  }

  /** The rewritten scheme starts neither a legacy nor a plain URL. */
  lemma AsyncSchemeIsFinal(suffix: string)
    ensures !StartsWith(AsyncScheme + suffix, LegacyScheme)
    ensures !StartsWith(AsyncScheme + suffix, PlainScheme)
  {
    var u := AsyncScheme + suffix;
    assert u[8] == 'q' && LegacyScheme[8] == ':';
    assert u[10] == '+' && PlainScheme[10] == ':';
    assert u[..|LegacyScheme|][8] != LegacyScheme[8];
    assert u[..|PlainScheme|][10] != PlainScheme[10];
  }

  /** Normalising twice is normalising once. */
  lemma NormalizeIdempotent(url: string)
    ensures NormalizeUrl(NormalizeUrl(url)) == NormalizeUrl(url)
  {
    if StartsWith(url, LegacyScheme) {
      AsyncSchemeIsFinal(url[|LegacyScheme|..]);
    } else if StartsWith(url, PlainScheme) && !Contains(url, DriverName) {
      AsyncSchemeIsFinal(url[|PlainScheme|..]);
    }
  }

  /** The empty default and an already asynchronous URL are left alone. */
  lemma NormalizeLeavesOthers(suffix: string)
    ensures NormalizeUrl("") == ""
    ensures NormalizeUrl(AsyncScheme + suffix) == AsyncScheme + suffix
  {
    AsyncSchemeIsFinal(suffix);
  }
}
