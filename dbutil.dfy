/** The database argument handling of the `dbutil` administration script. */
module DbUtil {
  import opened Wrappers
  import opened Text

  /** Prefix that turns a bare file name into an SQLite URL. */
  const SqlitePrefix: string := "sqlite:///"

  /** Default value of the `--db` option of the `init` command. */
  const DefaultDb: string := "sqlite:///sqlite.db"

  /**
   * The URL the script opens for its `--db` argument: an argument that has no
   * colon is taken as the path of an SQLite file, anything else as a URL.
   */
  function DatabaseUrl(db: string): (url: string)
    ensures ':' in url
    ensures EndsWith(url, db)
    ensures ':' in db ==> url == db
    ensures ':' !in db ==> StartsWith(url, SqlitePrefix) && |url| == |SqlitePrefix| + |db|
  {
    if ':' !in db then SqlitePrefix + db else db
  }

  /**
   * Recovers the file name from an SQLite URL; the inverse of DatabaseUrl on
   * arguments without a colon.
   */
  function SqliteFile(url: string): (file: Option<string>)
    ensures file.Some? <==> StartsWith(url, SqlitePrefix)
    ensures file.Some? ==> SqlitePrefix + file.value == url
  {
    if StartsWith(url, SqlitePrefix) then Some(url[|SqlitePrefix|..]) else None
  }

  /** Normalising an already normalised argument changes nothing. */
  lemma DatabaseUrlIdempotent(db: string)
    ensures DatabaseUrl(DatabaseUrl(db)) == DatabaseUrl(db)
  {
  }

  /** A bare file name is recovered from the URL built for it. */
  lemma FileNameRoundTrip(db: string)
    requires ':' !in db
    ensures SqliteFile(DatabaseUrl(db)) == Some(db)
  {
  }

  /**
   * Exactly two arguments lead to a given URL: the URL itself, when it has a
   * colon, and the file name after the SQLite prefix, when that has no colon.
   */
  lemma DatabaseUrlPreimage(db: string, url: string)
    ensures DatabaseUrl(db) == url <==>
      (db == url && ':' in db) || (':' !in db && SqliteFile(url) == Some(db))
  {
  }

  /** The default `--db` value is already a URL and is used as it is. */
  lemma DefaultDbUnchanged()
    ensures DatabaseUrl(DefaultDb) == DefaultDb
    ensures SqliteFile(DefaultDb) == Some("sqlite.db")
  {
  }
}
