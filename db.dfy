/** The two tables of the crawler's SQLite database, as in-memory maps. */
module Db {
  import opened Wrappers

  /** A row of the `urls` table; `timestamp` is the database clock and is not modelled. */
  datatype UrlRow = UrlRow(
    etag: Option<string>,
    statusCode: int,
    title: Option<string>,
    canonicalUrlHeader: Option<string>,
    canonicalUrlHtml: Option<string>,
    ogUrl: Option<string>,
    ogTitle: Option<string>,
    description: Option<string>,
    cleanText: Option<string>)

  /** The database file: `robots_txt` maps a robots.txt URL to its (nullable) content,
      `urls` maps a page URL to its row. */
  class CuppyDatabase {
    var robotsTxt: map<string, Option<string>>
    var urls: map<string, UrlRow>

    constructor (robotsTxt: map<string, Option<string>>, urls: map<string, UrlRow>)
      ensures this.robotsTxt == robotsTxt && this.urls == urls
    {
      this.robotsTxt := robotsTxt;
      this.urls := urls;
    }
  }
}
