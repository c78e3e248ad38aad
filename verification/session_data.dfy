/** Values shared by the recorder (index.js) and the restorer (index2.js): the cookie
    record as Electron reports it and as the cookie file stores it, and what a file of
    the store holds once parsed. */
module SessionData {

  datatype Option<T> = None | Some(value: T)

  /** Electron's `sameSite` attribute of a cookie. */
  datatype SameSite = Unspecified | NoRestriction | Lax | Strict

  /** One cookie, with the attributes Electron's `Cookie` object carries. Every attribute
      Electron marks optional is an `Option`: a cookie file written by hand may lack it,
      and the restorer reads whatever the file holds. `expirationDate` is absent for a
      session cookie. */
  datatype Cookie = Cookie(
    name: string,
    value: string,
    domain: Option<string>,
    hostOnly: Option<bool>,
    path: Option<string>,
    secure: Option<bool>,
    httpOnly: Option<bool>,
    session: Option<bool>,
    expirationDate: Option<int>,
    sameSite: SameSite)

  /** The content of one JSON file, as `JSON.parse` would see it. Serialising a value
      is wrapping it in its constructor, so parsing a serialised value gives it back. */
  datatype Document =
    | CookieArray(cookies: seq<Cookie>)            // JSON.stringify of an array of cookies
    | StorageObject(entries: map<string, string>)  // JSON.stringify of a Storage object
    | Unparseable                                  // text JSON.parse rejects
}
