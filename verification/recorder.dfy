/** The capture side (index.js): it opens the target URL and writes the session's whole
    cookie jar and both storage maps to three fixed files, once when the page first
    finishes loading and again (cookies only) on every change of the jar. */
module Recorder {
  import opened SessionData

  // ---------------------------------------------------------------------------------
  // File names (index.js:6-7)
  // ---------------------------------------------------------------------------------

  const StorageFolder: string := "/cookies/"

  /** `storageFile(type)`: the file `<type>.json` in the storage folder. */
  function StorageFile(kind: string): (path: string)
    ensures StorageFolder <= path
    ensures |path| == |StorageFolder| + |kind| + |".json"|
    ensures path[|StorageFolder|..|StorageFolder| + |kind|] == kind
    ensures path[|StorageFolder| + |kind|..] == ".json"
  {
    StorageFolder + kind + ".json"
  }

  /** Different kinds never share a file, so no capture overwrites another's. */
  lemma StorageFileInjective(a: string, b: string)
    requires StorageFile(a) == StorageFile(b)
    ensures a == b
  {
    var p := StorageFile(a);
    assert a == p[|StorageFolder|..|StorageFolder| + |a|];
  }

  const CookiesFile: string := StorageFile("cookies")
  const LocalStorageFile: string := StorageFile("localStorage")
  const SessionStorageFile: string := StorageFile("sessionStorage")

  /** The three artefacts and their fixed names. */
  lemma ArtefactNames()
    ensures CookiesFile == "/cookies/cookies.json"
    ensures LocalStorageFile == "/cookies/localStorage.json"
    ensures SessionStorageFile == "/cookies/sessionStorage.json"
  {
    CookiesFileName();
    LocalStorageFileName();
    SessionStorageFileName();
  }

  lemma CookiesFileName()
    ensures CookiesFile == "/cookies/cookies.json"
  {
    SpelledOut("cookies", "/cookies/cookies.json");
  }

  lemma LocalStorageFileName()
    ensures LocalStorageFile == "/cookies/localStorage.json"
  {
    SpelledOut("localStorage", "/cookies/localStorage.json");
  }

  lemma SessionStorageFileName()
    ensures SessionStorageFile == "/cookies/sessionStorage.json"
  {
    SpelledOut("sessionStorage", "/cookies/sessionStorage.json");
  }

  lemma SpelledOut(kind: string, path: string)
    requires |path| == |StorageFolder| + |kind| + 5
    requires forall i :: 0 <= i < |StorageFolder| ==> path[i] == StorageFolder[i]
    requires forall i :: 0 <= i < |kind| ==> path[|StorageFolder| + i] == kind[i]
    requires forall i :: 0 <= i < 5 ==> path[|StorageFolder| + |kind| + i] == ".json"[i]
    ensures StorageFile(kind) == path
  {
    var p := StorageFile(kind);
    assert p == StorageFolder + kind + ".json";
    forall i | 0 <= i < |p|
      ensures p[i] == path[i]
    {
      if i < |StorageFolder| {
      } else if i < |StorageFolder| + |kind| {
        assert p[i] == kind[i - |StorageFolder|];
      } else {
        assert p[i] == ".json"[i - |StorageFolder| - |kind|];
      }
    }
  }

  /** The three artefacts are three different files. */
  lemma ArtefactsDistinct()
    ensures CookiesFile != LocalStorageFile && CookiesFile != SessionStorageFile
    ensures LocalStorageFile != SessionStorageFile
  {
    var n := |StorageFolder|;
    assert CookiesFile[n..n + 7] == "cookies";
    assert LocalStorageFile[n..n + 12] == "localStorage";
    assert SessionStorageFile[n..n + 14] == "sessionStorage";
    assert CookiesFile[n] == 'c' && LocalStorageFile[n] == 'l' && SessionStorageFile[n] == 's';
  }

  // ---------------------------------------------------------------------------------
  // Choosing the target URL (index.js:30-37)
  // ---------------------------------------------------------------------------------

  const DefaultUrl: string := "https://google.com"

  /** `args[0] || 'https://google.com'`: a missing or empty first argument is falsy. */
  function TargetUrl(args: seq<string>): (url: string)
    ensures |args| > 0 && args[0] != "" ==> url == args[0]
    ensures |args| == 0 || args[0] == "" ==> url == DefaultUrl
    ensures url != ""
  {
    if |args| > 0 && args[0] != "" then args[0] else DefaultUrl
  }

  /** `url.startsWith('http')`: the first four characters are "http". */
  predicate IsAcceptedUrl(url: string): (accepted: bool)
    ensures accepted <==> |url| >= 4 && url[..4] == "http"
  {
    "http" <= url
  }

  /** The check is a bare prefix test: the default passes, so does any text that begins
      with "http" (an unknown scheme such as "httpx:" included), and a scheme other than
      lower-case "http"/"https" fails. */
  lemma UrlCheckIsPrefixOnly(rest: string)
    ensures IsAcceptedUrl("http" + rest)
    ensures IsAcceptedUrl(TargetUrl([]))
    ensures IsAcceptedUrl("httpx:")
    ensures !IsAcceptedUrl("ftp://example.com") && !IsAcceptedUrl("example.com") && !IsAcceptedUrl("HTTP://A")
  {
    assert ("http" + rest)[..4] == "http";
    assert "ftp://example.com"[0] != 'h';
    assert "example.com"[0] != 'h';
    assert "HTTP://A"[0] != 'h';
  }

  // ---------------------------------------------------------------------------------
  // Captures (index.js:53-88)
  // ---------------------------------------------------------------------------------

  /** The file store: the content of each file, and the files written, oldest first. */
  datatype Disk = Disk(files: map<string, Document>, writes: seq<string>)

  /** The runtime steps of a capture that can fail; a failing step throws into the
      capture's catch. */
  datatype Step =
    | ReadJar       // `cookies.get({})` rejects
    | WriteCookies  // writing the cookies file throws
    | Snapshot      // `executeJavaScript` rejects
    | WriteLocal    // writing the localStorage file throws
    | WriteSession  // writing the sessionStorage file throws

  /** `fs.writeFileSync`: replaces the whole file. */
  function Write(d: Disk, path: string, doc: Document): Disk
  {
    Disk(d.files[path := doc], d.writes + [path])
  }

  /** File `path` is the same in both stores. */
  predicate SameFile(a: map<string, Document>, b: map<string, Document>, path: string)
  {
    (path in a <==> path in b) && (path in a ==> a[path] == b[path])
  }

  /** `saveCookies`: the cookies file is replaced by the entire jar, nothing else changes;
      a failure leaves the store as it was and is swallowed. */
  function SaveCookiesEffect(d: Disk, jar: seq<Cookie>, failing: set<Step>): (r: Disk)
    ensures ReadJar in failing || WriteCookies in failing ==> r == d
    ensures ReadJar !in failing && WriteCookies !in failing ==>
      CookiesFile in r.files && r.files[CookiesFile] == CookieArray(jar) &&
      r.writes == d.writes + [CookiesFile]
    ensures forall path :: path != CookiesFile ==> SameFile(d.files, r.files, path)
  {
    if ReadJar in failing || WriteCookies in failing then d
    else Write(d, CookiesFile, CookieArray(jar))
  }

  /** `saveStorage`: one snapshot of both maps, then the localStorage file, then the
      sessionStorage file. A failing snapshot or first write leaves the store as it was;
      a failing second write leaves the first in place. No other file changes. */
  function SaveStorageEffect(d: Disk, local: map<string, string>, session: map<string, string>,
                             failing: set<Step>): (r: Disk)
    ensures Snapshot in failing || WriteLocal in failing ==> r == d
    ensures Snapshot !in failing && WriteLocal !in failing ==>
      LocalStorageFile in r.files && r.files[LocalStorageFile] == StorageObject(local)
    ensures Snapshot !in failing && WriteLocal !in failing && WriteSession in failing ==>
      r.writes == d.writes + [LocalStorageFile] &&
      SameFile(d.files, r.files, SessionStorageFile)
    ensures Snapshot !in failing && WriteLocal !in failing && WriteSession !in failing ==>
      SessionStorageFile in r.files && r.files[SessionStorageFile] == StorageObject(session) &&
      r.writes == d.writes + [LocalStorageFile, SessionStorageFile]
    ensures forall path :: path != LocalStorageFile && path != SessionStorageFile ==>
      SameFile(d.files, r.files, path)
  {
    ArtefactsDistinct();
    if Snapshot in failing || WriteLocal in failing then d
    else
      var afterLocal := Write(d, LocalStorageFile, StorageObject(local));
      if WriteSession in failing then afterLocal
      else Write(afterLocal, SessionStorageFile, StorageObject(session))
  }

  /** The `did-finish-load` handler: `await saveCookies(); await saveStorage();`. Only
      the three artefacts can change; with no failure each holds what was captured. */
  function FirstLoadEffect(d: Disk, jar: seq<Cookie>, local: map<string, string>,
                           session: map<string, string>, failing: set<Step>): (r: Disk)
    ensures forall path :: path != CookiesFile && path != LocalStorageFile && path != SessionStorageFile ==>
      SameFile(d.files, r.files, path)
    ensures ReadJar !in failing && WriteCookies !in failing ==>
      CookiesFile in r.files && r.files[CookiesFile] == CookieArray(jar)
    ensures Snapshot !in failing && WriteLocal !in failing ==>
      LocalStorageFile in r.files && r.files[LocalStorageFile] == StorageObject(local)
    ensures Snapshot !in failing && WriteLocal !in failing && WriteSession !in failing ==>
      SessionStorageFile in r.files && r.files[SessionStorageFile] == StorageObject(session)
  {
    ArtefactsDistinct();
    SaveStorageEffect(SaveCookiesEffect(d, jar, failing), local, session, failing)
  }

  /** What the cookie capture appends to the write log: nothing, or the cookies file. */
  lemma CookieCaptureWrites(d: Disk, jar: seq<Cookie>, failing: set<Step>)
    ensures var c := SaveCookiesEffect(d, jar, failing);
      d.writes <= c.writes &&
      (c.writes[|d.writes|..] == [] || c.writes[|d.writes|..] == [CookiesFile])
  {
    var c := SaveCookiesEffect(d, jar, failing);
    if c.writes != d.writes {
      assert c.writes == d.writes + [CookiesFile];
      assert c.writes[|d.writes|..] == [CookiesFile];
    }
  }

  /** What the storage capture appends to the write log: a prefix of the two storage files. */
  lemma StorageCaptureWrites(d: Disk, local: map<string, string>, session: map<string, string>,
                             failing: set<Step>)
    ensures var s := SaveStorageEffect(d, local, session, failing);
      d.writes <= s.writes &&
      (s.writes[|d.writes|..] == [] || s.writes[|d.writes|..] == [LocalStorageFile] ||
       s.writes[|d.writes|..] == [LocalStorageFile, SessionStorageFile])
  {
    var s := SaveStorageEffect(d, local, session, failing);
    if Snapshot !in failing && WriteLocal !in failing {
      if WriteSession in failing {
        assert s.writes[|d.writes|..] == [LocalStorageFile];
      } else {
        assert s.writes[|d.writes|..] == [LocalStorageFile, SessionStorageFile];
      }
    }
  }

  /** On first load the cookies file, if written, is written before either storage file,
      and only the three artefacts are written; with no failure all three are written,
      in the order cookies, localStorage, sessionStorage. */
  lemma FirstLoadWritesCookiesFirst(d: Disk, jar: seq<Cookie>, local: map<string, string>,
                                    session: map<string, string>, failing: set<Step>)
    ensures var r := FirstLoadEffect(d, jar, local, session, failing);
      d.writes <= r.writes &&
      var added := r.writes[|d.writes|..];
      (forall i :: 0 <= i < |added| ==>
        added[i] in {CookiesFile, LocalStorageFile, SessionStorageFile}) &&
      (forall i :: 0 < i < |added| ==> added[i] != CookiesFile)
    ensures failing == {} ==>
      FirstLoadEffect(d, jar, local, session, failing).writes ==
        d.writes + [CookiesFile, LocalStorageFile, SessionStorageFile]
  {
    var c := SaveCookiesEffect(d, jar, failing);
    var r := SaveStorageEffect(c, local, session, failing);
    CookieCaptureWrites(d, jar, failing);
    StorageCaptureWrites(c, local, session, failing);
    assert FirstLoadEffect(d, jar, local, session, failing) == r;
    var fromCookies := c.writes[|d.writes|..];
    var fromStorage := r.writes[|c.writes|..];
    assert r.writes == d.writes + (fromCookies + fromStorage);
    assert r.writes[|d.writes|..] == fromCookies + fromStorage;
    ArtefactsDistinct();
    StorageFilesAfterCookies(fromCookies, fromStorage);
    if failing == {} {
      assert fromCookies + fromStorage == [CookiesFile, LocalStorageFile, SessionStorageFile];
    }
  }

  /** The write log of a first load is one of the cookie capture's logs followed by one of
      the storage capture's: the cookies file can only come first. */
  lemma StorageFilesAfterCookies(fromCookies: seq<string>, fromStorage: seq<string>)
    requires fromCookies == [] || fromCookies == [CookiesFile]
    requires fromStorage == [] || fromStorage == [LocalStorageFile] ||
             fromStorage == [LocalStorageFile, SessionStorageFile]
    requires CookiesFile != LocalStorageFile && CookiesFile != SessionStorageFile
    ensures var added := fromCookies + fromStorage;
      (forall i :: 0 <= i < |added| ==>
        added[i] in {CookiesFile, LocalStorageFile, SessionStorageFile}) &&
      (forall i :: 0 < i < |added| ==> added[i] != CookiesFile)
  {
    var added := fromCookies + fromStorage;
    forall i | 0 <= i < |added|
      ensures added[i] in {CookiesFile, LocalStorageFile, SessionStorageFile}
      ensures i > 0 ==> added[i] != CookiesFile
    {
      if i < |fromCookies| {
        assert added[i] == CookiesFile && i == 0;
      } else {
        assert added[i] == fromStorage[i - |fromCookies|];
      }
    }
  }

  /** Captures overwrite: after two successful cookie captures the file holds the second
      jar whole, whatever the first held. */
  lemma LastCookieCaptureWins(d: Disk, first: seq<Cookie>, second: seq<Cookie>)
    ensures SaveCookiesEffect(SaveCookiesEffect(d, first, {}), second, {}).files[CookiesFile]
      == CookieArray(second)
  {
  }

  // ---------------------------------------------------------------------------------
  // The recording app (index.js:16-101)
  // ---------------------------------------------------------------------------------

  /** The recorder's state: the default session's jar and the page's storage (both owned
      by the runtime), the file store, the window's URL and the registered handlers. */
  class App {
    var jar: seq<Cookie>
    var localStorage: map<string, string>
    var sessionStorage: map<string, string>
    var files: map<string, Document>
    var writes: seq<string>
    var loadedUrl: Option<string>     // `mainWindow.loadURL(url)`; None: no window yet
    var quitting: bool                // `app.quit()` was called
    var firstLoadPending: bool        // the `once('did-finish-load')` handler is armed
    var watchingJar: bool             // the `cookies.on('changed')` handler is registered

    function DiskState(): Disk
      reads this
    {
      Disk(files, writes)
    }

    constructor (jar: seq<Cookie>, localStorage: map<string, string>, sessionStorage: map<string, string>,
                 files: map<string, Document>)
      ensures this.jar == jar && this.localStorage == localStorage && this.sessionStorage == sessionStorage
      ensures DiskState() == Disk(files, [])
      ensures loadedUrl == None && !quitting && !firstLoadPending && !watchingJar
    {
      this.jar := jar;
      this.localStorage := localStorage;
      this.sessionStorage := sessionStorage;
      this.files := files;
      writes := [];
      loadedUrl := None;
      quitting := false;
      firstLoadPending := false;
      watchingJar := false;
    }

    /** The `ready` handler, proxy setup aside: an accepted target URL is loaded and both
        capture handlers are registered; any other URL quits and loads nothing. */
    method Ready(args: seq<string>)
      modifies this`loadedUrl, this`quitting, this`firstLoadPending, this`watchingJar
      ensures IsAcceptedUrl(TargetUrl(args)) ==>
        loadedUrl == Some(TargetUrl(args)) && firstLoadPending && watchingJar && quitting == old(quitting)
      ensures !IsAcceptedUrl(TargetUrl(args)) ==>
        quitting && loadedUrl == old(loadedUrl) &&
        firstLoadPending == old(firstLoadPending) && watchingJar == old(watchingJar)
    {
      var url := TargetUrl(args);
      if !IsAcceptedUrl(url) {
        quitting := true;
        return;
      }
      loadedUrl := Some(url);
      firstLoadPending := true;
      watchingJar := true;
    }

    /** `saveCookies`. */
    method SaveCookies(failing: set<Step>)
      modifies this`files, this`writes
      ensures DiskState() == SaveCookiesEffect(old(DiskState()), jar, failing)
    {
      if ReadJar in failing {
        return;
      }
      var cookies := jar;
      if WriteCookies in failing {
        return;
      }
      files := files[CookiesFile := CookieArray(cookies)];
      writes := writes + [CookiesFile];
    }

    /** `saveStorage`. */
    method SaveStorage(failing: set<Step>)
      modifies this`files, this`writes
      ensures DiskState() == SaveStorageEffect(old(DiskState()), localStorage, sessionStorage, failing)
    {
      if Snapshot in failing {
        return;
      }
      var local, session := localStorage, sessionStorage;
      if WriteLocal in failing {
        return;
      }
      files := files[LocalStorageFile := StorageObject(local)];
      writes := writes + [LocalStorageFile];
      if WriteSession in failing {
        return;
      }
      files := files[SessionStorageFile := StorageObject(session)];
      writes := writes + [SessionStorageFile];
    }

    /** A `did-finish-load` event: the first one after `Ready` captures cookies, then
        storage, and disarms the handler; later ones do nothing. */
    method PageLoaded(failing: set<Step>)
      modifies this`files, this`writes, this`firstLoadPending
      ensures old(firstLoadPending) ==>
        DiskState() == FirstLoadEffect(old(DiskState()), jar, localStorage, sessionStorage, failing)
      ensures !old(firstLoadPending) ==> DiskState() == old(DiskState())
      ensures !firstLoadPending
    {
      if !firstLoadPending {
        return;
      }
      firstLoadPending := false;
      SaveCookies(failing);
      SaveStorage(failing);
    }

    /** The runtime changes the jar to `after` (setting or removing `changed`) and then
        raises `changed`. The handler ignores which cookie changed, why, and whether it was
        removed: it re-saves the entire jar as it now is. */
    method CookieChanged(changed: Cookie, removed: bool, after: seq<Cookie>, failing: set<Step>)
      modifies this`jar, this`files, this`writes
      ensures jar == after
      ensures watchingJar ==> DiskState() == SaveCookiesEffect(old(DiskState()), after, failing)
      ensures !watchingJar ==> DiskState() == old(DiskState())
    {
      jar := after;
      if watchingJar {
        SaveCookies(failing);
      }
    }
  }
}
