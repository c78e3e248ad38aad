/** The replay side (index2.js): `loadCookies` reads a saved cookie file and pushes every
    cookie into the jar of a fresh session partition, and the `ready` handler awaits it
    before it creates the window and navigates. */
module Restorer {
  import opened SessionData

  /** The argument handed to `session.cookies.set`. It has no `domain` and no `sameSite`
      field: the domain survives only as the host of `url`. */
  datatype CookieDetails = CookieDetails(
    url: string,
    name: string,
    value: string,
    path: Option<string>,
    secure: Option<bool>,
    httpOnly: Option<bool>,
    expirationDate: Option<int>)

  /** Why `loadCookies` leaves its loop early. Each one is an exception that reaches the
      outer catch, which swallows it. */
  datatype Failure =
    | SyntaxError    // JSON.parse rejects the file
    | NotIterable    // the file parses to something `for ... of` cannot walk
    | DomainMissing  // `cookie.domain.replace` on a cookie without a domain

  datatype Result<T> = Ok(value: T) | Err(failure: Failure)

  /** What the restoring process does, in order, as seen from outside. */
  datatype Event =
    | SetAttempt(details: CookieDetails, accepted: bool)  // one `cookies.set` call and its outcome
    | WindowCreated                                        // `new BrowserWindow`
    | Navigated(url: string)                               // `mainWindow.loadURL`
    | Quit                                                 // `app.quit()`

  // ---------------------------------------------------------------------------------
  // Building the details of one cookie (index2.js:19-27)
  // ---------------------------------------------------------------------------------

  /** `cookie.secure ? 'https' : 'http'`: only a secure flag that is present and true is truthy. */
  function Scheme(secure: Option<bool>): (scheme: string)
    ensures scheme == "https" <==> secure == Some(true)
    ensures scheme == "http" <==> secure != Some(true)
  {
    if secure == Some(true) then "https" else "http"
  }

  /** `domain.replace(/^\./, '')`: the pattern is anchored and not global, so at most one
      leading dot goes and every other character stays. */
  function StripLeadingDot(domain: string): (host: string)
    ensures |domain| > 0 && domain[0] == '.' ==> domain == "." + host
    ensures |domain| == 0 || domain[0] != '.' ==> host == domain
  {
    if |domain| > 0 && domain[0] == '.' then domain[1..] else domain
  }

  /** `${cookie.path}`: a missing path is rendered as the text "undefined". */
  function PathText(path: Option<string>): (text: string)
    ensures path.Some? ==> text == path.value
    ensures path.None? ==> text == "undefined"
  {
    match path
    case Some(p) => p
    case None => "undefined"
  }

  /** Reads a URL back: whether it is an https URL, and what follows the "://". */
  function SplitUrl(url: string): Option<(bool, string)>
  {
    if "https://" <= url then Some((true, url[8..]))
    else if "http://" <= url then Some((false, url[7..]))
    else None
  }

  lemma SplitUrlOfScheme(secure: Option<bool>, rest: string)
    ensures SplitUrl(Scheme(secure) + "://" + rest) == Some((secure == Some(true), rest))
  {
    var url := Scheme(secure) + "://" + rest;
    if secure == Some(true) {
      assert url == "https://" + rest;
      assert url[..8] == "https://";
      assert url[8..] == rest;
    } else {
      assert url == "http://" + rest;
      assert url[4] == ':';
      assert url[..7] == "http://";
      assert url[7..] == rest;
    }
  }

  /** The URL the cookie is set for. Reading it back gives the secure flag as the scheme,
      and after "://" the domain with one leading dot removed, followed by the path.
      Without a domain there is no URL: `replace` is called on undefined. */
  function InjectionUrl(c: Cookie): (url: Option<string>)
    ensures url.Some? <==> c.domain.Some?
    ensures url.Some? ==>
      SplitUrl(url.value) == Some((c.secure == Some(true), StripLeadingDot(c.domain.value) + PathText(c.path)))
  {
    match c.domain
    case None => None
    case Some(domain) =>
      var rest := StripLeadingDot(domain) + PathText(c.path);
      SplitUrlOfScheme(c.secure, rest);
      assert Scheme(c.secure) + "://" + StripLeadingDot(domain) + PathText(c.path)
          == Scheme(c.secure) + "://" + rest;
      Some(Scheme(c.secure) + "://" + StripLeadingDot(domain) + PathText(c.path))
  }

  /** The `cookieDetails` object literal. Building it fails exactly when the cookie has no
      domain; otherwise the URL is the injection URL and the other six fields are copied
      unchanged. */
  function BuildDetails(c: Cookie): (r: Result<CookieDetails>)
    ensures r.Err? <==> c.domain.None?
    ensures r.Err? ==> r.failure == DomainMissing
    ensures r.Ok? ==> InjectionUrl(c) == Some(r.value.url)
    ensures r.Ok? ==> r.value.name == c.name && r.value.value == c.value && r.value.path == c.path
    ensures r.Ok? ==> r.value.secure == c.secure && r.value.httpOnly == c.httpOnly
    ensures r.Ok? ==> r.value.expirationDate == c.expirationDate
  {
    match InjectionUrl(c)
    case None => Err(DomainMissing)
    case Some(url) =>
      Ok(CookieDetails(url, c.name, c.value, c.path, c.secure, c.httpOnly, c.expirationDate))
  }

  /** Neither `sameSite`, `hostOnly` nor `session` reaches the jar, and the domain reaches
      it only through its dot-stripped host: two cookies that agree on everything else
      yield the same details. */
  lemma DetailsForgetDomainAndSameSite(c: Cookie, c': Cookie)
    requires c.name == c'.name && c.value == c'.value && c.path == c'.path
    requires c.secure == c'.secure && c.httpOnly == c'.httpOnly
    requires c.expirationDate == c'.expirationDate
    requires c.domain.Some? && c'.domain.Some?
    requires StripLeadingDot(c.domain.value) == StripLeadingDot(c'.domain.value)
    ensures BuildDetails(c) == BuildDetails(c')
  {
  }

  // ---------------------------------------------------------------------------------
  // What loadCookies attempts (index2.js:9-20, 38-40)
  // ---------------------------------------------------------------------------------

  /** `JSON.parse(fs.readFileSync(cookieFile))` followed by the iteration the loop needs. */
  function ParseCookieFile(doc: Document): (r: Result<seq<Cookie>>)
    ensures doc.CookieArray? ==> r == Ok(doc.cookies)
    ensures doc.StorageObject? ==> r == Err(NotIterable)
    ensures doc.Unparseable? ==> r == Err(SyntaxError)
  {
    match doc
    case CookieArray(cookies) => Ok(cookies)
    case StorageObject(_) => Err(NotIterable)
    case Unparseable => Err(SyntaxError)
  }

  /** The details the loop gets to build: those of the cookies before the first one whose
      details cannot be built, in file order. */
  function BuildAll(cookies: seq<Cookie>): (built: seq<CookieDetails>)
    ensures |built| <= |cookies|
    ensures forall i :: 0 <= i < |built| ==> BuildDetails(cookies[i]) == Ok(built[i])
    ensures |built| < |cookies| ==> BuildDetails(cookies[|built|]).Err?
  {
    if cookies == [] then []
    else match BuildDetails(cookies[0])
      case Err(_) => []
      case Ok(d) =>
        var rest := BuildAll(cookies[1..]);
        PrependBuilt(cookies, d, rest);
        [d] + rest
  }

  /** `built` holds the details of the first |built| cookies. */
  ghost predicate BuiltPrefix(cookies: seq<Cookie>, built: seq<CookieDetails>)
  {
    |built| <= |cookies| && forall j :: 0 <= j < |built| ==> BuildDetails(cookies[j]) == Ok(built[j])
  }

  /** The details of the first cookie followed by a built prefix of the others are a
      built prefix of the file, and the cookie after them is the one after the tail's. */
  lemma PrependBuilt(cookies: seq<Cookie>, d: CookieDetails, rest: seq<CookieDetails>)
    requires cookies != [] && BuildDetails(cookies[0]) == Ok(d)
    requires |rest| <= |cookies| - 1
    requires forall i :: 0 <= i < |rest| ==> BuildDetails(cookies[1..][i]) == Ok(rest[i])
    ensures BuiltPrefix(cookies, [d] + rest)
    ensures |rest| < |cookies| - 1 ==> cookies[1..][|rest|] == cookies[|[d] + rest|]
  {
    var built := [d] + rest;
    forall j | 0 < j < |built|
      ensures BuildDetails(cookies[j]) == Ok(built[j])
    {
      assert cookies[j] == cookies[1..][j - 1];
    }
  }

  lemma ExtendBuilt(cookies: seq<Cookie>, built: seq<CookieDetails>, d: CookieDetails)
    requires BuiltPrefix(cookies, built) && |built| < |cookies|
    requires BuildDetails(cookies[|built|]) == Ok(d)
    ensures BuiltPrefix(cookies, built + [d])
  {
  }

  /** A built prefix of a file without its first cookie is the tail of the built prefix
      of the whole file. */
  lemma BuiltPrefixOfTail(cookies: seq<Cookie>, built: seq<CookieDetails>)
    requires cookies != [] && built != []
    requires BuiltPrefix(cookies, built)
    ensures BuiltPrefix(cookies[1..], built[1..])
  {
    forall i | 0 <= i < |built| - 1
      ensures BuildDetails(cookies[1..][i]) == Ok(built[1..][i])
    {
      assert cookies[1..][i] == cookies[i + 1];
      assert built[1..][i] == built[i + 1];
    }
  }

  /** The three postconditions of BuildAll pin its result down. */
  lemma {:induction false} BuildAllUnique(cookies: seq<Cookie>, built: seq<CookieDetails>)
    requires BuiltPrefix(cookies, built)
    requires |built| < |cookies| ==> BuildDetails(cookies[|built|]).Err?
    ensures built == BuildAll(cookies)
  {
    if cookies != [] && built != [] {
      assert BuildDetails(cookies[0]) == Ok(built[0]);
      BuiltPrefixOfTail(cookies, built);
      assert |built[1..]| < |cookies[1..]| ==> cookies[1..][|built[1..]|] == cookies[|built|];
      BuildAllUnique(cookies[1..], built[1..]);
      assert built == [built[0]] + built[1..];
    }
  }

  /** The details `loadCookies` tries to set: none when the file is missing or cannot be
      walked, otherwise those of the cookies before the first one without a domain. */
  function LoadPlan(cookieFile: string, files: map<string, Document>): (plan: seq<CookieDetails>)
    ensures cookieFile !in files ==> plan == []
    ensures cookieFile in files && !files[cookieFile].CookieArray? ==> plan == []
    ensures cookieFile in files && files[cookieFile].CookieArray? ==>
      |plan| <= |files[cookieFile].cookies|
  {
    if cookieFile !in files then []
    else match ParseCookieFile(files[cookieFile])
      case Err(_) => []
      case Ok(cookies) => BuildAll(cookies)
  }

  /** When the k-th cookie of the file is the first without a domain, exactly the k cookies
      before it are attempted, each with its own details. */
  lemma LoadStopsAtFirstBadCookie(cookieFile: string, files: map<string, Document>, k: nat)
    requires cookieFile in files && files[cookieFile].CookieArray?
    requires k < |files[cookieFile].cookies|
    requires files[cookieFile].cookies[k].domain.None?
    requires forall j :: 0 <= j < k ==> files[cookieFile].cookies[j].domain.Some?
    ensures |LoadPlan(cookieFile, files)| == k
    ensures forall j :: 0 <= j < k ==>
      BuildDetails(files[cookieFile].cookies[j]) == Ok(LoadPlan(cookieFile, files)[j])
  {
    var cookies := files[cookieFile].cookies;
    var plan := LoadPlan(cookieFile, files);
    assert plan == BuildAll(cookies);
  }

  /** When every cookie of the file has a domain, every cookie is attempted, in file order. */
  lemma LoadAttemptsEveryWellFormedCookie(cookieFile: string, files: map<string, Document>)
    requires cookieFile in files && files[cookieFile].CookieArray?
    requires forall j :: 0 <= j < |files[cookieFile].cookies| ==> files[cookieFile].cookies[j].domain.Some?
    ensures |LoadPlan(cookieFile, files)| == |files[cookieFile].cookies|
    ensures forall j :: 0 <= j < |files[cookieFile].cookies| ==>
      BuildDetails(files[cookieFile].cookies[j]) == Ok(LoadPlan(cookieFile, files)[j])
  {
    var cookies := files[cookieFile].cookies;
    var plan := LoadPlan(cookieFile, files);
    assert plan == BuildAll(cookies);
  }

  // ---------------------------------------------------------------------------------
  // What the attempts do to the jar (index2.js:29-34)
  // ---------------------------------------------------------------------------------

  /** Whether the jar takes the details of the i-th `set` attempt: the runtime refuses
      exactly the attempts whose positions are in `rejected`. */
  predicate Takes(rejected: set<nat>, i: nat)
  {
    i !in rejected
  }

  /** One `set` attempt per details, in order; the i-th is refused when i is in `rejected`. */
  function AttemptLog(ds: seq<CookieDetails>, rejected: set<nat>): (log: seq<Event>)
    ensures |log| == |ds|
  {
    if ds == [] then []
    else AttemptLog(ds[..|ds| - 1], rejected) + [SetAttempt(ds[|ds| - 1], Takes(rejected, |ds| - 1))]
  }

  /** The details the jar accepts, in the order they were attempted. */
  function Accepted(ds: seq<CookieDetails>, rejected: set<nat>): (added: seq<CookieDetails>)
    ensures |added| <= |ds|
  {
    if ds == [] then []
    else Accepted(ds[..|ds| - 1], rejected) + (if Takes(rejected, |ds| - 1) then [ds[|ds| - 1]] else [])
  }

  /** Each details gets exactly one attempt, at its own position: the log neither skips,
      repeats nor reorders, and a refusal does not end it. */
  lemma {:induction false} AttemptLogAt(ds: seq<CookieDetails>, rejected: set<nat>)
    ensures forall i :: 0 <= i < |ds| ==> AttemptLog(ds, rejected)[i] == SetAttempt(ds[i], Takes(rejected, i))
  {
    if ds != [] {
      var prefix := ds[..|ds| - 1];
      AttemptLogAt(prefix, rejected);
      assert forall i :: 0 <= i < |prefix| ==> prefix[i] == ds[i];
    }
  }

  /** The jar gains nothing but details it was asked to set. */
  lemma {:induction false} AcceptedComeFromAttempts(ds: seq<CookieDetails>, rejected: set<nat>)
    ensures forall d :: d in Accepted(ds, rejected) ==> d in ds
  {
    if ds != [] {
      var prefix := ds[..|ds| - 1];
      AcceptedComeFromAttempts(prefix, rejected);
      assert forall d :: d in prefix ==> d in ds;
    }
  }

  lemma AppendOneAttempt(ds: seq<CookieDetails>, d: CookieDetails, rejected: set<nat>)
    ensures AttemptLog(ds + [d], rejected) == AttemptLog(ds, rejected) + [SetAttempt(d, Takes(rejected, |ds|))]
    ensures Accepted(ds + [d], rejected) == Accepted(ds, rejected) + (if Takes(rejected, |ds|) then [d] else [])
  {
    assert (ds + [d])[..|ds|] == ds;
  }

  lemma Regroup<T>(a: seq<T>, b: seq<T>, c: seq<T>)
    ensures a + (b + c) == (a + b) + c
  {
  }

  /** The details of the accepted attempts of a log, in order. */
  function AcceptedIn(log: seq<Event>): seq<CookieDetails>
  {
    if log == [] then []
    else
      var e := log[|log| - 1];
      AcceptedIn(log[..|log| - 1]) + (if e.SetAttempt? && e.accepted then [e.details] else [])
  }

  /** The jar grows by exactly the details whose attempt the log records as accepted. */
  lemma {:induction false} JarGrowsByAcceptedAttempts(ds: seq<CookieDetails>, rejected: set<nat>)
    ensures Accepted(ds, rejected) == AcceptedIn(AttemptLog(ds, rejected))
  {
    if ds != [] {
      var prefix := ds[..|ds| - 1];
      JarGrowsByAcceptedAttempts(prefix, rejected);
      var log := AttemptLog(ds, rejected);
      assert log[..|log| - 1] == AttemptLog(prefix, rejected);
    }
  }

  /** A refused `set` does not keep any later cookie out: every details that is not
      itself refused ends up in the jar. */
  lemma {:induction false} AcceptedKeepsUnrefused(ds: seq<CookieDetails>, rejected: set<nat>, i: nat)
    requires i < |ds| && Takes(rejected, i)
    ensures ds[i] in Accepted(ds, rejected)
  {
    var prefix := ds[..|ds| - 1];
    if i < |ds| - 1 {
      AcceptedKeepsUnrefused(prefix, rejected, i);
      assert prefix[i] == ds[i];
    }
  }

  /** With no refusal, the jar gains every details, in order. */
  lemma {:induction false} NothingRefusedAddsAll(ds: seq<CookieDetails>, rejected: set<nat>)
    requires forall i :: 0 <= i < |ds| ==> Takes(rejected, i)
    ensures Accepted(ds, rejected) == ds
  {
    if ds != [] {
      var prefix := ds[..|ds| - 1];
      NothingRefusedAddsAll(prefix, rejected);
      assert ds == prefix + [ds[|ds| - 1]];
    }
  }

  // ---------------------------------------------------------------------------------
  // The `ready` handler (index2.js:43-89)
  // ---------------------------------------------------------------------------------

  /** What the `ready` handler does, in order: with fewer than two arguments it quits;
      otherwise it awaits every cookie attempt, then creates the window, then navigates. */
  function ReadyTrace(args: seq<string>, files: map<string, Document>, rejected: set<nat>): (t: seq<Event>)
    ensures |args| < 2 ==> t == [Quit]
    ensures |args| >= 2 ==>
      |t| == |LoadPlan(args[0], files)| + 2 &&
      t[|t| - 2] == WindowCreated && t[|t| - 1] == Navigated(args[1]) &&
      t[..|t| - 2] == AttemptLog(LoadPlan(args[0], files), rejected)
  {
    if |args| < 2 then [Quit]
    else AttemptLog(LoadPlan(args[0], files), rejected) + [WindowCreated, Navigated(args[1])]
  }

  /** Credentials before first navigation: every `set` attempt comes before every other
      step, the window is created just before the only navigation, which is to the second
      argument; with fewer than two arguments nothing is attempted and nothing loaded. */
  lemma CookiesBeforeNavigation(args: seq<string>, files: map<string, Document>, rejected: set<nat>)
    ensures var t := ReadyTrace(args, files, rejected);
      forall i, j :: 0 <= i < |t| && 0 <= j < |t| && t[i].SetAttempt? && !t[j].SetAttempt? ==> i < j
    ensures |args| < 2 ==> ReadyTrace(args, files, rejected) == [Quit]
    ensures |args| >= 2 ==>
      var t := ReadyTrace(args, files, rejected);
      |t| >= 2 && t[|t| - 2] == WindowCreated && t[|t| - 1] == Navigated(args[1]) &&
      forall i :: 0 <= i < |t| - 2 ==> t[i].SetAttempt?
  {
    var t := ReadyTrace(args, files, rejected);
    if |args| >= 2 {
      var plan := LoadPlan(args[0], files);
      var log := t[..|t| - 2];
      AttemptLogAt(plan, rejected);
      forall i | 0 <= i < |t| - 2
        ensures t[i].SetAttempt?
      {
        assert t[i] == log[i];
      }
      forall i, j | 0 <= i < |t| && 0 <= j < |t| && t[i].SetAttempt? && !t[j].SetAttempt?
        ensures i < j
      {
        assert i < |t| - 2 <= j;
      }
    }
  }

  /** The app's own state: the jar of the 'temporary-session' partition and the trace of
      what the process has done. */
  class Browser {
    var jar: seq<CookieDetails>
    var trace: seq<Event>

    constructor ()
      ensures jar == [] && trace == []
    {
      jar := [];
      trace := [];
    }

    /** `loadCookies(cookieFile, customSession)`: a missing file is a silent no-op; a file
        that does not parse to an array ends in the outer catch before any attempt. */
    method LoadCookies(cookieFile: string, files: map<string, Document>, rejected: set<nat>)
      modifies this
      ensures jar == old(jar) + Accepted(LoadPlan(cookieFile, files), rejected)
      ensures trace == old(trace) + AttemptLog(LoadPlan(cookieFile, files), rejected)
    {
      if cookieFile !in files {
        return;
      }
      var parsed := ParseCookieFile(files[cookieFile]);
      if parsed.Err? {
        return;
      }
      SetEach(parsed.value, rejected);
    }

    /** The `for ... of` loop of `loadCookies`: a refused `set` is caught inside the loop
        and the next cookie is tried; a cookie without a domain throws while its details
        are built, outside the inner try, and ends the loop. */
    method SetEach(cookies: seq<Cookie>, rejected: set<nat>)
      modifies this
      ensures jar == old(jar) + Accepted(BuildAll(cookies), rejected)
      ensures trace == old(trace) + AttemptLog(BuildAll(cookies), rejected)
    {
      ghost var built: seq<CookieDetails> := [];
      var i := 0;
      var thrown := false;
      while i < |cookies| && !thrown
        invariant 0 <= i <= |cookies|
        invariant |built| == i
        invariant BuiltPrefix(cookies, built)
        invariant thrown ==> i < |cookies| && BuildDetails(cookies[i]).Err?
        invariant jar == old(jar) + Accepted(built, rejected)
        invariant trace == old(trace) + AttemptLog(built, rejected)
        decreases |cookies| - i, if thrown then 0 else 1
      {
        var details := BuildDetails(cookies[i]);
        if details.Err? {
          thrown := true;  // the TypeError leaves the loop for the outer catch
        } else {
          AppendOneAttempt(built, details.value, rejected);
          ExtendBuilt(cookies, built, details.value);
          var accepted := Takes(rejected, i);
          Regroup(old(trace), AttemptLog(built, rejected), [SetAttempt(details.value, accepted)]);
          Regroup(old(jar), Accepted(built, rejected), if accepted then [details.value] else []);
          SetCookie(details.value, accepted);  // a refusal is caught by the inner try
          built := built + [details.value];
          i := i + 1;
        }
      }
      BuildAllUnique(cookies, built);
    }

    /** One `customSession.cookies.set(details)` call: the jar takes the details unless
        the runtime refuses them, and the attempt is recorded either way. */
    method SetCookie(details: CookieDetails, accepted: bool)
      modifies this
      ensures jar == old(jar) + (if accepted then [details] else [])
      ensures trace == old(trace) + [SetAttempt(details, accepted)]
    {
      trace := trace + [SetAttempt(details, accepted)];
      if accepted {
        jar := jar + [details];
      }
    }

    /** The `ready` handler, proxy setup aside. */
    method Ready(args: seq<string>, files: map<string, Document>, rejected: set<nat>)
      modifies this
      ensures |args| < 2 ==> jar == old(jar)
      ensures |args| >= 2 ==> jar == old(jar) + Accepted(LoadPlan(args[0], files), rejected)
      ensures trace == old(trace) + ReadyTrace(args, files, rejected)
    {
      if |args| < 2 {
        trace := trace + [Quit];
        return;
      }
      var cookieFile := args[0];
      var urlToLoad := args[1];
      LoadCookies(cookieFile, files, rejected);
      ghost var attempted := trace;
      trace := trace + [WindowCreated];
      trace := trace + [Navigated(urlToLoad)];
      assert trace == attempted + [WindowCreated, Navigated(urlToLoad)];
      Regroup(old(trace), AttemptLog(LoadPlan(cookieFile, files), rejected), [WindowCreated, Navigated(urlToLoad)]);
    }
  }
}
