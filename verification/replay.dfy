/** Recording followed by replay: the cookie file the recorder writes is the file the
    restorer reads when it is given that path as its first argument. */
module Replay {
  import opened SessionData
  import Recorder
  import Restorer

  /** A jar captured without failure and then replayed from the cookies file is attempted
      cookie by cookie, in jar order, each with the details built from that cookie,
      provided every cookie has a domain (as every cookie Electron reports does). */
  lemma CapturedJarIsReplayedInOrder(d: Recorder.Disk, jar: seq<Cookie>)
    requires forall i :: 0 <= i < |jar| ==> jar[i].domain.Some?
    ensures var plan := Restorer.LoadPlan(Recorder.CookiesFile, Recorder.SaveCookiesEffect(d, jar, {}).files);
      |plan| == |jar| &&
      forall i :: 0 <= i < |jar| ==> Restorer.BuildDetails(jar[i]) == Restorer.Ok(plan[i])
  {
    var files := Recorder.SaveCookiesEffect(d, jar, {}).files;
    assert files[Recorder.CookiesFile] == CookieArray(jar);
    Restorer.LoadAttemptsEveryWellFormedCookie(Recorder.CookiesFile, files);
  }

  /** Replaying a freshly captured jar into a browser whose runtime refuses nothing leaves
      that browser's jar holding one set of details per captured cookie, in jar order,
      and the window is created and navigated only after the last of them. */
  lemma CapturedJarFillsFreshJar(d: Recorder.Disk, jar: seq<Cookie>, url: string)
    requires forall i :: 0 <= i < |jar| ==> jar[i].domain.Some?
    ensures var files := Recorder.SaveCookiesEffect(d, jar, {}).files;
      var plan := Restorer.LoadPlan(Recorder.CookiesFile, files);
      Restorer.Accepted(plan, {}) == plan && |plan| == |jar| &&
      Restorer.ReadyTrace([Recorder.CookiesFile, url], files, {}) ==
        Restorer.AttemptLog(plan, {}) + [Restorer.WindowCreated, Restorer.Navigated(url)]
  {
    var files := Recorder.SaveCookiesEffect(d, jar, {}).files;
    var plan := Restorer.LoadPlan(Recorder.CookiesFile, files);
    CapturedJarIsReplayedInOrder(d, jar);
    Restorer.NothingRefusedAddsAll(plan, {});
  }
}
