/** What the frame handler sends back (app/frames/route.tsx, the share URL,
    the button list and the image choice): the score screen or the splash
    screen, a "Check your" post button, and a "Share" link button when a
    profile record is present. */
module Response {
  import opened Wrappers
  import opened JsValues
  import opened Lookups

  /** The two screens; the score screen renders the records it is given. */
  datatype Image = Splash | Score(user: Option<UserData>, earnings: Option<MoxieData>)

  datatype Action = Post | Link
  datatype Button = Button(action: Action, caption: string, target: string)

  datatype FrameResponse = FrameResponse(image: Image, buttons: seq<Button>)

  const ComposeUrl: string := "https://warpcast.com/~/compose?text="
  /** `encodeURIComponent` of the fixed text
      "Check your MOXIE STATS!!! Frame created by @tieubochet.eth"
      (both arms of the ternary give this text). */
  const ShareText: string := "Check%20your%20MOXIE%20STATS!!!%20Frame%20created%20by%20%40tieubochet.eth"
  const FrameUrl: string := "https://check-moxie-stats-v1.vercel.app/frames"
  const ShareBase: string := ComposeUrl + ShareText + "&embeds[]=" + FrameUrl

  const CheckLabel: string := "Check your"
  const ShareLabel: string := "Share"

  /** The compose link: the fixed base, extended by `?userfid=<fid>` exactly
      when the FID is truthy. */
  function ShareUrl(fid: Option<string>): (url: string)
    ensures |url| >= |ShareBase| && url[..|ShareBase|] == ShareBase
    ensures Truthy(fid) <==> |url| > |ShareBase|
    ensures Truthy(fid) ==> url[|ShareBase|..] == "?userfid=" + fid.value
  {
    ShareBase + (if Truthy(fid) then "?userfid=" + fid.value else "")
  }

  /** How `${fid}` renders a string-or-null. */
  function TemplateText(fid: Option<string>): (t: string)
    ensures fid.None? ==> t == "null"
    ensures fid.Some? ==> t == fid.value
  {
    match fid
    case None => "null"
    case Some(s) => s
  }

  /** The post button: back to the frame with the FID as `userfid`. */
  function CheckButton(appUrl: string, fid: Option<string>): Button {
    Button(Post, CheckLabel, appUrl + "?userfid=" + TemplateText(fid))
  }

  /** The button list as a function of the profile record alone. */
  function ButtonsFor(userData: Option<UserData>, fid: Option<string>, appUrl: string): (buttons: seq<Button>)
    ensures |buttons| == if userData.None? then 1 else 2
    ensures buttons[0] == Button(Post, CheckLabel, appUrl + "?userfid=" + TemplateText(fid))
    ensures |buttons| == 2 ==> buttons[1] == Button(Link, ShareLabel, ShareUrl(fid))
  {
    if userData.None? then [CheckButton(appUrl, fid)]
    else [CheckButton(appUrl, fid), Button(Link, ShareLabel, ShareUrl(fid))]
  }

  /** The handler's `buttons.push(...)` sequence. */
  method BuildButtons(userData: Option<UserData>, fid: Option<string>, appUrl: string) returns (buttons: seq<Button>)
    ensures buttons == ButtonsFor(userData, fid, appUrl)
  {
    var shareUrl := ShareUrl(fid);
    buttons := [];
    if userData.None? {
      buttons := buttons + [Button(Post, CheckLabel, appUrl + "?userfid=" + TemplateText(fid))];
    } else {
      buttons := buttons + [Button(Post, CheckLabel, appUrl + "?userfid=" + TemplateText(fid)),
                            Button(Link, ShareLabel, shareUrl)];
    }
  }

  /** `fid && !error ? <ScoreScreen /> : <SplashScreen />`. */
  function ImageFor(fid: Option<string>, error: Option<string>,
                    userData: Option<UserData>, moxieData: Option<MoxieData>): (img: Image)
    ensures img.Score? <==> Truthy(fid) && !Truthy(error)
    ensures img.Score? ==> img.user == userData && img.earnings == moxieData
  {
    if Truthy(fid) && !Truthy(error) then Score(userData, moxieData) else Splash
  }

  /** The share link carries the FID exactly when the check button's target
      carries it non-empty; an unresolved FID shows as "null" only in the
      check target. */
  lemma TargetsAgreeOnFid(appUrl: string, fid: Option<string>)
    ensures Truthy(fid) ==>
      CheckButton(appUrl, fid).target == appUrl + "?userfid=" + fid.value &&
      ShareUrl(fid) == ShareBase + "?userfid=" + fid.value
    ensures fid.None? ==> CheckButton(appUrl, fid).target == appUrl + "?userfid=null" && ShareUrl(fid) == ShareBase
    ensures fid == Some("") ==> CheckButton(appUrl, fid).target == appUrl + "?userfid=" && ShareUrl(fid) == ShareBase
  {
  }
}
