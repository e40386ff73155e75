/** The frame handler of app/frames/route.tsx end to end: resolve the FID,
    run the two lookups when it is truthy, and choose the image and buttons
    from what the lookups left in the variables the handler's closures
    share. The lookups' network traffic is replaced by their outcomes, and
    `Promise.all`'s scheduling by the order in which the two settle. */
module FrameHandler {
  import opened Wrappers
  import opened JsValues
  import opened FidResolution
  import opened Lookups
  import opened Response

  /** The variables `userData`, `moxieData` and `error` the closures write. */
  datatype Slots = Slots(userData: Option<UserData>, moxieData: Option<MoxieData>, error: Option<string>)

  const Initial: Slots := Slots(None, None, None)

  /** The write `fetchUserData` makes when it settles: its record, or the
      message of what it threw. */
  function AfterProfile(s: Slots, resp: ProfileResponse): Slots {
    match ProfileResult(resp)
    case Success(u) => s.(userData := Some(u))
    case Failure(e) => s.(error := Some(e))
  }

  /** The write `fetchMoxieData` makes when it settles. */
  function AfterMoxie(s: Slots, resp: MoxieResponse): Slots {
    match MoxieResult(resp)
    case Success(d) => s.(moxieData := Some(d))
    case Failure(e) => s.(error := Some(e))
  }

  /** Both lookups settled, the profile lookup first or second. */
  function Joined(s: Slots, p: ProfileResponse, m: MoxieResponse, profileSettlesFirst: bool): Slots {
    if profileSettlesFirst then AfterMoxie(AfterProfile(s, p), m) else AfterProfile(AfterMoxie(s, m), p)
  }

  /** `shouldFetchData`: a truthy FID that no present record already holds. */
  predicate ShouldFetch(fid: Option<string>, userData: Option<UserData>)
    ensures ShouldFetch(fid, userData) ==> Truthy(fid)
    ensures userData.None? ==> (ShouldFetch(fid, userData) <==> Truthy(fid))
    ensures userData.Some? && fid.Some? && userData.value.fid == fid.value ==> !ShouldFetch(fid, userData)
  {
    Truthy(fid) && (userData.None? || userData.value.fid != fid.value)
  }

  /** The variables after the fetch step of one request. */
  function Fetched(fid: Option<string>, p: ProfileResponse, m: MoxieResponse, profileSettlesFirst: bool): (s: Slots)
    ensures !Truthy(fid) ==> s == Initial
    ensures Truthy(fid) ==> s.userData == ProfileResult(p).ToOption() && s.moxieData == MoxieResult(m).ToOption()
    ensures Truthy(fid) ==> (s.error.Some? <==> ProfileResult(p).Failure? || MoxieResult(m).Failure?)
  {
    if Truthy(fid) then Joined(Initial, p, m, profileSettlesFirst) else Initial
  }

  /** The response of one request. */
  function Respond(ctx: Context, p: ProfileResponse, m: MoxieResponse,
                   profileSettlesFirst: bool, appUrl: string): FrameResponse {
    var fid := ResolvedFid(ctx);
    var s := Fetched(fid, p, m, profileSettlesFirst);
    FrameResponse(ImageFor(fid, s.error, s.userData, s.moxieData), ButtonsFor(s.userData, fid, appUrl))
  }

  /** The handler's local variables that its two fetch closures capture and
      assign. */
  class HandlerState {
    var userData: Option<UserData>
    var moxieData: Option<MoxieData>
    var error: Option<string>

    function Captured(): Slots
      reads this
    {
      Slots(userData, moxieData, error)
    }

    constructor ()
      ensures Captured() == Initial
    {
      userData, moxieData, error := None, None, None;
    }

    /** `fetchUserData` from the moment its lookup settles. */
    method FetchUserData(resp: ProfileResponse)
      modifies this
      ensures Captured() == AfterProfile(old(Captured()), resp)
      ensures moxieData == old(moxieData)
    {
      match resp {
        case HttpError(status) =>
          error := Some(AirstackHttpError(status));
        case Rejected(message) =>
          error := Some(message);
        case Body(socials) =>
          if socials.Some? && |socials.value| > 0 {
            userData := Some(BuildUserData(socials.value[0]));
          } else {
            error := Some(NoUserData);
          }
      }
    }

    /** `fetchMoxieData` from the moment its lookup settles. */
    method FetchMoxieData(resp: MoxieResponse)
      modifies this
      ensures Captured() == AfterMoxie(old(Captured()), resp)
      ensures userData == old(userData)
    {
      match resp {
        case HttpError(status) =>
          error := Some(MoxieHttpError(status));
        case Rejected(message) =>
          error := Some(message);
        case Body(data) =>
          moxieData := Some(data);
      }
    }

    /** `await Promise.all([fetchUserData(fid), fetchMoxieData(fid)])`: each
        closure writes once, after its own lookup settles. */
    method FetchBoth(p: ProfileResponse, m: MoxieResponse, profileSettlesFirst: bool)
      modifies this
      ensures Captured() == Joined(old(Captured()), p, m, profileSettlesFirst)
    {
      if profileSettlesFirst {
        FetchUserData(p);
        FetchMoxieData(m);
      } else {
        FetchMoxieData(m);
        FetchUserData(p);
      }
    }
  }

  /** The handler, from the frame context and the outcomes of the two lookups
      to the response. */
  method HandleFrame(ctx: Context, p: ProfileResponse, m: MoxieResponse,
                     profileSettlesFirst: bool, appUrl: string) returns (resp: FrameResponse)
    ensures resp == Respond(ctx, p, m, profileSettlesFirst, appUrl)
  {
    var fid := ResolveFid(ctx);
    var state := new HandlerState();
    if ShouldFetch(fid, state.userData) && Truthy(fid) {
      state.FetchBoth(p, m, profileSettlesFirst);
    }
    var buttons := BuildButtons(state.userData, fid, appUrl);
    resp := FrameResponse(ImageFor(fid, state.error, state.userData, state.moxieData), buttons);
  }

  /** Before any lookup no record exists, so the guard reduces to the FID's
      truthiness: both lookups run for every truthy FID and none otherwise. */
  lemma ShouldFetchOnFreshState(fid: Option<string>)
    ensures ShouldFetch(fid, Initial.userData) <==> Truthy(fid)
  {
  }

  /** The guard skips a FID that the present record already holds. */
  lemma ShouldFetchSkipsHeldFid(fid: Option<string>, u: UserData)
    requires fid.Some? && u.fid == fid.value
    ensures !ShouldFetch(fid, Some(u))
  {
  }

  /** After both lookups, in either order, each record is present exactly when
      its own lookup succeeded, and then holds what it produced. */
  lemma JoinedRecords(p: ProfileResponse, m: MoxieResponse, profileSettlesFirst: bool)
    ensures Joined(Initial, p, m, profileSettlesFirst).userData == ProfileResult(p).ToOption()
    ensures Joined(Initial, p, m, profileSettlesFirst).moxieData == MoxieResult(m).ToOption()
  {
  }

  /** After both lookups, in either order, the error slot is set exactly when
      one of them failed; it holds the message of the one that settled last
      among those that failed. */
  lemma JoinedError(p: ProfileResponse, m: MoxieResponse, profileSettlesFirst: bool)
    ensures Joined(Initial, p, m, profileSettlesFirst).error.Some? <==>
      ProfileResult(p).Failure? || MoxieResult(m).Failure?
    ensures ProfileResult(p).Failure? && MoxieResult(m).Success? ==>
      Joined(Initial, p, m, profileSettlesFirst).error == Some(ProfileResult(p).error)
    ensures ProfileResult(p).Success? && MoxieResult(m).Failure? ==>
      Joined(Initial, p, m, profileSettlesFirst).error == Some(MoxieResult(m).error)
    ensures ProfileResult(p).Failure? && MoxieResult(m).Failure? ==>
      Joined(Initial, p, m, profileSettlesFirst).error ==
        Some(if profileSettlesFirst then MoxieResult(m).error else ProfileResult(p).error)
  {
  }

  /** A failing earnings lookup never clears a profile record, and a failing
      profile lookup never clears earnings. */
  lemma FailuresClearNothing(s: Slots, p: ProfileResponse, m: MoxieResponse)
    ensures AfterMoxie(s, m).userData == s.userData
    ensures AfterProfile(s, p).moxieData == s.moxieData
    ensures ProfileResult(p).Failure? ==> AfterProfile(s, p).userData == s.userData
    ensures MoxieResult(m).Failure? ==> AfterMoxie(s, m).moxieData == s.moxieData
  {
  }

  /** The two settle orders agree on both records and on whether an error was
      recorded; they agree on everything unless both lookups failed. */
  lemma JoinOrderIrrelevant(s: Slots, p: ProfileResponse, m: MoxieResponse)
    ensures Joined(s, p, m, true).userData == Joined(s, p, m, false).userData
    ensures Joined(s, p, m, true).moxieData == Joined(s, p, m, false).moxieData
    ensures Joined(s, p, m, true).error.Some? == Joined(s, p, m, false).error.Some?
    ensures ProfileResult(p).Success? || MoxieResult(m).Success? ==>
      Joined(s, p, m, true) == Joined(s, p, m, false)
  {
  }

  /** Without a truthy FID nothing is fetched: the response is the splash
      screen with the single check button, whatever the lookups would have
      returned. */
  lemma UnresolvedIgnoresLookups(ctx: Context, p: ProfileResponse, m: MoxieResponse,
                                 profileSettlesFirst: bool, appUrl: string)
    requires !Truthy(ResolvedFid(ctx))
    ensures Respond(ctx, p, m, profileSettlesFirst, appUrl) ==
      FrameResponse(Splash, [CheckButton(appUrl, ResolvedFid(ctx))])
  {
  }

  /** With no hint anywhere the response is the splash screen and a check
      button whose target ends in "?userfid=null". */
  lemma NoHintSplash(ctx: Context, p: ProfileResponse, m: MoxieResponse,
                     profileSettlesFirst: bool, appUrl: string)
    requires ctx.requesterFid.None? && ctx.url.None? && ctx.lastFid.None?
    ensures Respond(ctx, p, m, profileSettlesFirst, appUrl) ==
      FrameResponse(Splash, [Button(Post, CheckLabel, appUrl + "?userfid=null")])
  {
    NoHintNoFid(ctx);
    UnresolvedIgnoresLookups(ctx, p, m, profileSettlesFirst, appUrl);
    assert CheckButton(appUrl, None).target == appUrl + "?userfid=null";
  }

  /** The Share button is there exactly when the FID is truthy and the profile
      lookup succeeded, whatever the earnings lookup did. */
  lemma ShareIffProfile(ctx: Context, p: ProfileResponse, m: MoxieResponse,
                        profileSettlesFirst: bool, appUrl: string)
    ensures var r := Respond(ctx, p, m, profileSettlesFirst, appUrl);
      (|r.buttons| == 2 <==> Truthy(ResolvedFid(ctx)) && ProfileResult(p).Success?) &&
      (|r.buttons| == 2 ==> r.buttons[1] == Button(Link, ShareLabel, ShareUrl(ResolvedFid(ctx))))
  {
  }

  /** Rejections that carry a message. (The failures the handler raises itself
      always do; see Lookups.OwnFailuresHaveMessages.) */
  predicate MessagesNonEmpty(p: ProfileResponse, m: MoxieResponse) {
    (p.Rejected? ==> p.message != "") && (m.Rejected? ==> m.message != "")
  }

  /** When every failure carries a message, the score screen is shown exactly
      when the FID is truthy and both lookups succeeded, and it then shows both
      records. */
  lemma ScoreIffBothSucceed(ctx: Context, p: ProfileResponse, m: MoxieResponse,
                            profileSettlesFirst: bool, appUrl: string)
    requires MessagesNonEmpty(p, m)
    ensures var r := Respond(ctx, p, m, profileSettlesFirst, appUrl);
      (r.image.Score? <==> Truthy(ResolvedFid(ctx)) && ProfileResult(p).Success? && MoxieResult(m).Success?) &&
      (r.image.Score? ==> r.image.user.Some? && r.image.earnings.Some?)
  {
  }

  /** The outcome the split between image and buttons allows: the profile
      lookup succeeds, the earnings lookup fails, and the splash screen comes
      with the Share button. */
  lemma SplashWithShare(ctx: Context, p: ProfileResponse, m: MoxieResponse,
                        profileSettlesFirst: bool, appUrl: string)
    requires Truthy(ResolvedFid(ctx))
    requires ProfileResult(p).Success?
    requires MoxieResult(m).Failure? && MessagesNonEmpty(p, m)
    ensures var r := Respond(ctx, p, m, profileSettlesFirst, appUrl);
      r.image == Splash && |r.buttons| == 2 && r.buttons[1].caption == ShareLabel
  {
  }

  /** When every failure carries a message, the settle order of the two
      lookups does not change the response. */
  lemma ResponseOrderIrrelevant(ctx: Context, p: ProfileResponse, m: MoxieResponse, appUrl: string)
    requires MessagesNonEmpty(p, m)
    ensures Respond(ctx, p, m, true, appUrl) == Respond(ctx, p, m, false, appUrl)
  {
  }

  /** The image test is JavaScript truthiness of the error slot, not its
      presence: an earnings lookup rejected with an empty message still
      yields the score screen, with no earnings record. */
  lemma EmptyRejectionShowsScore(social: Social)
    ensures var ctx := Context(Some(7), None, None);
      var r := Respond(ctx, Body(Some([social])), Rejected(""), true, "https://app");
      r.image == Score(Some(BuildUserData(social)), None)
  {
  }

  /** With an empty rejection message the settle order decides the screen:
      the last failure's message is the one the image test sees. */
  lemma EmptyRejectionMakesOrderMatter()
    ensures var ctx := Context(Some(7), None, None);
      Respond(ctx, Rejected(""), HttpError(500), true, "https://app").image == Splash &&
      Respond(ctx, Rejected(""), HttpError(500), false, "https://app").image == Score(None, None)
  {
  }
}
