/** The two upstream lookups of the frame handler (app/frames/route.tsx,
    `fetchUserData` for the profile and `fetchMoxieData` for the earnings),
    with the transport abstracted to its outcome, and the defaulting that
    turns the first `Social` record of the profile lookup into the handler's
    `UserData`. */
module Lookups {
  import opened Wrappers
  import opened JsValues

  /** The `socialCapital` object of a `Social` record. The score is kept as
      the text `toFixed(2)` makes of it. */
  datatype SocialCapital = SocialCapital(
    socialCapitalScore: Option<string>,
    socialCapitalRank: Option<int>
  )

  /** One `Social` record of the profile lookup; every field may be missing. */
  datatype Social = Social(
    profileDisplayName: Option<string>,
    profileName: Option<string>,
    userId: Option<string>,
    socialCapital: Option<SocialCapital>,
    isFarcasterPowerUser: Option<bool>,
    extraSmall: Option<string>,       // profileImageContentValue?.image?.extraSmall
    profileImage: Option<string>
  )

  /** The rank field holds the upstream number, or the text "N/A". */
  datatype RankValue = RankNumber(n: int) | RankText(text: string)

  datatype UserData = UserData(
    name: string,
    username: string,
    fid: string,
    socialCapitalScore: string,
    socialCapitalRank: RankValue,
    profileDisplayName: string,
    isPowerUser: bool,
    profileImageUrl: string
  )

  /** The three earnings amounts of the earnings lookup. */
  datatype MoxieData = MoxieData(today: string, weekly: string, lifetime: string)

  /** What an upstream call comes to: a response whose status is not OK, a
      rejection thrown while fetching or reading the body (its message), or
      the parsed body. */
  datatype Upstream<T> = HttpError(status: int) | Rejected(message: string) | Body(body: T)

  /** The profile body reduced to `userData.Socials.Social` (missing or not). */
  type ProfileResponse = Upstream<Option<seq<Social>>>
  type MoxieResponse = Upstream<MoxieData>

  const NoUserData: string := "No user data found"
  const NotAvailable: string := "N/A"

  function AirstackHttpError(status: int): string {
    "Airstack HTTP error! status: " + IntToString(status)
  }

  function MoxieHttpError(status: int): string {
    "Moxie HTTP error! status: " + IntToString(status)
  }

  function ScoreOf(social: Social): Option<string> {
    if social.socialCapital.Some? then social.socialCapital.value.socialCapitalScore else None
  }

  function RankOf(social: Social): Option<int> {
    if social.socialCapital.Some? then social.socialCapital.value.socialCapitalRank else None
  }

  /** The `UserData` literal: each field takes the first truthy upstream
      value of its chain, else a fixed default. */
  function BuildUserData(social: Social): (u: UserData)
    ensures u.name == FirstTruthy([social.profileDisplayName, social.profileName]).GetOr("Unknown")
    ensures u.username == if Truthy(social.profileName) then social.profileName.value else "unknown"
    ensures u.fid == if Truthy(social.userId) then social.userId.value else NotAvailable
    ensures u.profileDisplayName == if Truthy(social.profileDisplayName) then social.profileDisplayName.value else NotAvailable
    ensures u.socialCapitalScore == if Truthy(ScoreOf(social)) then ScoreOf(social).value else NotAvailable
    ensures u.socialCapitalRank == if RankOf(social).Some? && RankOf(social).value != 0
                                   then RankNumber(RankOf(social).value) else RankText(NotAvailable)
    ensures u.isPowerUser <==> social.isFarcasterPowerUser == Some(true)
    ensures u.profileImageUrl == FirstTruthy([social.extraSmall, social.profileImage]).GetOr("")
    ensures u.name != "" && u.username != "" && u.fid != "" && u.profileDisplayName != "" && u.socialCapitalScore != ""
  {
    OrChainIsFirstTruthy(social.profileDisplayName, social.profileName, "Unknown");
    OrChainIsFirstTruthy(social.extraSmall, social.profileImage, "");
    var rank := RankOf(social);
    UserData(
      name := Or(social.profileDisplayName, Or(social.profileName, "Unknown")),
      username := Or(social.profileName, "unknown"),
      fid := Or(social.userId, NotAvailable),
      socialCapitalScore := Or(ScoreOf(social), NotAvailable),
      socialCapitalRank := if rank.Some? && rank.value != 0 then RankNumber(rank.value) else RankText(NotAvailable),
      profileDisplayName := Or(social.profileDisplayName, NotAvailable),
      isPowerUser := social.isFarcasterPowerUser.Some? && social.isFarcasterPowerUser.value,
      profileImageUrl := Or(social.extraSmall, Or(social.profileImage, ""))
    )
  }

  /** What `fetchUserData` makes of the profile lookup: the record built from
      the first `Social`, or the message of what it threw. */
  function ProfileResult(resp: ProfileResponse): (r: Result<UserData, string>)
    ensures r.Success? <==> resp.Body? && resp.body.Some? && resp.body.value != []
    ensures r.Success? ==> r.value == BuildUserData(resp.body.value[0])
    ensures resp.Body? && r.Failure? ==> r.error == NoUserData
    ensures resp.HttpError? ==> r.error == AirstackHttpError(resp.status)
    ensures resp.Rejected? ==> r == Failure(resp.message)
  {
    match resp
    case HttpError(status) => Failure(AirstackHttpError(status))
    case Rejected(message) => Failure(message)
    case Body(socials) =>
      if socials.Some? && |socials.value| > 0 then Success(BuildUserData(socials.value[0]))
      else Failure(NoUserData)
  }

  /** What `fetchMoxieData` makes of the earnings lookup. */
  function MoxieResult(resp: MoxieResponse): (r: Result<MoxieData, string>)
    ensures r.Success? <==> resp.Body?
    ensures r.Success? ==> r.value == resp.body
    ensures resp.HttpError? ==> r.error == MoxieHttpError(resp.status)
    ensures resp.Rejected? ==> r == Failure(resp.message)
  {
    match resp
    case HttpError(status) => Failure(MoxieHttpError(status))
    case Rejected(message) => Failure(message)
    case Body(data) => Success(data)
  }

  /** A failure the handler raises itself (a bad status, an empty list) always
      leaves a non-empty message; only a rejection can carry an empty one. */
  lemma OwnFailuresHaveMessages(p: ProfileResponse, m: MoxieResponse)
    ensures ProfileResult(p).Failure? && !p.Rejected? ==> ProfileResult(p).error != ""
    ensures MoxieResult(m).Failure? && !m.Rejected? ==> MoxieResult(m).error != ""
  {
  }

  /** Only the first record matters: records after it never change the result. */
  lemma OnlyFirstSocialCounts(first: Social, rest1: seq<Social>, rest2: seq<Social>)
    ensures ProfileResult(Body(Some([first] + rest1))) == ProfileResult(Body(Some([first] + rest2)))
    ensures ProfileResult(Body(Some([first] + rest1))) == Success(BuildUserData(first))
  {
  }
}
