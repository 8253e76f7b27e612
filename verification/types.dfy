/** The records the Linkr application passes around: a user profile, the
    match record the matching service returns, the pricing package, and
    the combined result the match view shows. Every record is an immutable
    value, so an operation that "updates" a profile builds a new one. */
module Types {

  datatype Option<+T> = None | Some(value: T)

  /** Subscription length of a pricing package. */
  datatype PlanDuration = Month | Quarter | Year

  /** A user's networking profile. Numbers are unbounded integers. */
  datatype UserProfile = UserProfile(
    id: string,
    name: string,
    avatar: string,
    slogan: string,
    role: string,
    industry: string,
    tags: seq<string>,
    solving: string,
    resources: string,
    needs: string,
    location: string,
    completeness: int,
    isPro: bool,
    isAdmin: bool,
    matchCount: int,
    viewCount: int,
    requestCount: int,
    expiryDate: Option<string>,
    phone: string,
    email: string,
    linkedin: string
  )

  /** One scored reference to a profile, as returned by the matching service. */
  datatype MatchResult = MatchResult(userId: string, score: int, reasons: seq<string>)

  /** A static pricing tier. */
  datatype Package = Package(
    id: string,
    name: string,
    price: int,
    duration: PlanDuration,
    dailyCost: string,
    recommended: bool,
    description: string
  )

  /** A match record spread together with the profile it refers to. */
  datatype Combined = Combined(userId: string, score: int, reasons: seq<string>, user: UserProfile)
  {
    /** The match record this entry was built from. */
    function Record(): MatchResult {
      MatchResult(userId, score, reasons)
    }
  }
}
