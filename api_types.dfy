/** The wire records the components consume, and the failure values their queries and
    mutations can report. Every `number` that is a count becomes a `nat`; trust scores,
    fractions in [0, 1] on the wire, become exact `real`s. */
module ApiTypes {
  import opened Wrappers

  datatype LeaderboardStats = LeaderboardStats(
    totalInfluencers: nat,
    totalClaims: nat,
    averageTrustScore: real)

  datatype Trend = Up | Down

  datatype InfluencerListItem = InfluencerListItem(
    id: int,
    mainName: string,
    description: string,
    contentTags: seq<string>,
    trustScore: real,
    trend: Trend,
    totalFollowers: nat,
    verifiedClaims: nat)

  /** The error body the backend sends. The client only casts the response body to this
      shape, so every field may be missing. */
  datatype ApiError = ApiError(
    message: Option<string>,
    details: Option<string>,
    error: Option<string>,
    statusCode: Option<int>)

  datatype InfluencerVerifyResponse = InfluencerVerifyResponse(
    id: int,
    handle: string,
    mainName: string,
    description: string,
    aliases: seq<string>,
    contentTags: seq<string>,
    yearlyRevenueUsd: nat,
    totalFollowers: nat,
    lastVerified: string)

  /** One claim of the detail record; the journal lists arrive as arrays and may overlap. */
  datatype Claim = Claim(
    id: int,
    text: string,
    category: string,
    source: string,
    verificationStatus: string,
    journalsVerified: seq<string>,
    journalsQuestioned: seq<string>,
    journalsDebunked: seq<string>,
    firstDetectedAt: string)

  /** The detail record, limited to the fields the detail page reads. */
  datatype InfluencerDetail = InfluencerDetail(
    id: int,
    mainName: string,
    description: string,
    contentTags: seq<string>,
    trustScore: real,
    yearlyRevenueUsd: nat,
    totalFollowers: nat,
    claims: seq<Claim>)

  /** An HTTP response attached to a failed request: its status and its (cast) body. */
  datatype HttpResponse = HttpResponse(status: int, data: ApiError)

  /** What a rejected query or mutation holds: an `AxiosError` (with a response, or none
      when the request never got one), any other `Error` with its message, or a thrown
      value that is not an `Error` at all. */
  datatype ErrorValue =
    | Axios(response: Option<HttpResponse>)
    | PlainError(message: string)
    | Other

  /** The colour families the components choose between for a badge or a score. */
  datatype Palette = Green | Emerald | Yellow | Red

  /** A list item's tags as rendered: at most the first three, in their order. */
  function ShownTags(tags: seq<string>): (r: seq<string>)
    ensures |r| == if |tags| < 3 then |tags| else 3
    ensures r <= tags
  {
    if |tags| <= 3 then tags else tags[..3]
  }

  /** No string occurs twice (journal lists, badge rows). */
  predicate NoDuplicates(s: seq<string>) {
    forall i, j :: 0 <= i < j < |s| ==> s[i] != s[j]
  }
}
