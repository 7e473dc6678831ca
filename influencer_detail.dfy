/** The influencer detail page: money and count formatting, the per-claim journal
    badges, the verified-claims stat, the claim status colour and the choice between
    the loading skeleton, the error panel and the content. */
module InfluencerDetailView {
  import opened Wrappers
  import opened Text
  import opened ApiTypes

  /** `text` is one-decimal fixed notation for `amount / unit`, rounded to the nearest tenth. */
  predicate DenotesTenths(text: string, amount: nat, unit: nat)
    requires unit > 0
  {
    IsTenthsText(text) &&
    var t := TenthsValue(text);
    (2 * t - 1) * unit <= 20 * amount < (2 * t + 1) * unit
  }

  lemma TenthsToStringDenotes(amount: nat, unit: nat)
    requires unit > 0
    ensures DenotesTenths(TenthsToString(Tenths(amount, unit)), amount, unit)
  {
    TenthsRoundTrip(Tenths(amount, unit));
  }

  /** `formatMoney`: millions with an "M" from one million up, thousands with a "K" below,
      even for amounts under a thousand. */
  function FormatMoney(amount: nat): (r: string)
    ensures |r| >= 5 && r[0] == '$'
    ensures r[|r| - 1] == 'M' <==> amount >= 1000000
    ensures r[|r| - 1] == 'K' <==> amount < 1000000
    ensures DenotesTenths(r[1..|r| - 1], amount, if amount >= 1000000 then 1000000 else 1000)
  {
    var unit := if amount >= 1000000 then 1000000 else 1000;
    var digits := TenthsToString(Tenths(amount, unit));
    TenthsToStringDenotes(amount, unit);
    var r := "$" + digits + (if amount >= 1000000 then "M" else "K");
    assert r[1..|r| - 1] == digits;
    r
  }

  /** `formatNumber`: "M+" from one million, "K+" from one thousand, otherwise the plain
      decimal integer. */
  function FormatNumber(n: nat): (r: string)
    ensures n >= 1000000 <==> |r| >= 2 && r[|r| - 2..] == "M+"
    ensures 1000 <= n < 1000000 <==> |r| >= 2 && r[|r| - 2..] == "K+"
    ensures n < 1000 <==> AllDigits(r)
    ensures n < 1000 ==> IsDecimalOf(r, n)
    ensures n >= 1000 ==> DenotesTenths(r[..|r| - 2], n, if n >= 1000000 then 1000000 else 1000)
  {
    if n >= 1000 then
      var unit := if n >= 1000000 then 1000000 else 1000;
      var digits := TenthsToString(Tenths(n, unit));
      TenthsToStringDenotes(n, unit);
      var r := digits + (if n >= 1000000 then "M+" else "K+");
      assert r[..|r| - 2] == digits;
      assert r[|r| - 2..] == (if n >= 1000000 then "M+" else "K+");
      assert !IsDigit(r[|r| - 1]);
      r
    else
      NatToStringIsDecimalOf(n);
      NatToString(n)
  }

  /** The index of the first occurrence of `x` in `s`. */
  function FirstIndex(s: seq<string>, x: string): (k: nat)
    requires x in s
    ensures k < |s| && s[k] == x && x !in s[..k]
  {
    var init := s[..|s| - 1];
    if x in init then
      var k := FirstIndex(init, x);
      assert s[..k] == init[..k];
      k
    else
      assert s[..|s| - 1] == init;
      |s| - 1
  }

  /** Every element of `r` occurs in `s`, and `r` lists them in the order of their
      first occurrence in `s`. */
  ghost predicate InFirstSeenOrder(r: seq<string>, s: seq<string>) {
    forall i, j :: 0 <= i < j < |r| ==> r[i] in s && r[j] in s && FirstIndex(s, r[i]) < FirstIndex(s, r[j])
  }

  /** `[...new Set(s)]`: a `Set` keeps the first insertion of each value, in insertion order. */
  function Dedup(s: seq<string>): (r: seq<string>)
    ensures forall x :: x in r <==> x in s
    ensures NoDuplicates(r)
    ensures InFirstSeenOrder(r, s)
  {
    if s == [] then []
    else
      var init := s[..|s| - 1];
      var last := s[|s| - 1];
      var p := Dedup(init);
      assert s == init + [last];
      FirstIndexExtend(init, last);
      if last in p then p else p + [last]
  }

  /** Appending an element leaves the first occurrence of everything already present. */
  lemma FirstIndexExtend(s: seq<string>, c: string)
    ensures forall x :: x in s ==> FirstIndex(s + [c], x) == FirstIndex(s, x)
    ensures c !in s ==> FirstIndex(s + [c], c) == |s|
  {
    forall x | x in s ensures FirstIndex(s + [c], x) == FirstIndex(s, x) {
      assert (s + [c])[..|s + [c]| - 1] == s;
    }
    assert (s + [c])[..|s + [c]| - 1] == s;
  }

  /** The journals a claim's badge row shows: each journal of the three lists once, in
      first-seen order across verified, then questioned, then debunked. */
  function BadgeUnion(c: Claim): (r: seq<string>)
    ensures forall j :: j in r <==> j in c.journalsVerified || j in c.journalsQuestioned || j in c.journalsDebunked
    ensures NoDuplicates(r)
    ensures InFirstSeenOrder(r, c.journalsVerified + c.journalsQuestioned + c.journalsDebunked)
  {
    Dedup(c.journalsVerified + c.journalsQuestioned + c.journalsDebunked)
  }

  datatype BadgeKind = VerifiedBadge | QuestionedBadge | DebunkedBadge | NoBadge

  /** The badge type of a journal: verified first, then questioned, then debunked. */
  function BadgeKindOf(c: Claim, journal: string): (k: BadgeKind)
    ensures k == VerifiedBadge <==> journal in c.journalsVerified
    ensures k == QuestionedBadge <==> journal !in c.journalsVerified && journal in c.journalsQuestioned
    ensures k == DebunkedBadge <==> journal !in c.journalsVerified && journal !in c.journalsQuestioned && journal in c.journalsDebunked
    ensures k == NoBadge <==> journal !in c.journalsVerified + c.journalsQuestioned + c.journalsDebunked
  {
    if journal in c.journalsVerified then VerifiedBadge
    else if journal in c.journalsQuestioned then QuestionedBadge
    else if journal in c.journalsDebunked then DebunkedBadge
    else NoBadge
  }

  datatype Badge = Badge(name: string, kind: BadgeKind)

  /** The badges of one claim: one per union member, in union order; the 'none' type never
      occurs, and a journal listed as verified is a verified badge whatever else lists it. */
  function ClaimBadges(c: Claim): (r: seq<Badge>)
    ensures |r| == |BadgeUnion(c)|
    ensures forall i :: 0 <= i < |r| ==> r[i].name == BadgeUnion(c)[i]
    // The next four clauses follow from the last one and BadgeKindOf's contract; they
    // spell out the precedence for callers.
    ensures forall i :: 0 <= i < |r| ==> r[i].kind != NoBadge
    ensures forall i :: 0 <= i < |r| && r[i].name in c.journalsVerified ==> r[i].kind == VerifiedBadge
    ensures forall i :: 0 <= i < |r| && r[i].name !in c.journalsVerified && r[i].name in c.journalsQuestioned ==>
      r[i].kind == QuestionedBadge
    ensures forall i :: 0 <= i < |r| && r[i].name !in c.journalsVerified && r[i].name !in c.journalsQuestioned ==>
      r[i].kind == DebunkedBadge
    ensures forall i :: 0 <= i < |r| ==> r[i].kind == BadgeKindOf(c, r[i].name)
  {
    var u := BadgeUnion(c);
    seq(|u|, i requires 0 <= i < |u| => Badge(u[i], BadgeKindOf(c, u[i])))
  }

  /** `claims.filter(c => c.verificationStatus === 'Verified').length`. */
  function CountVerified(claims: seq<Claim>): (n: nat)
    ensures n <= |claims|
  {
    if claims == [] then 0
    else CountVerified(claims[..|claims| - 1]) + (if claims[|claims| - 1].verificationStatus == "Verified" then 1 else 0)
  }

  ghost function VerifiedIndices(claims: seq<Claim>): set<nat> {
    set i: nat | i < |claims| && claims[i].verificationStatus == "Verified"
  }

  /** The Verified Claims stat is the number of claims whose status is 'Verified'. */
  lemma {:induction false} CountVerifiedIsVerifiedClaims(claims: seq<Claim>)
    ensures CountVerified(claims) == |VerifiedIndices(claims)|
  {
    if claims != [] {
      var n := |claims| - 1;
      CountVerifiedIsVerifiedClaims(claims[..n]);
      VerifiedIndicesOfLonger(claims);
    }
  }

  lemma VerifiedIndicesOfLonger(claims: seq<Claim>)
    requires claims != []
    ensures var n := |claims| - 1;
      VerifiedIndices(claims) ==
        VerifiedIndices(claims[..n]) + (if claims[n].verificationStatus == "Verified" then {n} else {})
  {
    var n := |claims| - 1;
    forall i: nat | i < n ensures claims[..n][i] == claims[i] { }
  }

  /** The colour of a claim's status pill. */
  function StatusColour(status: string): (p: Palette)
    ensures p == Emerald <==> status == "Verified"
    ensures p == Yellow <==> status == "Questionable"
    ensures p == Red <==> status != "Verified" && status != "Questionable"
  {
    if status == "Verified" then Emerald
    else if status == "Questionable" then Yellow
    else Red
  }

  /** The Verified Claims stat counts exactly the claims drawn with an emerald pill. */
  lemma VerifiedStatMatchesEmeraldPills(claims: seq<Claim>)
    ensures CountVerified(claims) == |set i: nat | i < |claims| && StatusColour(claims[i].verificationStatus) == Emerald|
  {
    CountVerifiedIsVerifiedClaims(claims);
    assert VerifiedIndices(claims) == set i: nat | i < |claims| && StatusColour(claims[i].verificationStatus) == Emerald;
  }

  datatype ClaimCard = ClaimCard(
    status: string,
    colour: Palette,
    category: string,
    text: string,
    source: string,
    badges: seq<Badge>)

  /** One claim card: the status pill with its colour, the claim's own text fields, and
      its badge row. */
  function ClaimCardOf(c: Claim): (card: ClaimCard)
    ensures card.status == c.verificationStatus
    ensures card.colour == StatusColour(c.verificationStatus)
    ensures card.colour == Emerald <==> c.verificationStatus == "Verified"
    ensures card.category == c.category && card.text == c.text && card.source == c.source
    ensures card.badges == ClaimBadges(c)
  {
    ClaimCard(c.verificationStatus, StatusColour(c.verificationStatus), c.category, c.text, c.source, ClaimBadges(c))
  }

  /** What the content view shows of a loaded record (the trust percentage is omitted). */
  datatype DetailPage = DetailPage(
    name: string,
    description: string,
    tags: seq<string>,
    revenue: string,
    verifiedClaims: string,
    followers: string,
    claims: seq<ClaimCard>)

  function DetailPageOf(d: InfluencerDetail): (p: DetailPage)
    ensures p.tags == d.contentTags && |p.claims| == |d.claims|
    ensures IsDecimalOf(p.verifiedClaims, |VerifiedIndices(d.claims)|)
    ensures p.name == d.mainName && p.description == d.description
    ensures p.revenue == FormatMoney(d.yearlyRevenueUsd) && p.followers == FormatNumber(d.totalFollowers)
    ensures forall i :: 0 <= i < |p.claims| ==> p.claims[i] == ClaimCardOf(d.claims[i])
    // Corollaries of the clause above and ClaimCardOf's contract.
    ensures forall i :: 0 <= i < |p.claims| ==> p.claims[i].status == d.claims[i].verificationStatus
    ensures forall i :: 0 <= i < |p.claims| ==>
      p.claims[i].colour == StatusColour(d.claims[i].verificationStatus) && p.claims[i].badges == ClaimBadges(d.claims[i])
  {
    CountVerifiedIsVerifiedClaims(d.claims);
    NatToStringIsDecimalOf(CountVerified(d.claims));
    DetailPage(
      d.mainName, d.description, d.contentTags,
      FormatMoney(d.yearlyRevenueUsd),
      NatToString(CountVerified(d.claims)),
      FormatNumber(d.totalFollowers),
      seq(|d.claims|, i requires 0 <= i < |d.claims| => ClaimCardOf(d.claims[i])))
  }

  datatype DetailView = Skeleton | ErrorPanel | Content(page: DetailPage)

  /** The page's early returns: loading first, then an error or a missing record, then the
      content of the record that was received. */
  function SelectDetailView(isLoading: bool, error: Option<ErrorValue>, data: Option<InfluencerDetail>): (v: DetailView)
    ensures v.Skeleton? <==> isLoading
    ensures v.ErrorPanel? <==> !isLoading && (error.Some? || data.None?)
    ensures v.Content? <==> !isLoading && error.None? && data.Some?
    ensures v.Content? ==> v.page == DetailPageOf(data.value)
  {
    if isLoading then Skeleton
    else if error.Some? || data.None? then ErrorPanel
    else Content(DetailPageOf(data.value))
  }

  /** Worked values: sub-thousand amounts still use "K", counts below 1000 have no suffix. */
  lemma MoneyExamples()
    ensures FormatMoney(999) == "$1.0K"
    ensures FormatMoney(1500000) == "$1.5M"
    ensures FormatMoney(0) == "$0.0K"
  {
    assert Tenths(999, 1000) == 10;
    assert NatToString(1) == "1";
    assert TenthsToString(10) == "1.0";
    assert Tenths(1500000, 1000000) == 15;
    assert TenthsToString(15) == "1.5";
    assert Tenths(0, 1000) == 0;
    assert NatToString(0) == "0";
    assert TenthsToString(0) == "0.0";
  }

  lemma CountExamples()
    ensures FormatNumber(500) == "500"
    ensures FormatNumber(2300) == "2.3K+"
    ensures FormatNumber(4000000) == "4.0M+"
  {
    assert NatToString(5) == "5";
    assert NatToString(50) == "50";
    assert NatToString(500) == "500";
    assert Tenths(2300, 1000) == 23;
    assert NatToString(2) == "2";
    assert TenthsToString(23) == "2.3";
    assert Tenths(4000000, 1000000) == 40;
    assert NatToString(4) == "4";
    assert TenthsToString(40) == "4.0";
  }

  /** A journal that is both verified and debunked, and one listed twice, in one claim. */
  lemma BadgeExample()
    ensures var c := Claim(1, "t", "c", "s", "Verified", ["Nature"], ["Cell"], ["Nature", "Cell"], "");
      BadgeUnion(c) == ["Nature", "Cell"] &&
      BadgeKindOf(c, "Nature") == VerifiedBadge && BadgeKindOf(c, "Cell") == QuestionedBadge
  {
    var c := Claim(1, "t", "c", "s", "Verified", ["Nature"], ["Cell"], ["Nature", "Cell"], "");
    var all := ["Nature", "Cell", "Nature", "Cell"];
    assert c.journalsVerified + c.journalsQuestioned + c.journalsDebunked == all;
    assert all[..3] == ["Nature", "Cell", "Nature"];
    assert all[..3][..2] == ["Nature", "Cell"];
    assert all[..3][..2][..1] == ["Nature"];
    assert all[..3][..2][..1][..0] == [];
    assert Dedup(["Nature"]) == ["Nature"];
    assert Dedup(["Nature", "Cell"]) == ["Nature", "Cell"];
    assert Dedup(all[..3]) == ["Nature", "Cell"];
    assert Dedup(all) == ["Nature", "Cell"];
  }
}
