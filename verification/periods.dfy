/** The reporting period the page shows, read from the URL fragment, and the
    data file that holds that period's leaderboard. */
module Periods {
  import opened Options
  import opened Text

  datatype Period = Daily | Weekly | Monthly

  /** The period's token, as it appears in the fragment and in the file name. */
  function Name(p: Period): string {
    match p
    case Daily => "daily"
    case Weekly => "weekly"
    case Monthly => "monthly"
  }

  /** The period a token names, if it names one exactly. */
  function ParseName(s: string): (r: Option<Period>)
    ensures r.Some? ==> Name(r.value) == s
    ensures forall p: Period :: Name(p) == s ==> r == Some(p)
  {
    if s == "daily" then Some(Daily)
    else if s == "weekly" then Some(Weekly)
    else if s == "monthly" then Some(Monthly)
    else None
  }

  /** The token `getCurrentPeriod` compares: the fragment (`#daily` when it is
      empty) without its first `#`, lower-cased. */
  function FragmentKey(hash: string): (key: string)
    ensures hash == "" ==> key == "daily"
    ensures Lower(key) == key
    ensures hash != "" && '#' !in hash ==> key == Lower(hash)
    ensures |hash| > 0 && hash[0] == '#' ==> key == Lower(hash[1..])
  {
    Lower(RemoveFirst(if hash == "" then "#daily" else hash, '#'))
  }

  /** `getCurrentPeriod`: the period the fragment names, ignoring case, and
      `Daily` for an empty or unrecognised fragment. */
  function CurrentPeriod(hash: string): (p: Period)
    ensures hash == "" ==> p == Daily
    ensures forall q: Period :: FragmentKey(hash) == Name(q) ==> p == q
    ensures p != Daily ==> FragmentKey(hash) == Name(p)
  {
    ParseName(FragmentKey(hash)).GetOr(Daily)
  }

  /** The fragment `#<token>` written in any mix of cases selects that period. */
  lemma CurrentPeriodOfFragment(p: Period, hash: string)
    requires Lower(hash) == "#" + Name(p)
    ensures CurrentPeriod(hash) == p
  {
  }

  /** The fragment `switchPeriod` writes selects the period it was written for. */
  lemma FragmentOfPeriod(p: Period)
    ensures CurrentPeriod("#" + Name(p)) == p
  {
    var h := "#" + Name(p);
    match p {
      case Daily => assert Lower(h) == h;
      case Weekly => assert Lower(h) == h;
      case Monthly => assert Lower(h) == h;
    }
    CurrentPeriodOfFragment(p, h);
  }

  /** Matching ignores case: lower-casing the fragment first changes nothing. */
  lemma {:induction false} CurrentPeriodIgnoresCase(hash: string)
    ensures CurrentPeriod(Lower(hash)) == CurrentPeriod(hash)
  {
    if hash != "" {
      LowerRemoveFirstHash(hash);
      LowerRemoveFirstHash(Lower(hash));
      LowerIdempotent(hash);
      LowerIdempotent(RemoveFirst(hash, '#'));
    }
  }

  /** `buildUrlForPeriod` for a given period. The token is already URI-safe,
      so `encodeURIComponent` leaves it as it is. */
  function DataUrl(p: Period): (url: string)
    ensures |url| == |UrlPrefix| + |Name(p)| + |UrlSuffix|
    ensures url[..|UrlPrefix|] == UrlPrefix
    ensures url[|UrlPrefix|..|url| - |UrlSuffix|] == Name(p)
    ensures url[|url| - |UrlSuffix|..] == UrlSuffix
  {
    "data/leaderboard-" + Name(p) + ".json"
  }

  const UrlPrefix: string := "data/leaderboard-"
  const UrlSuffix: string := ".json"

  /** The period a data-file path was built for, if any: the inverse of `DataUrl`. */
  function PeriodOfUrl(url: string): Option<Period> {
    if |url| >= |UrlPrefix| + |UrlSuffix|
       && url[..|UrlPrefix|] == UrlPrefix
       && url[|url| - |UrlSuffix|..] == UrlSuffix
    then ParseName(url[|UrlPrefix|..|url| - |UrlSuffix|])
    else None
  }

  /** Every data path names its period back, so distinct periods use distinct files. */
  lemma DataUrlRoundTrip(p: Period)
    ensures PeriodOfUrl(DataUrl(p)) == Some(p)
  {
  }

  /** `buildUrlForPeriod`: the data path of the fragment's period, which always
      reads back as one of the three periods. */
  function BuildUrl(hash: string): (url: string)
    ensures PeriodOfUrl(url) == Some(CurrentPeriod(hash))
  {
    DataUrlRoundTrip(CurrentPeriod(hash));
    DataUrl(CurrentPeriod(hash))
  }

  /** `period.charAt(0).toUpperCase() + period.slice(1)` on a period token. */
  function Label(p: Period): (r: string)
    ensures Lower(r) == Name(p)
    ensures IsUpper(r[0])
    ensures r[1..] == Name(p)[1..]
  {
    match p
    case Daily => "Daily"
    case Weekly => "Weekly"
    case Monthly => "Monthly"
  }

  /** The subtitle `setActivePeriodUI` writes under the heading. */
  function Subtitle(p: Period): (r: string)
    ensures |Label(p)| < |r|
    ensures r[..|Label(p)|] == Label(p)
    ensures r[|Label(p)|..] == SubtitleTail
  {
    Label(p) + SubtitleTail
  }

  /** The fixed text after the period label in the subtitle. */
  const SubtitleTail: string := " sales \U{2014} updated automatically"

}
