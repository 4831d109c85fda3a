/**
 * The classification service (server/main.py): `POST /check-headlines` answers each
 * headline with a verdict. A headline whose normalised hash is in the collection of
 * known misinformation is `misleading`; otherwise the classifier decides between
 * `caution` and `verified`.
 *
 * SHA-256, the collection lookup and the classifier are oracles: `Oracles` carries them
 * as an arbitrary function, the set of stored hashes and an arbitrary prediction.
 */
module Server {
  import opened Wrappers
  import opened TextUtil
  import opened Api

  /** The service's external dependencies. */
  datatype Oracles = Oracles(sha256: string -> string, stored: set<string>, predict: string -> int)

  const MisleadingStatus: string := "misleading"
  const CautionStatus: string := "caution"
  const VerifiedStatus: string := "verified"
  const MatchReason: string := "Exact hash match found in known misinformation database."
  const FlaggedReason: string := "AI model flagged as potentially misleading."
  const ReliableReason: string := "No hash match, AI model found it reliable."

  /** The text `get_headline_hash` hashes: `strip().lower()`. */
  function Normalize(text: string): (r: string)
    ensures IsTrimmed(r) && IsLower(r)
    ensures |r| <= |text|
  {
    var t := Trim(text);
    LowerIsLower(t);
    LowerKeepsTrimmed(t);
    Lower(t)
  }

  /** `get_headline_hash`. */
  function HeadlineHash(o: Oracles, text: string): string {
    o.sha256(Normalize(text))
  }

  /** Normalising twice is normalising once. */
  lemma NormalizeIdempotent(text: string)
    ensures Normalize(Normalize(text)) == Normalize(text)
  {
    var t := Trim(text);
    TrimLowerCommute(t);
    TrimIdempotent(text);
    LowerIsLower(t);
  }

  /**
   * Headlines that differ only in letter case and surrounding whitespace normalise to
   * the same text, and so get the same hash whatever the hash function.
   */
  lemma SameHashIgnoringCaseAndPadding(o: Oracles, lead: string, s: string, trail: string)
    requires AllSpace(lead) && AllSpace(trail)
    ensures Normalize(lead + Upper(s) + trail) == Normalize(s)
    ensures HeadlineHash(o, lead + Upper(s) + trail) == HeadlineHash(o, s)
  {
    TrimPadded(lead, Upper(s), trail);
    TrimLowerCommute(Upper(s));
    LowerOfUpper(s);
    TrimLowerCommute(s);
  }

  /** The collection holds the hash of this headline's normalised text. */
  predicate Matched(o: Oracles, headline: string) {
    HeadlineHash(o, headline) in o.stored
  }

  /** The entry `check_headlines` appends for one headline: it echoes the headline and never carries probabilities. */
  function Verdict(o: Oracles, headline: string): (r: ApiResult)
    ensures r.headline == headline && r.probabilities.None?
  {
    if Matched(o, headline) then ApiResult(headline, MisleadingStatus, MatchReason, None)
    else if o.predict(headline) == 1 then ApiResult(headline, CautionStatus, FlaggedReason, None)
    else ApiResult(headline, VerifiedStatus, ReliableReason, None)
  }

  /**
   * The verdict rule: a hash match gives `misleading`; without one, a prediction of 1
   * gives `caution` and any other prediction `verified`. The status is never `error`,
   * and each status comes with its own fixed reason.
   */
  lemma VerdictRule(o: Oracles, headline: string)
    ensures var r := Verdict(o, headline);
            && r.status in {MisleadingStatus, CautionStatus, VerifiedStatus} && r.status != "error"
            && (r.status == MisleadingStatus <==> Matched(o, headline))
            && (r.status == CautionStatus <==> !Matched(o, headline) && o.predict(headline) == 1)
            && (r.status == VerifiedStatus <==> !Matched(o, headline) && o.predict(headline) != 1)
            && r.reason == (if r.status == MisleadingStatus then MatchReason
                            else if r.status == CautionStatus then FlaggedReason else ReliableReason)
  {
  }

  /** A hash match decides the verdict whatever the classifier would have said. */
  lemma MatchOverridesClassifier(o: Oracles, predict: string -> int, headline: string)
    requires Matched(o, headline)
    ensures Verdict(o.(predict := predict), headline) == Verdict(o, headline)
    ensures Verdict(o, headline).status == MisleadingStatus
  {
    assert Matched(o.(predict := predict), headline);
  }

  /** Headlines with the same normalised text share a hash match, so both are `misleading` or neither. */
  lemma EquivalentHeadlinesMatchAlike(o: Oracles, a: string, b: string)
    requires Normalize(a) == Normalize(b)
    ensures Verdict(o, a).status == MisleadingStatus <==> Verdict(o, b).status == MisleadingStatus
  {
    VerdictRule(o, a);
    VerdictRule(o, b);
  }

  /**
   * The classifier sees the headline as sent, not normalised: when no hash matches, two
   * spellings of one headline can get different verdicts.
   */
  lemma ClassifierSeesRawHeadline(o: Oracles)
    requires o.stored == {} && o.predict("A") == 1 && o.predict("a") == 0
    ensures Normalize("A") == Normalize("a")
    ensures Verdict(o, "A").status == CautionStatus && Verdict(o, "a").status == VerifiedStatus
  {
    NormalizeLetter('A');
    NormalizeLetter('a');
    UnmatchedVerdict(o, "A");
    UnmatchedVerdict(o, "a");
  }

  lemma UnmatchedVerdict(o: Oracles, headline: string)
    requires o.stored == {}
    ensures Verdict(o, headline).status == if o.predict(headline) == 1 then CautionStatus else VerifiedStatus
  {
    assert !Matched(o, headline);
  }

  lemma NormalizeLetter(c: char)
    requires 'A' <= c <= 'Z' || 'a' <= c <= 'z'
    ensures Normalize([c]) == [LowerChar(c)]
  {
    TrimLetter(c);
    LowerSingle(c);
  }

  lemma TrimLetter(c: char)
    requires 'A' <= c <= 'Z' || 'a' <= c <= 'z'
    ensures Trim([c]) == [c]
  {
    assert IsTrimmed([c]);
    TrimmedFixpoint([c]);
  }

  lemma LowerSingle(c: char)
    ensures Lower([c]) == [LowerChar(c)]
  {
    assert Lower([c])[0] == LowerChar(c);
  }

  /** `[f(x) for x in xs]`. */
  function MapSeq<A, B>(f: A -> B, xs: seq<A>): (ys: seq<B>)
    ensures |ys| == |xs|
    ensures forall j :: 0 <= j < |xs| ==> ys[j] == f(xs[j])
  {
    if xs == [] then [] else MapSeq(f, xs[..|xs| - 1]) + [f(xs[|xs| - 1])]
  }

  /** The `results` list for a request: one verdict per headline, in request order. */
  function Results(o: Oracles, headlines: seq<string>): seq<ApiResult> {
    MapSeq(h => Verdict(o, h), headlines)
  }

  /** Appending a headline to the request appends its verdict to the response. */
  lemma ResultsSnoc(o: Oracles, headlines: seq<string>, h: string)
    ensures Results(o, headlines + [h]) == Results(o, headlines) + [Verdict(o, h)]
  {
    assert (headlines + [h])[..|headlines|] == headlines;
  }

  /**
   * The response has exactly one entry per headline, and the entry at each position is
   * that headline's verdict, echoing it; an empty request gives an empty list.
   */
  lemma ResultsShape(o: Oracles, headlines: seq<string>)
    ensures |Results(o, headlines)| == |headlines|
    ensures forall i :: 0 <= i < |headlines| ==>
              Results(o, headlines)[i] == Verdict(o, headlines[i]) && Results(o, headlines)[i].headline == headlines[i]
    ensures headlines == [] ==> Results(o, headlines) == []
  {
  }

  /** The body of `check_headlines`' loop: look the hash up, and ask the classifier only on a miss. */
  method JudgeHeadline(o: Oracles, headline: string) returns (entry: ApiResult)
    ensures entry == Verdict(o, headline)
  {
    var hashVal := HeadlineHash(o, headline);
    if hashVal in o.stored {
      entry := ApiResult(headline, MisleadingStatus, MatchReason, None);
    } else {
      var pred := o.predict(headline);
      if pred == 1 {
        entry := ApiResult(headline, CautionStatus, FlaggedReason, None);
      } else {
        entry := ApiResult(headline, VerifiedStatus, ReliableReason, None);
      }
    }
  }

  /** `check_headlines`: one verdict per headline of the request, appended in order. */
  method CheckHeadlines(o: Oracles, headlines: seq<string>) returns (results: seq<ApiResult>)
    ensures results == Results(o, headlines)
  {
    results := [];
    for i := 0 to |headlines|
      invariant results == Results(o, headlines[..i])
    {
      var entry := JudgeHeadline(o, headlines[i]);
      assert headlines[..i + 1][..i] == headlines[..i];
      results := results + [entry];
    }
    assert headlines[..|headlines|] == headlines;
  }
}
