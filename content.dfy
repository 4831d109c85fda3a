/**
 * The content script (extension/content.js): a per-page scanner that picks candidate
 * headline elements, filters them and remembers every element it has looked at, and an
 * annotator that turns one batch response of the classification service into status
 * icons next to the scanned elements.
 *
 * The DOM is abstract: an element is an identity plus the few facts the script reads
 * from it (visibility, text content, whether an excluded ancestor matches, and on the
 * microblog site its nested tweet-text element).
 */
module Content {
  import opened Wrappers
  import opened TextUtil
  import opened Api
  import opened Seqs

  /** The identity of a DOM element (what the script keeps in `processedElements`). */
  type Id = nat

  // ---------------------------------------------------------------------------
  // Site profiles
  // ---------------------------------------------------------------------------

  /** The site-specific strategy that chooses which elements are scanned. */
  datatype Profile = Microblog | Facebook | Instagram | Generic

  /**
   * The profile as content.js derives it: substring tests on the host name. Every host
   * on one of the sites gets a site profile (the microblog's always its own), but the
   * tests also fire on hosts that merely contain a site's name.
   */
  function ProfileOf(hostname: string): (p: Profile)
    ensures OnDomain(hostname, "x.com") || OnDomain(hostname, "twitter.com") ==> p == Microblog
    ensures OnDomain(hostname, "facebook.com") ==> p == Microblog || p == Facebook
    ensures OnDomain(hostname, "instagram.com") ==> p != Generic
  {
    OnDomainContains(hostname, "x.com");
    OnDomainContains(hostname, "twitter.com");
    OnDomainContains(hostname, "facebook.com");
    OnDomainContains(hostname, "instagram.com");
    if Contains(hostname, "x.com") || Contains(hostname, "twitter.com") then Microblog
    else if Contains(hostname, "facebook.com") then Facebook
    else if Contains(hostname, "instagram.com") then Instagram
    else Generic
  }

  /** `host` is `domain` itself or one of its subdomains. */
  predicate OnDomain(host: string, domain: string) {
    host == domain || EndsWith(host, "." + domain)
  }

  /**
   * The profile the host tests are evidently meant to pick: a site's profile applies to
   * that site's own domain and subdomains only. `Scanner.Corrected` uses this one.
   */
  function SiteProfile(hostname: string): (p: Profile)
    ensures p == Microblog <==> OnDomain(hostname, "x.com") || OnDomain(hostname, "twitter.com")
    ensures p != Generic ==> ProfileOf(hostname) != Generic
  {
    if OnDomain(hostname, "x.com") || OnDomain(hostname, "twitter.com") then Microblog
    else if OnDomain(hostname, "facebook.com") then Facebook
    else if OnDomain(hostname, "instagram.com") then Instagram
    else Generic
  }

  lemma {:induction false} ContainsAt(s: string, sub: string, i: nat)
    requires i + |sub| <= |s| && s[i..i + |sub|] == sub
    ensures Contains(s, sub)
  {
    if i > 0 {
      assert s[1..][i - 1..i - 1 + |sub|] == s[i..i + |sub|];
      ContainsAt(s[1..], sub, i - 1);
    }
  }

  lemma OnDomainContains(host: string, domain: string)
    ensures OnDomain(host, domain) ==> Contains(host, domain)
  {
    if host == domain {
      ContainsAt(host, domain, 0);
    } else if EndsWith(host, "." + domain) {
      var i := |host| - |domain|;
      assert host[i..i + |domain|] == ("." + domain)[1..];
      ContainsAt(host, domain, i);
    }
  }

  /**
   * The substring test treats an unrelated host as the microblog site: "www.netflix.com"
   * contains "x.com", so content.js scans it for tweet articles (and finds none), while
   * the intended rule treats it as a generic site.
   */
  lemma UnrelatedHostTakenForMicroblog()
    ensures ProfileOf("www.netflix.com") == Microblog
    ensures SiteProfile("www.netflix.com") == Generic
  {
    NetflixContainsXCom();
    NetflixOnNoProfiledDomain();
  }

  lemma NetflixContainsXCom()
    ensures Contains("www.netflix.com", "x.com")
  {
    var h := "www.netflix.com";
    assert h[10..15] == "x.com";
    ContainsAt(h, "x.com", 10);
  }

  lemma NetflixOnNoProfiledDomain()
    ensures !OnDomain("www.netflix.com", "x.com") && !OnDomain("www.netflix.com", "twitter.com")
    ensures !OnDomain("www.netflix.com", "facebook.com") && !OnDomain("www.netflix.com", "instagram.com")
  {
    NetflixNotOn("x.com", 0);
    NetflixNotOn("twitter.com", 1);
    NetflixNotOn("facebook.com", 0);
    NetflixNotOn("instagram.com", 0);
  }

  lemma NetflixNotOn(domain: string, j: nat)
    requires j <= |domain| < 14
    requires "www.netflix.com"[14 - |domain| + j] != ("." + domain)[j]
    ensures !OnDomain("www.netflix.com", domain)
  {
    NotEndsWith("www.netflix.com", "." + domain, j);
  }

  lemma NotEndsWith(s: string, suffix: string, j: nat)
    requires j < |suffix| <= |s| && s[|s| - |suffix| + j] != suffix[j]
    ensures !EndsWith(s, suffix)
  {
    assert s[|s| - |suffix|..][j] == s[|s| - |suffix| + j];
  }

  // ---------------------------------------------------------------------------
  // Elements and candidate selection
  // ---------------------------------------------------------------------------

  /** What a selector picks an element by: a tweet article, or a heading/paragraph. */
  datatype Kind = TweetArticle | HeadingOrParagraph | OtherElement

  /** The `div[data-testid="tweetText"]` element nested in a tweet article. */
  datatype TweetText = TweetText(id: Id, textContent: string)

  /**
   * A DOM element as the scanner sees it. `visible` is `offsetParent !== null`;
   * `insideExcluded` is whether `closest('nav, code, pre, script, style, button, a')`
   * matches.
   */
  datatype Element = Element(
    id: Id,
    kind: Kind,
    visible: bool,
    textContent: string,
    insideExcluded: bool,
    tweetText: Option<TweetText>)

  /** One entry of the list `findHeadlinesOnPage` returns: the icon anchor and the text to classify. */
  datatype Candidate = Candidate(anchor: Id, text: string)

  /** The profile's selector matches the element. */
  predicate Selects(profile: Profile, e: Element) {
    match profile
    case Microblog => e.kind == TweetArticle
    case Generic => e.kind == HeadingOrParagraph
    case Facebook => false
    case Instagram => false
  }

  /** `a` is `b` with some elements left out, the rest in their order. */
  predicate IsSubsequence<T(==)>(a: seq<T>, b: seq<T>) {
    a == [] || (b != [] && if a[0] == b[0] then IsSubsequence(a[1..], b[1..]) else IsSubsequence(a, b[1..]))
  }

  /**
   * `elementsToCheck`: the page's elements (in document order) that the profile's selector
   * matches. The facebook and instagram profiles select nothing.
   */
  function ElementsToCheck(profile: Profile, page: seq<Element>): (r: seq<Element>)
    ensures forall e :: e in r <==> e in page && Selects(profile, e)
    ensures IsSubsequence(r, page)
    ensures profile == Facebook || profile == Instagram ==> r == []
  {
    if page == [] then []
    else
      var rest := ElementsToCheck(profile, page[1..]);
      if Selects(profile, page[0]) then
        assert ([page[0]] + rest)[1..] == rest;
        [page[0]] + rest
      else
        assert rest != [] ==> rest[0] != page[0];
        rest
  }

  /**
   * The anchor and trimmed text content.js takes from an element: on the microblog
   * profile a tweet article contributes its nested tweet-text element (anchor and text)
   * when there is one, otherwise the article itself; every other element contributes itself.
   */
  function Resolve(profile: Profile, e: Element): (c: Candidate)
    ensures IsTrimmed(c.text)
    ensures profile == Microblog && e.kind == TweetArticle && e.tweetText.Some? ==>
              c == Candidate(e.tweetText.value.id, Trim(e.tweetText.value.textContent))
    ensures !(profile == Microblog && e.kind == TweetArticle && e.tweetText.Some?) ==>
              c == Candidate(e.id, Trim(e.textContent))
  {
    if profile == Microblog && e.kind == TweetArticle then
      match e.tweetText
      case Some(t) => Candidate(t.id, Trim(t.textContent))
      case None => Candidate(e.id, Trim(e.textContent))
    else Candidate(e.id, Trim(e.textContent))
  }

  /** Why a visible, unprocessed element is skipped. */
  datatype SkipReason = TooLong | NavigationOrCode

  /**
   * The length/ancestor filter. Its first branch is empty and there is no "too short"
   * reason, so a text of 25 characters or fewer is kept like any other.
   */
  function FilterReason(text: string, insideExcluded: bool): (r: Option<SkipReason>)
    ensures r == None <==> Utf16Length(text) < 1000 && !insideExcluded
    ensures r == Some(TooLong) <==> Utf16Length(text) >= 1000
    ensures Utf16Length(text) <= 25 && !insideExcluded ==> r == None
  {
    var length := Utf16Length(text);
    if length > 25 && length < 1000 && !insideExcluded then None
    else if length >= 1000 then Some(TooLong)
    else if insideExcluded then Some(NavigationOrCode)
    else None
  }

  /**
   * The limits are in UTF-16 code units: 600 emoji are 600 characters but 1200 units,
   * so the text is skipped as too long.
   */
  lemma EmojiTextTooLong()
    ensures var text := seq(600, _ => '\U{1F600}');
      |text| < 1000 && FilterReason(text, false) == Some(TooLong)
  {
    var text := seq(600, _ => '\U{1F600}');
    assert forall i :: 0 <= i < |text| ==> text[i] as int > 0xFFFF;
  }

  /** A visible element whose resolved text passes the filter: emitted if not yet processed. */
  predicate Qualifies(profile: Profile, e: Element) {
    e.visible && FilterReason(Resolve(profile, e).text, e.insideExcluded) == None
  }

  /** The identities of some elements. */
  function IdsOf(es: seq<Element>): set<Id> {
    set e | e in es :: e.id
  }

  /**
   * The elements one scan pass emits, in order, when `processed` is the set of elements
   * handled before the pass. Every element is added to the set as it is visited,
   * whether it is emitted, filtered out or hidden.
   */
  function Emitted(profile: Profile, elems: seq<Element>, processed: set<Id>): seq<Element>
  {
    if elems == [] then []
    else
      var e := elems[0];
      var rest := Emitted(profile, elems[1..], processed + {e.id});
      if e.id !in processed && Qualifies(profile, e) then [e] + rest else rest
  }

  /** The candidates a pass returns for the elements it emits. */
  function Candidates(profile: Profile, es: seq<Element>): seq<Candidate> {
    seq(|es|, i requires 0 <= i < |es| => Resolve(profile, es[i]))
  }

  /** The identities of a sequence of elements, in order. */
  function IdSeq(es: seq<Element>): seq<Id> {
    seq(|es|, i requires 0 <= i < |es| => es[i].id)
  }

  predicate Distinct<T(==)>(s: seq<T>) {
    forall i, j :: 0 <= i < j < |s| ==> s[i] != s[j]
  }

  /**
   * What a pass emits: elements of the pass, in their order, each visible, passing the
   * filter and not processed before, and no element identity twice.
   */
  lemma {:induction false} EmittedSound(profile: Profile, elems: seq<Element>, processed: set<Id>)
    ensures forall e :: e in Emitted(profile, elems, processed) ==>
              e in elems && e.id !in processed && Qualifies(profile, e)
    ensures IsSubsequence(Emitted(profile, elems, processed), elems)
    ensures Distinct(IdSeq(Emitted(profile, elems, processed)))
  {
    EmittedMembers(profile, elems, processed);
    EmittedSubsequence(profile, elems, processed);
    EmittedDistinct(profile, elems, processed);
  }

  lemma {:induction false} EmittedMembers(profile: Profile, elems: seq<Element>, processed: set<Id>)
    ensures forall e :: e in Emitted(profile, elems, processed) ==>
              e in elems && e.id !in processed && Qualifies(profile, e)
  {
    if elems != [] {
      var e := elems[0];
      EmittedMembers(profile, elems[1..], processed + {e.id});
      forall x | x in elems[1..] ensures x in elems { }
    }
  }

  lemma {:induction false} EmittedSubsequence(profile: Profile, elems: seq<Element>, processed: set<Id>)
    ensures IsSubsequence(Emitted(profile, elems, processed), elems)
  {
    if elems != [] {
      var e := elems[0];
      var rest := Emitted(profile, elems[1..], processed + {e.id});
      EmittedSubsequence(profile, elems[1..], processed + {e.id});
      if e.id !in processed && Qualifies(profile, e) {
        assert ([e] + rest)[1..] == rest;
      } else if rest != [] {
        EmittedMembers(profile, elems[1..], processed + {e.id});
        assert rest[0] in rest;
      }
    }
  }

  lemma {:induction false} EmittedDistinct(profile: Profile, elems: seq<Element>, processed: set<Id>)
    ensures Distinct(IdSeq(Emitted(profile, elems, processed)))
  {
    if elems != [] {
      var e := elems[0];
      var rest := Emitted(profile, elems[1..], processed + {e.id});
      EmittedDistinct(profile, elems[1..], processed + {e.id});
      if e.id !in processed && Qualifies(profile, e) {
        EmittedMembers(profile, elems[1..], processed + {e.id});
        forall k | 0 <= k < |IdSeq(rest)| ensures IdSeq(rest)[k] != e.id {
          assert rest[k] in rest;
        }
        IdSeqCons(e, rest);
        DistinctCons(e.id, IdSeq(rest));
      }
    }
  }

  /**
   * And nothing qualifying is missed: the first occurrence of an unprocessed element
   * is emitted exactly when it is visible and passes the filter.
   */
  lemma {:induction false} EmittedComplete(profile: Profile, elems: seq<Element>, processed: set<Id>, k: nat)
    requires k < |elems|
    requires elems[k].id !in processed
    requires forall j :: 0 <= j < k ==> elems[j].id != elems[k].id
    ensures elems[k] in Emitted(profile, elems, processed) <==> Qualifies(profile, elems[k])
  {
    EmittedSound(profile, elems, processed);
    if k > 0 {
      EmittedComplete(profile, elems[1..], processed + {elems[0].id}, k - 1);
    }
  }

  /** A pass emits only elements whose identity it adds to the processed set. */
  lemma {:induction false} EmittedIdsProcessed(profile: Profile, elems: seq<Element>, processed: set<Id>)
    ensures forall i :: 0 <= i < |IdSeq(Emitted(profile, elems, processed))| ==>
              IdSeq(Emitted(profile, elems, processed))[i] in IdsOf(elems) - processed
  {
    EmittedSound(profile, elems, processed);
    var r := Emitted(profile, elems, processed);
    forall i | 0 <= i < |IdSeq(r)| ensures IdSeq(r)[i] in IdsOf(elems) - processed {
      assert r[i] in r;
    }
  }

  /**
   * Rescanning a page that has not changed emits nothing: every element it selects is
   * already processed.
   */
  lemma {:induction false} RescanEmitsNothing(profile: Profile, elems: seq<Element>, processed: set<Id>)
    requires IdsOf(elems) <= processed
    ensures Emitted(profile, elems, processed) == []
  {
    if elems != [] {
      assert elems[0] in elems;
      assert IdsOf(elems[1..]) <= IdsOf(elems) by {
        forall e | e in elems[1..] ensures e in elems { }
      }
      assert processed + {elems[0].id} == processed;
      RescanEmitsNothing(profile, elems[1..], processed);
    }
  }

  /**
   * The content script's scanner. `processed` is the page-lifetime `processedElements`
   * set; the ghost `emittedIds` records every element identity ever emitted, and the
   * invariant says each was emitted once and is processed.
   */
  class Scanner {
    const profile: Profile
    var processed: set<Id>
    ghost var emittedIds: seq<Id>

    ghost predicate Valid()
      reads this
    {
      Distinct(emittedIds) && forall i :: 0 <= i < |emittedIds| ==> emittedIds[i] in processed
    }

    /** A page as content.js sets it up: the profile from the substring tests. */
    constructor (hostname: string)
      ensures Valid()
      ensures profile == ProfileOf(hostname)
      ensures processed == {} && emittedIds == []
    {
      profile := ProfileOf(hostname);
      processed := {};
      emittedIds := [];
    }

    /** A page whose profile follows the site's own domain, as the host tests intend. */
    constructor Corrected(hostname: string)
      ensures Valid()
      ensures profile == SiteProfile(hostname)
      ensures processed == {} && emittedIds == []
    {
      profile := SiteProfile(hostname);
      processed := {};
      emittedIds := [];
    }

    /**
     * The step of the pass for one element: a visible, unprocessed element is resolved
     * and filtered and becomes a candidate when it passes; every unprocessed element,
     * hidden or not, emitted or skipped, is marked processed.
     */
    method Visit(el: Element) returns (c: Option<Candidate>)
      modifies this
      ensures processed == old(processed) + {el.id}
      ensures c == if el.id !in old(processed) && Qualifies(profile, el) then Some(Resolve(profile, el)) else None
      ensures emittedIds == old(emittedIds) + if c.Some? then [el.id] else []
    {
      c := None;
      if el.visible && el.id !in processed {
        var target := Resolve(profile, el);
        var reason := FilterReason(target.text, el.insideExcluded);
        if reason.Some? {
          processed := processed + {el.id};
        } else {
          c := Some(target);
          emittedIds := emittedIds + [el.id];
          processed := processed + {el.id};
        }
      } else if el.id !in processed {
        processed := processed + {el.id};
      }
    }

    /**
     * `findHeadlinesOnPage`: one pass over the elements the profile selects. The
     * processed set grows by exactly the elements visited; the result is the candidates
     * of the elements `Emitted` describes.
     */
    method FindHeadlinesOnPage(page: seq<Element>) returns (headlines: seq<Candidate>)
      requires Valid()
      modifies this
      ensures Valid()
      ensures processed == old(processed) + IdsOf(ElementsToCheck(profile, page))
      ensures headlines == Candidates(profile, Emitted(profile, ElementsToCheck(profile, page), old(processed)))
      ensures emittedIds == old(emittedIds) + IdSeq(Emitted(profile, ElementsToCheck(profile, page), old(processed)))
    {
      var elems := ElementsToCheck(profile, page);
      ghost var before := processed;
      ghost var ids0 := emittedIds;
      assert Distinct(ids0) && forall k :: 0 <= k < |ids0| ==> ids0[k] in before;
      ghost var emitted: seq<Element> := [];
      ghost var rest := Emitted(profile, elems, before);
      headlines := [];
      var i := 0;
      while i < |elems|
        invariant 0 <= i <= |elems|
        invariant processed == before + IdsOf(elems[..i])
        invariant rest == Emitted(profile, elems[i..], processed)
        invariant emitted + rest == Emitted(profile, elems, before)
        invariant headlines == Candidates(profile, emitted)
        invariant emittedIds == ids0 + IdSeq(emitted)
      {
        var el := elems[i];
        EmittedStep(profile, elems, i, processed);
        PrefixIds(elems, i);
        ghost var head := if el.id !in processed && Qualifies(profile, el) then [el] else [];
        ghost var later := Emitted(profile, elems[i + 1..], processed + {el.id});
        assert emitted + (head + later) == Emitted(profile, elems, before);
        ghost var ids := IdSeq(emitted);
        var c := Visit(el);
        assert later == Emitted(profile, elems[i + 1..], processed);
        if c.Some? {
          AppendAssoc(emitted, [el], later);
          CandidatesSnoc(profile, emitted, el);
          AppendAssoc(ids0, ids, [el.id]);
          headlines := headlines + [c.value];
          emitted := emitted + [el];
        } else {
          assert head + later == later;
          assert emittedIds == ids0 + ids;
        }
        assert processed == before + IdsOf(elems[..i + 1]);
        assert emitted + later == Emitted(profile, elems, before);
        rest := later;
        i := i + 1;
      }
      assert elems[..i] == elems;
      assert rest == [];
      assert emitted == Emitted(profile, elems, before);
      assert processed == before + IdsOf(elems);
      EmittedSound(profile, elems, before);
      EmittedIdsProcessed(profile, elems, before);
      AppendFreshIds(ids0, before, IdSeq(emitted), processed);
    }
  }

  lemma IdSeqCons(e: Element, es: seq<Element>)
    ensures IdSeq([e] + es) == [e.id] + IdSeq(es)
  {
  }

  lemma DistinctCons<T>(x: T, s: seq<T>)
    requires Distinct(s) && forall k :: 0 <= k < |s| ==> s[k] != x
    ensures Distinct([x] + s)
  {
    var r := [x] + s;
    forall i, j | 0 <= i < j < |r| ensures r[i] != r[j] {
      if i == 0 {
        assert r[j] == s[j - 1];
      } else {
        assert r[i] == s[i - 1] && r[j] == s[j - 1];
      }
    }
  }

  /** One step of a pass: the element at `i` and the rest of the pass after it. */
  lemma EmittedStep(profile: Profile, elems: seq<Element>, i: nat, processed: set<Id>)
    requires i < |elems|
    ensures Emitted(profile, elems[i..], processed) ==
              (if elems[i].id !in processed && Qualifies(profile, elems[i]) then [elems[i]] else []) +
              Emitted(profile, elems[i + 1..], processed + {elems[i].id})
  {
    assert elems[i..][1..] == elems[i + 1..];
  }

  lemma CandidatesSnoc(profile: Profile, es: seq<Element>, e: Element)
    ensures Candidates(profile, es + [e]) == Candidates(profile, es) + [Resolve(profile, e)]
    ensures IdSeq(es + [e]) == IdSeq(es) + [e.id]
  {
  }

  lemma PrefixIds(elems: seq<Element>, i: nat)
    requires i < |elems|
    ensures IdsOf(elems[..i + 1]) == IdsOf(elems[..i]) + {elems[i].id}
  {
    assert elems[..i + 1] == elems[..i] + [elems[i]];
  }

  /** Appending identities that were not processed before keeps a record of distinct, processed identities. */
  lemma AppendFreshIds(ids: seq<Id>, before: set<Id>, more: seq<Id>, after: set<Id>)
    requires Distinct(ids) && forall i :: 0 <= i < |ids| ==> ids[i] in before
    requires Distinct(more) && forall i :: 0 <= i < |more| ==> more[i] in after - before
    requires before <= after
    ensures Distinct(ids + more) && forall i :: 0 <= i < |ids + more| ==> (ids + more)[i] in after
  {
    var all := ids + more;
    forall a, b | 0 <= a < b < |all| ensures all[a] != all[b] {
      if a < |ids| && b >= |ids| {
        assert all[a] in before && all[b] !in before;
      }
    }
  }

  // ---------------------------------------------------------------------------
  // Result icons
  // ---------------------------------------------------------------------------

  const CrossMark: string := "\U{274C}"
  const WarningSign: string := "\U{26A0}\U{FE0F}"
  const CheckMark: string := "\U{2705}"
  const QuestionMark: string := "\U{2753}"
  const WhiteQuestionMark: string := "\U{2754}"

  const TooltipPrefix: string := "Misinfo Detector: "
  const ErrorTooltipPrefix: string := "Misinfo Detector Error: "

  /** The glyph `addResultIcon` shows for a status: one per known status, one for any other. */
  function Glyph(status: string): (g: string)
    ensures g == CrossMark <==> status == "misleading"
    ensures g == WarningSign <==> status == "caution"
    ensures g == CheckMark <==> status == "verified"
    ensures g == QuestionMark <==> status == "error"
    ensures g == WhiteQuestionMark <==>
              status != "misleading" && status != "caution" && status != "verified" && status != "error"
  {
    match status
    case "misleading" => CrossMark
    case "caution" => WarningSign
    case "verified" => CheckMark
    case "error" => QuestionMark
    case _ => WhiteQuestionMark
  }

  /** The icon's tooltip: the reason, behind the error prefix exactly for status `error`. */
  function Tooltip(status: string, reason: string): (t: string)
    ensures StartsWith(t, ErrorTooltipPrefix) <==> status == "error"
    ensures EndsWith(t, reason)
  {
    var t := (if status == "error" then ErrorTooltipPrefix else TooltipPrefix) + reason;
    assert t[|t| - |reason|..] == reason;
    assert status != "error" ==> t[16] == ':';
    t
  }

  /** The `.misinfo-icon` span: its glyph, its tooltip and its `data-status`. */
  datatype Icon = Icon(glyph: string, tooltip: string, status: string)

  /** One `addResultIcon(element, status, reason)` call. */
  datatype Annotation = Annotation(anchor: Id, status: string, reason: string)

  function IconOf(a: Annotation): Icon {
    Icon(Glyph(a.status), Tooltip(a.status, a.reason), a.status)
  }

  /** `addResultIcon` on the icon state: an element that already has an icon keeps it. */
  function AddIcon(icons: map<Id, Icon>, a: Annotation): (r: map<Id, Icon>)
    ensures r.Keys == icons.Keys + {a.anchor}
    ensures forall x :: x in icons ==> r[x] == icons[x]
    ensures a.anchor !in icons ==> r[a.anchor] == IconOf(a)
  {
    if a.anchor in icons then icons else icons[a.anchor := IconOf(a)]
  }

  function AnchorsOf(calls: seq<Annotation>): set<Id> {
    set c | c in calls :: c.anchor
  }

  /** The icon state after a sequence of `addResultIcon` calls. */
  function ApplyAll(icons: map<Id, Icon>, calls: seq<Annotation>): (r: map<Id, Icon>)
    ensures r.Keys == icons.Keys + AnchorsOf(calls)
    ensures forall x :: x in icons ==> r[x] == icons[x]
  {
    if calls == [] then icons
    else
      var init := calls[..|calls| - 1];
      assert calls == init + [calls[|calls| - 1]];
      assert AnchorsOf(calls) == AnchorsOf(init) + {calls[|calls| - 1].anchor};
      AddIcon(ApplyAll(icons, init), calls[|calls| - 1])
  }

  lemma ApplyAllSnoc(icons: map<Id, Icon>, calls: seq<Annotation>, c: Annotation)
    ensures ApplyAll(icons, calls + [c]) == AddIcon(ApplyAll(icons, calls), c)
  {
    assert (calls + [c])[..|calls|] == calls;
  }

  lemma {:induction false} ApplyAllConcat(icons: map<Id, Icon>, a: seq<Annotation>, b: seq<Annotation>)
    ensures ApplyAll(icons, a + b) == ApplyAll(ApplyAll(icons, a), b)
  {
    if b != [] {
      var b0 := b[..|b| - 1];
      var c := b[|b| - 1];
      assert a + b == (a + b0) + [c] by {
        assert b == b0 + [c];
      }
      ApplyAllSnoc(icons, a + b0, c);
      ApplyAllSnoc(ApplyAll(icons, a), b0, c);
      ApplyAllConcat(icons, a, b0);
    } else {
      assert a + b == a;
    }
  }

  /** The first call for an element, if any. */
  function FirstFor(calls: seq<Annotation>, anchor: Id): Option<Annotation> {
    if calls == [] then None
    else if calls[0].anchor == anchor then Some(calls[0])
    else FirstFor(calls[1..], anchor)
  }

  lemma {:induction false} FirstForAppend(a: seq<Annotation>, b: seq<Annotation>, anchor: Id)
    ensures FirstFor(a + b, anchor) == if FirstFor(a, anchor).Some? then FirstFor(a, anchor) else FirstFor(b, anchor)
  {
    if a == [] {
      assert a + b == b;
    } else {
      assert (a + b)[1..] == a[1..] + b;
      FirstForAppend(a[1..], b, anchor);
    }
  }

  /** The first annotation of an element wins: later ones for the same element change nothing. */
  lemma {:induction false} FirstAnnotationWins(icons: map<Id, Icon>, calls: seq<Annotation>, anchor: Id)
    requires anchor !in icons
    ensures anchor in ApplyAll(icons, calls) <==> FirstFor(calls, anchor).Some?
    ensures FirstFor(calls, anchor).Some? ==> ApplyAll(icons, calls)[anchor] == IconOf(FirstFor(calls, anchor).value)
  {
    if calls != [] {
      var init := calls[..|calls| - 1];
      var last := calls[|calls| - 1];
      assert calls == init + [last];
      FirstForAppend(init, [last], anchor);
      FirstAnnotationWins(icons, init, anchor);
    }
  }

  /** Calls for elements that all have icons already change nothing: repeats are idempotent. */
  lemma {:induction false} AnnotatedElementsUnchanged(icons: map<Id, Icon>, calls: seq<Annotation>)
    requires AnchorsOf(calls) <= icons.Keys
    ensures ApplyAll(icons, calls) == icons
  {
    if calls != [] {
      var init := calls[..|calls| - 1];
      assert calls[|calls| - 1] in calls;
      assert AnchorsOf(init) <= AnchorsOf(calls) by {
        forall c | c in init ensures c in calls { }
      }
      AnnotatedElementsUnchanged(icons, init);
    }
  }

  /** Applying a batch's annotations a second time changes nothing. */
  lemma ReapplyIsNoOp(icons: map<Id, Icon>, calls: seq<Annotation>)
    ensures ApplyAll(ApplyAll(icons, calls), calls) == ApplyAll(icons, calls)
  {
    AnnotatedElementsUnchanged(ApplyAll(icons, calls), calls);
  }

  // ---------------------------------------------------------------------------
  // Batch responses
  // ---------------------------------------------------------------------------

  /** The parsed JSON body of a 2xx response: its `results` array and its `error` field. */
  datatype Payload = Payload(results: Option<seq<ApiResult>>, error: Option<string>)

  /**
   * How the batch request ended: a non-2xx status, a thrown error (the fetch failed or
   * the body was not JSON), or a parsed body.
   */
  datatype BatchResponse = HttpError(status: nat) | Failed | Body(payload: Payload)

  /** JavaScript truthiness of `data.error` (absent and empty are falsy). */
  predicate Truthy(s: Option<string>) {
    s.Some? && s.value != ""
  }

  /**
   * An `error` annotation for every candidate of the batch, in order: the calls name
   * exactly the batch's elements, and every one carries status `error` and the reason.
   */
  function ErrorsFor(batch: seq<Candidate>, reason: string): (calls: seq<Annotation>)
    ensures |calls| == |batch|
    ensures forall i :: 0 <= i < |batch| ==> calls[i] == Annotation(batch[i].anchor, "error", reason)
    ensures AnchorsOf(calls) == BatchAnchors(batch)
    ensures forall c :: c in calls ==> c.status == "error" && c.reason == reason
  {
    var calls := seq(|batch|, i requires 0 <= i < |batch| => Annotation(batch[i].anchor, "error", reason));
    assert AnchorsOf(calls) == BatchAnchors(batch) by {
      forall x | x in BatchAnchors(batch) ensures x in AnchorsOf(calls) {
        var k :| 0 <= k < |batch| && batch[k].anchor == x;
        assert calls[k] in calls;
      }
    }
    calls
  }

  lemma ErrorsForSnoc(batch: seq<Candidate>, i: nat, reason: string)
    requires i < |batch|
    ensures ErrorsFor(batch[..i + 1], reason) == ErrorsFor(batch[..i], reason) + [Annotation(batch[i].anchor, "error", reason)]
  {
    var a := ErrorsFor(batch[..i + 1], reason);
    var b := ErrorsFor(batch[..i], reason) + [Annotation(batch[i].anchor, "error", reason)];
    assert |a| == |b|;
    forall j | 0 <= j < |a| ensures a[j] == b[j] {
      assert batch[..i + 1][j] == batch[j];
    }
  }

  /** The annotations one result leads to: one per candidate whose text equals its headline. */
  function MatchesOf(batch: seq<Candidate>, r: ApiResult): (calls: seq<Annotation>)
    ensures AnchorsOf(calls) <= BatchAnchors(batch)
  {
    if batch == [] then []
    else
      var h := batch[|batch| - 1];
      var tail := if h.text == r.headline then [Annotation(h.anchor, r.status, r.reason)] else [];
      AnchorsOfAppend(MatchesOf(batch[..|batch| - 1], r), tail);
      assert BatchAnchors(batch[..|batch| - 1]) <= BatchAnchors(batch) by {
        forall x | x in BatchAnchors(batch[..|batch| - 1]) ensures x in BatchAnchors(batch) {
          var c :| c in batch[..|batch| - 1] && c.anchor == x;
        }
      }
      MatchesOf(batch[..|batch| - 1], r) + tail
  }

  lemma AnchorsOfAppend(a: seq<Annotation>, b: seq<Annotation>)
    ensures AnchorsOf(a + b) == AnchorsOf(a) + AnchorsOf(b)
  {
    assert forall c :: c in a + b <==> c in a || c in b;
  }

  lemma MatchesOfSnoc(batch: seq<Candidate>, j: nat, r: ApiResult)
    requires j < |batch|
    ensures MatchesOf(batch[..j + 1], r) ==
              MatchesOf(batch[..j], r) + if batch[j].text == r.headline then [Annotation(batch[j].anchor, r.status, r.reason)] else []
  {
    assert batch[..j + 1][..j] == batch[..j];
  }

  /** The annotations of all results, result by result. */
  function MatchAll(batch: seq<Candidate>, results: seq<ApiResult>): (calls: seq<Annotation>)
    ensures AnchorsOf(calls) <= BatchAnchors(batch)
  {
    if results == [] then []
    else
      AnchorsOfAppend(MatchAll(batch, results[..|results| - 1]), MatchesOf(batch, results[|results| - 1]));
      MatchAll(batch, results[..|results| - 1]) + MatchesOf(batch, results[|results| - 1])
  }

  /**
   * `checkHeadlinesWithAPI`: the `addResultIcon` calls one batch response leads to.
   * An empty batch sends nothing; a failed request or an `error` body marks every
   * candidate `error`; a non-empty `results` is matched by text; anything else is silent.
   */
  function BatchAnnotations(batch: seq<Candidate>, resp: BatchResponse): (calls: seq<Annotation>)
    ensures batch == [] ==> calls == []
    ensures AnchorsOf(calls) <= BatchAnchors(batch)
    ensures (resp.Body? && (resp.payload.results.None? || resp.payload.results.value == []) &&
             !Truthy(resp.payload.error)) ==> calls == []
  {
    if batch == [] then []
    else
      match resp
      case HttpError(status) => ErrorsFor(batch, "API Error: " + NatToString(status))
      case Failed => ErrorsFor(batch, "API connection failed")
      case Body(p) =>
        if p.results.Some? && |p.results.value| > 0 then MatchAll(batch, p.results.value)
        else if Truthy(p.error) then ErrorsFor(batch, "API Error: " + p.error.value)
        else []
  }

  function BatchAnchors(batch: seq<Candidate>): set<Id> {
    set h | h in batch :: h.anchor
  }

  /** A batch that failed as a whole. */
  predicate FailedBatch(resp: BatchResponse) {
    resp.HttpError? || resp.Failed? ||
    (resp.Body? && (resp.payload.results.None? || resp.payload.results.value == []) && Truthy(resp.payload.error))
  }

  /**
   * Fail-closed: after a failed request or an `error` body, every candidate of the batch
   * that had no icon gets the `error` icon, and no other icon appears.
   */
  lemma FailedBatchMarksAll(icons: map<Id, Icon>, batch: seq<Candidate>, resp: BatchResponse)
    requires FailedBatch(resp)
    ensures ApplyAll(icons, BatchAnnotations(batch, resp)).Keys == icons.Keys + BatchAnchors(batch)
    ensures forall x :: x in ApplyAll(icons, BatchAnnotations(batch, resp)) && x !in icons ==>
              ApplyAll(icons, BatchAnnotations(batch, resp))[x].glyph == QuestionMark &&
              ApplyAll(icons, BatchAnnotations(batch, resp))[x].status == "error"
  {
    var calls := BatchAnnotations(batch, resp);
    forall x | x in ApplyAll(icons, calls) && x !in icons
      ensures ApplyAll(icons, calls)[x].status == "error" && ApplyAll(icons, calls)[x].glyph == QuestionMark
    {
      FirstAnnotationWins(icons, calls, x);
      FirstForIn(calls, x);
    }
  }

  lemma {:induction false} FirstForIn(calls: seq<Annotation>, anchor: Id)
    ensures FirstFor(calls, anchor).Some? ==> FirstFor(calls, anchor).value in calls && FirstFor(calls, anchor).value.anchor == anchor
  {
    if calls != [] && calls[0].anchor != anchor {
      FirstForIn(calls[1..], anchor);
    }
  }

  /** The first result, in response order, whose headline is `text`. */
  function FirstResult(results: seq<ApiResult>, text: string): Option<ApiResult> {
    if results == [] then None
    else if results[0].headline == text then Some(results[0])
    else FirstResult(results[1..], text)
  }

  lemma {:induction false} FirstResultAppend(a: seq<ApiResult>, b: seq<ApiResult>, text: string)
    ensures FirstResult(a + b, text) == if FirstResult(a, text).Some? then FirstResult(a, text) else FirstResult(b, text)
  {
    if a == [] {
      assert a + b == b;
    } else {
      assert (a + b)[1..] == a[1..] + b;
      FirstResultAppend(a[1..], b, text);
    }
  }

  predicate DistinctAnchors(batch: seq<Candidate>) {
    forall i, j :: 0 <= i < j < |batch| ==> batch[i].anchor != batch[j].anchor
  }

  /**
   * Outside the microblog profile a candidate is anchored at its own element, so a pass's
   * batch never names an element twice. (On the microblog the anchor is the tweet-text
   * descendant, whose uniqueness across articles is a property of the page's tree.)
   */
  lemma ScannedBatchDistinct(profile: Profile, elems: seq<Element>, processed: set<Id>)
    requires profile != Microblog
    ensures DistinctAnchors(Candidates(profile, Emitted(profile, elems, processed)))
  {
    var es := Emitted(profile, elems, processed);
    EmittedDistinct(profile, elems, processed);
    assert forall i :: 0 <= i < |es| ==> Candidates(profile, es)[i].anchor == IdSeq(es)[i];
  }

  lemma {:induction false} FirstForMatchesOf(batch: seq<Candidate>, r: ApiResult, k: nat)
    requires DistinctAnchors(batch) && k < |batch|
    ensures FirstFor(MatchesOf(batch, r), batch[k].anchor) ==
              if batch[k].text == r.headline then Some(Annotation(batch[k].anchor, r.status, r.reason)) else None
  {
    var n := |batch|;
    var h := batch[n - 1];
    var tail := if h.text == r.headline then [Annotation(h.anchor, r.status, r.reason)] else [];
    FirstForAppend(MatchesOf(batch[..n - 1], r), tail, batch[k].anchor);
    if k < n - 1 {
      FirstForMatchesOf(batch[..n - 1], r, k);
    } else {
      NoneForAbsent(batch[..n - 1], r, h.anchor);
    }
  }

  lemma {:induction false} NoneForAbsent(batch: seq<Candidate>, r: ApiResult, anchor: Id)
    requires forall i :: 0 <= i < |batch| ==> batch[i].anchor != anchor
    ensures FirstFor(MatchesOf(batch, r), anchor) == None
  {
    if batch != [] {
      var n := |batch|;
      var h := batch[n - 1];
      var tail := if h.text == r.headline then [Annotation(h.anchor, r.status, r.reason)] else [];
      FirstForAppend(MatchesOf(batch[..n - 1], r), tail, anchor);
      NoneForAbsent(batch[..n - 1], r, anchor);
    }
  }

  lemma {:induction false} FirstForMatchAll(batch: seq<Candidate>, results: seq<ApiResult>, k: nat)
    requires DistinctAnchors(batch) && k < |batch|
    ensures FirstFor(MatchAll(batch, results), batch[k].anchor) ==
              match FirstResult(results, batch[k].text)
              case Some(r) => Some(Annotation(batch[k].anchor, r.status, r.reason))
              case None => None
  {
    if results != [] {
      var n := |results|;
      var init := results[..n - 1];
      assert results == init + [results[n - 1]];
      FirstResultAppend(init, [results[n - 1]], batch[k].text);
      FirstForAppend(MatchAll(batch, init), MatchesOf(batch, results[n - 1]), batch[k].anchor);
      FirstForMatchAll(batch, init, k);
      FirstForMatchesOf(batch, results[n - 1], k);
    }
  }

  /**
   * Results are matched by text, not by position: a candidate without an icon gets one
   * exactly when some result's headline equals its text, and the icon is that of the
   * first such result in the response. Elements outside the batch gain no icon, and
   * icons already shown stay as they were.
   */
  lemma MatchedByText(icons: map<Id, Icon>, batch: seq<Candidate>, results: seq<ApiResult>, error: Option<string>, k: nat)
    requires DistinctAnchors(batch) && k < |batch| && batch[k].anchor !in icons
    requires results != []
    ensures var after := ApplyAll(icons, BatchAnnotations(batch, Body(Payload(Some(results), error))));
            (batch[k].anchor in after <==> FirstResult(results, batch[k].text).Some?) &&
            (FirstResult(results, batch[k].text).Some? ==>
               after[batch[k].anchor] == IconOf(Annotation(batch[k].anchor,
                                                           FirstResult(results, batch[k].text).value.status,
                                                           FirstResult(results, batch[k].text).value.reason)))
    ensures var after := ApplyAll(icons, BatchAnnotations(batch, Body(Payload(Some(results), error))));
            after.Keys <= icons.Keys + BatchAnchors(batch) && forall x :: x in icons ==> after[x] == icons[x]
  {
    assert BatchAnnotations(batch, Body(Payload(Some(results), error))) == MatchAll(batch, results);
    FirstAnnotationWins(icons, MatchAll(batch, results), batch[k].anchor);
    FirstForMatchAll(batch, results, k);
  }

  /** The content script's icon state: the `.misinfo-icon` span of each annotated element. */
  class Annotator {
    var icons: map<Id, Icon>

    constructor ()
      ensures icons == map[]
    {
      icons := map[];
    }

    /** `addResultIcon`: does nothing when the element already has an icon. */
    method AddResultIcon(anchor: Id, status: string, reason: string)
      modifies this
      ensures icons == AddIcon(old(icons), Annotation(anchor, status, reason))
    {
      if anchor in icons {
        return;
      }
      icons := icons[anchor := Icon(Glyph(status), Tooltip(status, reason), status)];
    }

    method MarkAllError(batch: seq<Candidate>, reason: string)
      modifies this
      ensures icons == ApplyAll(old(icons), ErrorsFor(batch, reason))
    {
      var i := 0;
      while i < |batch|
        invariant 0 <= i <= |batch|
        invariant icons == ApplyAll(old(icons), ErrorsFor(batch[..i], reason))
      {
        ErrorsForSnoc(batch, i, reason);
        ApplyAllSnoc(old(icons), ErrorsFor(batch[..i], reason), Annotation(batch[i].anchor, "error", reason));
        AddResultIcon(batch[i].anchor, "error", reason);
        i := i + 1;
      }
      assert batch[..i] == batch;
    }

    /** The icons of one result: every candidate whose text equals its headline. */
    method ApplyResult(batch: seq<Candidate>, result: ApiResult)
      modifies this
      ensures icons == ApplyAll(old(icons), MatchesOf(batch, result))
    {
      var j := 0;
      while j < |batch|
        invariant 0 <= j <= |batch|
        invariant icons == ApplyAll(old(icons), MatchesOf(batch[..j], result))
      {
        MatchesOfSnoc(batch, j, result);
        ghost var done := MatchesOf(batch[..j], result);
        if batch[j].text == result.headline {
          ghost var a := Annotation(batch[j].anchor, result.status, result.reason);
          ApplyAllSnoc(old(icons), done, a);
          AddResultIcon(batch[j].anchor, result.status, result.reason);
          assert icons == ApplyAll(old(icons), done + [a]);
        } else {
          assert done + [] == done;
        }
        j := j + 1;
      }
      assert batch[..j] == batch;
    }

    /** The icons of all results, result by result in response order. */
    method ApplyResults(batch: seq<Candidate>, results: seq<ApiResult>)
      modifies this
      ensures icons == ApplyAll(old(icons), MatchAll(batch, results))
    {
      var i := 0;
      while i < |results|
        invariant 0 <= i <= |results|
        invariant icons == ApplyAll(old(icons), MatchAll(batch, results[..i]))
      {
        assert results[..i + 1][..i] == results[..i];
        ApplyAllConcat(old(icons), MatchAll(batch, results[..i]), MatchesOf(batch, results[i]));
        ApplyResult(batch, results[i]);
        i := i + 1;
      }
      assert results[..i] == results;
    }

    /** `checkHeadlinesWithAPI` once the request has ended with `resp`. */
    method CheckHeadlinesWithAPI(batch: seq<Candidate>, resp: BatchResponse)
      modifies this
      ensures icons == ApplyAll(old(icons), BatchAnnotations(batch, resp))
    {
      if batch == [] {
        return;
      }
      match resp {
        case HttpError(status) =>
          MarkAllError(batch, "API Error: " + NatToString(status));
        case Failed =>
          MarkAllError(batch, "API connection failed");
        case Body(p) =>
          if p.results.Some? && |p.results.value| > 0 {
            ApplyResults(batch, p.results.value);
          } else if Truthy(p.error) {
            MarkAllError(batch, "API Error: " + p.error.value);
          }
      }
    }
  }
}
