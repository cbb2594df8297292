/**
 * The favicon handler of a tab.
 *
 * `FaviconHandler` learns the icon URLs a page declares, keeps those of
 * the icon types it handles, downloads them one after another and keeps
 * the best-scoring image as the candidate until an exact match arrives or
 * the list runs out; then the candidate becomes the favicon.  Downloads in
 * flight are kept in a map from download id to request, and a request may
 * carry a caller's callback instead.
 *
 * URLs are their spec strings; images are opaque byte strings and scores
 * are reals, since they are only compared.  The history service, the
 * navigation entry and the download itself are outside the model: whether
 * there is an entry for the page, and the id a download was given, are
 * parameters, and what the handler would go on to do is a result.
 */
module FaviconHandler {
  import opened Wrappers
  import opened Strings

  // ---------------------------------------------------------------------
  // URLs and icon types
  // ---------------------------------------------------------------------

  /** The URL with its fragment (everything from the first '#') cleared. */
  function UrlWithoutFragment(url: string): (r: string)
    ensures r <= url && '#' !in r
    ensures '#' !in url ==> r == url
  {
    match FirstIndex(url, '#')
    case None => url
    case Some(k) => url[..k]
  }

  /** Two URLs match when they agree up to their fragments. */
  predicate UrlMatches(a: string, b: string)
    ensures a == b ==> UrlMatches(a, b)
    ensures '#' !in a && '#' !in b ==> (UrlMatches(a, b) <==> a == b)
  {
    UrlWithoutFragment(a) == UrlWithoutFragment(b)
  }

  /** A fragment never changes which URL is meant. */
  lemma FragmentIgnored(url: string, fragment: string)
    requires '#' !in url
    ensures UrlMatches(url, url + "#" + fragment)
  {
    FirstIndexAfter(url, '#', fragment);
    assert (url + "#" + fragment)[..|url|] == url;
  }

  /** The icon types; as bits they make the handler's mask. */
  datatype IconType = InvalidIcon | Favicon | TouchIcon | TouchPrecomposedIcon

  function Bit(t: IconType): bv8
  {
    match t
    case InvalidIcon => 0
    case Favicon => 1
    case TouchIcon => 2
    case TouchPrecomposedIcon => 4
  }

  /** What the handler is for: the favicon, or the touch icons. */
  datatype HandlerType = HandlerFavicon | HandlerTouch

  function IconTypesFor(handlerType: HandlerType): (mask: bv8)
    ensures handlerType == HandlerFavicon ==> forall t :: Bit(t) & mask != 0 <==> t == Favicon
    ensures handlerType == HandlerTouch ==> forall t :: Bit(t) & mask != 0 <==> t == TouchIcon || t == TouchPrecomposedIcon
  {
    if handlerType == HandlerFavicon then Bit(Favicon) else Bit(TouchIcon) | Bit(TouchPrecomposedIcon)
  }

  /** An icon a page declares. */
  datatype FaviconUrl = FaviconUrl(iconUrl: string, iconType: IconType)

  /** Whether a declared icon is exactly the icon at `url` of type `iconType`. */
  predicate DoUrlAndIconMatch(faviconUrl: FaviconUrl, url: string, iconType: IconType)
    ensures DoUrlAndIconMatch(faviconUrl, url, iconType) <==> faviconUrl == FaviconUrl(url, iconType)
  {
    faviconUrl.iconUrl == url && faviconUrl.iconType == iconType
  }

  /** Whether the handler takes a declared icon: a URL, and a type in the mask. */
  predicate Accepts(candidate: FaviconUrl, iconTypes: bv8)
  {
    candidate.iconUrl != "" && Bit(candidate.iconType) & iconTypes != 0
  }

  /** The declared icons the handler takes, in page order. */
  function AcceptedUrls(candidates: seq<FaviconUrl>, iconTypes: bv8): (r: seq<FaviconUrl>)
    ensures |r| <= |candidates|
  {
    if candidates == [] then []
    else
      var rest := AcceptedUrls(candidates[..|candidates| - 1], iconTypes);
      var last := candidates[|candidates| - 1];
      if Accepts(last, iconTypes) then rest + [last] else rest
  }

  /** Exactly the declared icons the handler takes are kept. */
  lemma {:induction false} AcceptedUrlsMembers(candidates: seq<FaviconUrl>, iconTypes: bv8)
    ensures forall u :: u in AcceptedUrls(candidates, iconTypes) <==> u in candidates && Accepts(u, iconTypes)
    decreases |candidates|
  {
    if candidates != [] {
      var init := candidates[..|candidates| - 1];
      AcceptedUrlsMembers(init, iconTypes);
      assert candidates == init + [candidates[|candidates| - 1]];
    }
  }

  /** Filtering a second time keeps everything. */
  lemma {:induction false} AcceptedUrlsIdempotent(candidates: seq<FaviconUrl>, iconTypes: bv8)
    ensures AcceptedUrls(AcceptedUrls(candidates, iconTypes), iconTypes) == AcceptedUrls(candidates, iconTypes)
    decreases |candidates|
  {
    if candidates != [] {
      var init := candidates[..|candidates| - 1];
      var last := candidates[|candidates| - 1];
      AcceptedUrlsIdempotent(init, iconTypes);
      var r := AcceptedUrls(init, iconTypes);
      if Accepts(last, iconTypes) {
        assert (r + [last])[..|r + [last]| - 1] == r;
      }
    }
  }

  /** The bitmaps the history service returns; only whether one has expired matters here. */
  datatype FaviconBitmapResult = FaviconBitmapResult(expired: bool, iconUrl: string, iconType: IconType)

  /** Whether at least one of the results has expired; the scan stops at the first. */
  method HasExpiredFaviconResult(results: seq<FaviconBitmapResult>) returns (r: bool)
    ensures r <==> exists i :: 0 <= i < |results| && results[i].expired
  {
    for i := 0 to |results|
      invariant forall j :: 0 <= j < i ==> !results[j].expired
    {
      if results[i].expired {
        return true;
      }
    }
    return false;
  }

  // ---------------------------------------------------------------------
  // The candidate
  // ---------------------------------------------------------------------

  datatype Image = Image(bytes: seq<bv8>)

  datatype FaviconCandidate = FaviconCandidate(url: string, imageUrl: string, image: Image, score: real, iconType: IconType)

  /** The default candidate: none yet. */
  const NoCandidate := FaviconCandidate("", "", Image([]), 0.0, InvalidIcon)

  /**
   * Whether a downloaded image replaces the current candidate: always
   * without a preferred size or without a candidate, on an exact match
   * (score 1), and otherwise only for a strictly better score.  The second
   * half is whether the image is taken as final.
   */
  function CandidateStep(current: FaviconCandidate, preferredIconSize: int, offered: FaviconCandidate)
    : (r: (FaviconCandidate, bool))
    ensures r.1 <==> preferredIconSize == 0 || offered.score == 1.0
    ensures r.0 == offered || r.0 == current
    ensures preferredIconSize == 0 || current.iconType == InvalidIcon || offered.score == 1.0 ==> r.0 == offered
    ensures r.0 != current ==> r.0 == offered
    ensures preferredIconSize != 0 && current.iconType != InvalidIcon && offered.score != 1.0 ==>
              r.0 == (if offered.score > current.score then offered else current)
  {
    var exactMatch := offered.score == 1.0;
    if preferredIconSize == 0 then (offered, true)
    else if current.iconType == InvalidIcon then (offered, exactMatch)
    else if exactMatch then (offered, true)
    else if offered.score > current.score then (offered, false)
    else (current, false)
  }

  /** The candidate after a series of downloads, none of them final. */
  function CandidateAfter(current: FaviconCandidate, preferredIconSize: int, offered: seq<FaviconCandidate>)
    : FaviconCandidate
    decreases |offered|
  {
    if offered == [] then current
    else CandidateAfter(CandidateStep(current, preferredIconSize, offered[0]).0, preferredIconSize, offered[1..])
  }

  /**
   * With a preferred size and no exact match, the candidate ends as an
   * offered image whose score no other offered image beats.
   */
  lemma {:induction false} BestCandidateKept(current: FaviconCandidate, preferredIconSize: int,
                                             offered: seq<FaviconCandidate>)
    requires preferredIconSize != 0 && offered != []
    requires forall i :: 0 <= i < |offered| ==> offered[i].score != 1.0 && offered[i].iconType != InvalidIcon
    ensures CandidateAfter(current, preferredIconSize, offered) in offered
            || (current.iconType != InvalidIcon && CandidateAfter(current, preferredIconSize, offered) == current)
    ensures forall i :: 0 <= i < |offered| ==> offered[i].score <= CandidateAfter(current, preferredIconSize, offered).score
    decreases |offered|
  {
    var next := CandidateStep(current, preferredIconSize, offered[0]).0;
    if |offered| > 1 {
      BestCandidateKept(next, preferredIconSize, offered[1..]);
      ScoreNeverDrops(next, preferredIconSize, offered[1..]);
      assert forall i :: 1 <= i < |offered| ==> offered[i] == offered[1..][i - 1];
    }
  }

  /** Without an exact match, a valid candidate's score only grows. */
  lemma {:induction false} ScoreNeverDrops(current: FaviconCandidate, preferredIconSize: int,
                                           offered: seq<FaviconCandidate>)
    requires preferredIconSize != 0
    requires forall i :: 0 <= i < |offered| ==> offered[i].score != 1.0 && offered[i].iconType != InvalidIcon
    ensures current.iconType != InvalidIcon ==> current.score <= CandidateAfter(current, preferredIconSize, offered).score
    ensures offered != [] ==> CandidateAfter(current, preferredIconSize, offered).iconType != InvalidIcon
    decreases |offered|
  {
    if offered != [] {
      var next := CandidateStep(current, preferredIconSize, offered[0]).0;
      ScoreNeverDrops(next, preferredIconSize, offered[1..]);
    }
  }

  // ---------------------------------------------------------------------
  // Downloads
  // ---------------------------------------------------------------------

  /** A download in flight; `callback` names the caller's callback, if there is one. */
  datatype DownloadRequest = DownloadRequest(url: string, imageUrl: string, callback: Option<int>, iconType: IconType)

  /** One run of a caller's download callback. */
  datatype CallbackRun = CallbackRun(callback: int, downloadId: int, errored: bool)

  /** What a finished download led to. */
  datatype DownloadOutcome =
    /** The id was not one of this handler's downloads. */
    | NotRequested
    | CallbackRan(run: CallbackRun)
    /** The icon list changed while downloading; the image is dropped. */
    | Stale
    /** The next declared icon is to be processed. */
    | NextIcon
    /** The candidate becomes the favicon. */
    | FaviconSet(candidate: FaviconCandidate)
    /** Nothing to set yet. */
    | NoCandidateYet

  class Handler {
    const iconTypes: bv8
    const preferredIconSize: int
    /** The page whose favicon is wanted. */
    var url: string
    var gotFaviconFromHistory: bool
    var faviconExpired: bool
    /** The declared icons not yet tried; the front one is the current candidate URL. */
    var imageUrls: seq<FaviconUrl>
    var faviconCandidate: FaviconCandidate
    var downloadRequests: map<int, DownloadRequest>

    constructor (handlerType: HandlerType, preferredIconSize: int)
      ensures iconTypes == IconTypesFor(handlerType) && this.preferredIconSize == preferredIconSize
      ensures !gotFaviconFromHistory && !faviconExpired && imageUrls == [] && faviconCandidate == NoCandidate
      ensures downloadRequests == map[] && url == ""
    {
      iconTypes := IconTypesFor(handlerType);
      this.preferredIconSize := preferredIconSize;
      url := "";
      gotFaviconFromHistory := false;
      faviconExpired := false;
      imageUrls := [];
      faviconCandidate := NoCandidate;
      downloadRequests := map[];
    }

    /** A new page: forget what was learnt about the previous one, but keep the downloads in flight. */
    method FetchFavicon(pageUrl: string)
      modifies this`url, this`faviconExpired, this`gotFaviconFromHistory, this`imageUrls
      ensures url == pageUrl && !faviconExpired && !gotFaviconFromHistory && imageUrls == []
    {
      url := pageUrl;
      faviconExpired := false;
      gotFaviconFromHistory := false;
      imageUrls := [];
    }

    /** Offers a downloaded image; the result says whether it is taken as final. */
    method UpdateFaviconCandidate(pageUrl: string, imageUrl: string, image: Image, score: real, iconType: IconType)
      returns (exactMatch: bool)
      modifies this`faviconCandidate
      ensures (faviconCandidate, exactMatch)
              == CandidateStep(old(faviconCandidate), preferredIconSize,
                               FaviconCandidate(pageUrl, imageUrl, image, score, iconType))
    {
      var updateCandidate := false;
      exactMatch := score == 1.0;
      if preferredIconSize == 0 {
        updateCandidate := true;
        exactMatch := true;
      } else if faviconCandidate.iconType == InvalidIcon {
        updateCandidate := true;
      } else {
        if exactMatch {
          updateCandidate := true;
        } else {
          if score > faviconCandidate.score {
            updateCandidate := true;
          }
        }
      }
      if updateCandidate {
        faviconCandidate := FaviconCandidate(pageUrl, imageUrl, image, score, iconType);
      }
    }

    /**
     * The page declared its icons: the candidate is reset and the icons of
     * the handled types are kept in order.  The result is whether there is
     * an icon to process now (and a favicon service to ask).
     */
    method OnUpdateFaviconUrl(candidates: seq<FaviconUrl>, hasFaviconService: bool) returns (process: bool)
      modifies this`imageUrls, this`faviconCandidate
      ensures imageUrls == AcceptedUrls(candidates, iconTypes)
      ensures faviconCandidate == NoCandidate
      ensures process <==> imageUrls != [] && hasFaviconService
    {
      var urls := [];
      for i := 0 to |candidates|
        invariant urls == AcceptedUrls(candidates[..i], iconTypes)
      {
        assert candidates[..i + 1][..i] == candidates[..i];
        if Accepts(candidates[i], iconTypes) {
          urls := urls + [candidates[i]];
        }
      }
      assert candidates[..|candidates|] == candidates;
      imageUrls := urls;
      faviconCandidate := NoCandidate;
      process := imageUrls != [] && hasFaviconService;
    }

    /**
     * Records a download the delegate started under `downloadId`; an id of
     * 0 means no download was started and nothing is recorded.
     */
    method ScheduleDownload(pageUrl: string, imageUrl: string, iconType: IconType, callback: Option<int>,
                            downloadId: int) returns (id: int)
      modifies this`downloadRequests
      ensures id == downloadId
      ensures downloadId != 0 ==>
                downloadRequests == old(downloadRequests)[downloadId := DownloadRequest(pageUrl, imageUrl, callback, iconType)]
      ensures downloadId == 0 ==> downloadRequests == old(downloadRequests)
    {
      id := downloadId;
      if downloadId != 0 {
        downloadRequests := downloadRequests[downloadId := DownloadRequest(pageUrl, imageUrl, callback, iconType)];
      }
    }

    /**
     * A download finished.  Unknown ids are ignored; a request with a
     * callback hands the result to it; otherwise, if the image is still for
     * the current icon, it is offered as candidate, and either the next
     * icon is tried or the candidate is set.  A known id is always
     * forgotten.  `hasEntry` says whether the tab still shows the page.
     */
    method OnDidDownloadFavicon(id: int, imageUrl: string, errored: bool, image: Image, score: real, hasEntry: bool)
      returns (outcome: DownloadOutcome)
      modifies this`downloadRequests, this`imageUrls, this`faviconCandidate
      ensures id !in old(downloadRequests) ==> outcome == NotRequested && unchanged(this)
      ensures id in old(downloadRequests) ==> downloadRequests == old(downloadRequests) - {id} && !outcome.NotRequested?
      ensures id in old(downloadRequests) && old(downloadRequests)[id].callback.Some? ==>
                outcome == CallbackRan(CallbackRun(old(downloadRequests)[id].callback.value, id, errored))
                && imageUrls == old(imageUrls) && faviconCandidate == old(faviconCandidate)
      ensures outcome.Stale? ==> imageUrls == old(imageUrls) && faviconCandidate == old(faviconCandidate)
      ensures outcome.NextIcon? ==> |old(imageUrls)| > 1 && imageUrls == old(imageUrls)[1..] && hasEntry
      ensures outcome.FaviconSet? ==>
                outcome.candidate.iconType != InvalidIcon && imageUrls == [] && faviconCandidate == NoCandidate
      ensures outcome.NoCandidateYet? ==> imageUrls == old(imageUrls) && faviconCandidate.iconType == InvalidIcon
      ensures id in old(downloadRequests) && old(downloadRequests)[id].callback.None? ==>
                (outcome.Stale? <==> old(imageUrls) == [] ||
                                     !DoUrlAndIconMatch(old(imageUrls)[0], imageUrl, old(downloadRequests)[id].iconType))
      // A current image: an error keeps the candidate and asks for the next
      // icon; otherwise the candidate step decides both.
      ensures id in old(downloadRequests) && old(downloadRequests)[id].callback.None? && !outcome.Stale? ==>
                var request := old(downloadRequests)[id];
                var step := CandidateStep(old(faviconCandidate), preferredIconSize,
                                          FaviconCandidate(request.url, imageUrl, image, score, request.iconType));
                var kept := if errored then old(faviconCandidate) else step.0;
                var requestNextIcon := errored || !step.1;
                && (outcome.NextIcon? <==> requestNextIcon && hasEntry && |old(imageUrls)| > 1)
                && (outcome.FaviconSet? <==>
                      !(requestNextIcon && hasEntry && |old(imageUrls)| > 1) && kept.iconType != InvalidIcon)
                && (outcome.FaviconSet? ==> outcome.candidate == kept)
                && (!outcome.FaviconSet? ==> faviconCandidate == kept)
    {
      if id !in downloadRequests {
        return NotRequested;
      }
      var request := downloadRequests[id];
      if request.callback.Some? {
        outcome := CallbackRan(CallbackRun(request.callback.value, id, errored));
      } else if imageUrls != [] && DoUrlAndIconMatch(imageUrls[0], imageUrl, request.iconType) {
        var requestNextIcon := true;
        if !errored {
          var exactMatch := UpdateFaviconCandidate(request.url, imageUrl, image, score, request.iconType);
          requestNextIcon := !exactMatch;
        }
        if requestNextIcon && hasEntry && |imageUrls| > 1 {
          imageUrls := imageUrls[1..];
          outcome := NextIcon;
        } else if faviconCandidate.iconType != InvalidIcon {
          outcome := FaviconSet(faviconCandidate);
          imageUrls := [];
          faviconCandidate := NoCandidate;
        } else {
          outcome := NoCandidateYet;
        }
      } else {
        outcome := Stale;
      }
      downloadRequests := downloadRequests - {id};
    }

    /**
     * The handler goes away: every pending download with a callback has
     * it run, with an error, in ascending id order.
     */
    method RunPendingCallbacks() returns (runs: seq<CallbackRun>)
      ensures forall i :: 0 <= i < |runs| ==> runs[i].errored
      ensures forall i :: 0 <= i < |runs| ==>
                runs[i].downloadId in downloadRequests
                && downloadRequests[runs[i].downloadId].callback == Some(runs[i].callback)
      ensures forall id :: id in downloadRequests && downloadRequests[id].callback.Some? ==>
                exists i :: 0 <= i < |runs| && runs[i].downloadId == id
      ensures forall i, j :: 0 <= i < j < |runs| ==> runs[i].downloadId < runs[j].downloadId
    {
      var requests := downloadRequests;
      runs := [];
      var remaining := requests.Keys;
      while remaining != {}
        invariant remaining <= requests.Keys
        invariant forall i :: 0 <= i < |runs| ==> runs[i].errored
        invariant forall i :: 0 <= i < |runs| ==>
                    runs[i].downloadId in requests
                    && requests[runs[i].downloadId].callback == Some(runs[i].callback)
        invariant forall id :: id in requests && id !in remaining && requests[id].callback.Some? ==>
                    exists i :: 0 <= i < |runs| && runs[i].downloadId == id
        invariant forall i, k :: 0 <= i < |runs| && k in remaining ==> runs[i].downloadId < k
        invariant forall i, j :: 0 <= i < j < |runs| ==> runs[i].downloadId < runs[j].downloadId
        decreases |remaining|
      {
        ghost var least := Minimum(remaining);
        var id :| id in remaining && forall k :: k in remaining ==> id <= k;
        var request := requests[id];
        if request.callback.Some? {
          var before := runs;
          runs := runs + [CallbackRun(request.callback.value, id, true)];
          assert forall i :: 0 <= i < |before| ==> runs[i] == before[i];
          assert runs[|runs| - 1].downloadId == id;
        }
        remaining := remaining - {id};
      }
    }
  }

  /** The least element of a non-empty set of ids. */
  lemma {:induction false} Minimum(s: set<int>) returns (m: int)
    requires s != {}
    ensures m in s && forall k :: k in s ==> m <= k
    decreases |s|
  {
    if forall y :: y !in s {
      assert false;
    }
    var x :| x in s;
    var rest := s - {x};
    if rest == {} {
      assert s == {x};
      m := x;
    } else {
      var n := Minimum(rest);
      m := if x < n then x else n;
      assert forall k :: k in s ==> k == x || k in rest;
    }
  }
}
