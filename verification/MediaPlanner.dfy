/** Scanning a download and planning its media, step by step. */
module MediaPlanner {
  import opened Wrappers
  import opened Orders
  import opened MediaPlan
  import opened MediaPlanProperties

  // ---------------------------------------------------------------- scanning

  const VIDEO_EXTENSIONS: set<string> := {"mp4", "mkv", "avi", "mov", "m4v", "wmv", "flv", "ts", "m2ts", "webm"}
  const SUBTITLE_EXTENSIONS: set<string> := {"srt", "ass", "ssa", "vtt"}

  datatype Scan = Scan(videos: seq<RemoteFile>, subtitles: seq<RemoteFile>)

  datatype ScanProblem = DuplicateFileId

  predicate Usable(f: RemoteFile) {
    !f.isDirectory && f.id != "" && f.parent != "" && f.pickcode != ""
  }

  predicate IsVideo(f: RemoteFile, excluded: set<string>) {
    && Usable(f) && f.extension in VIDEO_EXTENSIONS && f.size >= MIN_VIDEO_BYTES && f.blocked != Some(true)
    && forall t :: t in f.tokens ==> t !in excluded
  }

  predicate IsSubtitle(f: RemoteFile, excluded: set<string>) {
    && Usable(f) && !IsVideo(f, excluded) && f.extension in SUBTITLE_EXTENSIONS
    && 1 <= f.size <= MAX_SUBTITLE_BYTES && f.blocked != Some(true)
  }

  /** Directory, case-folded name, id. */
  predicate FileBefore(f: RemoteFile, g: RemoteFile) {
    if f.parent != g.parent then TextBefore(f.parent, g.parent)
    else if f.foldedName != g.foldedName then TextBefore(f.foldedName, g.foldedName)
    else TextBefore(f.id, g.id)
  }

  lemma FilesAreOrdered(files: set<RemoteFile>)
    requires DistinctIds(files)
    ensures StrictOrder(files, FileBefore)
  {
    forall f, g, h | f in files && g in files && h in files
      ensures !FileBefore(f, f) && (f != g ==> (FileBefore(f, g) <==> !FileBefore(g, f)))
      ensures FileBefore(f, g) && FileBefore(g, h) ==> FileBefore(f, h)
    {
      TextOrder(f.parent, g.parent, h.parent);
      TextOrder(f.foldedName, g.foldedName, h.foldedName);
      TextOrder(f.id, g.id, h.id);
    }
  }

  predicate Clash(files: seq<RemoteFile>, i: nat, j: nat)
    requires i < |files| && j < |files|
  {
    !files[i].isDirectory && !files[j].isDirectory && files[i].id == files[j].id
  }

  ghost predicate HasDuplicates(files: seq<RemoteFile>) {
    exists i, j :: 0 <= i < j < |files| && Clash(files, i, j)
  }

  /** A listing with a repeated file id is refused; otherwise the videos and subtitles are found,
      in file order. `excluded` holds the tokens of samples and advertisements. */
  method ScanRemoteFiles(files: seq<RemoteFile>, excluded: set<string>) returns (r: Result<Scan, ScanProblem>)
    ensures r.Err? <==> HasDuplicates(files)
    ensures r.Ok? ==>
              && Elements(r.value.videos) == (set f | f in files && IsVideo(f, excluded))
              && Elements(r.value.subtitles) == (set f | f in files && IsSubtitle(f, excluded))
              && InOrder(r.value.videos, FileBefore) && InOrder(r.value.subtitles, FileBefore)
              && DistinctIds(Elements(r.value.videos)) && BigEnough(Elements(r.value.videos))
  {
    hide FileBefore;
    var videos: seq<RemoteFile>, subtitles: seq<RemoteFile>, seen := [], [], {};
    for i := 0 to |files|
      invariant seen == set f | f in files[..i] && !f.isDirectory :: f.id
      invariant !HasDuplicates(files[..i])
      invariant Elements(videos) == set f | f in files[..i] && IsVideo(f, excluded)
      invariant Elements(subtitles) == set f | f in files[..i] && IsSubtitle(f, excluded)
    {
      hide IsVideo, IsSubtitle;
      var f := files[i];
      assert files[..i + 1] == files[..i] + [f];
      if !f.isDirectory && f.id in seen {
        var g :| g in files[..i] && !g.isDirectory && g.id == f.id;
        var j :| 0 <= j < i && files[j] == g;
        assert Clash(files, j, i);
        return Err(DuplicateFileId);
      }
      NoNewClash(files, i);
      ScanKinds(f, excluded);
      if !f.isDirectory {
        seen := seen + {f.id};
        if IsVideo(f, excluded) {
          videos := videos + [f];
        } else if IsSubtitle(f, excluded) {
          subtitles := subtitles + [f];
        }
      }
      AddedKind(files, i, excluded);
    }
    assert files[..|files|] == files;
    NoClashIsDistinct(files, Elements(videos));
    NoClashIsDistinct(files, Elements(subtitles));
    FilesAreOrdered(Elements(videos));
    FilesAreOrdered(Elements(subtitles));
    var v := SortBy(Elements(videos), FileBefore);
    var s := SortBy(Elements(subtitles), FileBefore);
    return Ok(Scan(v, s));
  }

  lemma ScanKinds(f: RemoteFile, excluded: set<string>)
    ensures f.isDirectory ==> !IsVideo(f, excluded) && !IsSubtitle(f, excluded)
    ensures IsVideo(f, excluded) ==> !IsSubtitle(f, excluded)
  {
  }

  lemma AddedKind(files: seq<RemoteFile>, i: nat, excluded: set<string>)
    requires i < |files|
    ensures (set f | f in files[..i + 1] && IsVideo(f, excluded))
            == (set f | f in files[..i] && IsVideo(f, excluded)) + if IsVideo(files[i], excluded) then {files[i]} else {}
    ensures (set f | f in files[..i + 1] && IsSubtitle(f, excluded))
            == (set f | f in files[..i] && IsSubtitle(f, excluded)) + if IsSubtitle(files[i], excluded) then {files[i]} else {}
  {
    hide IsVideo, IsSubtitle;
    assert files[..i + 1] == files[..i] + [files[i]];
  }

  lemma NoNewClash(files: seq<RemoteFile>, i: nat)
    requires i < |files| && !HasDuplicates(files[..i])
    requires !files[i].isDirectory ==> forall f :: f in files[..i] && !f.isDirectory ==> f.id != files[i].id
    ensures !HasDuplicates(files[..i + 1])
  {
    var before, after := files[..i], files[..i + 1];
    forall j, k | 0 <= j < k < |after| ensures !Clash(after, j, k) {
      assert after[j] == before[j] && before[j] in before;
      assert k < i ==> after[k] == before[k] && !Clash(before, j, k);
    }
  }

  lemma NoClashIsDistinct(files: seq<RemoteFile>, kept: set<RemoteFile>)
    requires !HasDuplicates(files) && forall f :: f in kept ==> f in files && !f.isDirectory
    ensures DistinctIds(kept)
  {
    forall f, g | f in kept && g in kept && f.id == g.id ensures f == g {
      var i :| 0 <= i < |files| && files[i] == f;
      var j :| 0 <= j < |files| && files[j] == g;
      assert i < j ==> Clash(files, i, j);
      assert j < i ==> Clash(files, j, i);
    }
  }

  // ---------------------------------------------------------------- grouping

  /** Whether the sorted parts of a bucket are numbered 1, 2, … */
  method NumbersAreContinuous(parts: seq<RemoteFile>) returns (ok: bool)
    ensures ok <==> NumberedThrough(parts)
  {
    if |parts| < 2 {
      return false;
    }
    for i := 0 to |parts|
      invariant forall j :: 0 <= j < i ==> PartNo(parts[j]) == j + 1
    {
      if PartNo(parts[i]) != i + 1 {
        return false;
      }
    }
    return true;
  }

  ghost predicate Filled(files: seq<RemoteFile>, n: nat, buckets: map<BucketKey, seq<RemoteFile>>, singles: seq<RemoteFile>)
    requires n <= |files|
  {
    && (forall key :: key in buckets ==> buckets[key] != [] && Elements(buckets[key]) == Bucket(Elements(files[..n]), key))
    && (forall f :: f in files[..n] && BucketOf(f).Some? ==> BucketOf(f).value in buckets)
    && Elements(singles) == set f | f in files[..n] && BucketOf(f) == None
  }

  /** Sort the files into buckets of numbered parts and singles. */
  method FillBuckets(files: seq<RemoteFile>) returns (buckets: map<BucketKey, seq<RemoteFile>>, singles: seq<RemoteFile>)
    ensures Filled(files, |files|, buckets, singles)
  {
    hide BucketOf;
    buckets, singles := map[], [];
    for i := 0 to |files|
      invariant Filled(files, i, buckets, singles)
    {
      var f := files[i];
      ghost var before := buckets;
      assert files[..i + 1] == files[..i] + [f];
      if BucketOf(f) == None {
        ElementsAppended(singles, f);
        singles := singles + [f];
      } else {
        var key := BucketOf(f).value;
        assert key !in buckets ==> Bucket(Elements(files[..i]), key) == {};
        buckets := buckets[key := (if key in buckets then buckets[key] else []) + [f]];
      }
      forall key | key in buckets ensures buckets[key] != [] && Elements(buckets[key]) == Bucket(Elements(files[..i + 1]), key) {
        assert BucketOf(f) == Some(key) ==> buckets[key] == (if key in before then before[key] else []) + [f];
        assert BucketOf(f) != Some(key) ==> key in before && buckets[key] == before[key];
        assert Bucket(Elements(files[..i + 1]), key) == Bucket(Elements(files[..i]), key) + if BucketOf(f) == Some(key) then {f} else {};
      }
      assert forall g :: g in files[..i + 1] <==> g in files[..i] || g == f;
      assert forall g :: g in files[..i + 1] && BucketOf(g).Some? ==> BucketOf(g).value in buckets;
      assert Elements(singles) == set g | g in files[..i + 1] && BucketOf(g) == None;
    }
  }

  /** The candidates of the buckets already looked at. */
  ghost predicate Grouped(all: set<RemoteFile>, done: set<BucketKey>, groups: seq<Candidate>, singles: seq<RemoteFile>)
    requires DistinctIds(all)
  {
    && Elements(groups) == (set f | f in all && BucketOf(f).Some? && BucketOf(f).value in done && InChain(all, f) :: CandidateOf(all, f))
    && Elements(singles) == (set f | f in all && (BucketOf(f) == None || (BucketOf(f).value in done && !InChain(all, f))))
  }

  method CandidateGroups(files: seq<RemoteFile>) returns (groups: seq<Candidate>)
    requires DistinctIds(Elements(files))
    ensures Elements(groups) == Candidates(Elements(files))
  {
    hide PartBefore, BucketOf, Bucket, StrictOrder, DistinctIds, CandidateOf, InChain;
    ghost var all := Elements(files);
    var buckets, singles := FillBuckets(files);
    assert files[..|files|] == files;
    groups := [];
    var rest := buckets.Keys;
    NothingGrouped(all, groups, singles);
    while rest != {}
      invariant rest <= buckets.Keys && Grouped(all, buckets.Keys - rest, groups, singles)
      decreases |rest|
    {
      var key :| key in rest;
      BucketIsDistinct(all, key);
      PartsAreOrdered(Elements(buckets[key]));
      var numbered := SortBy(Elements(buckets[key]), PartBefore);
      var continuous := NumbersAreContinuous(numbered);
      ghost var done, was := buckets.Keys - rest, groups;
      ghost var loose := singles;
      assert buckets[key][0] in Elements(buckets[key]);
      if continuous {
        groups := groups + [Candidate(SegmentKey(key), numbered)];
      } else {
        singles := singles + numbered;
      }
      OneMoreBucket(all, done, key, was, loose, numbered, groups, singles);
      rest := rest - {key};
      assert buckets.Keys - rest == done + {key};
    }
    ghost var chained := groups;
    for i := 0 to |singles|
      invariant Elements(groups) == Elements(chained) + SingleCandidates(singles[..i])
    {
      ElementsAppended(groups, Candidate(SingleKey(singles[i]), [singles[i]]));
      groups := groups + [Candidate(SingleKey(singles[i]), [singles[i]])];
      OneMoreSingle(singles, i);
    }
    assert singles[..|singles|] == singles;
    AllGrouped(all, buckets.Keys, chained, singles, groups);
  }

  function SingleCandidates(singles: seq<RemoteFile>): set<Candidate> {
    set f | f in singles :: Candidate(SingleKey(f), [f])
  }

  lemma OneMoreSingle(singles: seq<RemoteFile>, i: nat)
    requires i < |singles|
    ensures SingleCandidates(singles[..i + 1]) == SingleCandidates(singles[..i]) + {Candidate(SingleKey(singles[i]), [singles[i]])}
  {
    assert singles[..i + 1] == singles[..i] + [singles[i]];
  }

  lemma NothingGrouped(all: set<RemoteFile>, groups: seq<Candidate>, singles: seq<RemoteFile>)
    requires DistinctIds(all) && groups == [] && Elements(singles) == set f | f in all && BucketOf(f) == None
    ensures Grouped(all, {}, groups, singles)
  {
    hide InChain, CandidateOf;
  }

  lemma BucketIsDistinct(all: set<RemoteFile>, key: BucketKey)
    requires DistinctIds(all)
    ensures DistinctIds(Bucket(all, key))
  {
  }

  lemma OneMoreBucket(all: set<RemoteFile>, done: set<BucketKey>, key: BucketKey, groups: seq<Candidate>, singles: seq<RemoteFile>,
                      numbered: seq<RemoteFile>, groups': seq<Candidate>, singles': seq<RemoteFile>)
    requires DistinctIds(all) && DistinctIds(Bucket(all, key)) && Grouped(all, done, groups, singles) && Bucket(all, key) != {}
    requires numbered == Parts(Bucket(all, key)) && Elements(numbered) == Bucket(all, key)
    requires groups' == if NumberedThrough(numbered) then groups + [Candidate(SegmentKey(key), numbered)] else groups
    requires singles' == if NumberedThrough(numbered) then singles else singles + numbered
    ensures Grouped(all, done + {key}, groups', singles')
  {
    hide Chained, Parts, NumberedThrough, DistinctIds, Elements;
    ChainedExactly(all, key);
    assert forall f :: f in Bucket(all, key) ==> f in all && BucketOf(f) == Some(key) && (InChain(all, f) <==> NumberedThrough(numbered));
    assert forall f :: f in Bucket(all, key) && InChain(all, f) ==> CandidateOf(all, f) == Candidate(SegmentKey(key), numbered);
    GroupsGrow(all, done, key, groups, numbered, groups');
    SinglesGrow(all, done, key, singles, numbered, singles');
  }

  lemma GroupsGrow(all: set<RemoteFile>, done: set<BucketKey>, key: BucketKey, groups: seq<Candidate>,
                   numbered: seq<RemoteFile>, groups': seq<Candidate>)
    requires DistinctIds(all) && Bucket(all, key) != {}
    requires Elements(groups) == (set f | f in all && BucketOf(f).Some? && BucketOf(f).value in done && InChain(all, f) :: CandidateOf(all, f))
    requires forall f :: f in Bucket(all, key) ==> (InChain(all, f) <==> NumberedThrough(numbered))
    requires forall f :: f in Bucket(all, key) && InChain(all, f) ==> CandidateOf(all, f) == Candidate(SegmentKey(key), numbered)
    requires groups' == if NumberedThrough(numbered) then groups + [Candidate(SegmentKey(key), numbered)] else groups
    ensures Elements(groups') ==
              (set f | f in all && BucketOf(f).Some? && BucketOf(f).value in done + {key} && InChain(all, f) :: CandidateOf(all, f))
  {
    hide InChain, CandidateOf, NumberedThrough, BucketOf;
    var f :| f in Bucket(all, key);
    assert forall g :: g in Bucket(all, key) <==> g in all && BucketOf(g) == Some(key);
    assert Elements(groups') == Elements(groups) + if NumberedThrough(numbered) then {Candidate(SegmentKey(key), numbered)} else {};
  }

  lemma SinglesGrow(all: set<RemoteFile>, done: set<BucketKey>, key: BucketKey, singles: seq<RemoteFile>,
                    numbered: seq<RemoteFile>, singles': seq<RemoteFile>)
    requires Elements(singles) == (set f | f in all && (BucketOf(f) == None || (BucketOf(f).value in done && !InChain(all, f))))
    requires Elements(numbered) == Bucket(all, key)
    requires forall f :: f in Bucket(all, key) ==> (InChain(all, f) <==> NumberedThrough(numbered))
    requires singles' == if NumberedThrough(numbered) then singles else singles + numbered
    ensures Elements(singles') == (set f | f in all && (BucketOf(f) == None || (BucketOf(f).value in done + {key} && !InChain(all, f))))
  {
    hide InChain, NumberedThrough, BucketOf;
    assert forall g :: g in Bucket(all, key) <==> g in all && BucketOf(g) == Some(key);
    assert Elements(singles') == Elements(singles) + if NumberedThrough(numbered) then {} else Elements(numbered);
  }

  lemma AllGrouped(all: set<RemoteFile>, done: set<BucketKey>, chained: seq<Candidate>, singles: seq<RemoteFile>, groups: seq<Candidate>)
    requires DistinctIds(all) && Grouped(all, done, chained, singles)
    requires forall f :: f in all && BucketOf(f).Some? ==> BucketOf(f).value in done
    requires Elements(groups) == Elements(chained) + SingleCandidates(singles)
    ensures Elements(groups) == Candidates(all)
  {
    hide Chained, Parts, BucketOf;
    assert forall f :: f in singles <==> f in Elements(singles);
    forall c ensures c in Elements(groups) <==> c in Candidates(all) {
      if c in Candidates(all) {
        var f :| f in all && c == CandidateOf(all, f);
        if InChain(all, f) {
          assert c in Elements(chained);
        } else {
          assert f in singles && c == Candidate(SingleKey(f), [f]);
        }
      }
    }
  }

  // ---------------------------------------------------------------- the plan

  /** The points of a file, rule by rule. */
  method ScoreMedia(f: RemoteFile, wanted: seq<string>) returns (score: int, evidence: seq<Evidence>)
    ensures score == Score(f, wanted) && evidence == EvidenceOf(f, wanted) && score == Points(evidence)
  {
    hide ContainsNumber, SizeScore, Points;
    assert Points(EvidenceOf(f, wanted)) == Score(f, wanted) by {
      EvidenceAddsUp(f, wanted);
    }
    evidence := [Evidence("valid_video", 10)];
    score := 10;
    if f.isVideo == Some(true) {
      evidence := evidence + [Evidence("upstream_video", 10)];
      score := score + 10;
    }
    if f.duration.Some? && f.duration.value >= LONG_VIDEO_SECONDS {
      evidence := evidence + [Evidence("duration_20m", 10)];
      score := score + 10;
    }
    if ContainsNumber(f.tokens, wanted) {
      evidence := evidence + [Evidence("movie_number", 100)];
      score := score + 100;
    }
    if SizeScore(f) != 0 {
      evidence := evidence + [Evidence("size_units", SizeScore(f))];
      score := score + SizeScore(f);
    }
  }

  method ScoreMembers(c: Candidate, wanted: seq<string>) returns (media: seq<ScoredMedia>)
    ensures media == ScoredMembers(c, wanted)
  {
    hide Score, EvidenceOf, Points;
    media := [];
    for i := 0 to |c.members|
      invariant |media| == i && forall j :: 0 <= j < i ==> media[j] == Scored(c, j, wanted)
    {
      var score, evidence := ScoreMedia(c.members[i], wanted);
      if |c.members| > 1 {
        score := score + 20;
        evidence := evidence + [Evidence("continuous_segments", 20)];
      } else {
        assert evidence + [] == evidence;
      }
      media := media + [ScoredMedia(c.members[i], c.key, i, score, evidence)];
    }
  }

  /** The plan depends on the files given, not on their order. */
  method PlanMediaSelection(files: seq<RemoteFile>, wanted: seq<string>) returns (plan: Plan)
    requires DistinctIds(Elements(files)) && PlainNames(Elements(files))
    ensures plan == PlanOf(Elements(files), wanted)
  {
    hide RanksBefore, CandidateOf, DistinctIds, PlainNames, CandidateScore;
    var groups := CandidateGroups(files);
    RanksAreOrdered(Elements(files), wanted);
    var ranked := SortBy(Elements(groups), ByRank(wanted));
    if ranked == [] {
      return Plan([], None, false);
    }
    var selected;
    if |ranked| == 1 {
      selected := Some(ranked[0].key);
    } else if CandidateScore(ranked[0], wanted) - CandidateScore(ranked[1], wanted) >= AUTO_SELECTION_SCORE_GAP {
      selected := Some(ranked[0].key);
    } else {
      selected := None;
    }
    var media := [];
    for i := 0 to |ranked|
      invariant media == Listed(ranked[..i], wanted)
    {
      assert ranked[..i + 1][..|ranked[..i + 1]| - 1] == ranked[..i];
      var members := ScoreMembers(ranked[i], wanted);
      media := media + members;
    }
    assert ranked[..|ranked|] == ranked;
    return Plan(media, selected, selected == None);
  }

  /** Whatever a scan accepts can be planned, and a choice made without asking is then the only
      candidate that carries the movie's number. */
  method PlanScan(files: seq<RemoteFile>, excluded: set<string>, wanted: seq<string>) returns (r: Result<Plan, ScanProblem>)
    requires PlainNames(Elements(files))
    ensures r.Err? <==> HasDuplicates(files)
    ensures r.Ok? ==> FilesOf(r.value.media) == set f | f in files && IsVideo(f, excluded)
    ensures r.Ok? ==>
              var videos := FilesOf(r.value.media);
              DistinctIds(videos) && PlainNames(videos) && r.value == PlanOf(videos, wanted)
    ensures r.Ok? && r.value.selected.Some? ==>
              var videos := FilesOf(r.value.media);
              && DistinctIds(videos)
              && (|Candidates(videos)| > 1 ==> forall c :: c in Candidates(videos) ==> (Carries(c, wanted) <==> c.key == r.value.selected.value))
  {
    hide IsVideo, IsSubtitle, PlanOf, Carries, CandidateOf, Chained;
    var scan := ScanRemoteFiles(files, excluded);
    if scan.Err? {
      return Err(scan.error);
    }
    ghost var videos := Elements(scan.value.videos);
    assert PlainNames(videos);
    var plan := PlanMediaSelection(scan.value.videos, wanted);
    PlanPartitions(videos, wanted);
    if plan.selected.Some? && |Candidates(videos)| > 1 {
      AutoChoiceIsTheCarrier(videos, wanted);
    }
    return Ok(plan);
  }
}
