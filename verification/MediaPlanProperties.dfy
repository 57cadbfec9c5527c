/** What a media plan guarantees: the files are partitioned, segments are numbered through, and a
    choice made without asking names the one candidate that carries the movie's number. */
module MediaPlanProperties {
  import opened Wrappers
  import opened Orders
  import opened MediaPlan

  // ---------------------------------------------------------------- segments

  ghost predicate HasNumber(s: seq<RemoteFile>, n: nat) {
    exists j :: 0 <= j < |s| && PartNo(s[j]) == n
  }

  ghost predicate AllNumbers(s: seq<RemoteFile>) {
    forall n :: 1 <= n <= |s| ==> HasNumber(s, n)
  }

  lemma {:induction false} NotTooEarly(s: seq<RemoteFile>, k: nat, i: nat)
    requires InOrder(s, PartBefore) && 1 <= k <= |s| && i < |s| && PartNo(s[i]) == k
    requires AllNumbers(s)
    ensures i >= k - 1
    decreases k
  {
    if k > 1 {
      assert HasNumber(s, k - 1);
      var j :| 0 <= j < |s| && PartNo(s[j]) == k - 1;
      NotTooEarly(s, k - 1, j);
      assert i < j ==> PartBefore(s[i], s[j]);
    }
  }

  lemma {:induction false} NotTooLate(s: seq<RemoteFile>, k: nat, i: nat)
    requires InOrder(s, PartBefore) && 1 <= k <= |s| && i < |s| && PartNo(s[i]) == k
    requires AllNumbers(s)
    ensures i <= k - 1
    decreases |s| - k
  {
    if k < |s| {
      assert HasNumber(s, k + 1);
      var j :| 0 <= j < |s| && PartNo(s[j]) == k + 1;
      NotTooLate(s, k + 1, j);
      assert j < i ==> PartBefore(s[j], s[i]);
    }
  }

  ghost predicate NumberedThrough(s: seq<RemoteFile>) {
    |s| >= 2 && forall i :: 0 <= i < |s| ==> PartNo(s[i]) == i + 1
  }

  lemma AllNumbersInPlace(s: seq<RemoteFile>)
    requires InOrder(s, PartBefore) && AllNumbers(s)
    ensures forall i :: 0 <= i < |s| ==> PartNo(s[i]) == i + 1
  {
    hide PartBefore, InOrder;
    forall i | 0 <= i < |s| ensures PartNo(s[i]) == i + 1 {
      assert HasNumber(s, i + 1);
      var j :| 0 <= j < |s| && PartNo(s[j]) == i + 1;
      NotTooEarly(s, i + 1, j);
      NotTooLate(s, i + 1, j);
    }
  }

  lemma PartsOfBucket(files: set<RemoteFile>, key: BucketKey)
    requires DistinctIds(files)
    ensures DistinctIds(Bucket(files, key))
    ensures var s := Parts(Bucket(files, key));
            InOrder(s, PartBefore) && |s| == |Bucket(files, key)| && forall f :: f in s <==> f in Bucket(files, key)
  {
    hide PartBefore;
    var bucket := Bucket(files, key);
    PartsAreOrdered(bucket);
    SortedMeaning(bucket, PartBefore);
    assert forall f :: f in Parts(bucket) <==> f in Elements(Parts(bucket));
  }

  /** Sorting a bucket gives the numbers 1, 2, … without a gap exactly when each of them is present:
      then no number occurs twice. */
  lemma ChainedExactly(files: set<RemoteFile>, key: BucketKey)
    requires DistinctIds(files)
    ensures DistinctIds(Bucket(files, key))
    ensures Chained(Bucket(files, key)) <==> NumberedThrough(Parts(Bucket(files, key)))
  {
    PartsOfBucket(files, key);
    hide PartBefore, Parts, DistinctIds, InOrder;
    var bucket := Bucket(files, key);
    var s := Parts(bucket);
    if Chained(bucket) {
      forall n | 1 <= n <= |s| ensures HasNumber(s, n) {
        assert HasPart(bucket, n);
        var f :| f in bucket && f.segment.Some? && f.segment.value.number == n;
        assert f in s;
      }
      AllNumbersInPlace(s);
    }
    if NumberedThrough(s) {
      forall n | 1 <= n <= |bucket| ensures HasPart(bucket, n) {
        assert s[n - 1] in s;
      }
    }
  }

  // ---------------------------------------------------------------- candidates partition the files

  /** A candidate is one file, or the numbered parts of one name in one directory. */
  lemma CandidateMeaning(files: set<RemoteFile>, f: RemoteFile)
    requires DistinctIds(files) && f in files
    ensures var c := CandidateOf(files, f);
            && f in c.members && (forall g :: g in c.members ==> g in files)
            && (!InChain(files, f) ==> c.members == [f])
            && (InChain(files, f) ==>
                  && NumberedThrough(c.members)
                  && (forall g :: g in c.members ==> BucketOf(g) == BucketOf(f)))
  {
    if InChain(files, f) {
      var bucket := Bucket(files, BucketOf(f).value);
      ChainedExactly(files, BucketOf(f).value);
      PartsAreOrdered(bucket);
      SortedMeaning(bucket, PartBefore);
      hide Chained, PartBefore, StrictOrder, InOrder;
      assert forall g :: g in Parts(bucket) <==> g in Elements(Parts(bucket));
    }
  }

  /** Files of the same candidate have the same one: candidates do not overlap. */
  lemma CandidatesDisjoint(files: set<RemoteFile>, f: RemoteFile, g: RemoteFile)
    requires DistinctIds(files) && f in files && g in CandidateOf(files, f).members
    ensures g in files && CandidateOf(files, g) == CandidateOf(files, f)
  {
    CandidateMeaning(files, f);
  }

  // ---------------------------------------------------------------- the listing

  predicate OnlyIn(ranked: seq<Candidate>, files: set<RemoteFile>)
  {
    forall c :: c in ranked ==> forall f :: f in c.members ==> f in files
  }

  ghost predicate PlacedIn(ranked: seq<Candidate>, wanted: seq<string>, m: ScoredMedia) {
    exists c :: c in ranked && m.sequenceNo < |c.members| && m == Scored(c, m.sequenceNo, wanted)
  }

  lemma {:induction false} ListedMeaning(ranked: seq<Candidate>, wanted: seq<string>)
    ensures forall m :: m in Listed(ranked, wanted) <==> PlacedIn(ranked, wanted, m)
  {
    hide Scored;
    if ranked != [] {
      var init, last := ranked[..|ranked| - 1], ranked[|ranked| - 1];
      ListedMeaning(init, wanted);
      assert ranked == init + [last];
      forall m ensures m in Listed(ranked, wanted) <==> PlacedIn(ranked, wanted, m) {
        ScoredMembersMeaning(last, wanted, m);
        assert PlacedIn(init, wanted, m) ==> PlacedIn(ranked, wanted, m);
        assert m.sequenceNo < |last.members| && m == Scored(last, m.sequenceNo, wanted) ==> last in ranked;
      }
    }
  }

  lemma ScoredMembersMeaning(c: Candidate, wanted: seq<string>, m: ScoredMedia)
    ensures m in ScoredMembers(c, wanted) <==> m.sequenceNo < |c.members| && m == Scored(c, m.sequenceNo, wanted)
  {
    if m.sequenceNo < |c.members| {
      assert ScoredMembers(c, wanted)[m.sequenceNo] == Scored(c, m.sequenceNo, wanted);
    }
  }

  ghost predicate NoRepeats(media: seq<ScoredMedia>) {
    forall k, l :: 0 <= k < l < |media| ==> media[k].file != media[l].file
  }

  ghost predicate Apart(ranked: seq<Candidate>) {
    && (forall c :: c in ranked ==> forall i, j :: 0 <= i < j < |c.members| ==> c.members[i] != c.members[j])
    && (forall r, t :: 0 <= r < t < |ranked| ==> Elements(ranked[r].members) !! Elements(ranked[t].members))
  }

  lemma {:induction false} ListedOnce(ranked: seq<Candidate>, wanted: seq<string>)
    requires Apart(ranked)
    ensures NoRepeats(Listed(ranked, wanted))
  {
    hide Scored;
    if ranked != [] {
      var init, last := ranked[..|ranked| - 1], ranked[|ranked| - 1];
      ListedOnce(init, wanted);
      ListedMeaning(init, wanted);
      var front, back := Listed(init, wanted), ScoredMembers(last, wanted);
      var all: seq<ScoredMedia> := front + back;
      forall k, l | 0 <= k < l < |all| ensures all[k].file != all[l].file {
        ScoredFiles(last, wanted);
        if k < |front| && l >= |front| {
          assert front[k] in front && PlacedIn(init, wanted, front[k]);
          var c :| c in init && front[k].sequenceNo < |c.members| && front[k] == Scored(c, front[k].sequenceNo, wanted);
          ScoredFile(c, front[k].sequenceNo, wanted);
          var r :| 0 <= r < |init| && init[r] == c;
          assert ranked[r] == c;
          assert back[l - |front|].file in Elements(last.members);
        }
      }
    }
  }

  lemma ScoredFile(c: Candidate, i: nat, wanted: seq<string>)
    requires i < |c.members|
    ensures Scored(c, i, wanted).file == c.members[i] && Scored(c, i, wanted).file in Elements(c.members)
    ensures Scored(c, i, wanted).key == c.key && Scored(c, i, wanted).sequenceNo == i
  {
  }

  lemma ScoredFiles(c: Candidate, wanted: seq<string>)
    ensures forall i :: 0 <= i < |c.members| ==> ScoredMembers(c, wanted)[i].file == c.members[i]
  {
  }

  lemma CandidatesApart(files: set<RemoteFile>, wanted: seq<string>, ranked: seq<Candidate>)
    requires DistinctIds(files) && PlainNames(files)
    requires Elements(ranked) == Candidates(files) && StrictOrder(Candidates(files), ByRank(wanted)) && InOrder(ranked, ByRank(wanted))
    ensures Apart(ranked)
  {
    hide CandidateOf, RanksBefore, PlainNames;
    forall c | c in ranked ensures forall i, j :: 0 <= i < j < |c.members| ==> c.members[i] != c.members[j] {
      assert c in Elements(ranked);
      var f :| f in files && c == CandidateOf(files, f);
      MembersDiffer(files, f);
    }
    forall r, t | 0 <= r < t < |ranked| ensures Elements(ranked[r].members) !! Elements(ranked[t].members) {
      assert ranked[r] in Elements(ranked) && ranked[t] in Elements(ranked);
      var f :| f in files && ranked[r] == CandidateOf(files, f);
      var g :| g in files && ranked[t] == CandidateOf(files, g);
      assert ByRank(wanted)(ranked[r], ranked[t]);
      forall h | h in ranked[r].members && h in ranked[t].members ensures false {
        CandidatesDisjoint(files, f, h);
        CandidatesDisjoint(files, g, h);
      }
    }
  }

  lemma MembersDiffer(files: set<RemoteFile>, f: RemoteFile)
    requires DistinctIds(files) && f in files
    ensures var c := CandidateOf(files, f); forall i, j :: 0 <= i < j < |c.members| ==> c.members[i] != c.members[j]
  {
    CandidateMeaning(files, f);
    var c := CandidateOf(files, f);
    forall i, j | 0 <= i < j < |c.members| ensures c.members[i] != c.members[j] {
      assert InChain(files, f) ==> PartNo(c.members[i]) == i + 1 && PartNo(c.members[j]) == j + 1;
    }
  }

  function FilesOf(media: seq<ScoredMedia>): set<RemoteFile> {
    set m | m in media :: m.file
  }

  function SequenceNoIn(files: set<RemoteFile>, f: RemoteFile): int {
    if InChain(files, f) then PartNo(f) - 1 else 0
  }

  ghost function Ranked(files: set<RemoteFile>, wanted: seq<string>): seq<Candidate>
    requires DistinctIds(files) && PlainNames(files)
  {
    RanksAreOrdered(files, wanted);
    Sorted(Candidates(files), ByRank(wanted))
  }

  lemma RankedMeaning(files: set<RemoteFile>, wanted: seq<string>)
    requires DistinctIds(files) && PlainNames(files)
    ensures var ranked := Ranked(files, wanted);
            && PlanOf(files, wanted) == PlanFrom(ranked, wanted) && Apart(ranked) && InOrder(ranked, ByRank(wanted))
            && (forall c :: c in ranked <==> c in Candidates(files))
  {
    hide CandidateOf, RanksBefore, Apart, PlainNames;
    RanksAreOrdered(files, wanted);
    SortedMeaning(Candidates(files), ByRank(wanted));
    var ranked := Ranked(files, wanted);
    CandidatesApart(files, wanted, ranked);
    assert forall c :: c in ranked <==> c in Elements(ranked);
  }

  /** Every file is listed exactly once, under its candidate's key and at its place in it. */
  lemma PlanPartitions(files: set<RemoteFile>, wanted: seq<string>)
    requires DistinctIds(files) && PlainNames(files)
    ensures var media := PlanOf(files, wanted).media;
            && FilesOf(media) == files && NoRepeats(media) && |media| == |files|
            && forall m :: m in media ==> m.key == KeyIn(files, m.file) && m.sequenceNo == SequenceNoIn(files, m.file)
  {
    hide CandidateOf, Apart, KeyIn, InChain, Scored, Listed, DistinctIds, PlainNames, RanksBefore, InOrder;
    RankedMeaning(files, wanted);
    var ranked := Ranked(files, wanted);
    var media := PlanOf(files, wanted).media;
    EmptyListing(wanted);
    assert media == Listed(ranked, wanted);
    ListedOnce(ranked, wanted);
    ListedMeaning(ranked, wanted);
    forall m | m in media ensures m.file in files && m.key == KeyIn(files, m.file) && m.sequenceNo == SequenceNoIn(files, m.file) {
      var c :| c in ranked && m.sequenceNo < |c.members| && m == Scored(c, m.sequenceNo, wanted);
      var f :| f in files && c == CandidateOf(files, f);
      PlaceInCandidate(files, f, m.sequenceNo, wanted);
    }
    forall f | f in files ensures f in FilesOf(media) {
      var i := PlaceOfFile(files, f);
      var c := CandidateOf(files, f);
      assert c in ranked;
      ScoredFile(c, i, wanted);
      assert PlacedIn(ranked, wanted, Scored(c, i, wanted));
    }
    CountFiles(media);
  }

  lemma EmptyListing(wanted: seq<string>)
    ensures Listed([], wanted) == []
  {
  }

  lemma PlaceInCandidate(files: set<RemoteFile>, f: RemoteFile, i: nat, wanted: seq<string>)
    requires DistinctIds(files) && f in files && i < |CandidateOf(files, f).members|
    ensures var m := Scored(CandidateOf(files, f), i, wanted);
            m.file in files && m.key == KeyIn(files, m.file) && m.sequenceNo == SequenceNoIn(files, m.file)
  {
    CandidateMeaning(files, f);
    var c := CandidateOf(files, f);
    ScoredFile(c, i, wanted);
    assert c.members[i] in c.members;
  }

  lemma PlaceOfFile(files: set<RemoteFile>, f: RemoteFile) returns (i: nat)
    requires DistinctIds(files) && f in files
    ensures i < |CandidateOf(files, f).members| && CandidateOf(files, f).members[i] == f
  {
    CandidateMeaning(files, f);
    i :| 0 <= i < |CandidateOf(files, f).members| && CandidateOf(files, f).members[i] == f;
  }

  lemma {:induction false} CountFiles(media: seq<ScoredMedia>)
    requires NoRepeats(media)
    ensures |FilesOf(media)| == |media|
  {
    if media != [] {
      var init, last := media[..|media| - 1], media[|media| - 1];
      CountFiles(init);
      assert media == init + [last];
      assert FilesOf(media) == FilesOf(init) + {last.file};
    }
  }

  /** The listing ranks candidates: a better score first, then the larger total size, then the key. */
  lemma RankedInTurn(files: set<RemoteFile>, wanted: seq<string>, r: nat, t: nat)
    requires DistinctIds(files) && PlainNames(files) && r < t < |Ranked(files, wanted)|
    ensures var (a, b) := (Ranked(files, wanted)[r], Ranked(files, wanted)[t]);
            || CandidateScore(a, wanted) > CandidateScore(b, wanted)
            || (CandidateScore(a, wanted) == CandidateScore(b, wanted)
                && (TotalSize(a.members) > TotalSize(b.members)
                    || (TotalSize(a.members) == TotalSize(b.members) && TextBefore(a.key, b.key))))
  {
    hide CandidateOf, PlainNames, Apart, CandidateScore, TotalSize;
    RankedMeaning(files, wanted);
    assert ByRank(wanted)(Ranked(files, wanted)[r], Ranked(files, wanted)[t]);
  }

  /** Every listed score is the sum of its evidence, which names the chain bonus exactly for files in a
      chain. */
  lemma ListedScoresAddUp(files: set<RemoteFile>, wanted: seq<string>, m: ScoredMedia)
    requires DistinctIds(files) && PlainNames(files) && m in PlanOf(files, wanted).media
    ensures m.score == Points(m.evidence)
    ensures m.score == Score(m.file, wanted) + if InChain(files, m.file) then 20 else 0
    ensures Evidence("continuous_segments", 20) in m.evidence <==> InChain(files, m.file)
    ensures Evidence("movie_number", 100) in m.evidence <==> ContainsNumber(m.file.tokens, wanted)
    ensures Evidence("duration_20m", 10) in m.evidence <==> exists s :: m.file.duration == Some(s) && s >= 20 * 60
  {
    hide CandidateOf, Apart, KeyIn, InChain, Listed, DistinctIds, PlainNames, RanksBefore, InOrder, Score, EvidenceOf, Points, ContainsNumber;
    RankedMeaning(files, wanted);
    EmptyListing(wanted);
    ListedMeaning(Ranked(files, wanted), wanted);
    var c :| c in Ranked(files, wanted) && m.sequenceNo < |c.members| && m == Scored(c, m.sequenceNo, wanted);
    var f :| f in files && c == CandidateOf(files, f);
    assert m.file in c.members;
    CandidatesDisjoint(files, f, m.file);
    ChainHasMany(files, m.file);
    EvidenceAddsUp(m.file, wanted);
    DurationEvidence(m.file, wanted);
    OwnEvidence(m.file, wanted);
    var bonus := if |c.members| > 1 then [Evidence("continuous_segments", 20)] else [];
    PointsAdd(EvidenceOf(m.file, wanted), bonus);
    PointsOfOne(Evidence("continuous_segments", 20));
  }

  lemma ChainHasMany(files: set<RemoteFile>, f: RemoteFile)
    requires DistinctIds(files) && f in files
    ensures |CandidateOf(files, f).members| > 1 <==> InChain(files, f)
  {
    CandidateMeaning(files, f);
  }

  lemma DurationEvidence(f: RemoteFile, wanted: seq<string>)
    ensures Evidence("duration_20m", 10) in EvidenceOf(f, wanted) <==> exists s :: f.duration == Some(s) && s >= 20 * 60
  {
    hide ContainsNumber, SizeScore;
    assert |"valid_video"| == 11 && |"duration_20m"| == 12 && |"upstream_video"| == 14 && |"size_units"| == 10;
  }

  /** The size counts one point for each full 256 MiB, forty at most. */
  lemma SizeEvidence(f: RemoteFile, wanted: seq<string>, n: int)
    ensures Evidence("size_units", n) in EvidenceOf(f, wanted) <==>
              1 <= n <= 40 && n * (256 * 1024 * 1024) <= f.size && (n < 40 ==> f.size < (n + 1) * (256 * 1024 * 1024))
  {
    hide ContainsNumber;
    assert |"size_units"| == 10 && |"valid_video"| == 11 && |"movie_number"| == 12 && |"upstream_video"| == 14;
    assert "duration_20m"[0] == 'd' && "size_units"[0] == 's';
  }

  lemma OwnEvidence(f: RemoteFile, wanted: seq<string>)
    ensures Evidence("continuous_segments", 20) !in EvidenceOf(f, wanted)
  {
    hide ContainsNumber, SizeScore;
    forall e | e in EvidenceOf(f, wanted) ensures e.reason != "continuous_segments" {
      assert e.reason in {"valid_video", "upstream_video", "duration_20m", "movie_number", "size_units"};
      assert |e.reason| != |"continuous_segments"|;
    }
  }

  // ---------------------------------------------------------------- choosing without asking

  /** The points add up to the score. */
  lemma EvidenceAddsUp(f: RemoteFile, wanted: seq<string>)
    ensures Points(EvidenceOf(f, wanted)) == Score(f, wanted)
    ensures Evidence("movie_number", 100) in EvidenceOf(f, wanted) <==> ContainsNumber(f.tokens, wanted)
  {
    hide Points, ContainsNumber, SizeScore;
    var a := [Evidence("valid_video", 10)];
    var b := if f.isVideo == Some(true) then [Evidence("upstream_video", 10)] else [];
    var c := if f.duration.Some? && f.duration.value >= LONG_VIDEO_SECONDS then [Evidence("duration_20m", 10)] else [];
    var d := if ContainsNumber(f.tokens, wanted) then [Evidence("movie_number", 100)] else [];
    var e := if SizeScore(f) != 0 then [Evidence("size_units", SizeScore(f))] else [];
    PointsAdd(a, b);
    PointsAdd(a + b, c);
    PointsAdd(a + b + c, d);
    PointsAdd(a + b + c + d, e);
    forall v ensures Points([v]) == v.points && Points([]) == 0 {
      PointsOfOne(v);
    }
  }

  lemma PointsOfOne(v: Evidence)
    ensures Points([v]) == v.points && Points([]) == 0
  {
    assert [v][..0] == [];
  }

  lemma {:induction false} PointsAdd(a: seq<Evidence>, b: seq<Evidence>)
    ensures Points(a + b) == Points(a) + Points(b)
  {
    if b == [] {
      assert a + b == a;
    } else {
      assert (a + b)[..|a + b| - 1] == a + b[..|b| - 1];
      PointsAdd(a, b[..|b| - 1]);
    }
  }

  predicate Carries(c: Candidate, wanted: seq<string>) {
    exists f :: f in c.members && ContainsNumber(f.tokens, wanted)
  }

  predicate BigEnough(files: set<RemoteFile>) {
    forall f :: f in files ==> f.size >= MIN_VIDEO_BYTES
  }

  lemma ScoreBounds(f: RemoteFile, wanted: seq<string>)
    requires f.size >= MIN_VIDEO_BYTES
    ensures if ContainsNumber(f.tokens, wanted) then 111 <= Score(f, wanted) <= 170 else 11 <= Score(f, wanted) <= 70
  {
    hide ContainsNumber;
  }

  lemma {:induction false} BestScoreBounds(members: seq<RemoteFile>, wanted: seq<string>)
    requires members != [] && forall f :: f in members ==> f.size >= MIN_VIDEO_BYTES
    ensures if exists f :: f in members && ContainsNumber(f.tokens, wanted)
            then 111 <= BestScore(members, wanted) <= 170 else 11 <= BestScore(members, wanted) <= 70
  {
    hide ContainsNumber, Score;
    var init, last := members[..|members| - 1], members[|members| - 1];
    ScoreBounds(last, wanted);
    assert members == init + [last];
    if init != [] {
      BestScoreBounds(init, wanted);
    } else {
      assert BestScore(init, wanted) == 0;
    }
  }

  /** Carrying the number always outweighs everything else together, by at least 21 points; without
      it, and likewise with it, scores spread over 79 points, one less than the gap. */
  lemma CandidateScoreBounds(files: set<RemoteFile>, c: Candidate, wanted: seq<string>)
    requires DistinctIds(files) && BigEnough(files) && c in Candidates(files)
    ensures if Carries(c, wanted) then 111 <= CandidateScore(c, wanted) <= 190 else 11 <= CandidateScore(c, wanted) <= 90
  {
    hide ContainsNumber, InChain, BestScore;
    var f :| f in files && c == CandidateOf(files, f);
    CandidateMeaning(files, f);
    BestScoreBounds(c.members, wanted);
  }

  /** Among several candidates of large enough files, one is chosen without asking only if it alone
      carries the movie's number. */
  lemma AutoChoiceIsTheCarrier(files: set<RemoteFile>, wanted: seq<string>)
    requires DistinctIds(files) && PlainNames(files) && BigEnough(files) && |Candidates(files)| > 1
    requires PlanOf(files, wanted).selected.Some?
    ensures forall c :: c in Candidates(files) ==> (Carries(c, wanted) <==> c.key == PlanOf(files, wanted).selected.value)
    ensures exists c :: c in Candidates(files) && Carries(c, wanted)
  {
    hide Carries, CandidateOf, CandidateScore, DistinctIds, PlainNames, BigEnough, Listed, Apart;
    RankedMeaning(files, wanted);
    var ranked := Ranked(files, wanted);
    RankedSize(files, wanted);
    var best, next := ranked[0], ranked[1];
    assert best in ranked && next in ranked;
    CandidateScoreBounds(files, best, wanted);
    CandidateScoreBounds(files, next, wanted);
    forall c | c in Candidates(files) ensures Carries(c, wanted) <==> c.key == best.key {
      CandidateScoreBounds(files, c, wanted);
      CandidatesHaveKeys(files, c, best);
      var r :| 0 <= r < |ranked| && ranked[r] == c;
      assert r > 1 ==> ByRank(wanted)(ranked[1], ranked[r]);
    }
  }

  lemma RankedSize(files: set<RemoteFile>, wanted: seq<string>)
    requires DistinctIds(files) && PlainNames(files)
    ensures |Ranked(files, wanted)| == |Candidates(files)|
  {
    hide CandidateOf, RanksBefore, PlainNames;
    RanksAreOrdered(files, wanted);
    SortedMeaning(Candidates(files), ByRank(wanted));
  }

  /** Among several candidates, one is chosen without asking exactly when it leads every other by
      the gap; a sole carrier of the number is therefore chosen exactly when it does. */
  lemma ChosenExactlyWhenLeading(files: set<RemoteFile>, wanted: seq<string>, c: Candidate)
    requires DistinctIds(files) && PlainNames(files) && |Candidates(files)| > 1 && c in Candidates(files)
    ensures PlanOf(files, wanted).selected == Some(c.key) <==> Leads(files, c, wanted)
  {
    hide CandidateOf, CandidateScore, DistinctIds, PlainNames, Listed, Apart;
    RankedMeaning(files, wanted);
    RankedSize(files, wanted);
    var ranked := Ranked(files, wanted);
    var best, next := ranked[0], ranked[1];
    assert ByRank(wanted)(ranked[0], ranked[1]);
    RankOrder(best, best, best, wanted);
    assert best in ranked && next in ranked && best != next;
    CandidatesHaveKeys(files, c, best);
    forall d | d in Candidates(files) ensures d == best || CandidateScore(d, wanted) <= CandidateScore(next, wanted) {
      var r :| 0 <= r < |ranked| && ranked[r] == d;
      assert r > 1 ==> ByRank(wanted)(ranked[1], ranked[r]);
    }
  }

  predicate LeadsOver(c: Candidate, d: Candidate, wanted: seq<string>) {
    CandidateScore(c, wanted) - CandidateScore(d, wanted) >= AUTO_SELECTION_SCORE_GAP
  }

  ghost predicate Leads(files: set<RemoteFile>, c: Candidate, wanted: seq<string>)
    requires DistinctIds(files)
  {
    forall d :: d in Candidates(files) && d != c ==> LeadsOver(c, d, wanted)
  }

  // ---------------------------------------------------------------- a pair of parts and one more file

  const LARGE: nat := 40 * MIN_VIDEO_BYTES

  function Sample(id: string, segment: Option<Segment>, tokens: seq<string>, size: nat, full: bool): RemoteFile {
    RemoteFile(id, "d", "p", false, None, "mp4", id, tokens, segment, size,
               if full then Some(true) else None, if full then Some(LONG_VIDEO_SECONDS) else None)
  }

  const FIRST := Sample("f", Some(Segment("x", 1)), [], LARGE, true)
  const SECOND := Sample("g", Some(Segment("x", 2)), [], LARGE, true)
  const PAIR_KEY := BucketKey("d", "mp4", "x")

  /** Two long, large, recognized parts without the number, and one file of its own. */
  lemma PairAndSingle(h: RemoteFile)
    requires h.id == "h" && h.segment == None
    ensures var files := {FIRST, SECOND, h};
            && DistinctIds(files) && PlainNames(files)
            && Candidates(files) == {Candidate(SegmentKey(PAIR_KEY), [FIRST, SECOND]), Candidate(SingleKey(h), [h])}
            && |Candidates(files)| == 2
  {
    var files := {FIRST, SECOND, h};
    assert FIRST.id != SECOND.id && SECOND.id != h.id && FIRST.id != h.id;
    PairBucket(h);
    hide Bucket, HasPart, Parts;
    var pair, single := Candidate(SegmentKey(PAIR_KEY), [FIRST, SECOND]), Candidate(SingleKey(h), [h]);
    assert CandidateOf(files, FIRST) == pair && CandidateOf(files, SECOND) == pair && CandidateOf(files, h) == single;
    assert Candidates(files) == {pair, single};
    assert |pair.members| != |single.members|;
  }

  lemma PairBucket(h: RemoteFile)
    requires h.id == "h" && h.segment == None
    ensures var bucket := Bucket({FIRST, SECOND, h}, PAIR_KEY);
            bucket == {FIRST, SECOND} && Chained(bucket) && Parts(bucket) == [FIRST, SECOND]
  {
    var files := {FIRST, SECOND, h};
    assert FIRST.id != SECOND.id && SECOND.id != h.id && FIRST.id != h.id;
    var bucket := Bucket(files, PAIR_KEY);
    assert bucket == {FIRST, SECOND};
    assert |bucket| == 2 && HasPart(bucket, 1) && HasPart(bucket, 2) by {
      assert FIRST in bucket && SECOND in bucket;
    }
    ChainedExactly(files, PAIR_KEY);
    PartsOfBucket(files, PAIR_KEY);
    PairInOrder(Parts(bucket));
  }

  lemma PairInOrder(parts: seq<RemoteFile>)
    requires |parts| == 2 && NumberedThrough(parts) && forall f :: f in parts <==> f == FIRST || f == SECOND
    ensures parts == [FIRST, SECOND]
  {
    assert parts[0] in parts && parts[1] in parts;
  }

  lemma PairScores(h: RemoteFile, wanted: seq<string>)
    ensures CandidateScore(Candidate(SegmentKey(PAIR_KEY), [FIRST, SECOND]), wanted) == 90
    ensures CandidateScore(Candidate(SingleKey(h), [h]), wanted) == Score(h, wanted)
    ensures !Carries(Candidate(SegmentKey(PAIR_KEY), [FIRST, SECOND]), wanted)
  {
    NothingContained(wanted);
    assert LARGE / MIN_VIDEO_BYTES == 40;
    assert [FIRST, SECOND][..1] == [FIRST] && [FIRST][..0] == [] && [h][..0] == [];
    assert Score(FIRST, wanted) == 70 && Score(SECOND, wanted) == 70;
    ScoreIsPositive(h, wanted);
    assert BestScore([], wanted) == 0 && BestScore([FIRST], wanted) == 70;
  }

  lemma ScoreIsPositive(f: RemoteFile, wanted: seq<string>)
    ensures Score(f, wanted) >= 10
  {
    hide ContainsNumber;
  }

  lemma NothingContained(wanted: seq<string>)
    ensures !ContainsNumber([], wanted)
  {
  }

  /** The scanner's minimum size is what the bound needs: with one file below it, the plan chooses a
      candidate without asking although nothing carries the number. */
  lemma SmallFilesBreakTheBound(wanted: seq<string>)
    ensures var files := {FIRST, SECOND, Sample("h", None, [], 0, false)};
            && DistinctIds(files) && PlainNames(files) && |Candidates(files)| > 1
            && PlanOf(files, wanted).selected == Some(SegmentKey(PAIR_KEY))
            && forall c :: c in Candidates(files) ==> !Carries(c, wanted)
  {
    var h := Sample("h", None, [], 0, false);
    var pair := Candidate(SegmentKey(PAIR_KEY), [FIRST, SECOND]);
    PairAndSingle(h);
    PairScores(h, wanted);
    NothingContained(wanted);
    assert Score(h, wanted) == 10;
    hide Candidates, PlanOf, CandidateScore, ContainsNumber, DistinctIds, PlainNames, Score, Sample;
    assert LeadsOver(pair, Candidate(SingleKey(h), [h]), wanted);
    LeaderOfTwo({FIRST, SECOND, h}, wanted, pair, Candidate(SingleKey(h), [h]));
  }

  lemma LeaderOfTwo(files: set<RemoteFile>, wanted: seq<string>, a: Candidate, b: Candidate)
    requires DistinctIds(files) && PlainNames(files) && Candidates(files) == {a, b} && |Candidates(files)| == 2 && LeadsOver(a, b, wanted)
    ensures PlanOf(files, wanted).selected == Some(a.key)
  {
    hide Candidates, PlanOf, LeadsOver, DistinctIds, PlainNames;
    ChosenExactlyWhenLeading(files, wanted, a);
  }

  /** And being the only carrier does not settle the choice: a bare carrier of the minimum size leads
      the pair by only 21 points, and the plan asks. */
  lemma SoleCarrierMayBeAsked(number: string)
    ensures var h, wanted := Sample("h", None, [number], 256 * 1024 * 1024, false), [number];
            var files := {FIRST, SECOND, h};
            && DistinctIds(files) && PlainNames(files) && BigEnough(files)
            && (forall c :: c in Candidates(files) ==> (Carries(c, wanted) <==> c.key == SingleKey(h)))
            && (exists c :: c in Candidates(files) && Carries(c, wanted))
            && PlanOf(files, wanted).selected == None && PlanOf(files, wanted).requiresSelection
  {
    var h, wanted := Sample("h", None, [number], 256 * 1024 * 1024, false), [number];
    var files := {FIRST, SECOND, h};
    var pair, single := Candidate(SegmentKey(PAIR_KEY), [FIRST, SECOND]), Candidate(SingleKey(h), [h]);
    BareCarrier(number);
    PairAndSingle(h);
    PairScores(h, wanted);
    hide Candidates, PlanOf, CandidateScore, ContainsNumber, DistinctIds, PlainNames, Score, BigEnough, Sample, SegmentKey, SingleKey;
    assert h in single.members;
    NoneLeadsNoneChosen(files, wanted, pair, single);
  }

  lemma BareCarrier(number: string)
    ensures var h := Sample("h", None, [number], 256 * 1024 * 1024, false);
            && ContainsNumber(h.tokens, [number]) && Score(h, [number]) == 111
            && h.id == "h" && h.segment == None
            && BigEnough({FIRST, SECOND, h}) && SingleKey(h) != SegmentKey(PAIR_KEY)
  {
    assert OccursAt([number], [number], 0);
    assert SingleKey(Sample("h", None, [number], 256 * 1024 * 1024, false))[1] != SegmentKey(PAIR_KEY)[1];
  }

  lemma NoneLeadsNoneChosen(files: set<RemoteFile>, wanted: seq<string>, a: Candidate, b: Candidate)
    requires DistinctIds(files) && PlainNames(files) && a != b && Candidates(files) == {a, b} && |Candidates(files)| == 2
    requires !LeadsOver(a, b, wanted) && !LeadsOver(b, a, wanted)
    ensures PlanOf(files, wanted).selected == None && PlanOf(files, wanted).requiresSelection
  {
    hide CandidateOf, Candidates, CandidateScore, DistinctIds, PlainNames, Listed, Apart;
    ChosenExactlyWhenLeading(files, wanted, a);
    ChosenExactlyWhenLeading(files, wanted, b);
    RankedMeaning(files, wanted);
    RankedSize(files, wanted);
    assert Ranked(files, wanted)[0] in Ranked(files, wanted);
  }
}
