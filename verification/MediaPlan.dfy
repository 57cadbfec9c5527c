/** The plan a finished download gets: which of its video files belong together, how they rank, and
    when the best candidate is chosen without asking. */
module MediaPlan {
  import opened Wrappers
  import opened Orders

  const MIN_VIDEO_BYTES: nat := 256 * 1024 * 1024
  const MAX_SUBTITLE_BYTES: nat := 8 * 1024 * 1024
  const AUTO_SELECTION_SCORE_GAP: int := 80
  const LONG_VIDEO_SECONDS: int := 1200
  const SEPARATOR: char := 31 as char

  /** A trailing part number in a file's name, with what precedes it. */
  datatype Segment = Segment(base: string, number: nat)

  /** A listed file. What its name gives is already read: extension, case-folded name, tokens, and
      the segment when the name ends in one with a base that is not blank. */
  datatype RemoteFile = RemoteFile(
    id: string, parent: string, pickcode: string, isDirectory: bool, blocked: Option<bool>,
    extension: string, foldedName: string, tokens: seq<string>, segment: Option<Segment>,
    size: nat, isVideo: Option<bool>, duration: Option<int>)

  predicate DistinctIds(files: set<RemoteFile>) {
    forall f, g :: f in files && g in files && f.id == g.id ==> f == g
  }

  // ---------------------------------------------------------------- scores

  datatype Evidence = Evidence(reason: string, points: int)

  predicate OccursAt(tokens: seq<string>, wanted: seq<string>, i: nat) {
    i + |wanted| <= |tokens| && tokens[i..i + |wanted|] == wanted
  }

  /** The movie number's tokens occur in a row among the file's. */
  predicate ContainsNumber(tokens: seq<string>, wanted: seq<string>) {
    wanted != [] && exists i :: 0 <= i <= |tokens| && OccursAt(tokens, wanted, i)
  }

  function SizeScore(f: RemoteFile): int {
    if f.size / MIN_VIDEO_BYTES < 40 then f.size / MIN_VIDEO_BYTES else 40
  }

  function Score(f: RemoteFile, wanted: seq<string>): int {
    10 + (if f.isVideo == Some(true) then 10 else 0)
    + (if f.duration.Some? && f.duration.value >= LONG_VIDEO_SECONDS then 10 else 0)
    + (if ContainsNumber(f.tokens, wanted) then 100 else 0)
    + SizeScore(f)
  }

  function EvidenceOf(f: RemoteFile, wanted: seq<string>): seq<Evidence> {
    [Evidence("valid_video", 10)]
    + (if f.isVideo == Some(true) then [Evidence("upstream_video", 10)] else [])
    + (if f.duration.Some? && f.duration.value >= LONG_VIDEO_SECONDS then [Evidence("duration_20m", 10)] else [])
    + (if ContainsNumber(f.tokens, wanted) then [Evidence("movie_number", 100)] else [])
    + (if SizeScore(f) != 0 then [Evidence("size_units", SizeScore(f))] else [])
  }

  function Points(evidence: seq<Evidence>): int {
    if evidence == [] then 0 else Points(evidence[..|evidence| - 1]) + evidence[|evidence| - 1].points
  }

  // ---------------------------------------------------------------- candidates

  datatype BucketKey = BucketKey(parent: string, extension: string, base: string)

  function BucketOf(f: RemoteFile): Option<BucketKey> {
    if f.segment == None then None else Some(BucketKey(f.parent, f.extension, f.segment.value.base))
  }

  function Bucket(files: set<RemoteFile>, key: BucketKey): set<RemoteFile> {
    set f | f in files && BucketOf(f) == Some(key)
  }

  predicate HasPart(bucket: set<RemoteFile>, n: nat) {
    exists f :: f in bucket && f.segment.Some? && f.segment.value.number == n
  }

  /** At least two parts, numbered from one without a gap. */
  predicate Chained(bucket: set<RemoteFile>) {
    |bucket| >= 2 && forall n :: 1 <= n <= |bucket| ==> HasPart(bucket, n)
  }

  predicate InChain(files: set<RemoteFile>, f: RemoteFile) {
    BucketOf(f).Some? && Chained(Bucket(files, BucketOf(f).value))
  }

  function PartNo(f: RemoteFile): nat {
    if f.segment.Some? then f.segment.value.number else 0
  }

  /** Part number, then case-folded name, then id. */
  predicate PartBefore(f: RemoteFile, g: RemoteFile) {
    if PartNo(f) != PartNo(g) then PartNo(f) < PartNo(g)
    else if f.foldedName != g.foldedName then TextBefore(f.foldedName, g.foldedName)
    else TextBefore(f.id, g.id)
  }

  lemma PartOrder(f: RemoteFile, g: RemoteFile, h: RemoteFile)
    ensures PartBefore(f, g) && PartBefore(g, h) ==> PartBefore(f, h)
    ensures f.id != g.id ==> (PartBefore(f, g) <==> !PartBefore(g, f))
    ensures !PartBefore(f, f)
  {
    TextOrder(f.foldedName, g.foldedName, h.foldedName);
    TextOrder(f.id, g.id, h.id);
  }

  lemma PartsAreOrdered(files: set<RemoteFile>)
    requires DistinctIds(files)
    ensures StrictOrder(files, PartBefore)
  {
    hide PartBefore;
    forall f, g, h | f in files && g in files && h in files
      ensures !PartBefore(f, f) && (f != g ==> (PartBefore(f, g) <==> !PartBefore(g, f)))
      ensures PartBefore(f, g) && PartBefore(g, h) ==> PartBefore(f, h)
    {
      PartOrder(f, g, h);
    }
  }

  ghost function Parts(bucket: set<RemoteFile>): seq<RemoteFile>
    requires DistinctIds(bucket)
  {
    PartsAreOrdered(bucket);
    Sorted(bucket, PartBefore)
  }

  /** Candidate keys: the joined bucket key, or the file's id. */
  function SegmentKey(key: BucketKey): string {
    "segment:" + key.parent + [SEPARATOR] + key.extension + [SEPARATOR] + key.base
  }

  function SingleKey(f: RemoteFile): string {
    "single:" + f.id
  }

  function KeyIn(files: set<RemoteFile>, f: RemoteFile): string {
    if InChain(files, f) then SegmentKey(BucketOf(f).value) else SingleKey(f)
  }

  datatype Candidate = Candidate(key: string, members: seq<RemoteFile>)

  ghost function CandidateOf(files: set<RemoteFile>, f: RemoteFile): Candidate
    requires DistinctIds(files)
  {
    Candidate(KeyIn(files, f), if InChain(files, f) then Parts(Bucket(files, BucketOf(f).value)) else [f])
  }

  ghost function Candidates(files: set<RemoteFile>): set<Candidate>
    requires DistinctIds(files)
  {
    set f | f in files :: CandidateOf(files, f)
  }

  // ---------------------------------------------------------------- ranking and choosing

  function BestScore(members: seq<RemoteFile>, wanted: seq<string>): int {
    if members == [] then 0
    else
      var best, last := BestScore(members[..|members| - 1], wanted), Score(members[|members| - 1], wanted);
      if best < last then last else best
  }

  function Bonus(c: Candidate): int {
    if |c.members| > 1 then 20 else 0
  }

  function CandidateScore(c: Candidate, wanted: seq<string>): int {
    BestScore(c.members, wanted) + Bonus(c)
  }

  function TotalSize(members: seq<RemoteFile>): nat {
    if members == [] then 0 else TotalSize(members[..|members| - 1]) + members[|members| - 1].size
  }

  /** Highest score first, then the largest, then by key. */
  predicate RanksBefore(a: Candidate, b: Candidate, wanted: seq<string>) {
    var x, y := CandidateScore(a, wanted), CandidateScore(b, wanted);
    if x != y then x > y
    else if TotalSize(a.members) != TotalSize(b.members) then TotalSize(a.members) > TotalSize(b.members)
    else TextBefore(a.key, b.key)
  }

  function ByRank(wanted: seq<string>): (Candidate, Candidate) -> bool {
    (a, b) => RanksBefore(a, b, wanted)
  }

  datatype ScoredMedia = ScoredMedia(file: RemoteFile, key: string, sequenceNo: nat, score: int, evidence: seq<Evidence>)

  function Scored(c: Candidate, i: nat, wanted: seq<string>): ScoredMedia
    requires i < |c.members|
  {
    var f := c.members[i];
    ScoredMedia(f, c.key, i, Score(f, wanted) + Bonus(c),
                EvidenceOf(f, wanted) + if |c.members| > 1 then [Evidence("continuous_segments", 20)] else [])
  }

  function ScoredMembers(c: Candidate, wanted: seq<string>): seq<ScoredMedia> {
    seq(|c.members|, i requires 0 <= i < |c.members| => Scored(c, i, wanted))
  }

  function Listed(ranked: seq<Candidate>, wanted: seq<string>): seq<ScoredMedia> {
    if ranked == [] then [] else Listed(ranked[..|ranked| - 1], wanted) + ScoredMembers(ranked[|ranked| - 1], wanted)
  }

  datatype Plan = Plan(media: seq<ScoredMedia>, selected: Option<string>, requiresSelection: bool)

  /** The only candidate is chosen; among several, the first when it leads by the gap. */
  predicate Decided(ranked: seq<Candidate>, wanted: seq<string>) {
    ranked != []
    && (|ranked| == 1 || CandidateScore(ranked[0], wanted) - CandidateScore(ranked[1], wanted) >= AUTO_SELECTION_SCORE_GAP)
  }

  function PlanFrom(ranked: seq<Candidate>, wanted: seq<string>): Plan {
    if ranked == [] then Plan([], None, false)
    else Plan(Listed(ranked, wanted), if Decided(ranked, wanted) then Some(ranked[0].key) else None, !Decided(ranked, wanted))
  }

  predicate Plain(text: string) {
    SEPARATOR !in text
  }

  /** Neither of the first two parts of a bucket key contains the separator that joins the parts. */
  predicate PlainNames(files: set<RemoteFile>) {
    forall f :: f in files && BucketOf(f).Some? ==> Plain(BucketOf(f).value.parent) && Plain(BucketOf(f).value.extension)
  }

  // ---------------------------------------------------------------- candidate keys tell candidates apart

  lemma {:induction false} SplitAtSeparator(a: string, r: string, b: string, q: string)
    requires Plain(a) && Plain(b) && a + [SEPARATOR] + r == b + [SEPARATOR] + q
    ensures a == b && r == q
  {
    var s, t := a + [SEPARATOR] + r, b + [SEPARATOR] + q;
    assert s[0] == if a == [] then SEPARATOR else a[0];
    assert t[0] == if b == [] then SEPARATOR else b[0];
    assert a == [] ==> r == s[1..];
    assert b == [] ==> q == t[1..];
    if a != [] && b != [] {
      assert s[1..] == a[1..] + [SEPARATOR] + r && t[1..] == b[1..] + [SEPARATOR] + q;
      SplitAtSeparator(a[1..], r, b[1..], q);
      assert a == [a[0]] + a[1..] && b == [b[0]] + b[1..];
    }
  }

  lemma SegmentKeysDiffer(x: BucketKey, y: BucketKey)
    requires Plain(x.parent) && Plain(x.extension) && Plain(y.parent) && Plain(y.extension)
    requires SegmentKey(x) == SegmentKey(y)
    ensures x == y
  {
    var restX, restY := x.extension + [SEPARATOR] + x.base, y.extension + [SEPARATOR] + y.base;
    assert SegmentKey(x)[8..] == x.parent + [SEPARATOR] + restX;
    assert SegmentKey(y)[8..] == y.parent + [SEPARATOR] + restY;
    SplitAtSeparator(x.parent, restX, y.parent, restY);
    SplitAtSeparator(x.extension, x.base, y.extension, y.base);
  }

  /** Without that condition two different buckets can share a key. */
  lemma SegmentKeysCollide()
    ensures var x := BucketKey("a", "mp4", "b" + [SEPARATOR] + "mp4" + [SEPARATOR] + "c");
            var y := BucketKey("a" + [SEPARATOR] + "mp4" + [SEPARATOR] + "b", "mp4", "c");
            x != y && SegmentKey(x) == SegmentKey(y)
  {
    var x := BucketKey("a", "mp4", "b" + [SEPARATOR] + "mp4" + [SEPARATOR] + "c");
    var y := BucketKey("a" + [SEPARATOR] + "mp4" + [SEPARATOR] + "b", "mp4", "c");
    assert |x.parent| != |y.parent|;
  }

  /** A candidate key stands for one candidate. */
  lemma KeysNameCandidates(files: set<RemoteFile>, f: RemoteFile, g: RemoteFile)
    requires DistinctIds(files) && PlainNames(files) && f in files && g in files && KeyIn(files, f) == KeyIn(files, g)
    ensures CandidateOf(files, f) == CandidateOf(files, g)
  {
    hide Chained, Parts;
    assert KeyIn(files, f)[1] == if InChain(files, f) then 'e' else 'i';
    assert KeyIn(files, g)[1] == if InChain(files, g) then 'e' else 'i';
    if InChain(files, f) {
      SegmentKeysDiffer(BucketOf(f).value, BucketOf(g).value);
    } else {
      assert KeyIn(files, f)[7..] == f.id && KeyIn(files, g)[7..] == g.id;
    }
  }

  lemma RanksAreOrdered(files: set<RemoteFile>, wanted: seq<string>)
    requires DistinctIds(files) && PlainNames(files)
    ensures StrictOrder(Candidates(files), ByRank(wanted))
  {
    hide RanksBefore, CandidateOf, PlainNames;
    var all := Candidates(files);
    forall a, b, c | a in all && b in all && c in all
      ensures !RanksBefore(a, a, wanted) && (a != b ==> (RanksBefore(a, b, wanted) <==> !RanksBefore(b, a, wanted)))
      ensures RanksBefore(a, b, wanted) && RanksBefore(b, c, wanted) ==> RanksBefore(a, c, wanted)
    {
      RankOrder(a, b, c, wanted);
      CandidatesHaveKeys(files, a, b);
    }
  }

  lemma CandidatesHaveKeys(files: set<RemoteFile>, a: Candidate, b: Candidate)
    requires DistinctIds(files) && PlainNames(files) && a in Candidates(files) && b in Candidates(files)
    ensures a.key == b.key ==> a == b
  {
    hide KeyIn, Parts, InChain;
    var f :| f in files && a == CandidateOf(files, f);
    var g :| g in files && b == CandidateOf(files, g);
    if a.key == b.key {
      KeysNameCandidates(files, f, g);
    }
  }

  lemma RankOrder(a: Candidate, b: Candidate, c: Candidate, wanted: seq<string>)
    ensures RanksBefore(a, b, wanted) && RanksBefore(b, c, wanted) ==> RanksBefore(a, c, wanted)
    ensures a.key != b.key ==> (RanksBefore(a, b, wanted) <==> !RanksBefore(b, a, wanted))
    ensures !RanksBefore(a, a, wanted)
  {
    hide CandidateScore, TotalSize;
    TextOrder(a.key, b.key, c.key);
  }

  /** The plan, as a function of the set of files alone: no order of arrival enters into it. */
  ghost function PlanOf(files: set<RemoteFile>, wanted: seq<string>): Plan
    requires DistinctIds(files) && PlainNames(files)
  {
    RanksAreOrdered(files, wanted);
    PlanFrom(Sorted(Candidates(files), ByRank(wanted)), wanted)
  }
}
