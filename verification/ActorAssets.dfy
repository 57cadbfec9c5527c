/** Actor pictures from a shared index: which address belongs to whom, and in which order. */
module ActorAssets {
  import opened Wrappers
  import opened Orders

  type Uuid = nat

  /** An index line: the name it matches, that name normalised, and the picture's address. */
  datatype Line = Line(matchName: string, key: string, url: string)

  datatype Asset = Asset(actor: Uuid, position: nat, profile: bool, url: string, matchName: string)

  datatype Outcome = Outcome(matchedActors: nat, assetCount: nat, discarded: int)

  /** `names` pairs each actor with the normalised forms of its names and aliases. */
  type Names = set<(string, Uuid)>

  function Known(names: Names, key: string): set<Uuid> {
    set n | n in names && n.0 == key :: n.1
  }

  predicate Resolves(names: Names, e: Line, actor: Uuid) {
    Known(names, e.key) == {actor}
  }

  predicate Claims(names: Names, e: Line, url: string, actor: Uuid) {
    e.url == url && Resolves(names, e, actor)
  }

  function Owners(names: Names, lines: set<Line>, url: string): set<Uuid> {
    set e, a | e in lines && a in Known(names, e.key) && Claims(names, e, url, a) :: a
  }

  /** An address is kept for its one owner. */
  predicate Kept(names: Names, lines: set<Line>, url: string, actor: Uuid) {
    Owners(names, lines, url) == {actor}
  }

  predicate Accepted(names: Names, lines: set<Line>, e: Line) {
    |Known(names, e.key)| == 1 && |Owners(names, lines, e.url)| == 1
  }

  function KeptUrls(names: Names, lines: set<Line>, actor: Uuid): set<string> {
    set e | e in lines && Kept(names, lines, e.url, actor) :: e.url
  }

  function MatchNames(names: Names, lines: set<Line>, url: string, actor: Uuid): set<string> {
    set e | e in lines && Claims(names, e, url, actor) :: e.matchName
  }

  lemma TextsAreOrdered(texts: set<string>)
    ensures StrictOrder(texts, TextBefore)
  {
    forall a, b, c | a in texts && b in texts && c in texts
      ensures !TextBefore(a, a) && (a != b ==> (TextBefore(a, b) <==> !TextBefore(b, a)))
      ensures TextBefore(a, b) && TextBefore(b, c) ==> TextBefore(a, c)
    {
      TextOrder(a, b, c);
    }
  }

  ghost function InTextOrder(texts: set<string>): seq<string> {
    TextsAreOrdered(texts);
    Sorted(texts, TextBefore)
  }

  /** The rows the rebuild writes: an actor's kept addresses in text order, the first one as its
      profile, each with the least name that claimed it. */
  ghost predicate IsAsset(names: Names, lines: set<Line>, x: Asset) {
    var urls := InTextOrder(KeptUrls(names, lines, x.actor));
    && x.position < |urls| && x.url == urls[x.position] && x.profile == (x.position == 0)
    && IsFirst(MatchNames(names, lines, x.url, x.actor), TextBefore, x.matchName)
  }

  function AcceptedCount(names: Names, lines: set<Line>, s: seq<Line>): nat {
    if s == [] then 0
    else AcceptedCount(names, lines, s[..|s| - 1]) + if Accepted(names, lines, s[|s| - 1]) then 1 else 0
  }

  // ---------------------------------------------------------------- what is kept

  ghost predicate Claimant(names: Names, lines: set<Line>, url: string, actor: Uuid) {
    exists e :: e in lines && Claims(names, e, url, actor)
  }

  lemma OwnersMeaning(names: Names, lines: set<Line>, url: string)
    ensures forall a: Uuid :: a in Owners(names, lines, url) <==> Claimant(names, lines, url, a)
  {
    forall a: Uuid ensures a in Owners(names, lines, url) <==> Claimant(names, lines, url, a) {
      if Claimant(names, lines, url, a) {
        var e :| e in lines && Claims(names, e, url, a);
        assert a in Known(names, e.key);
      }
    }
  }

  ghost predicate Claimed(names: Names, lines: set<Line>, url: string) {
    exists a: Uuid :: Claimant(names, lines, url, a)
  }

  ghost predicate Undisputed(names: Names, lines: set<Line>, url: string) {
    forall a: Uuid, b: Uuid :: Claimant(names, lines, url, a) && Claimant(names, lines, url, b) ==> a == b
  }

  /** An address is kept exactly when some line with a unique name claims it and all such lines name
      the same actor. */
  lemma UrlKeptExactly(names: Names, lines: set<Line>, url: string)
    ensures (exists a :: Kept(names, lines, url, a)) <==> Claimed(names, lines, url) && Undisputed(names, lines, url)
  {
    hide Claimant;
    OwnersMeaning(names, lines, url);
    var owners := Owners(names, lines, url);
    if a: Uuid :| Kept(names, lines, url, a) {
      assert a in owners;
    }
    if Claimed(names, lines, url) && Undisputed(names, lines, url) {
      var a: Uuid :| Claimant(names, lines, url, a);
      assert owners == {a};
      assert Kept(names, lines, url, a);
    }
  }

  lemma AcceptedMeaning(names: Names, lines: set<Line>, e: Line, actor: Uuid)
    requires e in lines && Resolves(names, e, actor)
    ensures Accepted(names, lines, e) <==> Kept(names, lines, e.url, actor)
  {
    assert Claims(names, e, e.url, actor) && actor in Known(names, e.key);
    assert actor in Owners(names, lines, e.url);
    if Accepted(names, lines, e) {
      OnlyElement(Owners(names, lines, e.url), actor);
    }
  }

  /** Within the table an address occurs once, and an actor's positions once each and without a gap,
      in the order of the addresses. */
  lemma AssetsAreInPlace(names: Names, lines: set<Line>, x: Asset, y: Asset)
    requires IsAsset(names, lines, x) && IsAsset(names, lines, y)
    ensures x.url == y.url ==> x == y
    ensures x.actor == y.actor ==> (x.position < y.position <==> TextBefore(x.url, y.url))
    ensures x.actor == y.actor && x.position == y.position ==> x == y
  {
    var urls := InTextOrder(KeptUrls(names, lines, x.actor));
    UrlsMeaning(names, lines, x.actor);
    UrlsMeaning(names, lines, y.actor);
    assert x.url in urls && y.url in InTextOrder(KeptUrls(names, lines, y.actor));
    assert Kept(names, lines, x.url, x.actor) && Kept(names, lines, y.url, y.actor);
    TextOrder(x.url, y.url, x.url);
    TextsAreOrdered(MatchNames(names, lines, x.url, x.actor));
    if x.url == y.url {
      assert x.actor in Owners(names, lines, x.url);
      assert x.actor == y.actor;
    }
    hide IsAsset, InTextOrder, Kept, KeptUrls, MatchNames;
    if x.actor == y.actor {
      assert x.position < y.position ==> TextBefore(urls[x.position], urls[y.position]);
      assert y.position < x.position ==> TextBefore(urls[y.position], urls[x.position]);
    }
    if x.actor == y.actor && x.url == y.url {
      FirstIsUnique(MatchNames(names, lines, x.url, x.actor), TextBefore, x.matchName, y.matchName);
    }
  }

  lemma UrlsMeaning(names: Names, lines: set<Line>, actor: Uuid)
    ensures var urls := InTextOrder(KeptUrls(names, lines, actor));
            && InOrder(urls, TextBefore) && |urls| == |KeptUrls(names, lines, actor)|
            && (forall u :: u in urls <==> u in KeptUrls(names, lines, actor))
            && (forall u :: u in urls ==> Kept(names, lines, u, actor) && MatchNames(names, lines, u, actor) != {})
  {
    hide TextBefore;
    var kept := KeptUrls(names, lines, actor);
    TextsAreOrdered(kept);
    SortedMeaning(kept, TextBefore);
    assert forall u :: u in InTextOrder(kept) <==> u in Elements(InTextOrder(kept));
    forall u | u in kept ensures Kept(names, lines, u, actor) && MatchNames(names, lines, u, actor) != {} {
      assert actor in Owners(names, lines, u);
      var e :| e in lines && actor in Known(names, e.key) && Claims(names, e, u, actor);
      assert e.matchName in MatchNames(names, lines, u, actor);
    }
  }

  /** Every position below an asset's is taken too, down to the profile at 0. */
  lemma PositionsAreFilled(names: Names, lines: set<Line>, x: Asset, position: nat)
    requires IsAsset(names, lines, x) && position <= x.position
    ensures exists y :: IsAsset(names, lines, y) && y.actor == x.actor && y.position == position && (y.profile <==> position == 0)
  {
    hide TextBefore;
    UrlsMeaning(names, lines, x.actor);
    var urls := InTextOrder(KeptUrls(names, lines, x.actor));
    var url := urls[position];
    assert url in urls;
    TextsAreOrdered(MatchNames(names, lines, url, x.actor));
    FirstExists(MatchNames(names, lines, url, x.actor), TextBefore);
    var name :| IsFirst(MatchNames(names, lines, url, x.actor), TextBefore, name);
    assert IsAsset(names, lines, Asset(x.actor, position, position == 0, url, name));
  }

  /** The count of accepted lines does not depend on their order; the rows, a function of the set of
      lines, do not either. */
  lemma {:induction false} CountIgnoresOrder(names: Names, lines: set<Line>, s: seq<Line>, t: seq<Line>)
    requires multiset(s) == multiset(t)
    ensures AcceptedCount(names, lines, s) == AcceptedCount(names, lines, t)
    decreases |s|
  {
    if s == [] {
      assert |t| == |multiset(t)| == 0;
    } else {
      var init, last := s[..|s| - 1], s[|s| - 1];
      assert s == init + [last];
      assert last in multiset(t);
      var i :| 0 <= i < |t| && t[i] == last;
      assert t == t[..i] + [last] + t[i + 1..];
      assert multiset(init) == multiset(s) - multiset{last};
      assert multiset(t[..i] + t[i + 1..]) == multiset(t) - multiset{last};
      CountIgnoresOrder(names, lines, init, t[..i] + t[i + 1..]);
      CountRemoved(names, lines, t, i);
    }
  }

  lemma {:induction false} CountRemoved(names: Names, lines: set<Line>, t: seq<Line>, i: nat)
    requires i < |t|
    ensures AcceptedCount(names, lines, t) == AcceptedCount(names, lines, t[..i] + t[i + 1..]) + if Accepted(names, lines, t[i]) then 1 else 0
    decreases |t|
  {
    hide Accepted;
    var rest := t[..i] + t[i + 1..];
    if i == |t| - 1 {
      assert rest == t[..i];
    } else {
      var init := t[..|t| - 1];
      assert rest[..|rest| - 1] == init[..i] + init[i + 1..];
      CountRemoved(names, lines, init, i);
    }
  }

  // ---------------------------------------------------------------- the rebuild

  method IndexNames(names: Names) returns (index: map<string, set<Uuid>>)
    ensures forall k :: Under(index, k) == Known(names, k)
  {
    index := map[];
    var rest := names;
    while rest != {}
      invariant rest <= names && forall k :: Under(index, k) == Known(names - rest, k)
      decreases |rest|
    {
      var n :| n in rest;
      OneMoreName(names - rest, n);
      assert names - (rest - {n}) == (names - rest) + {n};
      index := index[n.0 := Under(index, n.0) + {n.1}];
      rest := rest - {n};
    }
    assert names - rest == names;
  }

  lemma OneMoreName(names: Names, n: (string, Uuid))
    ensures forall k :: Known(names + {n}, k) == Known(names, k) + if k == n.0 then {n.1} else {}
  {
  }

  lemma OneMoreOwner(names: Names, lines: set<Line>, e: Line, url: string)
    ensures Owners(names, lines + {e}, url) ==
              Owners(names, lines, url) + if url == e.url && |Known(names, e.key)| == 1 then Known(names, e.key) else {}
  {
    OwnersMeaning(names, lines, url);
    OwnersMeaning(names, lines + {e}, url);
    if |Known(names, e.key)| == 1 {
      var owner :| owner in Known(names, e.key);
      OnlyElement(Known(names, e.key), owner);
    }
    hide Known, Owners;
    forall a: Uuid ensures Claimant(names, lines + {e}, url, a) <==> Claimant(names, lines, url, a) || Claims(names, e, url, a) {
      if Claimant(names, lines, url, a) {
        var f :| f in lines && Claims(names, f, url, a);
        assert f in lines + {e};
      }
      assert e in lines + {e};
    }
  }

  lemma OneMoreLine(names: Names, s: seq<Line>, i: nat)
    requires i < |s|
    ensures Elements(s[..i + 1]) == Elements(s[..i]) + {s[i]}
    ensures forall url :: Owners(names, Elements(s[..i + 1]), url) ==
              if url == s[i].url && |Known(names, s[i].key)| == 1 then Owners(names, Elements(s[..i]), url) + Known(names, s[i].key)
              else Owners(names, Elements(s[..i]), url)
    ensures forall url, a: Uuid :: MatchNames(names, Elements(s[..i + 1]), url, a) ==
              MatchNames(names, Elements(s[..i]), url, a) + if Claims(names, s[i], url, a) then {s[i].matchName} else {}
  {
    assert s[..i + 1] == s[..i] + [s[i]];
    hide Known, Owners, Claims;
    var before, after := Elements(s[..i]), Elements(s[..i + 1]);
    assert after == before + {s[i]};
    forall url ensures Owners(names, after, url) ==
        if url == s[i].url && |Known(names, s[i].key)| == 1 then Owners(names, before, url) + Known(names, s[i].key)
        else Owners(names, before, url)
    {
      OneMoreOwner(names, before, s[i], url);
    }
  }

  /** First pass: who claims which address. */
  method CollectOwners(names: Names, lines: seq<Line>, index: map<string, set<Uuid>>) returns (owners: map<string, set<Uuid>>)
    requires forall k :: Under(index, k) == Known(names, k)
    ensures forall url :: Under(owners, url) == Owners(names, Elements(lines), url)
  {
    hide Known, Owners;
    owners := map[];
    NoOwners(names);
    for i := 0 to |lines|
      invariant forall url :: Under(owners, url) == Owners(names, Elements(lines[..i]), url)
    {
      var e := lines[i];
      ghost var before := owners;
      OneMoreLine(names, lines, i);
      var actors := Under(index, e.key);
      if |actors| == 1 {
        var actor :| actor in actors;
        OnlyElement(actors, actor);
        owners := owners[e.url := Under(owners, e.url) + {actor}];
      }
      forall url ensures Under(owners, url) == Owners(names, Elements(lines[..i + 1]), url) {
        assert Under(before, url) == Owners(names, Elements(lines[..i]), url);
      }
    }
    assert lines[..|lines|] == lines;
  }

  lemma NoOwners(names: Names)
    ensures forall url :: Owners(names, Elements([]), url) == {}
  {
  }

  /** What is wanted after the first lines: an accepted address of the actor, with its least name. */
  ghost predicate Wanted(names: Names, all: set<Line>, seen: set<Line>, actor: Uuid, url: string, name: string) {
    Kept(names, all, url, actor) && IsFirst(MatchNames(names, seen, url, actor), TextBefore, name)
  }

  ghost predicate Collected(names: Names, all: set<Line>, seen: set<Line>, desired: map<(Uuid, string), string>) {
    && (forall p :: p in desired ==> Wanted(names, all, seen, p.0, p.1, desired[p]))
    && (forall p :: p !in desired && Kept(names, all, p.1, p.0) ==> MatchNames(names, seen, p.1, p.0) == {})
  }

  lemma LessName(seen: set<string>, name: string, current: string)
    requires IsFirst(seen, TextBefore, current)
    ensures IsFirst(seen + {name}, TextBefore, if TextBefore(name, current) then name else current)
  {
    TextOrder(name, current, name);
    forall n | n in seen ensures TextBefore(name, current) && n != name ==> TextBefore(name, n) {
      TextOrder(name, current, n);
    }
  }

  lemma LineAdded(names: Names, lines: seq<Line>, i: nat, desired: map<(Uuid, string), string>, desired': map<(Uuid, string), string>)
    requires i < |lines| && Collected(names, Elements(lines), Elements(lines[..i]), desired)
    requires var e := lines[i];
             if Accepted(names, Elements(lines), e)
             then exists a: Uuid :: Resolves(names, e, a) && desired' ==
                    desired[(a, e.url) := if (a, e.url) in desired && !TextBefore(e.matchName, desired[(a, e.url)])
                                          then desired[(a, e.url)] else e.matchName]
             else desired' == desired
    ensures Collected(names, Elements(lines), Elements(lines[..i + 1]), desired')
  {
    hide TextBefore, Known, Owners, MatchNames;
    var all, e := Elements(lines), lines[i];
    OneMoreLine(names, lines, i);
    forall p: (Uuid, string) ensures p in desired' ==> Wanted(names, all, Elements(lines[..i + 1]), p.0, p.1, desired'[p])
      ensures p !in desired' && Kept(names, all, p.1, p.0) ==> MatchNames(names, Elements(lines[..i + 1]), p.1, p.0) == {}
    {
      var before := MatchNames(names, Elements(lines[..i]), p.1, p.0);
      if Claims(names, e, p.1, p.0) {
        AcceptedMeaning(names, all, e, p.0);
        if p in desired {
          LessName(before, e.matchName, desired[p]);
        }
      }
    }
  }

  /** Second pass: the least claiming name of every kept address. */
  method CollectWanted(names: Names, lines: seq<Line>, index: map<string, set<Uuid>>, owners: map<string, set<Uuid>>)
    returns (desired: map<(Uuid, string), string>, accepted: nat)
    requires forall k :: Under(index, k) == Known(names, k)
    requires forall url :: Under(owners, url) == Owners(names, Elements(lines), url)
    ensures Collected(names, Elements(lines), Elements(lines), desired)
    ensures accepted == AcceptedCount(names, Elements(lines), lines)
  {
    hide TextBefore, Known, Owners, Collected;
    desired, accepted := map[], 0;
    NothingCollected(names, Elements(lines));
    for i := 0 to |lines|
      invariant Collected(names, Elements(lines), Elements(lines[..i]), desired)
      invariant accepted == AcceptedCount(names, Elements(lines), lines[..i])
    {
      var e := lines[i];
      assert lines[..i + 1][..i] == lines[..i];
      ghost var before := desired;
      var actors := Under(index, e.key);
      if |actors| == 1 && |Under(owners, e.url)| == 1 {
        var actor :| actor in actors;
        OnlyElement(actors, actor);
        accepted := accepted + 1;
        if (actor, e.url) !in desired || TextBefore(e.matchName, desired[(actor, e.url)]) {
          desired := desired[(actor, e.url) := e.matchName];
        } else {
          assert desired == desired[(actor, e.url) := desired[(actor, e.url)]];
        }
        assert Resolves(names, e, actor);
      }
      LineAdded(names, lines, i, before, desired);
    }
    assert lines[..|lines|] == lines;
  }

  lemma NothingCollected(names: Names, all: set<Line>)
    ensures Collected(names, all, Elements([]), map[])
  {
  }

  /** The rows depend only on the set of lines, and every line is accepted or discarded. */
  method Rebuild(names: Names, lines: seq<Line>) returns (assets: set<Asset>, outcome: Outcome)
    ensures forall x :: x in assets <==> IsAsset(names, Elements(lines), x)
    ensures outcome.assetCount == |assets| && outcome.matchedActors == |set x | x in assets :: x.actor|
    ensures outcome.discarded == |lines| - AcceptedCount(names, Elements(lines), lines)
  {
    hide TextBefore, Known, Owners, IsAsset, Collected, Kept;
    var index := IndexNames(names);
    var owners := CollectOwners(names, lines, index);
    var desired, accepted := CollectWanted(names, lines, index, owners);
    var actors := set p | p in desired :: p.0;
    assets := {};
    var rest := actors;
    while rest != {}
      invariant rest <= actors
      invariant forall x :: x in assets <==> x.actor in actors - rest && IsAsset(names, Elements(lines), x)
      decreases |rest|
    {
      var actor :| actor in rest;
      var urls := set p | p in desired && p.0 == actor :: p.1;
      DesiredUrls(names, lines, desired, actor);
      TextsAreOrdered(urls);
      var ordered := SortBy(urls, TextBefore);
      for i := 0 to |ordered|
        invariant forall x :: x in assets <==>
                    IsAsset(names, Elements(lines), x) && (x.actor in actors - rest || (x.actor == actor && x.position < i))
      {
        assert ordered[i] in Elements(ordered);
        var row := Asset(actor, i, i == 0, ordered[i], desired[(actor, ordered[i])]);
        RowIs(names, lines, desired, actor, ordered, i);
        assets := assets + {row};
      }
      PositionsEnd(names, lines, actor, ordered);
      rest := rest - {actor};
    }
    NoOtherActors(names, lines, desired);
    forall a | a in actors ensures exists x :: x in assets && x.actor == a {
      var x := SomeAsset(names, lines, desired, a);
      assert x in assets;
    }
    assert actors == set x | x in assets :: x.actor;
    outcome := Outcome(|actors|, |assets|, |lines| - accepted);
  }

  lemma DesiredUrls(names: Names, lines: seq<Line>, desired: map<(Uuid, string), string>, actor: Uuid)
    requires Collected(names, Elements(lines), Elements(lines), desired)
    ensures (set p | p in desired && p.0 == actor :: p.1) == KeptUrls(names, Elements(lines), actor)
  {
    hide TextBefore, Known;
    var all := Elements(lines);
    forall u ensures u in (set p | p in desired && p.0 == actor :: p.1) <==> u in KeptUrls(names, all, actor) {
      assert u in (set p | p in desired && p.0 == actor :: p.1) <==> (actor, u) in desired;
      if (actor, u) in desired {
        assert Wanted(names, all, all, actor, u, desired[(actor, u)]);
        var e :| e in all && Claims(names, e, u, actor);
      }
      if u in KeptUrls(names, all, actor) {
        UrlsMeaning(names, all, actor);
        assert u in InTextOrder(KeptUrls(names, all, actor));
        assert (actor, u).1 == u && (actor, u).0 == actor;
      }
    }
  }

  lemma SomeAsset(names: Names, lines: seq<Line>, desired: map<(Uuid, string), string>, actor: Uuid) returns (x: Asset)
    requires Collected(names, Elements(lines), Elements(lines), desired) && actor in (set p | p in desired :: p.0)
    ensures IsAsset(names, Elements(lines), x) && x.actor == actor
  {
    hide TextBefore, Known, Kept, KeptUrls, MatchNames;
    var all := Elements(lines);
    var p :| p in desired && p.0 == actor;
    DesiredUrls(names, lines, desired, actor);
    UrlsMeaning(names, all, actor);
    assert p.1 in KeptUrls(names, all, actor);
    var url := InTextOrder(KeptUrls(names, all, actor))[0];
    assert url in InTextOrder(KeptUrls(names, all, actor));
    TextsAreOrdered(MatchNames(names, all, url, actor));
    FirstExists(MatchNames(names, all, url, actor), TextBefore);
    var name :| IsFirst(MatchNames(names, all, url, actor), TextBefore, name);
    x := Asset(actor, 0, true, url, name);
  }

  lemma RowIs(names: Names, lines: seq<Line>, desired: map<(Uuid, string), string>, actor: Uuid, ordered: seq<string>, i: nat)
    requires Collected(names, Elements(lines), Elements(lines), desired)
    requires ordered == InTextOrder(KeptUrls(names, Elements(lines), actor)) && i < |ordered| && (actor, ordered[i]) in desired
    ensures forall x: Asset :: x.actor == actor && x.position == i ==>
              (IsAsset(names, Elements(lines), x) <==> x == Asset(actor, i, i == 0, ordered[i], desired[(actor, ordered[i])]))
  {
    hide TextBefore, Known, Kept, KeptUrls;
    var all := Elements(lines);
    assert Wanted(names, all, all, actor, ordered[i], desired[(actor, ordered[i])]);
    TextsAreOrdered(MatchNames(names, all, ordered[i], actor));
  }

  lemma PositionsEnd(names: Names, lines: seq<Line>, actor: Uuid, ordered: seq<string>)
    requires ordered == InTextOrder(KeptUrls(names, Elements(lines), actor))
    ensures forall x :: IsAsset(names, Elements(lines), x) && x.actor == actor ==> x.position < |ordered|
  {
  }

  lemma NoOtherActors(names: Names, lines: seq<Line>, desired: map<(Uuid, string), string>)
    requires Collected(names, Elements(lines), Elements(lines), desired)
    ensures forall x :: IsAsset(names, Elements(lines), x) ==> x.actor in (set p | p in desired :: p.0)
  {
    hide TextBefore, Known, Kept;
    forall x | IsAsset(names, Elements(lines), x) ensures x.actor in (set p | p in desired :: p.0) {
      UrlsMeaning(names, Elements(lines), x.actor);
      assert x.url in InTextOrder(KeptUrls(names, Elements(lines), x.actor));
      DesiredUrls(names, lines, desired, x.actor);
      assert x.url in (set p | p in desired && p.0 == x.actor :: p.1);
    }
  }
}
