/** Both writers of actor aliases together: keys stay unique, a rebuild is idempotent, and what a
    later rebuild can lose. */
module ActorDirectory {
  import opened Wrappers
  import opened ActorNames

  // ---------------------------------------------------------------- every reachable state

  ghost predicate Inv(db: Db) {
    && (forall r, s :: r in db.aliases && s in db.aliases && SameKey(r, s) ==> r == s)
    && (forall r :: r in db.aliases ==> r.actor in db.actors)
    && (forall a, b :: a in db.actors && b in db.actors && db.actors[a].javdbId == db.actors[b].javdbId ==> a == b)
  }

  lemma ImportKeepsInv(db: Db, id: Uuid, name: Name, aliases: seq<Name>)
    requires Inv(db) && id in db.actors
    ensures Inv(ImportActor(db, id, name, aliases))
  {
    hide NewRows;
    var blocked := KeysOf(db.aliases, id, Mapping);
    var rows := NewRows(id, [name] + aliases, blocked, Javdb);
    NewRowsMeaning(id, [name] + aliases, blocked, Javdb);
    var db' := ImportActor(db, id, name, aliases);
    forall r, s | r in db'.aliases && s in db'.aliases && SameKey(r, s) ensures r == s {
      assert r in rows ==> r.key in KeysOf(rows, id, Javdb);
      assert s in rows ==> s.key in KeysOf(rows, id, Javdb);
    }
  }

  lemma MappingRowsMeaning(db: Db, entries: seq<Entry>, actor: Uuid)
    ensures forall r :: r in MappingRows(db, entries, actor) ==>
              r.actor == actor && r.authority == Mapping && r.key !in KeysOf(db.aliases, actor, Javdb)
    ensures forall r, s :: r in MappingRows(db, entries, actor) && s in MappingRows(db, entries, actor) && SameKey(r, s) ==> r == s
    ensures KeysOf(MappingRows(db, entries, actor), actor, Mapping) ==
              match MatchOf(db, entries, actor)
              case None => {}
              case Some(e) => set n | n in e.aliases && n.key != "" && n.key !in KeysOf(db.aliases, actor, Javdb) :: n.key
  {
    hide NewRows, MatchOf;
    if MatchOf(db, entries, actor).Some? {
      var e := MatchOf(db, entries, actor).value;
      NewRowsMeaning(actor, e.aliases, KeysOf(db.aliases, actor, Javdb), Mapping);
      var rows := MappingRows(db, entries, actor);
      assert forall r :: r in rows ==> r.key in KeysOf(rows, actor, Mapping);
    }
  }

  lemma RebuildKeepsInv(db: Db, entries: seq<Entry>)
    requires Inv(db)
    ensures Inv(Rebuild(db, entries))
  {
    hide MappingRows, MatchOf;
    RebuiltRows(db, entries);
    var db' := Rebuild(db, entries);
    hide Rebuild;
    forall r, s | r in db'.aliases && s in db'.aliases && SameKey(r, s) ensures r == s {
      MappingRowsMeaning(db, entries, r.actor);
      assert r in db.aliases && r.authority == Javdb ==> r.key in KeysOf(db.aliases, r.actor, Javdb);
      assert s in db.aliases && s.authority == Javdb ==> s.key in KeysOf(db.aliases, s.actor, Javdb);
    }
    assert db'.actors.Keys == db.actors.Keys;
    assert forall a :: a in db.actors ==> db'.actors[a].javdbId == db.actors[a].javdbId;
  }

  /** The table after a rebuild: the imported rows, and each actor's rows from its entry. */
  lemma RebuiltRows(db: Db, entries: seq<Entry>)
    ensures forall r :: r in Rebuild(db, entries).aliases <==>
              (r in db.aliases && r.authority == Javdb) || (r.actor in db.actors && r in MappingRows(db, entries, r.actor))
    ensures Rebuild(db, entries).actors.Keys == db.actors.Keys
    ensures forall a :: a in db.actors ==> Rebuild(db, entries).actors[a] == Described(db.actors[a], MatchOf(db, entries, a))
  {
    hide MappingRows, MatchOf;
    forall a ensures forall r :: r in MappingRows(db, entries, a) ==> r.actor == a && r.authority == Mapping {
      MappingRowsMeaning(db, entries, a);
    }
  }

  datatype Action = DoImport(id: Uuid, javdbId: string, name: Name, aliases: seq<Name>) | DoRebuild(entries: seq<Entry>)

  const EMPTY: Db := Db(map[], {})

  /** An import writes the actor with its javdb id, or a new one when there is none. */
  predicate Allowed(db: Db, a: Action) {
    a.DoImport? ==> IsActor(db, a.id, a.javdbId) || (a.id !in db.actors && forall b :: b in db.actors ==> db.actors[b].javdbId != a.javdbId)
  }

  function Step(db: Db, a: Action): Db {
    match a
    case DoImport(id, javdbId, name, aliases) => ImportActor(WithActor(db, id, javdbId), id, name, aliases)
    case DoRebuild(entries) => Rebuild(db, entries)
  }

  ghost predicate AllowedRun(db: Db, actions: seq<Action>)
    decreases |actions|
  {
    actions == [] || (Allowed(db, actions[0]) && AllowedRun(Step(db, actions[0]), actions[1..]))
  }

  function Run(db: Db, actions: seq<Action>): Db
    decreases |actions|
  {
    if actions == [] then db else Run(Step(db, actions[0]), actions[1..])
  }

  /** However imports and rebuilds interleave, an actor never has one alias key twice. */
  lemma {:induction false} RunKeepsInv(db: Db, actions: seq<Action>)
    requires Inv(db) && AllowedRun(db, actions)
    ensures Inv(Run(db, actions))
    decreases |actions|
  {
    if actions != [] {
      hide ImportActor, Rebuild;
      StepKeepsInv(db, actions[0]);
      RunKeepsInv(Step(db, actions[0]), actions[1..]);
    }
  }

  lemma StepKeepsInv(db: Db, a: Action)
    requires Inv(db) && Allowed(db, a)
    ensures Inv(Step(db, a))
  {
    hide ImportActor, Rebuild;
    match a
    case DoImport(id, javdbId, name, aliases) => ImportKeepsInv(WithActor(db, id, javdbId), id, name, aliases);
    case DoRebuild(entries) => RebuildKeepsInv(db, entries);
  }

  // ---------------------------------------------------------------- what a rebuild depends on

  predicate SameSources(a: Db, b: Db) {
    && a.actors.Keys == b.actors.Keys
    && (forall id :: id in a.actors && id in b.actors ==> a.actors[id].nameJa == b.actors[id].nameJa)
    && JavdbRows(a.aliases) == JavdbRows(b.aliases)
  }

  lemma SameIdentity(a: Db, b: Db, key: string)
    requires SameSources(a, b)
    ensures Identity(a, key) == Identity(b, key)
  {
    SameJavdb(a, b);
  }

  lemma SameMatches(a: Db, b: Db, entries: seq<Entry>, actor: Uuid)
    requires SameSources(a, b)
    ensures MatchOf(a, entries, actor) == MatchOf(b, entries, actor)
    ensures KeysOf(a.aliases, actor, Javdb) == KeysOf(b.aliases, actor, Javdb)
    ensures MappingRows(a, entries, actor) == MappingRows(b, entries, actor)
  {
    hide Identity, EntriesNamed, NameKeys;
    forall k ensures Identity(a, k) == Identity(b, k) {
      SameIdentity(a, b, k);
    }
    assert CandidateKeys(a, entries, actor) == CandidateKeys(b, entries, actor);
    forall k ensures k in KeysOf(a.aliases, actor, Javdb) <==> k in KeysOf(b.aliases, actor, Javdb) {
      SameJavdb(a, b);
    }
  }

  lemma SameJavdb(a: Db, b: Db)
    requires SameSources(a, b)
    ensures forall r: Alias :: r.authority == Javdb ==> (r in a.aliases <==> r in b.aliases)
  {
    forall r: Alias | r.authority == Javdb ensures r in a.aliases <==> r in b.aliases {
      assert r in JavdbRows(a.aliases) <==> r in JavdbRows(b.aliases);
    }
  }

  lemma RebuildKeepsSources(db: Db, entries: seq<Entry>)
    ensures SameSources(db, Rebuild(db, entries))
  {
    hide MatchOf, MappingRows;
    RebuiltRows(db, entries);
    forall r | r in Rebuild(db, entries).aliases && r.authority == Javdb ensures r in db.aliases {
      MappingRowsMeaning(db, entries, r.actor);
    }
  }

  /** A rebuild depends on the imports alone: whatever an earlier rebuild wrote is replaced. */
  lemma RebuildReplaces(db: Db, earlier: seq<Entry>, entries: seq<Entry>)
    ensures Rebuild(Rebuild(db, earlier), entries).aliases == Rebuild(db, entries).aliases
  {
    hide MatchOf, MappingRows, SameSources;
    var db' := Rebuild(db, earlier);
    RebuildKeepsSources(db, earlier);
    forall a ensures MappingRows(db', entries, a) == MappingRows(db, entries, a) {
      SameMatches(db, db', entries, a);
    }
    SameJavdb(db, db');
    RebuiltRows(db, earlier);
    RebuiltRows(db, entries);
    RebuiltRows(db', entries);
    hide Rebuild;
  }

  /** Rebuilding again from the same entries changes nothing. */
  lemma RebuildIsIdempotent(db: Db, entries: seq<Entry>)
    ensures Rebuild(Rebuild(db, entries), entries) == Rebuild(db, entries)
  {
    hide MatchOf, MappingRows, SameSources;
    var db' := Rebuild(db, entries);
    RebuildReplaces(db, entries, entries);
    RebuildKeepsSources(db, entries);
    forall a ensures MatchOf(db', entries, a) == MatchOf(db, entries, a) {
      SameMatches(db, db', entries, a);
    }
    assert Rebuild(db', entries).actors == db'.actors;
  }

  /** A match is unambiguous both ways: no other entry has the name, and no other actor is known
      under it. */
  lemma MatchIsUnambiguous(db: Db, entries: seq<Entry>, actor: Uuid, other: Uuid)
    requires MatchOf(db, entries, actor).Some?
    ensures var e := MatchOf(db, entries, actor).value;
            && e in entries && Identity(db, e.nameJa.key) == {actor}
            && (forall f :: f in entries && f.nameJa.key == e.nameJa.key ==> f == e)
            && (other != actor ==> MatchOf(db, entries, other) != Some(e))
  {
    hide Identity;
    var e := MatchOf(db, entries, actor).value;
    var k :| k in NameKeys(entries) && MatchedBy(db, entries, actor, k) && EntriesNamed(entries, k) != [];
    assert k in CandidateKeys(db, entries, actor);
    NamedMeaning(entries, k);
    assert EntriesNamed(entries, k)[0] in EntriesNamed(entries, k);
    forall f | f in entries && f.nameJa.key == k ensures f == e {
      assert f in EntriesNamed(entries, k);
    }
    if MatchOf(db, entries, other) == Some(e) {
      var l :| l in NameKeys(entries) && MatchedBy(db, entries, other, l) && EntriesNamed(entries, l) != [];
      assert l in CandidateKeys(db, entries, other);
      NamedMeaning(entries, l);
      assert EntriesNamed(entries, l)[0] in EntriesNamed(entries, l);
    }
  }

  lemma {:induction false} NamedMeaning(entries: seq<Entry>, key: string)
    ensures forall e :: e in EntriesNamed(entries, key) <==> e in entries && e.nameJa.key == key
  {
    if entries != [] {
      NamedMeaning(entries[..|entries| - 1], key);
      assert entries == entries[..|entries| - 1] + [entries[|entries| - 1]];
    }
  }

  /** A match is exactly the only entry under the only name by which the actor alone is known. */
  lemma MatchesExactly(db: Db, entries: seq<Entry>, actor: Uuid, e: Entry)
    ensures MatchOf(db, entries, actor) == Some(e) <==> MatchesEntry(db, entries, actor, e)
  {
    hide Identity;
    if MatchesEntry(db, entries, actor, e) {
      assert e.nameJa.key in CandidateKeys(db, entries, actor);
    }
    if MatchOf(db, entries, actor) == Some(e) {
      var k :| k in NameKeys(entries) && MatchedBy(db, entries, actor, k) && EntriesNamed(entries, k) != [];
      assert k in CandidateKeys(db, entries, actor);
      NamedMeaning(entries, k);
      assert EntriesNamed(entries, k) == [e] && e in EntriesNamed(entries, k);
    }
  }

  /** A rebuild gives every matched actor its entry's names: the Chinese one unless blank, the
      biography if there is one, and the aliases JavDB does not list; nobody else is written. */
  lemma RebuildDescribes(db: Db, entries: seq<Entry>, actor: Uuid)
    requires actor in db.actors
    ensures var db' := Rebuild(db, entries);
            && actor in db'.actors && db'.actors.Keys == db.actors.Keys
            && db'.actors[actor].nameJa == db.actors[actor].nameJa && db'.actors[actor].javdbId == db.actors[actor].javdbId
            && (MatchOf(db, entries, actor) == None ==>
                  db'.actors[actor] == db.actors[actor] && KeysOf(db'.aliases, actor, Mapping) == {})
            && (MatchOf(db, entries, actor).Some? ==>
                  var e := MatchOf(db, entries, actor).value;
                  && db'.actors[actor].nameZh == (if e.nameZh == "" then db.actors[actor].nameZh else Some(e.nameZh))
                  && db'.actors[actor].bio == (if e.bio == None then db.actors[actor].bio else e.bio)
                  && KeysOf(db'.aliases, actor, Mapping) ==
                     set n | n in e.aliases && n.key != "" && n.key !in KeysOf(db.aliases, actor, Javdb) :: n.key)
            && KeysOf(db'.aliases, actor, Javdb) == KeysOf(db.aliases, actor, Javdb)
  {
    hide MatchOf, MappingRows;
    RebuiltRows(db, entries);
    MappingRowsMeaning(db, entries, actor);
    var db' := Rebuild(db, entries);
    hide Rebuild;
    assert KeysOf(db'.aliases, actor, Mapping) == KeysOf(MappingRows(db, entries, actor), actor, Mapping);
    assert KeysOf(db'.aliases, actor, Javdb) == KeysOf(db.aliases, actor, Javdb);
  }

  /** After an import the actor is known under its name and under every alias listed, but for blank
      ones and those the mapping holds; no other actor and no other row changed. */
  lemma ImportedActorIsKnown(db: Db, id: Uuid, name: Name, aliases: seq<Name>, key: string)
    requires id in db.actors
    ensures var db' := ImportActor(db, id, name, aliases);
            && db'.actors == db.actors[id := db.actors[id].(nameJa := Some(name))]
            && id in Identity(db', name.key)
            && (id in Identity(db', key) <==>
                  key == name.key || (key != "" && Listed(aliases, key) && key !in KeysOf(db.aliases, id, Mapping)))
            && (forall r: Alias :: r.actor != id || r.authority == Mapping ==> (r in db'.aliases <==> r in db.aliases))
            && (forall r :: r in db'.aliases && r.actor == id && r.authority == Javdb ==> FirstSpelling([name] + aliases, r))
  {
    hide NewRows, FirstSpelling;
    var blocked := KeysOf(db.aliases, id, Mapping);
    var rows := NewRows(id, [name] + aliases, blocked, Javdb);
    NewRowsMeaning(id, [name] + aliases, blocked, Javdb);
    var db' := ImportActor(db, id, name, aliases);
    assert key in KeysOf(rows, id, Javdb) <==> exists r :: r in db'.aliases && r.authority == Javdb && r.key == key && r.actor == id;
    assert forall n :: n in [name] + aliases <==> n == name || n in aliases;
  }

  /** An import leaves a key to the mapping when the mapping holds it at that moment. So a key the
      import listed is there after a later rebuild if and only if it was not held then, or the new
      entries list it again. */
  lemma ImportedKeySurvivesExactly(db: Db, id: Uuid, name: Name, aliases: seq<Name>, entries: seq<Entry>, key: string)
    requires id in db.actors && key != "" && Listed([name] + aliases, key)
    ensures var imported := ImportActor(db, id, name, aliases);
            var rebuilt := Rebuild(imported, entries);
            var described := MatchOf(imported, entries, id);
            (exists r :: r in rebuilt.aliases && r.actor == id && r.key == key) <==>
              key !in KeysOf(db.aliases, id, Mapping) || (described.Some? && Listed(described.value.aliases, key))
  {
    hide NewRows, MatchOf, MappingRows;
    var imported := ImportActor(db, id, name, aliases);
    var rebuilt := Rebuild(imported, entries);
    var blocked := KeysOf(db.aliases, id, Mapping);
    var rows := NewRows(id, [name] + aliases, blocked, Javdb);
    NewRowsMeaning(id, [name] + aliases, blocked, Javdb);
    assert KeysOf(imported.aliases, id, Javdb) == KeysOf(rows, id, Javdb);
    assert key in KeysOf(rows, id, Javdb) <==> key !in blocked;
    MappingRowsMeaning(imported, entries, id);
    RebuiltKeys(imported, entries, id, key);
  }

  lemma RebuiltKeys(db: Db, entries: seq<Entry>, id: Uuid, key: string)
    requires id in db.actors
    ensures (exists r :: r in Rebuild(db, entries).aliases && r.actor == id && r.key == key) <==>
              key in KeysOf(db.aliases, id, Javdb) || key in KeysOf(MappingRows(db, entries, id), id, Mapping)
  {
    hide MatchOf, MappingRows;
    var db' := Rebuild(db, entries);
    RebuiltRows(db, entries);
    MappingRowsMeaning(db, entries, id);
    hide Rebuild;
    if key in KeysOf(db.aliases, id, Javdb) {
      var r :| r in db.aliases && r.actor == id && r.authority == Javdb && r.key == key;
      assert r in db'.aliases;
    }
    if key in KeysOf(MappingRows(db, entries, id), id, Mapping) {
      var r :| r in MappingRows(db, entries, id) && r.actor == id && r.authority == Mapping && r.key == key;
      assert r in db'.aliases;
    }
  }

  // The mapping lists alias "x" for an actor; JavDB lists it too; then the mapping drops it.
  const ACTOR_NAME := Name("A", "a")
  const SHARED_ALIAS := Name("X", "x")
  const LISTING := Entry(ACTOR_NAME, "Z", None, [SHARED_ALIAS])

  const LOSING_RUN: seq<Action> := [
    DoImport(1, "j", ACTOR_NAME, []), DoRebuild([LISTING]), DoImport(1, "j", ACTOR_NAME, [SHARED_ALIAS]), DoRebuild([])]

  /** From the empty tables, step by step, to an actor without an alias its last import listed. */
  lemma ImportedKeyIsLost()
    ensures AllowedRun(EMPTY, LOSING_RUN)
    ensures forall r :: r in Run(EMPTY, LOSING_RUN).aliases && r.actor == 1 ==> r.key != SHARED_ALIAS.key
  {
    var one := Step(EMPTY, LOSING_RUN[0]);
    assert 1 in one.actors && one.actors[1].nameJa == Some(ACTOR_NAME) && one.actors.Keys == {1} && one.actors[1].javdbId == "j";
    var two := Step(one, LOSING_RUN[1]);
    NewRowsMeaning(1, [ACTOR_NAME] + [], KeysOf({}, 1, Mapping), Javdb);
    assert forall r :: r in one.aliases ==> r.actor == 1 && r.key in KeysOf(one.aliases, 1, Javdb);
    ListingHoldsAlias(one);
    var three := Step(two, LOSING_RUN[2]);
    var four := Step(three, LOSING_RUN[3]);
    assert IsActor(one, 1, "j") && IsActor(two, 1, "j");
    assert Listed([ACTOR_NAME] + [SHARED_ALIAS], SHARED_ALIAS.key) by {
      assert ([ACTOR_NAME] + [SHARED_ALIAS])[1] == SHARED_ALIAS;
    }
    ImportedKeySurvivesExactly(two, 1, ACTOR_NAME, [SHARED_ALIAS], [], SHARED_ALIAS.key);
    assert NameKeys([]) == {};
    assert four == Rebuild(ImportActor(two, 1, ACTOR_NAME, [SHARED_ALIAS]), []);
    RunsInFour(LOSING_RUN[0], LOSING_RUN[1], LOSING_RUN[2], LOSING_RUN[3]);
  }

  lemma ListingHoldsAlias(db: Db)
    requires db.actors.Keys == {1} && db.actors[1].nameJa == Some(ACTOR_NAME) && db.actors[1].javdbId == "j"
    requires forall r :: r in db.aliases ==> r.actor == 1 && r.key == ACTOR_NAME.key
    ensures var db' := Rebuild(db, [LISTING]);
            && SHARED_ALIAS.key in KeysOf(db'.aliases, 1, Mapping)
            && db'.actors.Keys == {1} && db'.actors[1].javdbId == "j"
  {
    assert [LISTING][..0] == [];
    assert EntriesNamed([LISTING], "a") == [LISTING];
    assert NameKeys([LISTING]) == {"a"};
    assert Identity(db, "a") == {1};
    assert CandidateKeys(db, [LISTING], 1) == {"a"};
    assert MatchOf(db, [LISTING], 1) == Some(LISTING);
    MappingRowsMeaning(db, [LISTING], 1);
    RebuiltRows(db, [LISTING]);
    assert SHARED_ALIAS in LISTING.aliases && SHARED_ALIAS.key !in KeysOf(db.aliases, 1, Javdb);
    assert SHARED_ALIAS.key in KeysOf(MappingRows(db, [LISTING], 1), 1, Mapping);
  }

  lemma RunsInFour(a: Action, b: Action, c: Action, d: Action)
    ensures var one := Step(EMPTY, a); var two := Step(one, b); var three := Step(two, c);
            && Run(EMPTY, [a, b, c, d]) == Step(three, d)
            && (AllowedRun(EMPTY, [a, b, c, d]) <==> Allowed(EMPTY, a) && Allowed(one, b) && Allowed(two, c) && Allowed(three, d))
  {
    hide Step, Allowed;
    assert [a, b, c, d][1..] == [b, c, d] && [b, c, d][1..] == [c, d] && [c, d][1..] == [d] && [d][1..] == [];
    var one := Step(EMPTY, a);
    var two := Step(one, b);
    var three := Step(two, c);
    assert Run(three, [d]) == Run(Step(three, d), []) && (AllowedRun(three, [d]) <==> Allowed(three, d));
    assert Run(two, [c, d]) == Run(three, [d]) && (AllowedRun(two, [c, d]) <==> Allowed(two, c) && AllowedRun(three, [d]));
    assert Run(one, [b, c, d]) == Run(two, [c, d]) && (AllowedRun(one, [b, c, d]) <==> Allowed(one, b) && AllowedRun(two, [c, d]));
  }
}
