/** The two writers over their mutable tables. */
module ActorTables {
  import opened Wrappers
  import opened ActorNames
  import opened ActorDirectory

  function Put<K, V>(index: map<K, set<V>>, k: K, v: V): map<K, set<V>> {
    index[k := Under(index, k) + {v}]
  }

  function EntriesUnder<K>(index: map<K, seq<Entry>>, k: K): seq<Entry> {
    if k in index then index[k] else []
  }

  /** The candidate names among those already looked at. */
  function Seen(db: Db, entries: seq<Entry>, actor: Uuid, done: set<string>): set<string> {
    CandidateKeys(db, entries, actor) * done
  }

  lemma MatchFromKey(db: Db, entries: seq<Entry>, actor: Uuid, key: string)
    requires MatchedBy(db, entries, actor, key)
    ensures key in NameKeys(entries) && |EntriesNamed(entries, key)| == 1
    ensures MatchOf(db, entries, actor) == Some(EntriesNamed(entries, key)[0])
  {
    hide Identity;
    assert key in CandidateKeys(db, entries, actor);
  }

  lemma NoMatch(db: Db, entries: seq<Entry>, actor: Uuid)
    requires |CandidateKeys(db, entries, actor)| != 1
    ensures MatchOf(db, entries, actor) == None
  {
    hide Identity, CandidateKeys;
  }

  class Tables {
    var actors: map<Uuid, Actor>
    var aliases: set<Alias>

    ghost function Contents(): Db
      reads this
    {
      Db(actors, aliases)
    }

    ghost predicate Valid()
      reads this
    {
      Inv(Contents())
    }

    constructor ()
      ensures Valid() && Contents() == EMPTY
    {
      actors, aliases := map[], {};
    }

    /** Collect the rows for some names, first spelling first. */
    static method CollectRows(actor: Uuid, names: seq<Name>, blocked: set<string>, authority: Authority) returns (rows: set<Alias>)
      ensures rows == NewRows(actor, names, blocked, authority)
    {
      rows := {};
      var taken := {};
      for i := 0 to |names|
        invariant rows == NewRows(actor, names[..i], blocked, authority)
        invariant forall k :: k in taken <==> exists r :: r in rows && r.key == k
      {
        assert names[..i + 1][..i] == names[..i];
        var n := names[i];
        if n.key != "" && n.key !in blocked && n.key !in taken {
          rows := rows + {Alias(actor, n.key, n.text, authority)};
          taken := taken + {n.key};
        }
      }
      assert names[..|names|] == names;
    }

    method UpsertActor(javdbId: string, name: Name, names: seq<Name>, unused: Uuid) returns (id: Uuid)
      requires Valid() && unused !in actors
      modifies this
      ensures Valid() && IsActor(Contents(), id, javdbId)
      ensures id == unused || id in old(actors)
      ensures Contents() == Step(old(Contents()), DoImport(id, javdbId, name, names))
    {
      hide NewRows;
      if existing :| existing in actors && actors[existing].javdbId == javdbId {
        id := existing;
      } else {
        id := unused;
      }
      StepKeepsInv(Contents(), DoImport(id, javdbId, name, names));
      if id !in actors {
        actors := actors[id := Actor(javdbId, None, None, None)];
      }
      actors := actors[id := actors[id].(nameJa := Some(name))];
      var blocked := KeysOf(aliases, id, Mapping);
      aliases := set r | r in aliases && !(r.actor == id && r.authority == Javdb);
      var rows := CollectRows(id, [name] + names, blocked, Javdb);
      aliases := aliases + rows;
    }

    // ------------------------------------------------------------ the rebuild

    method IndexActors() returns (identity: map<string, set<Uuid>>)
      ensures forall k :: Under(identity, k) == NamedActors(actors, actors.Keys, k)
    {
      identity := map[];
      var rest := actors.Keys;
      while rest != {}
        invariant rest <= actors.Keys
        invariant forall k :: Under(identity, k) == NamedActors(actors, actors.Keys - rest, k)
        decreases |rest|
      {
        var a :| a in rest;
        OneMoreActor(actors, rest, a);
        if actors[a].nameJa.Some? {
          identity := Put(identity, actors[a].nameJa.value.key, a);
        }
        rest := rest - {a};
      }
      assert actors.Keys - rest == actors.Keys;
    }

    static function NamedActors(actors: map<Uuid, Actor>, ids: set<Uuid>, k: string): set<Uuid> {
      set a | a in ids && a in actors && actors[a].nameJa.Some? && actors[a].nameJa.value.key == k
    }

    static lemma OneMoreActor(actors: map<Uuid, Actor>, rest: set<Uuid>, a: Uuid)
      requires rest <= actors.Keys && a in rest
      ensures forall k :: NamedActors(actors, actors.Keys - (rest - {a}), k) ==
                NamedActors(actors, actors.Keys - rest, k) + if actors[a].nameJa.Some? && actors[a].nameJa.value.key == k then {a} else {}
    {
    }

    method IndexNames() returns (identity: map<string, set<Uuid>>, javdbKeys: map<Uuid, set<string>>)
      ensures forall k :: Under(identity, k) == Identity(Contents(), k)
      ensures forall a :: Under(javdbKeys, a) == KeysOf(aliases, a, Javdb)
    {
      hide KeysOf, AliasActors, NamedActors, Under, Put, Indexed;
      identity := IndexActors();
      javdbKeys := map[];
      ghost var named := identity;
      var rest := aliases;
      NoAliases(named);
      assert aliases - rest == {};
      while rest != {}
        invariant rest <= aliases && Indexed(named, aliases - rest, identity, javdbKeys)
        decreases |rest|
      {
        var r :| r in rest;
        AliasIndexed(named, aliases - rest, identity, javdbKeys, r);
        assert aliases - (rest - {r}) == (aliases - rest) + {r};
        if r.authority == Javdb {
          identity := Put(identity, r.key, r.actor);
          javdbKeys := Put(javdbKeys, r.actor, r.key);
        }
        rest := rest - {r};
      }
      assert aliases - rest == aliases;
      AllIndexed(Contents(), named, identity, javdbKeys);
    }

    static ghost predicate Indexed(named: map<string, set<Uuid>>, rows: set<Alias>,
                                   identity: map<string, set<Uuid>>, javdbKeys: map<Uuid, set<string>>)
    {
      && (forall k :: Under(identity, k) == Under(named, k) + AliasActors(rows, k))
      && (forall a :: Under(javdbKeys, a) == KeysOf(rows, a, Javdb))
    }

    static lemma AliasIndexed(named: map<string, set<Uuid>>, rows: set<Alias>,
                              identity: map<string, set<Uuid>>, javdbKeys: map<Uuid, set<string>>, r: Alias)
      requires Indexed(named, rows, identity, javdbKeys)
      ensures r.authority == Javdb ==> Indexed(named, rows + {r}, Put(identity, r.key, r.actor), Put(javdbKeys, r.actor, r.key))
      ensures r.authority != Javdb ==> Indexed(named, rows + {r}, identity, javdbKeys)
    {
      OneMoreAlias(rows, r);
      hide KeysOf, AliasActors;
    }

    static lemma OneMoreAlias(rows: set<Alias>, r: Alias)
      ensures forall k :: AliasActors(rows + {r}, k) == AliasActors(rows, k) + if r.authority == Javdb && r.key == k then {r.actor} else {}
      ensures forall a :: KeysOf(rows + {r}, a, Javdb) == KeysOf(rows, a, Javdb) + if r.authority == Javdb && r.actor == a then {r.key} else {}
    {
    }

    static lemma AllIndexed(db: Db, named: map<string, set<Uuid>>, identity: map<string, set<Uuid>>, javdbKeys: map<Uuid, set<string>>)
      requires forall k :: Under(named, k) == NamedActors(db.actors, db.actors.Keys, k)
      requires Indexed(named, db.aliases, identity, javdbKeys)
      ensures forall k :: Under(identity, k) == Identity(db, k)
      ensures forall a :: Under(javdbKeys, a) == KeysOf(db.aliases, a, Javdb)
    {
      hide KeysOf, Under;
      forall k ensures Under(identity, k) == Identity(db, k) {
        IdentityParts(db, k);
      }
    }

    static function AliasActors(rows: set<Alias>, k: string): set<Uuid> {
      set r | r in rows && r.authority == Javdb && r.key == k :: r.actor
    }

    static lemma NoAliases(named: map<string, set<Uuid>>)
      ensures Indexed(named, {}, named, map[])
    {
    }

    static lemma IdentityParts(db: Db, k: string)
      ensures Identity(db, k) == NamedActors(db.actors, db.actors.Keys, k) + AliasActors(db.aliases, k)
    {
    }

    static lemma OneMoreEntry(entries: seq<Entry>, i: nat)
      requires i < |entries|
      ensures NameKeys(entries[..i + 1]) == NameKeys(entries[..i]) + {entries[i].nameJa.key}
      ensures forall k :: EntriesNamed(entries[..i + 1], k) ==
                if k == entries[i].nameJa.key then EntriesNamed(entries[..i], k) + [entries[i]] else EntriesNamed(entries[..i], k)
    {
      assert entries[..i + 1][..i] == entries[..i];
      assert entries[..i + 1] == entries[..i] + [entries[i]];
    }

    static lemma NoEntries()
      ensures NameKeys([]) == {}
      ensures forall k :: EntriesNamed([], k) == []
    {
    }

    static method GroupEntries(entries: seq<Entry>) returns (groups: map<string, seq<Entry>>)
      ensures groups.Keys == NameKeys(entries)
      ensures forall k :: EntriesUnder(groups, k) == EntriesNamed(entries, k)
    {
      hide EntriesNamed, NameKeys;
      groups := map[];
      NoEntries();
      assert entries[..0] == [];
      for i := 0 to |entries|
        invariant groups.Keys == NameKeys(entries[..i])
        invariant forall k :: EntriesUnder(groups, k) == EntriesNamed(entries[..i], k)
      {
        var e := entries[i];
        ghost var before := groups;
        OneMoreEntry(entries, i);
        groups := groups[e.nameJa.key := EntriesUnder(groups, e.nameJa.key) + [e]];
        forall k ensures EntriesUnder(groups, k) == EntriesNamed(entries[..i + 1], k) {
          assert EntriesUnder(before, k) == EntriesNamed(entries[..i], k);
        }
      }
      assert entries[..|entries|] == entries;
    }

    /** What the candidates collected so far stand for. */
    static ghost predicate Stands(db: Db, entries: seq<Entry>, done: set<string>, a: Uuid, collected: seq<Entry>) {
      && |collected| == |Seen(db, entries, a, done)|
      && forall e :: e in collected ==> e.nameJa.key in Seen(db, entries, a, done) && EntriesNamed(entries, e.nameJa.key) == [e]
    }

    static ghost predicate Collected(db: Db, entries: seq<Entry>, done: set<string>, candidates: map<Uuid, seq<Entry>>) {
      forall a :: Stands(db, entries, done, a, EntriesUnder(candidates, a))
    }

    static lemma SeenGrows(db: Db, entries: seq<Entry>, done: set<string>, key: string, a: Uuid)
      requires key !in done && key in CandidateKeys(db, entries, a)
      ensures key !in Seen(db, entries, a, done) && Seen(db, entries, a, done + {key}) == Seen(db, entries, a, done) + {key}
      ensures |Seen(db, entries, a, done + {key})| == |Seen(db, entries, a, done)| + 1
    {
      hide CandidateKeys;
    }

    /** A name with one entry and one actor adds a candidate to that actor. */
    static lemma CandidateAdded(db: Db, entries: seq<Entry>, done: set<string>, key: string, a: Uuid, collected: seq<Entry>)
      requires Stands(db, entries, done, a, collected) && key !in done && key in NameKeys(entries)
      requires |EntriesNamed(entries, key)| == 1 && Identity(db, key) == {a}
      ensures Stands(db, entries, done + {key}, a, collected + EntriesNamed(entries, key))
    {
      hide Identity, EntriesNamed, Seen;
      var e := EntriesNamed(entries, key)[0];
      NamedMeaning(entries, key);
      assert EntriesNamed(entries, key) == [e] && e in EntriesNamed(entries, key);
      SeenGrows(db, entries, done, key, a);
    }

    static lemma CandidateNotAdded(db: Db, entries: seq<Entry>, done: set<string>, key: string, a: Uuid, collected: seq<Entry>)
      requires Stands(db, entries, done, a, collected) && !(|EntriesNamed(entries, key)| == 1 && Identity(db, key) == {a})
      ensures Stands(db, entries, done + {key}, a, collected)
    {
      hide Identity, EntriesNamed;
      assert Seen(db, entries, a, done + {key}) == Seen(db, entries, a, done);
    }

    static lemma NameLookedAt(db: Db, entries: seq<Entry>, done: set<string>, key: string, candidates: map<Uuid, seq<Entry>>)
      requires Collected(db, entries, done, candidates) && key !in done && key in NameKeys(entries)
      ensures |EntriesNamed(entries, key)| == 1 ==> forall a: Uuid :: Identity(db, key) == {a} ==>
                Collected(db, entries, done + {key}, candidates[a := EntriesUnder(candidates, a) + EntriesNamed(entries, key)])
      ensures |EntriesNamed(entries, key)| != 1 || |Identity(db, key)| != 1 ==> Collected(db, entries, done + {key}, candidates)
    {
      hide Identity, EntriesNamed, Stands, NameKeys;
      forall b: Uuid ensures if |EntriesNamed(entries, key)| == 1 && Identity(db, key) == {b}
          then Stands(db, entries, done + {key}, b, EntriesUnder(candidates, b) + EntriesNamed(entries, key))
          else Stands(db, entries, done + {key}, b, EntriesUnder(candidates, b))
      {
        assert Stands(db, entries, done, b, EntriesUnder(candidates, b));
        if |EntriesNamed(entries, key)| == 1 && Identity(db, key) == {b} {
          CandidateAdded(db, entries, done, key, b, EntriesUnder(candidates, b));
        } else {
          CandidateNotAdded(db, entries, done, key, b, EntriesUnder(candidates, b));
        }
      }
      forall a: Uuid | |EntriesNamed(entries, key)| == 1 && Identity(db, key) == {a}
        ensures Collected(db, entries, done + {key}, candidates[a := EntriesUnder(candidates, a) + EntriesNamed(entries, key)])
      {
        var after := candidates[a := EntriesUnder(candidates, a) + EntriesNamed(entries, key)];
        forall b: Uuid ensures Stands(db, entries, done + {key}, b, EntriesUnder(after, b)) {
          assert a in Identity(db, key);
          assert b != a ==> EntriesUnder(after, b) == EntriesUnder(candidates, b) && Identity(db, key) != {b};
        }
      }
    }

    static lemma NoCandidates(db: Db, entries: seq<Entry>)
      ensures Collected(db, entries, {}, map[])
    {
      hide CandidateKeys;
    }

    ghost predicate Matching(entries: seq<Entry>, matched: map<Uuid, Entry>)
      reads this
    {
      forall a :: MatchOf(Contents(), entries, a) == if a in matched then Some(matched[a]) else None
    }

    static lemma MatchedFrom(db: Db, entries: seq<Entry>, candidates: map<Uuid, seq<Entry>>, a: Uuid)
      requires Collected(db, entries, NameKeys(entries), candidates)
      ensures MatchOf(db, entries, a) == if |EntriesUnder(candidates, a)| == 1 then Some(EntriesUnder(candidates, a)[0]) else None
    {
      hide Identity, MatchOf, EntriesNamed;
      assert Stands(db, entries, NameKeys(entries), a, EntriesUnder(candidates, a));
      assert Seen(db, entries, a, NameKeys(entries)) == CandidateKeys(db, entries, a);
      if |EntriesUnder(candidates, a)| == 1 {
        var e := EntriesUnder(candidates, a)[0];
        assert e in EntriesUnder(candidates, a);
        OnlyElement(CandidateKeys(db, entries, a), e.nameJa.key);
        MatchFromKey(db, entries, a, e.nameJa.key);
      } else {
        NoMatch(db, entries, a);
      }
    }

    /** Pair each actor with the only entry that fits it. */
    method MatchEntries(entries: seq<Entry>, identity: map<string, set<Uuid>>, groups: map<string, seq<Entry>>)
      returns (matched: map<Uuid, Entry>)
      requires forall k :: Under(identity, k) == Identity(Contents(), k)
      requires groups.Keys == NameKeys(entries) && forall k :: EntriesUnder(groups, k) == EntriesNamed(entries, k)
      ensures Matching(entries, matched)
    {
      hide Identity, EntriesNamed, MatchOf, Collected;
      var candidates: map<Uuid, seq<Entry>> := map[];
      var rest := groups.Keys;
      NoCandidates(Contents(), entries);
      assert groups.Keys - rest == {};
      while rest != {}
        invariant rest <= groups.Keys && Collected(Contents(), entries, groups.Keys - rest, candidates)
        decreases |rest|
      {
        var key :| key in rest;
        assert EntriesUnder(groups, key) == groups[key];
        NameLookedAt(Contents(), entries, groups.Keys - rest, key, candidates);
        if |groups[key]| == 1 && |Under(identity, key)| == 1 {
          var actor :| actor in Under(identity, key);
          OnlyElement(Under(identity, key), actor);
          candidates := candidates[actor := EntriesUnder(candidates, actor) + groups[key]];
        }
        assert groups.Keys - (rest - {key}) == (groups.Keys - rest) + {key};
        rest := rest - {key};
      }
      assert groups.Keys - rest == NameKeys(entries);
      matched := map a | a in candidates && |candidates[a]| == 1 :: candidates[a][0];
      forall a ensures MatchOf(Contents(), entries, a) == if a in matched then Some(matched[a]) else None {
        MatchedFrom(Contents(), entries, candidates, a);
      }
    }

    /** Replace what the mapping wrote; every entry is either matched or discarded. */
    method RebuildMapping(entries: seq<Entry>) returns (matchedActors: nat, discarded: int)
      requires Valid()
      modifies this
      ensures Valid() && Contents() == Rebuild(old(Contents()), entries)
      ensures matchedActors + discarded == |entries|
      ensures exists matched: map<Uuid, Entry> :: old(Matching(entries, matched)) && matchedActors == |matched|
    {
      hide MatchOf, NewRows, Inv, Identity, Rebuild, KeysOf;
      RebuildKeepsInv(Contents(), entries);
      ghost var db := Contents();
      KnownActors(db, entries);
      var identity, javdbKeys := IndexNames();
      var groups := GroupEntries(entries);
      var matched := MatchEntries(entries, identity, groups);
      aliases := set r | r in aliases && r.authority != Mapping;
      assert aliases == JavdbRows(db.aliases);
      var rest := matched.Keys;
      while rest != {}
        invariant rest <= matched.Keys && actors.Keys == db.actors.Keys
        invariant forall a :: a in actors ==>
                    actors[a] == if a in matched && a !in rest then Described(db.actors[a], Some(matched[a])) else db.actors[a]
        invariant forall r :: r in aliases <==> r in JavdbRows(db.aliases) || RowOf(db, matched, matched.Keys - rest, r)
        decreases |rest|
      {
        var a :| a in rest;
        assert MatchOf(db, entries, a) == Some(matched[a]);
        var entry := matched[a];
        actors := actors[a := Described(actors[a], Some(entry))];
        assert Under(javdbKeys, a) == KeysOf(db.aliases, a, Javdb);
        var rows := CollectRows(a, entry.aliases, Under(javdbKeys, a), Mapping);
        aliases := aliases + rows;
        rest := rest - {a};
      }
      RebuiltFrom(db, entries, matched, actors, aliases);
      assert old(Matching(entries, matched));
      return |matched|, |entries| - |matched|;
    }

    static ghost predicate RowOf(db: Db, matched: map<Uuid, Entry>, done: set<Uuid>, r: Alias) {
      exists a :: a in done && a in matched && r in NewRows(a, matched[a].aliases, KeysOf(db.aliases, a, Javdb), Mapping)
    }

    static lemma KnownActors(db: Db, entries: seq<Entry>)
      requires Inv(db)
      ensures forall a :: MatchOf(db, entries, a).Some? ==> a in db.actors
    {
      hide EntriesNamed;
      forall a | MatchOf(db, entries, a).Some? ensures a in db.actors {
        MatchIsUnambiguous(db, entries, a, a);
        assert a in Identity(db, MatchOf(db, entries, a).value.nameJa.key);
      }
    }

    static lemma RebuiltFrom(db: Db, entries: seq<Entry>, matched: map<Uuid, Entry>, actors: map<Uuid, Actor>, aliases: set<Alias>)
      requires forall a :: MatchOf(db, entries, a) == if a in matched then Some(matched[a]) else None
      requires matched.Keys <= db.actors.Keys && actors.Keys == db.actors.Keys
      requires forall a :: a in actors ==> actors[a] == if a in matched then Described(db.actors[a], Some(matched[a])) else db.actors[a]
      requires forall r :: r in aliases <==> r in JavdbRows(db.aliases) || RowOf(db, matched, matched.Keys, r)
      ensures Db(actors, aliases) == Rebuild(db, entries)
    {
      hide MatchOf, NewRows, KeysOf;
      RebuiltRows(db, entries);
      assert forall a :: a in actors ==> actors[a] == Described(db.actors[a], MatchOf(db, entries, a));
      forall r ensures r in aliases <==> r in Rebuild(db, entries).aliases {
        if RowOf(db, matched, matched.Keys, r) {
          var a :| a in matched.Keys && a in matched && r in NewRows(a, matched[a].aliases, KeysOf(db.aliases, a, Javdb), Mapping);
          NewRowsMeaning(a, matched[a].aliases, KeysOf(db.aliases, a, Javdb), Mapping);
          assert r in MappingRows(db, entries, a);
        }
        if r.actor in db.actors && r in MappingRows(db, entries, r.actor) {
          assert r.actor in matched;
          assert RowOf(db, matched, matched.Keys, r);
        }
      }
      assert actors == Rebuild(db, entries).actors;
    }
  }
}
