/** Actors' names and aliases, written by two sources: core imports and the actor mapping. */
module ActorNames {
  import opened Wrappers

  type Uuid = nat

  /** A name and its normalised form, in which names are compared. */
  datatype Name = Name(text: string, key: string)

  datatype Authority = Javdb | Mapping

  datatype Alias = Alias(actor: Uuid, key: string, text: string, authority: Authority)

  datatype Actor = Actor(javdbId: string, nameJa: Option<Name>, nameZh: Option<string>, bio: Option<string>)

  datatype Entry = Entry(nameJa: Name, nameZh: string, bio: Option<string>, aliases: seq<Name>)

  datatype Db = Db(actors: map<Uuid, Actor>, aliases: set<Alias>)

  // ---------------------------------------------------------------- alias rows

  function KeysOf(aliases: set<Alias>, actor: Uuid, authority: Authority): set<string> {
    set r | r in aliases && r.actor == actor && r.authority == authority :: r.key
  }

  function JavdbRows(aliases: set<Alias>): set<Alias> {
    set r | r in aliases && r.authority == Javdb
  }

  /** The rows for a list of names: blank and blocked ones are left out, and of several with the same
      key the first is kept. */
  function NewRows(actor: Uuid, names: seq<Name>, blocked: set<string>, authority: Authority): set<Alias> {
    if names == [] then {}
    else
      var rows, last := NewRows(actor, names[..|names| - 1], blocked, authority), names[|names| - 1];
      if last.key == "" || last.key in blocked || (exists r :: r in rows && r.key == last.key) then rows
      else rows + {Alias(actor, last.key, last.text, authority)}
  }

  predicate Listed(names: seq<Name>, key: string) {
    exists n :: n in names && n.key == key
  }

  predicate SameKey(r: Alias, s: Alias) {
    r.actor == s.actor && r.key == s.key
  }

  /** The row has the spelling in which its key is first listed. */
  ghost predicate FirstSpelling(names: seq<Name>, r: Alias) {
    exists i :: 0 <= i < |names| && names[i] == Name(r.text, r.key) && forall j :: 0 <= j < i ==> names[j].key != r.key
  }

  lemma {:induction false} NewRowsKeys(actor: Uuid, names: seq<Name>, blocked: set<string>, authority: Authority)
    ensures var rows := NewRows(actor, names, blocked, authority);
            && (forall r :: r in rows ==> r.actor == actor && r.authority == authority)
            && (forall r, s :: r in rows && s in rows && SameKey(r, s) ==> r == s)
            && KeysOf(rows, actor, authority) == set n | n in names && n.key != "" && n.key !in blocked :: n.key
  {
    if names != [] {
      var init, last := names[..|names| - 1], names[|names| - 1];
      NewRowsKeys(actor, init, blocked, authority);
      assert names == init + [last];
      var rows, rows' := NewRows(actor, init, blocked, authority), NewRows(actor, names, blocked, authority);
      assert last.key in KeysOf(rows, actor, authority) <==> exists r :: r in rows && r.key == last.key;
      assert KeysOf(rows', actor, authority) ==
             KeysOf(rows, actor, authority) + if last.key == "" || last.key in blocked then {} else {last.key};
    }
  }

  lemma {:induction false} NewRowsSpelling(actor: Uuid, names: seq<Name>, blocked: set<string>, authority: Authority)
    ensures forall r :: r in NewRows(actor, names, blocked, authority) ==> FirstSpelling(names, r)
  {
    if names != [] {
      var init, last := names[..|names| - 1], names[|names| - 1];
      NewRowsSpelling(actor, init, blocked, authority);
      NewRowsKeys(actor, init, blocked, authority);
      assert names == init + [last];
      var rows := NewRows(actor, init, blocked, authority);
      forall r | r in NewRows(actor, names, blocked, authority) ensures FirstSpelling(names, r) {
        SpellingKept(actor, init, last, rows, r, authority);
      }
    }
  }

  /** Exactly the listed keys that are neither blank nor blocked get a row, one each, in their first
      spelling. */
  lemma NewRowsMeaning(actor: Uuid, names: seq<Name>, blocked: set<string>, authority: Authority)
    ensures var rows := NewRows(actor, names, blocked, authority);
            && (forall r :: r in rows ==> r.actor == actor && r.authority == authority)
            && (forall r, s :: r in rows && s in rows && SameKey(r, s) ==> r == s)
            && (forall r :: r in rows ==> FirstSpelling(names, r))
            && KeysOf(rows, actor, authority) == set n | n in names && n.key != "" && n.key !in blocked :: n.key
  {
    hide NewRows, FirstSpelling;
    NewRowsKeys(actor, names, blocked, authority);
    NewRowsSpelling(actor, names, blocked, authority);
  }

  lemma SpellingKept(actor: Uuid, init: seq<Name>, last: Name, rows: set<Alias>, r: Alias, authority: Authority)
    requires r in rows ==> FirstSpelling(init, r)
    requires r !in rows ==> r == Alias(actor, last.key, last.text, authority) && last.key !in KeysOf(rows, actor, authority)
    requires last.key !in KeysOf(rows, actor, authority) && r !in rows ==> forall n :: n in init ==> n.key != last.key
    ensures FirstSpelling(init + [last], r)
  {
    var names := init + [last];
    if r in rows {
      var i :| 0 <= i < |init| && init[i] == Name(r.text, r.key) && forall j :: 0 <= j < i ==> init[j].key != r.key;
      assert names[i] == init[i];
    } else {
      assert names[|init|] == Name(r.text, r.key);
      assert forall j :: 0 <= j < |init| ==> names[j] == init[j] && init[j] in init;
    }
  }

  // ---------------------------------------------------------------- core import

  predicate IsActor(db: Db, id: Uuid, javdbId: string) {
    id in db.actors && db.actors[id].javdbId == javdbId
  }

  /** Write the actor's name and replace its javdb aliases; keys the mapping holds stay with it. */
  function ImportActor(db: Db, id: Uuid, name: Name, aliases: seq<Name>): Db
    requires id in db.actors
  {
    var kept := set r | r in db.aliases && !(r.actor == id && r.authority == Javdb);
    Db(db.actors[id := db.actors[id].(nameJa := Some(name))],
       kept + NewRows(id, [name] + aliases, KeysOf(db.aliases, id, Mapping), Javdb))
  }

  function WithActor(db: Db, id: Uuid, javdbId: string): Db {
    if id in db.actors then db else db.(actors := db.actors[id := Actor(javdbId, None, None, None)])
  }

  // ---------------------------------------------------------------- the mapping

  /** The actors known under a name: by their own name, or by a javdb alias. */
  function Identity(db: Db, key: string): set<Uuid> {
    (set a | a in db.actors && db.actors[a].nameJa.Some? && db.actors[a].nameJa.value.key == key)
    + (set r | r in db.aliases && r.authority == Javdb && r.key == key :: r.actor)
  }

  function EntriesNamed(entries: seq<Entry>, key: string): seq<Entry> {
    if entries == [] then []
    else EntriesNamed(entries[..|entries| - 1], key)
         + if entries[|entries| - 1].nameJa.key == key then [entries[|entries| - 1]] else []
  }

  function NameKeys(entries: seq<Entry>): set<string> {
    set e | e in entries :: e.nameJa.key
  }

  /** The names under which one entry alone describes one actor alone. */
  function CandidateKeys(db: Db, entries: seq<Entry>, actor: Uuid): set<string> {
    set k | k in NameKeys(entries) && |EntriesNamed(entries, k)| == 1 && Identity(db, k) == {actor}
  }

  predicate MatchedBy(db: Db, entries: seq<Entry>, actor: Uuid, key: string) {
    CandidateKeys(db, entries, actor) == {key}
  }

  predicate MatchesEntry(db: Db, entries: seq<Entry>, actor: Uuid, e: Entry) {
    MatchedBy(db, entries, actor, e.nameJa.key) && EntriesNamed(entries, e.nameJa.key) == [e]
  }

  /** The entry an actor is described by: the only one under the only name that fits. */
  function MatchOf(db: Db, entries: seq<Entry>, actor: Uuid): Option<Entry> {
    if k :| k in NameKeys(entries) && MatchedBy(db, entries, actor, k) && EntriesNamed(entries, k) != []
    then Some(EntriesNamed(entries, k)[0])
    else None
  }

  function Described(actor: Actor, e: Option<Entry>): Actor {
    if e == None then actor
    else actor.(nameZh := if e.value.nameZh != "" then Some(e.value.nameZh) else actor.nameZh,
                bio := if e.value.bio.Some? then e.value.bio else actor.bio)
  }

  function MappingRows(db: Db, entries: seq<Entry>, actor: Uuid): set<Alias> {
    match MatchOf(db, entries, actor)
    case None => {}
    case Some(e) => NewRows(actor, e.aliases, KeysOf(db.aliases, actor, Javdb), Mapping)
  }

  /** Replace everything the mapping wrote by what the entries say. */
  function Rebuild(db: Db, entries: seq<Entry>): Db {
    Db(map a | a in db.actors :: Described(db.actors[a], MatchOf(db, entries, a)),
       JavdbRows(db.aliases)
       + set a, r | a in db.actors && r in MappingRows(db, entries, a) :: r)
  }
}
