/**
 * The in-memory catalogue store: five keyed tables, each with its own id counter.
 *
 * A JavaScript `Map` iterates in insertion order. Ids are handed out in increasing order,
 * never reused, and `set` on a key already present keeps that key's place, so iterating a
 * table visits its records in ascending id order; `Ordered` below is that iteration.
 */
module Storage {
  import opened Wrappers
  import opened Seqs
  import opened Schema

  /** `m.get(id)`. */
  function Get<V>(m: map<int, V>, id: int): (r: Option<V>)
    ensures r.Some? <==> id in m
    ensures r.Some? ==> r.value == m[id]
  {
    if id in m then Some(m[id]) else None
  }

  /** The records of `m` with keys in `[lo, hi)`, in ascending key order. */
  function Ordered<V>(m: map<int, V>, lo: int, hi: int): (r: seq<V>)
    ensures |r| <= if hi <= lo then 0 else hi - lo
    ensures forall i :: 0 <= i < |r| ==> StoredBetween(m, lo, hi, r[i])
    decreases hi - lo
  {
    if hi <= lo then []
    else
      var head: seq<V> := if lo in m then [m[lo]] else [];
      var rest := Ordered(m, lo + 1, hi);
      assert forall i :: 0 <= i < |head + rest| ==> StoredBetween(m, lo, hi, (head + rest)[i]) by {
        forall i | 0 <= i < |head + rest| ensures StoredBetween(m, lo, hi, (head + rest)[i]) {
          if i < |head| {
            assert m[lo] == (head + rest)[i];
          } else {
            assert (head + rest)[i] == rest[i - |head|];
            var k :| lo + 1 <= k < hi && k in m && m[k] == rest[i - |head|];
            assert m[k] == (head + rest)[i];
          }
        }
      }
      head + rest
  }

  /** The keys of `m` are ids in `[1, next)`, and every record carries its own key as id. */
  ghost predicate KeyedBelow<V>(m: map<int, V>, next: int, key: V -> int) {
    1 <= next && forall k :: k in m ==> 1 <= k < next && key(m[k]) == k
  }

  /** Some key in `[lo, hi)` of `m` holds `v`. */
  ghost predicate StoredBetween<V>(m: map<int, V>, lo: int, hi: int, v: V) {
    exists k :: lo <= k < hi && k in m && m[k] == v
  }

  /** `Ordered` holds every record stored under a key in `[lo, hi)`. */
  lemma {:induction false} OrderedMembers<V>(m: map<int, V>, lo: int, hi: int)
    ensures forall k :: lo <= k < hi && k in m ==> m[k] in Ordered(m, lo, hi)
    decreases hi - lo
  {
    if lo < hi {
      OrderedMembers(m, lo + 1, hi);
      var head: seq<V> := if lo in m then [m[lo]] else [];
      assert Ordered(m, lo, hi) == head + Ordered(m, lo + 1, hi);
    }
  }

  /** When every record carries its key, `Ordered` is sorted by id and its ids lie in `[lo, hi)`. */
  lemma {:induction false} OrderedIncreasing<V>(m: map<int, V>, lo: int, hi: int, key: V -> int)
    requires forall k :: k in m ==> key(m[k]) == k
    ensures forall i :: 0 <= i < |Ordered(m, lo, hi)| ==> lo <= key(Ordered(m, lo, hi)[i]) < hi
    ensures StrictlyIncreasing(Ordered(m, lo, hi), key)
    decreases hi - lo
  {
    if lo < hi {
      OrderedIncreasing(m, lo + 1, hi, key);
      var head: seq<V> := if lo in m then [m[lo]] else [];
      var rest := Ordered(m, lo + 1, hi);
      assert Ordered(m, lo, hi) == head + rest;
      forall i | 0 <= i < |head + rest| ensures lo <= key((head + rest)[i]) < hi {
        if i >= |head| {
          assert (head + rest)[i] == rest[i - |head|];
        }
      }
      forall i, j | 0 <= i < j < |head + rest| ensures key((head + rest)[i]) < key((head + rest)[j]) {
        assert (head + rest)[j] == rest[j - |head|];
        if i >= |head| {
          assert (head + rest)[i] == rest[i - |head|];
        }
      }
    }
  }

  /**
   * What the iteration of a table gives under `KeyedBelow`: exactly its records, each once,
   * in ascending id order.
   */
  lemma OrderedTable<V>(m: map<int, V>, next: int, key: V -> int, s: seq<V>)
    requires KeyedBelow(m, next, key) && s == Ordered(m, 1, next)
    ensures forall i :: 0 <= i < |s| ==> key(s[i]) in m && m[key(s[i])] == s[i]
    ensures forall k :: k in m ==> m[k] in s
    ensures StrictlyIncreasing(s, key)
  {
    OrderedMembers(m, 1, next);
    OrderedIncreasing(m, 1, next, key);
  }

  /**
   * `find` over the iteration of a table yields the matching record with the smallest id,
   * and nothing exactly when no record matches.
   */
  lemma FindInTable<V>(m: map<int, V>, next: int, key: V -> int, p: V -> bool, s: seq<V>)
    requires KeyedBelow(m, next, key) && s == Ordered(m, 1, next)
    ensures Find(p, s).None? <==> forall k :: k in m ==> !p(m[k])
    ensures Find(p, s).Some? ==>
      var v := Find(p, s).value;
      && key(v) in m && m[key(v)] == v && p(v)
      && forall k :: k in m && k < key(v) ==> !p(m[k])
  {
    OrderedTable(m, next, key, s);
    var r := Find(p, s);
    if r.None? {
      forall k | k in m ensures !p(m[k]) {
        var j :| 0 <= j < |s| && s[j] == m[k];
      }
    } else {
      var i :| 0 <= i < |s| && s[i] == r.value && p(s[i]) && forall j :: 0 <= j < i ==> !p(s[j]);
      forall k | k in m && k < key(r.value) ensures !p(m[k]) {
        var j :| 0 <= j < |s| && s[j] == m[k];
        assert key(s[j]) == k;
        assert j < i;
      }
    }
  }

  /** The whole state of a store, for stating what a method changes and what it leaves alone. */
  datatype Tables = Tables(
    users: map<int, User>,
    films: map<int, Film>,
    chemicals: map<int, Chemical>,
    developmentProcesses: map<int, DevelopmentProcess>,
    diaryEntries: map<int, DiaryEntry>,
    currentUserId: int,
    currentFilmId: int,
    currentChemicalId: int,
    currentProcessId: int,
    currentEntryId: int)

  class MemStorage {
    var users: map<int, User>
    var films: map<int, Film>
    var chemicals: map<int, Chemical>
    var developmentProcesses: map<int, DevelopmentProcess>
    var diaryEntries: map<int, DiaryEntry>
    // the id the next create of each kind hands out
    var currentUserId: int
    var currentFilmId: int
    var currentChemicalId: int
    var currentProcessId: int
    var currentEntryId: int

    ghost function State(): Tables
      reads this
    {
      Tables(users, films, chemicals, developmentProcesses, diaryEntries,
             currentUserId, currentFilmId, currentChemicalId, currentProcessId, currentEntryId)
    }

    /** Every table is keyed by ids below its counter, and each record's id is its key. */
    ghost predicate Valid()
      reads this
    {
      && KeyedBelow(users, currentUserId, (u: User) => u.id)
      && KeyedBelow(films, currentFilmId, (f: Film) => f.id)
      && KeyedBelow(chemicals, currentChemicalId, (c: Chemical) => c.id)
      && KeyedBelow(developmentProcesses, currentProcessId, (p: DevelopmentProcess) => p.id)
      && KeyedBelow(diaryEntries, currentEntryId, (e: DiaryEntry) => e.id)
    }

    constructor ()
      ensures Valid()
      ensures State() == Tables(map[], map[], map[], map[], map[], 1, 1, 1, 1, 1)
    {
      users, films, chemicals, developmentProcesses, diaryEntries := map[], map[], map[], map[], map[];
      currentUserId, currentFilmId, currentChemicalId, currentProcessId, currentEntryId := 1, 1, 1, 1, 1;
    }

    // ---------------------------------------------------------------- users

    method GetUser(id: int) returns (r: Option<User>)
      requires Valid()
      ensures r == Get(users, id)
      ensures r.Some? ==> r.value.id == id
    {
      r := Get(users, id);
    }

    /** The first user, in insertion order, with this user name. */
    method GetUserByUsername(username: string) returns (r: Option<User>)
      requires Valid()
      ensures r.None? <==> forall k :: k in users ==> users[k].username != username
      ensures r.Some? ==> r.value.id in users && users[r.value.id] == r.value && r.value.username == username
      ensures r.Some? ==> forall k :: k in users && k < r.value.id ==> users[k].username != username
    {
      var all := Ordered(users, 1, currentUserId);
      var named := (u: User) => u.username == username;
      r := Find(named, all);
      FindInTable(users, currentUserId, (u: User) => u.id, named, all);
    }

    method CreateUser(user: UserInput) returns (r: User)
      requires Valid()
      modifies this
      ensures Valid()
      ensures r == User(old(currentUserId), user.username, user.password, false)
      ensures forall k :: k in old(users) ==> k < r.id
      ensures State() == old(State()).(users := old(users)[r.id := r], currentUserId := old(currentUserId) + 1)
    {
      var id := currentUserId;
      currentUserId := currentUserId + 1;
      r := User(id, user.username, user.password, false);
      users := users[id := r];
    }

    // ---------------------------------------------------------------- films

    method GetFilms() returns (r: seq<Film>)
      requires Valid()
      ensures forall i :: 0 <= i < |r| ==> r[i].id in films && films[r[i].id] == r[i]
      ensures forall k :: k in films ==> films[k] in r
      ensures StrictlyIncreasing(r, (f: Film) => f.id)
    {
      r := Ordered(films, 1, currentFilmId);
      OrderedTable(films, currentFilmId, (f: Film) => f.id, r);
    }

    method GetFilm(id: int) returns (r: Option<Film>)
      requires Valid()
      ensures r == Get(films, id)
      ensures r.Some? ==> r.value.id == id
    {
      r := Get(films, id);
    }

    method CreateFilm(film: FilmFields) returns (r: Film)
      requires Valid()
      modifies this
      ensures Valid()
      ensures r == Film(old(currentFilmId), film)
      ensures forall k :: k in old(films) ==> k < r.id
      ensures Get(films, r.id) == Some(r)
      ensures State() == old(State()).(films := old(films)[r.id := r], currentFilmId := old(currentFilmId) + 1)
    {
      var id := currentFilmId;
      currentFilmId := currentFilmId + 1;
      r := Film(id, film);
      films := films[id := r];
    }

    method UpdateFilm(id: int, film: FilmFields) returns (r: Option<Film>)
      requires Valid()
      modifies this
      ensures Valid()
      ensures id !in old(films) ==> r == None && State() == old(State())
      ensures id in old(films) ==>
        && r == Some(Film(id, film))
        && State() == old(State()).(films := old(films)[id := Film(id, film)])
    {
      var existing := Get(films, id);
      if existing.None? {
        return None;
      }
      var updated := Film(id, film);
      films := films[id := updated];
      r := Some(updated);
    }

    method DeleteFilm(id: int) returns (removed: bool)
      requires Valid()
      modifies this
      ensures Valid()
      ensures removed == (id in old(films))
      ensures Get(films, id) == None
      ensures State() == old(State()).(films := old(films) - {id})
    {
      removed := id in films;
      films := films - {id};
    }

    // ---------------------------------------------------------------- chemicals

    method GetChemicals() returns (r: seq<Chemical>)
      requires Valid()
      ensures forall i :: 0 <= i < |r| ==> r[i].id in chemicals && chemicals[r[i].id] == r[i]
      ensures forall k :: k in chemicals ==> chemicals[k] in r
      ensures StrictlyIncreasing(r, (c: Chemical) => c.id)
    {
      r := Ordered(chemicals, 1, currentChemicalId);
      OrderedTable(chemicals, currentChemicalId, (c: Chemical) => c.id, r);
    }

    method GetChemical(id: int) returns (r: Option<Chemical>)
      requires Valid()
      ensures r == Get(chemicals, id)
      ensures r.Some? ==> r.value.id == id
    {
      r := Get(chemicals, id);
    }

    method CreateChemical(chemical: ChemicalFields) returns (r: Chemical)
      requires Valid()
      modifies this
      ensures Valid()
      ensures r == Chemical(old(currentChemicalId), chemical)
      ensures forall k :: k in old(chemicals) ==> k < r.id
      ensures State() == old(State()).(chemicals := old(chemicals)[r.id := r], currentChemicalId := old(currentChemicalId) + 1)
    {
      var id := currentChemicalId;
      currentChemicalId := currentChemicalId + 1;
      r := Chemical(id, chemical);
      chemicals := chemicals[id := r];
    }

    method UpdateChemical(id: int, chemical: ChemicalFields) returns (r: Option<Chemical>)
      requires Valid()
      modifies this
      ensures Valid()
      ensures id !in old(chemicals) ==> r == None && State() == old(State())
      ensures id in old(chemicals) ==>
        && r == Some(Chemical(id, chemical))
        && State() == old(State()).(chemicals := old(chemicals)[id := Chemical(id, chemical)])
    {
      var existing := Get(chemicals, id);
      if existing.None? {
        return None;
      }
      var updated := Chemical(id, chemical);
      chemicals := chemicals[id := updated];
      r := Some(updated);
    }

    method DeleteChemical(id: int) returns (removed: bool)
      requires Valid()
      modifies this
      ensures Valid()
      ensures removed == (id in old(chemicals))
      ensures State() == old(State()).(chemicals := old(chemicals) - {id})
    {
      removed := id in chemicals;
      chemicals := chemicals - {id};
    }

    // ---------------------------------------------------------------- development processes

    method GetDevelopmentProcesses() returns (r: seq<DevelopmentProcess>)
      requires Valid()
      ensures forall i :: 0 <= i < |r| ==> r[i].id in developmentProcesses && developmentProcesses[r[i].id] == r[i]
      ensures forall k :: k in developmentProcesses ==> developmentProcesses[k] in r
      ensures StrictlyIncreasing(r, (p: DevelopmentProcess) => p.id)
    {
      r := Ordered(developmentProcesses, 1, currentProcessId);
      OrderedTable(developmentProcesses, currentProcessId, (p: DevelopmentProcess) => p.id, r);
    }

    method GetDevelopmentProcess(id: int) returns (r: Option<DevelopmentProcess>)
      requires Valid()
      ensures r == Get(developmentProcesses, id)
      ensures r.Some? ==> r.value.id == id
    {
      r := Get(developmentProcesses, id);
    }

    /** Exactly the stored processes for this film, in insertion order. */
    method GetDevelopmentProcessesForFilm(filmId: int) returns (r: seq<DevelopmentProcess>)
      requires Valid()
      ensures forall i :: 0 <= i < |r| ==>
        && r[i].id in developmentProcesses && developmentProcesses[r[i].id] == r[i]
        && r[i].fields.filmId == filmId
      ensures forall k :: k in developmentProcesses && developmentProcesses[k].fields.filmId == filmId ==>
        developmentProcesses[k] in r
      ensures StrictlyIncreasing(r, (p: DevelopmentProcess) => p.id)
    {
      var all := Ordered(developmentProcesses, 1, currentProcessId);
      OrderedTable(developmentProcesses, currentProcessId, (p: DevelopmentProcess) => p.id, all);
      var forFilm := (p: DevelopmentProcess) => p.fields.filmId == filmId;
      r := Filter(forFilm, all);
      FilterKeepsIncreasing(forFilm, all, (p: DevelopmentProcess) => p.id);
      forall k | k in developmentProcesses && developmentProcesses[k].fields.filmId == filmId
        ensures developmentProcesses[k] in r
      {
        var j :| 0 <= j < |all| && all[j] == developmentProcesses[k];
        assert forFilm(all[j]);
      }
    }

    /** A new process is unverified and its creation and update times are both `now`. */
    method CreateDevelopmentProcess(process: ProcessFields, now: Timestamp) returns (r: DevelopmentProcess)
      requires Valid()
      modifies this
      ensures Valid()
      ensures r == DevelopmentProcess(old(currentProcessId), process, false, now, now)
      ensures forall k :: k in old(developmentProcesses) ==> k < r.id
      ensures State() == old(State()).(
        developmentProcesses := old(developmentProcesses)[r.id := r],
        currentProcessId := old(currentProcessId) + 1)
    {
      var id := currentProcessId;
      currentProcessId := currentProcessId + 1;
      r := DevelopmentProcess(id, process, false, now, now);
      developmentProcesses := developmentProcesses[id := r];
    }

    /** Replaces the caller's fields, keeps the creation time and verification flag, stamps `now`. */
    method UpdateDevelopmentProcess(id: int, process: ProcessFields, now: Timestamp) returns (r: Option<DevelopmentProcess>)
      requires Valid()
      modifies this
      ensures Valid()
      ensures id !in old(developmentProcesses) ==> r == None && State() == old(State())
      ensures id in old(developmentProcesses) ==>
        var existing := old(developmentProcesses)[id];
        var updated := DevelopmentProcess(id, process, existing.isVerified, existing.createdAt, now);
        && r == Some(updated)
        && State() == old(State()).(developmentProcesses := old(developmentProcesses)[id := updated])
    {
      var existing := Get(developmentProcesses, id);
      if existing.None? {
        return None;
      }
      var updated := DevelopmentProcess(id, process, existing.value.isVerified, existing.value.createdAt, now);
      developmentProcesses := developmentProcesses[id := updated];
      r := Some(updated);
    }

    method DeleteDevelopmentProcess(id: int) returns (removed: bool)
      requires Valid()
      modifies this
      ensures Valid()
      ensures removed == (id in old(developmentProcesses))
      ensures State() == old(State()).(developmentProcesses := old(developmentProcesses) - {id})
    {
      removed := id in developmentProcesses;
      developmentProcesses := developmentProcesses - {id};
    }

    // ---------------------------------------------------------------- diary entries

    /** Exactly the stored entries of this user, in insertion order. */
    method GetDiaryEntries(userId: int) returns (r: seq<DiaryEntry>)
      requires Valid()
      ensures forall i :: 0 <= i < |r| ==>
        && r[i].id in diaryEntries && diaryEntries[r[i].id] == r[i]
        && r[i].userId == userId
      ensures forall k :: k in diaryEntries && diaryEntries[k].userId == userId ==> diaryEntries[k] in r
      ensures StrictlyIncreasing(r, (e: DiaryEntry) => e.id)
    {
      var all := Ordered(diaryEntries, 1, currentEntryId);
      OrderedTable(diaryEntries, currentEntryId, (e: DiaryEntry) => e.id, all);
      var ofUser := (e: DiaryEntry) => e.userId == userId;
      r := Filter(ofUser, all);
      FilterKeepsIncreasing(ofUser, all, (e: DiaryEntry) => e.id);
      forall k | k in diaryEntries && diaryEntries[k].userId == userId ensures diaryEntries[k] in r {
        var j :| 0 <= j < |all| && all[j] == diaryEntries[k];
        assert ofUser(all[j]);
      }
    }

    method GetDiaryEntry(id: int) returns (r: Option<DiaryEntry>)
      requires Valid()
      ensures r == Get(diaryEntries, id)
      ensures r.Some? ==> r.value.id == id
    {
      r := Get(diaryEntries, id);
    }

    /** A new entry is dated `now` and last modified `now`. */
    method CreateDiaryEntry(userId: int, content: string, now: Timestamp) returns (r: DiaryEntry)
      requires Valid()
      modifies this
      ensures Valid()
      ensures r == DiaryEntry(old(currentEntryId), userId, content, now, now)
      ensures forall k :: k in old(diaryEntries) ==> k < r.id
      ensures State() == old(State()).(diaryEntries := old(diaryEntries)[r.id := r], currentEntryId := old(currentEntryId) + 1)
    {
      var id := currentEntryId;
      currentEntryId := currentEntryId + 1;
      r := DiaryEntry(id, userId, content, now, now);
      diaryEntries := diaryEntries[id := r];
    }

    /** Changes only the content and the modification time; id, owner and date stay. */
    method UpdateDiaryEntry(id: int, content: string, now: Timestamp) returns (r: Option<DiaryEntry>)
      requires Valid()
      modifies this
      ensures Valid()
      ensures id !in old(diaryEntries) ==> r == None && State() == old(State())
      ensures id in old(diaryEntries) ==>
        var existing := old(diaryEntries)[id];
        && r == Some(existing.(content := content, lastModified := now))
        && r.value.id == id && r.value.userId == existing.userId && r.value.date == existing.date
        && State() == old(State()).(diaryEntries := old(diaryEntries)[id := r.value])
    {
      var existing := Get(diaryEntries, id);
      if existing.None? {
        return None;
      }
      var updated := existing.value.(content := content, lastModified := now);
      diaryEntries := diaryEntries[id := updated];
      r := Some(updated);
    }

    method DeleteDiaryEntry(id: int) returns (removed: bool)
      requires Valid()
      modifies this
      ensures Valid()
      ensures removed == (id in old(diaryEntries))
      ensures State() == old(State()).(diaryEntries := old(diaryEntries) - {id})
    {
      removed := id in diaryEntries;
      diaryEntries := diaryEntries - {id};
    }
  }
}
