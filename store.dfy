/** The in-memory record store: module-level tables of songs, royalty
    sources, documents and tasks and two singleton profiles, changed in place
    by append, update-by-id, status set and toggle. */
module MockDb {
  import opened Wrappers
  import opened Types
  import opened Tables

  // ----- Record selectors used by `map` and `find` -----

  function SongHasId(id: string): Song -> bool { (s: Song) => s.id == id }
  function SourceHasId(id: string): RoyaltySource -> bool { (r: RoyaltySource) => r.id == id }
  function TaskHasId(id: string): Task -> bool { (t: Task) => t.id == id }

  // ----- Record rewrites used by `map` -----

  function MergeWith(u: SongPatch): Song -> Song { (s: Song) => MergeSong(s, u) }
  function WithStatus(st: Status): RoyaltySource -> RoyaltySource { (r: RoyaltySource) => r.(status := st) }
  function Flip(t: Task): Task { t.(completed := !t.completed) }

  // ----- Songs -----

  /** `songs.map(s => s.id === id ? {...s, ...u} : s)`. */
  function UpdateSongs(songs: seq<Song>, id: string, u: SongPatch): (r: seq<Song>)
    ensures |r| == |songs|
    ensures forall i :: 0 <= i < |songs| && songs[i].id == id ==> r[i] == MergeSong(songs[i], u)
    ensures forall i :: 0 <= i < |songs| && songs[i].id != id ==> r[i] == songs[i]
  {
    MapWhere(songs, SongHasId(id), MergeWith(u))
  }

  /** `songs.find(s => s.id === id)`. */
  function SongWithId(songs: seq<Song>, id: string): (r: Option<Song>)
    ensures r.None? <==> forall i :: 0 <= i < |songs| ==> songs[i].id != id
    ensures r.Some? ==> r.value.id == id && r.value in songs
    ensures forall i :: 0 <= i < |songs| && songs[i].id == id && (forall j :: 0 <= j < i ==> songs[j].id != id) ==>
              r == Some(songs[i])
  {
    FindFirstIsFirst(songs, SongHasId(id));
    FindFirst(songs, SongHasId(id))
  }

  /** An update with an unknown id leaves the table exactly as it was. */
  lemma UpdateSongsUnknownId(songs: seq<Song>, id: string, u: SongPatch)
    requires forall i :: 0 <= i < |songs| ==> songs[i].id != id
    ensures UpdateSongs(songs, id, u) == songs
    ensures SongWithId(UpdateSongs(songs, id, u), id) == None
  {
    MapWhereNoMatch(songs, SongHasId(id), MergeWith(u));
  }

  /** The same update applied twice yields the same table as applied once. */
  lemma UpdateSongsIdempotent(songs: seq<Song>, id: string, u: SongPatch)
    ensures UpdateSongs(UpdateSongs(songs, id, u), id, u) == UpdateSongs(songs, id, u)
  {
    var f := MergeWith(u);
    forall i | 0 <= i < |songs| && SongHasId(id)(songs[i]) && SongHasId(id)(f(songs[i]))
      ensures f(f(songs[i])) == f(songs[i])
    {
      MergeSongIdempotent(songs[i], u);
    }
    MapWhereIdempotent(songs, SongHasId(id), f);
  }

  /** What `update` returns: the first matching record after the merge, unless
      the partial moves the records to another id, in which case nothing. */
  lemma UpdatedSongReturned(songs: seq<Song>, id: string, u: SongPatch)
    ensures SongWithId(UpdateSongs(songs, id, u), id)
            == if u.id.None? || u.id == Some(id) then
                 (match SongWithId(songs, id) case Some(s) => Some(MergeSong(s, u)) case None => None)
               else None
  {
    var f := MergeWith(u);
    var after := UpdateSongs(songs, id, u);
    if u.id.None? || u.id == Some(id) {
      FindAfterMapWhere(songs, SongHasId(id), f);
    } else {
      assert forall i :: 0 <= i < |after| ==> after[i].id != id;
    }
  }

  // ----- Royalty sources -----

  /** `royaltySources.map(r => r.id === id ? {...r, status} : r)`. */
  function SetStatus(sources: seq<RoyaltySource>, id: string, st: Status): (r: seq<RoyaltySource>)
    ensures |r| == |sources|
    ensures forall i :: 0 <= i < |sources| && sources[i].id == id ==>
              r[i].status == st && r[i].id == sources[i].id
              && r[i].name == sources[i].name && r[i].notes == sources[i].notes
    ensures forall i :: 0 <= i < |sources| && sources[i].id != id ==> r[i] == sources[i]
  {
    MapWhere(sources, SourceHasId(id), WithStatus(st))
  }

  function SourceWithId(sources: seq<RoyaltySource>, id: string): (r: Option<RoyaltySource>)
    ensures r.None? <==> forall i :: 0 <= i < |sources| ==> sources[i].id != id
    ensures r.Some? ==> r.value.id == id && r.value in sources
    ensures forall i :: 0 <= i < |sources| && sources[i].id == id && (forall j :: 0 <= j < i ==> sources[j].id != id) ==>
              r == Some(sources[i])
  {
    FindFirstIsFirst(sources, SourceHasId(id));
    FindFirst(sources, SourceHasId(id))
  }

  /** The record the status update returns is the first match with its new status. */
  lemma SetStatusReturned(sources: seq<RoyaltySource>, id: string, st: Status)
    ensures SourceWithId(SetStatus(sources, id, st), id)
            == match SourceWithId(sources, id) case Some(r) => Some(r.(status := st)) case None => None
  {
    FindAfterMapWhere(sources, SourceHasId(id), WithStatus(st));
  }

  lemma SetStatusIdempotent(sources: seq<RoyaltySource>, id: string, st: Status)
    ensures SetStatus(SetStatus(sources, id, st), id, st) == SetStatus(sources, id, st)
  {
    MapWhereIdempotent(sources, SourceHasId(id), WithStatus(st));
  }

  // ----- Tasks -----

  /** `tasks.map(t => t.id === id ? {...t, completed: !t.completed} : t)`. */
  function ToggleTasks(tasks: seq<Task>, id: string): (r: seq<Task>)
    ensures |r| == |tasks|
    ensures forall i :: 0 <= i < |tasks| && tasks[i].id == id ==>
              r[i].completed == !tasks[i].completed
              && r[i].id == tasks[i].id && r[i].description == tasks[i].description
    ensures forall i :: 0 <= i < |tasks| && tasks[i].id != id ==> r[i] == tasks[i]
  {
    MapWhere(tasks, TaskHasId(id), Flip)
  }

  function TaskWithId(tasks: seq<Task>, id: string): (r: Option<Task>)
    ensures r.None? <==> forall i :: 0 <= i < |tasks| ==> tasks[i].id != id
    ensures r.Some? ==> r.value.id == id && r.value in tasks
    ensures forall i :: 0 <= i < |tasks| && tasks[i].id == id && (forall j :: 0 <= j < i ==> tasks[j].id != id) ==>
              r == Some(tasks[i])
  {
    FindFirstIsFirst(tasks, TaskHasId(id));
    FindFirst(tasks, TaskHasId(id))
  }

  /** Toggling twice restores the table. */
  lemma ToggleTasksTwice(tasks: seq<Task>, id: string)
    ensures ToggleTasks(ToggleTasks(tasks, id), id) == tasks
  {
    MapWhereInvolution(tasks, TaskHasId(id), Flip);
  }

  /** The toggled record returned is the first match, negated. */
  lemma ToggleTasksReturned(tasks: seq<Task>, id: string)
    ensures TaskWithId(ToggleTasks(tasks, id), id)
            == match TaskWithId(tasks, id) case Some(t) => Some(t.(completed := !t.completed)) case None => None
  {
    FindAfterMapWhere(tasks, TaskHasId(id), Flip);
  }

  /** Toggling an unknown id leaves the table unchanged and finds nothing. */
  lemma ToggleTasksUnknownId(tasks: seq<Task>, id: string)
    requires forall i :: 0 <= i < |tasks| ==> tasks[i].id != id
    ensures ToggleTasks(tasks, id) == tasks && TaskWithId(ToggleTasks(tasks, id), id) == None
  {
    MapWhereNoMatch(tasks, TaskHasId(id), Flip);
  }

  // ----- Seed data -----

  function SeedSongs(created0: string, created1: string): seq<Song> {
    [ Song("1", "u1", "Neon Highway", "The Midnight Echo", None, Some(120.0), None,
           Some("Synthwave"), Some("Nostalgic"), None, None,
           "John Doe (50%), Jane Smith (50%)", "50/50", ["retro", "night drive"], created0),
      Song("2", "u1", "Broken Strings", "The Midnight Echo", None, Some(85.0), None,
           Some("Acoustic Pop"), Some("Sad"), None, None,
           "John Doe (100%)", "100", ["acoustic", "breakup"], created1) ]
  }

  const SeedPro := ProProfile("1", "u1", Unset, "", "", "")
  const SeedCompany := Company("1", "u1", "", "", "LLC", "")
  const SeedSources := [
    RoyaltySource("1", "The MLC", NotStarted, "For mechanicals"),
    RoyaltySource("2", "SoundExchange", NotStarted, "For digital performance royalties"),
    RoyaltySource("3", "YouTube Content ID", NotStarted, "Via distributor")]
  const SeedDocs := [
    Document("1", "Q1 2024 DistroKid Statement", RoyaltyStatement, "2024-04-15", "#"),
    Document("2", "Split Sheet - Neon Highway", SplitSheet, "2024-01-20", "#")]
  const SeedTasks := [
    Task("1", "Register \"Neon Highway\" with BMI", false),
    Task("2", "Upload Q2 Royalty Statement", true)]

  /** The store: one object holding every table. Reads return the table's
      current value (a copy in the source); writes reassign or append. */
  class Store {
    var songs: seq<Song>
    var pro: ProProfile
    var company: Company
    var royaltySources: seq<RoyaltySource>
    var docs: seq<Document>
    var tasks: seq<Task>

    /** The tables as the application starts; the two song timestamps are the
        clock readings taken at start-up. */
    constructor (created0: string, created1: string)
      ensures songs == SeedSongs(created0, created1)
      ensures pro == SeedPro && company == SeedCompany
      ensures royaltySources == SeedSources && docs == SeedDocs && tasks == SeedTasks
    {
      songs := SeedSongs(created0, created1);
      pro := SeedPro;
      company := SeedCompany;
      royaltySources := SeedSources;
      docs := SeedDocs;
      tasks := SeedTasks;
    }

    method SongsGetAll() returns (r: seq<Song>)
      ensures r == songs
    {
      r := songs;
    }

    /** Appends without any id-uniqueness check and returns the song as given. */
    method SongsAdd(s: Song) returns (r: Song)
      modifies this`songs
      ensures songs == old(songs) + [s]
      ensures songs[..|old(songs)|] == old(songs) && songs[|songs| - 1] == s
      ensures r == s
    {
      songs := songs + [s];
      r := s;
    }

    method SongsUpdate(id: string, u: SongPatch) returns (r: Option<Song>)
      modifies this`songs
      ensures songs == UpdateSongs(old(songs), id, u)
      ensures r == SongWithId(songs, id)
      ensures r == if u.id.None? || u.id == Some(id) then
                     (match SongWithId(old(songs), id) case Some(s) => Some(MergeSong(s, u)) case None => None)
                   else None
      ensures SongWithId(old(songs), id).None? ==> songs == old(songs) && r.None?
    {
      songs := UpdateSongs(songs, id, u);
      r := SongWithId(songs, id);
      UpdatedSongReturned(old(songs), id, u);
      if SongWithId(old(songs), id).None? {
        UpdateSongsUnknownId(old(songs), id, u);
      }
    }

    method ProGet() returns (r: ProProfile)
      ensures r == pro
    {
      r := pro;
    }

    method ProUpdate(u: ProPatch) returns (r: ProProfile)
      modifies this`pro
      ensures pro == MergePro(old(pro), u) && r == pro
    {
      pro := MergePro(pro, u);
      r := pro;
    }

    method CompanyGet() returns (r: Company)
      ensures r == company
    {
      r := company;
    }

    method CompanyUpdate(u: CompanyPatch) returns (r: Company)
      modifies this`company
      ensures company == MergeCompany(old(company), u) && r == company
    {
      company := MergeCompany(company, u);
      r := company;
    }

    method RoyaltySourcesGetAll() returns (r: seq<RoyaltySource>)
      ensures r == royaltySources
    {
      r := royaltySources;
    }

    method RoyaltySourcesUpdate(id: string, st: Status) returns (r: Option<RoyaltySource>)
      modifies this`royaltySources
      ensures royaltySources == SetStatus(old(royaltySources), id, st)
      ensures r == SourceWithId(royaltySources, id)
      ensures r == match SourceWithId(old(royaltySources), id)
                   case Some(x) => Some(x.(status := st)) case None => None
    {
      royaltySources := SetStatus(royaltySources, id, st);
      r := SourceWithId(royaltySources, id);
      SetStatusReturned(old(royaltySources), id, st);
    }

    method DocsGetAll() returns (r: seq<Document>)
      ensures r == docs
    {
      r := docs;
    }

    method DocsAdd(d: Document) returns (r: Document)
      modifies this`docs
      ensures docs == old(docs) + [d] && r == d
    {
      docs := docs + [d];
      r := d;
    }

    method TasksGetAll() returns (r: seq<Task>)
      ensures r == tasks
    {
      r := tasks;
    }

    method TasksToggle(id: string) returns (r: Option<Task>)
      modifies this`tasks
      ensures tasks == ToggleTasks(old(tasks), id)
      ensures r == TaskWithId(tasks, id)
      ensures r == match TaskWithId(old(tasks), id)
                   case Some(t) => Some(t.(completed := !t.completed)) case None => None
      ensures TaskWithId(old(tasks), id).None? ==> tasks == old(tasks)
    {
      tasks := ToggleTasks(tasks, id);
      r := TaskWithId(tasks, id);
      ToggleTasksReturned(old(tasks), id);
      if TaskWithId(old(tasks), id).None? {
        ToggleTasksUnknownId(old(tasks), id);
      }
    }
  }
}
