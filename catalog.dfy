/** The catalog page: building a new song from the upload form, enriching it
    with the metadata analysis, and refreshing a song's metadata. The analysis
    result, the generated id and the clock reading are parameters. */
module Catalog {
  import opened Wrappers
  import opened Types
  import opened Tables
  import MockDb

  // ----- Title derivation -----

  /** `name[i..]` is what `/\.[^/.]+$/` matches: a dot followed by one or more
      characters, none of them '.' or '/', up to the end. */
  predicate IsExtensionAt(name: string, i: int) {
    0 <= i < |name| - 1 && name[i] == '.'
    && forall j :: i < j < |name| ==> name[j] != '.' && name[j] != '/'
  }

  /** Scans `name[..k]` from its end for the dot that starts the extension. */
  function ExtensionFrom(name: string, k: nat): (r: Option<nat>)
    requires k <= |name|
    ensures r.Some? ==> r.value < k
  {
    if k == 0 then None
    else if name[k - 1] == '/' then None
    else if name[k - 1] == '.' then (if k < |name| then Some(k - 1) else None)
    else ExtensionFrom(name, k - 1)
  }

  /** Where the extension the pattern matches starts, if there is one. */
  function ExtensionStart(name: string): Option<nat> {
    ExtensionFrom(name, |name|)
  }

  /** The scan finds an index exactly when the pattern matches there. */
  lemma {:induction false} ExtensionFromSpec(name: string, k: nat)
    requires k <= |name|
    requires forall j :: k <= j < |name| ==> name[j] != '.' && name[j] != '/'
    ensures forall i :: ExtensionFrom(name, k) == Some(i) ==> IsExtensionAt(name, i)
    ensures ExtensionFrom(name, k).None? ==> forall i :: 0 <= i < k ==> !IsExtensionAt(name, i)
  {
    if k > 0 && name[k - 1] != '/' && name[k - 1] != '.' {
      ExtensionFromSpec(name, k - 1);
    }
  }

  lemma ExtensionStartSpec(name: string)
    ensures forall i :: ExtensionStart(name) == Some(i) <==> IsExtensionAt(name, i)
  {
    ExtensionFromSpec(name, |name|);
    forall i, i' | IsExtensionAt(name, i) && IsExtensionAt(name, i') ensures i == i' {
      assert !(i < i') && !(i' < i);
    }
  }

  /** `name.replace(/\.[^/.]+$/, "")`. */
  function StripExtension(name: string): (r: string)
    ensures |r| <= |name| && r == name[..|r|]
    ensures r == name <==> forall i :: !IsExtensionAt(name, i)
    ensures r != name ==> IsExtensionAt(name, |r|)
  {
    ExtensionStartSpec(name);
    match ExtensionStart(name)
    case Some(i) => name[..i]
    case None => name
  }

  /** `uploadTitle || (uploadFile?.name.replace(...) || "Untitled")`. */
  function UploadTitle(title: string, file: Option<string>): (r: string)
    ensures r != ""
    ensures title != "" ==> r == title
    ensures title == "" && file.Some? && StripExtension(file.value) != "" ==> r == StripExtension(file.value)
    ensures title == "" && (file.None? || StripExtension(file.value) == "") ==> r == "Untitled"
  {
    if title != "" then title
    else if file.Some? && StripExtension(file.value) != "" then StripExtension(file.value)
    else "Untitled"
  }

  lemma UploadTitleExamples()
    ensures UploadTitle("", Some("demo.final.mp3")) == "demo.final"
    ensures UploadTitle("", Some(".wav")) == "Untitled"
    ensures UploadTitle("", Some("track.")) == "track."
    ensures UploadTitle("", Some("v1.2/take")) == "v1.2/take"
    ensures UploadTitle("", None) == "Untitled"
    ensures UploadTitle("Midnight City", Some("x.mp3")) == "Midnight City"
  {
    assert IsExtensionAt("demo.final.mp3", 10);
    ExtensionStartSpec("demo.final.mp3");
    assert IsExtensionAt(".wav", 0);
    ExtensionStartSpec(".wav");
    ExtensionStartSpec("track.");
    assert "track."[5] == '.';
    ExtensionStartSpec("v1.2/take");
    assert "v1.2/take"[4] == '/';
  }

  /** The upload button is disabled when both the title and the file are empty. */
  function UploadDisabled(title: string, file: Option<string>): (r: bool)
    ensures r <==> title == "" && file.None?
  {
    title == "" && file == None
  }

  /** The song record built before enrichment. */
  function NewSong(id: string, createdAt: string, title: string, file: Option<string>): (s: Song)
    ensures s.id == id && s.created_at == createdAt && s.title == UploadTitle(title, file)
    ensures s.user_id == "u1" && s.artist == "Alex Rivera" && s.tags == []
    ensures s.writers == "Alex Rivera (100%)" && s.splits == "100"
    ensures s.file_url.None? && s.bpm.None? && s.song_key.None? && s.genre.None?
    ensures s.mood.None? && s.instrumentation.None? && s.isrc.None?
  {
    Song(id, "u1", UploadTitle(title, file), "Alex Rivera", None, None, None, None, None,
         None, None, "Alex Rivera (100%)", "100", [], createdAt)
  }

  /** The enriched song takes every field the analysis carries and keeps the
      new song's value for every other field. */
  lemma EnrichedSong(id: string, createdAt: string, title: string, file: Option<string>, ai: SongPatch)
    ensures var e := MergeSong(NewSong(id, createdAt, title, file), ai);
      && e.file_url == ai.file_url && e.bpm == ai.bpm && e.song_key == ai.song_key
      && e.genre == ai.genre && e.mood == ai.mood
      && e.instrumentation == ai.instrumentation && e.isrc == ai.isrc
      && e.tags == ai.tags.GetOr([])
      && e.title == ai.title.GetOr(UploadTitle(title, file))
      && e.artist == ai.artist.GetOr("Alex Rivera")
      && e.id == ai.id.GetOr(id)
      && e.user_id == ai.user_id.GetOr("u1")
      && e.writers == ai.writers.GetOr("Alex Rivera (100%)")
      && e.splits == ai.splits.GetOr("100")
      && e.created_at == ai.created_at.GetOr(createdAt)
  {
  }

  /** The state the catalog page holds. */
  class CatalogPage {
    var songs: seq<Song>
    var uploadOpen: bool
    var uploadTitle: string
    var uploadFile: Option<string>

    constructor ()
      ensures songs == [] && !uploadOpen && uploadTitle == "" && uploadFile.None?
    {
      songs := [];
      uploadOpen := false;
      uploadTitle := "";
      uploadFile := None;
    }

    /** The mount effect: the local list becomes the store's songs. */
    method Load(db: MockDb.Store)
      modifies this`songs
      ensures songs == db.songs
    {
      songs := db.SongsGetAll();
    }

    /** The Upload button opens the form. */
    method OpenUpload()
      modifies this`uploadOpen
      ensures uploadOpen
    {
      uploadOpen := true;
    }

    /** Cancel closes the form and keeps what was typed. */
    method CancelUpload()
      modifies this`uploadOpen
      ensures !uploadOpen
    {
      uploadOpen := false;
    }

    /** Typing in the title box. */
    method EditTitle(title: string)
      modifies this`uploadTitle
      ensures uploadTitle == title
    {
      uploadTitle := title;
    }

    /** Choosing a file: its name, or none when the selection is empty. */
    method ChooseFile(file: Option<string>)
      modifies this`uploadFile
      ensures uploadFile == file
    {
      uploadFile := file;
    }

    /** `handleUpload`: build the song, merge the analysis over it, append it to
        the store and to the local list, and reset the form. */
    method HandleUpload(db: MockDb.Store, id: string, createdAt: string, ai: SongPatch)
      modifies this, db`songs
      ensures var e := MergeSong(NewSong(id, createdAt, old(uploadTitle), old(uploadFile)), ai);
              db.songs == old(db.songs) + [e] && songs == old(songs) + [e]
      ensures !uploadOpen && uploadTitle == "" && uploadFile.None?
    {
      var newSong := NewSong(id, createdAt, uploadTitle, uploadFile);
      var enriched := MergeSong(newSong, ai);
      var _ := db.SongsAdd(enriched);
      songs := songs + [enriched];
      uploadOpen := false;
      uploadTitle := "";
      uploadFile := None;
    }

    /** `handleImproveMetadata`: nothing happens for an id the local list lacks;
        otherwise the store merges the analysis and, if it returns a record,
        the local entries with that id are replaced by it. */
    method HandleImproveMetadata(db: MockDb.Store, id: string, ai: SongPatch)
      modifies this`songs, db`songs
      ensures MockDb.SongWithId(old(songs), id).None? ==>
                songs == old(songs) && db.songs == old(db.songs)
      ensures MockDb.SongWithId(old(songs), id).Some? ==>
                db.songs == MockDb.UpdateSongs(old(db.songs), id, ai)
                && songs == match MockDb.SongWithId(db.songs, id)
                            case Some(x) => ReplaceWhere(old(songs), MockDb.SongHasId(id), x)
                            case None => old(songs)
    {
      var song := MockDb.SongWithId(songs, id);
      if song.None? {
        return;
      }
      var updated := db.SongsUpdate(id, ai);
      if updated.Some? {
        songs := ReplaceWhere(songs, MockDb.SongHasId(id), updated.value);
      }
    }
  }
}
