/** The application's records. Optional fields are `Option`s; a `Partial<T>`
    is a record of `Option`s (`None` = key absent); `{...x, ...patch}` is the
    merge that lets every present key of the patch win. */
module Types {
  import opened Wrappers

  datatype Song = Song(
    id: string,
    user_id: string,
    title: string,
    artist: string,
    file_url: Option<string>,
    bpm: Option<real>,
    song_key: Option<string>,
    genre: Option<string>,
    mood: Option<string>,
    instrumentation: Option<string>,
    isrc: Option<string>,
    writers: string,
    splits: string,
    tags: seq<string>,
    created_at: string)

  /** `Partial<Song>`: for an optional field, `Some(v)` sets the field to `v`. */
  datatype SongPatch = SongPatch(
    id: Option<string>,
    user_id: Option<string>,
    title: Option<string>,
    artist: Option<string>,
    file_url: Option<string>,
    bpm: Option<real>,
    song_key: Option<string>,
    genre: Option<string>,
    mood: Option<string>,
    instrumentation: Option<string>,
    isrc: Option<string>,
    writers: Option<string>,
    splits: Option<string>,
    tags: Option<seq<string>>,
    created_at: Option<string>)

  const NoSongChanges := SongPatch(None, None, None, None, None, None, None, None,
                                   None, None, None, None, None, None, None)

  /** `{...s, ...u}`. */
  function MergeSong(s: Song, u: SongPatch): Song {
    Song(
      id := u.id.GetOr(s.id),
      user_id := u.user_id.GetOr(s.user_id),
      title := u.title.GetOr(s.title),
      artist := u.artist.GetOr(s.artist),
      file_url := u.file_url.Or(s.file_url),
      bpm := u.bpm.Or(s.bpm),
      song_key := u.song_key.Or(s.song_key),
      genre := u.genre.Or(s.genre),
      mood := u.mood.Or(s.mood),
      instrumentation := u.instrumentation.Or(s.instrumentation),
      isrc := u.isrc.Or(s.isrc),
      writers := u.writers.GetOr(s.writers),
      splits := u.splits.GetOr(s.splits),
      tags := u.tags.GetOr(s.tags),
      created_at := u.created_at.GetOr(s.created_at))
  }

  /** `{...u, ...v}` on two partials: the keys of `v` win. */
  function CombineSongPatches(u: SongPatch, v: SongPatch): SongPatch {
    SongPatch(
      v.id.Or(u.id), v.user_id.Or(u.user_id), v.title.Or(u.title), v.artist.Or(u.artist),
      v.file_url.Or(u.file_url), v.bpm.Or(u.bpm), v.song_key.Or(u.song_key),
      v.genre.Or(u.genre), v.mood.Or(u.mood), v.instrumentation.Or(u.instrumentation),
      v.isrc.Or(u.isrc), v.writers.Or(u.writers), v.splits.Or(u.splits),
      v.tags.Or(u.tags), v.created_at.Or(u.created_at))
  }

  /** A field the patch carries takes the patch's value; every other keeps its own. */
  lemma MergeSongFields(s: Song, u: SongPatch)
    ensures var r := MergeSong(s, u);
      && (u.id.Some? ==> r.id == u.id.value) && (u.id.None? ==> r.id == s.id)
      && (u.user_id.Some? ==> r.user_id == u.user_id.value) && (u.user_id.None? ==> r.user_id == s.user_id)
      && (u.title.Some? ==> r.title == u.title.value) && (u.title.None? ==> r.title == s.title)
      && (u.artist.Some? ==> r.artist == u.artist.value) && (u.artist.None? ==> r.artist == s.artist)
      && (u.file_url.Some? ==> r.file_url == u.file_url) && (u.file_url.None? ==> r.file_url == s.file_url)
      && (u.bpm.Some? ==> r.bpm == u.bpm) && (u.bpm.None? ==> r.bpm == s.bpm)
      && (u.song_key.Some? ==> r.song_key == u.song_key) && (u.song_key.None? ==> r.song_key == s.song_key)
      && (u.genre.Some? ==> r.genre == u.genre) && (u.genre.None? ==> r.genre == s.genre)
      && (u.mood.Some? ==> r.mood == u.mood) && (u.mood.None? ==> r.mood == s.mood)
      && (u.instrumentation.Some? ==> r.instrumentation == u.instrumentation)
      && (u.instrumentation.None? ==> r.instrumentation == s.instrumentation)
      && (u.isrc.Some? ==> r.isrc == u.isrc) && (u.isrc.None? ==> r.isrc == s.isrc)
      && (u.writers.Some? ==> r.writers == u.writers.value) && (u.writers.None? ==> r.writers == s.writers)
      && (u.splits.Some? ==> r.splits == u.splits.value) && (u.splits.None? ==> r.splits == s.splits)
      && (u.tags.Some? ==> r.tags == u.tags.value) && (u.tags.None? ==> r.tags == s.tags)
      && (u.created_at.Some? ==> r.created_at == u.created_at.value)
      && (u.created_at.None? ==> r.created_at == s.created_at)
  {
  }

  /** A merge applied twice equals the merge applied once. */
  lemma MergeSongIdempotent(s: Song, u: SongPatch)
    ensures MergeSong(MergeSong(s, u), u) == MergeSong(s, u)
  {
  }

  /** The empty partial leaves a song unchanged. */
  lemma MergeSongNoChanges(s: Song)
    ensures MergeSong(s, NoSongChanges) == s
  {
  }

  /** Two merges in a row are one merge with the combined partial. */
  lemma MergeSongCombine(s: Song, u: SongPatch, v: SongPatch)
    ensures MergeSong(MergeSong(s, u), v) == MergeSong(s, CombineSongPatches(u, v))
  {
  }

  /** `PROProfile.pro_name`: one of three societies or the empty string. */
  datatype ProName = Ascap | Bmi | Sesac | Unset

  datatype ProProfile = ProProfile(
    id: string,
    user_id: string,
    pro_name: ProName,
    member_id: string,
    writer_ipi: string,
    publisher_ipi: string)

  datatype ProPatch = ProPatch(
    id: Option<string>,
    user_id: Option<string>,
    pro_name: Option<ProName>,
    member_id: Option<string>,
    writer_ipi: Option<string>,
    publisher_ipi: Option<string>)

  /** `{...p, ...u}`. */
  function MergePro(p: ProProfile, u: ProPatch): ProProfile {
    ProProfile(u.id.GetOr(p.id), u.user_id.GetOr(p.user_id), u.pro_name.GetOr(p.pro_name),
               u.member_id.GetOr(p.member_id), u.writer_ipi.GetOr(p.writer_ipi),
               u.publisher_ipi.GetOr(p.publisher_ipi))
  }

  /** A whole profile passed where a partial is expected: every key present. */
  function ProPatchOf(q: ProProfile): (u: ProPatch)
    ensures u.id.Some? && u.user_id.Some? && u.pro_name.Some?
    ensures u.member_id.Some? && u.writer_ipi.Some? && u.publisher_ipi.Some?
  {
    ProPatch(Some(q.id), Some(q.user_id), Some(q.pro_name), Some(q.member_id),
             Some(q.writer_ipi), Some(q.publisher_ipi))
  }

  /** A field the partial carries takes the partial's value; every other keeps the profile's. */
  lemma MergeProFields(p: ProProfile, u: ProPatch)
    ensures var r := MergePro(p, u);
      && (u.id.Some? ==> r.id == u.id.value) && (u.id.None? ==> r.id == p.id)
      && (u.user_id.Some? ==> r.user_id == u.user_id.value) && (u.user_id.None? ==> r.user_id == p.user_id)
      && (u.pro_name.Some? ==> r.pro_name == u.pro_name.value) && (u.pro_name.None? ==> r.pro_name == p.pro_name)
      && (u.member_id.Some? ==> r.member_id == u.member_id.value) && (u.member_id.None? ==> r.member_id == p.member_id)
      && (u.writer_ipi.Some? ==> r.writer_ipi == u.writer_ipi.value)
      && (u.writer_ipi.None? ==> r.writer_ipi == p.writer_ipi)
      && (u.publisher_ipi.Some? ==> r.publisher_ipi == u.publisher_ipi.value)
      && (u.publisher_ipi.None? ==> r.publisher_ipi == p.publisher_ipi)
  {
  }

  /** Merging a whole profile overwrites every field. */
  lemma MergeProWhole(p: ProProfile, q: ProProfile)
    ensures MergePro(p, ProPatchOf(q)) == q
  {
  }

  lemma MergeProIdempotent(p: ProProfile, u: ProPatch)
    ensures MergePro(MergePro(p, u), u) == MergePro(p, u)
  {
  }

  datatype Company = Company(
    id: string,
    user_id: string,
    company_name: string,
    ein: string,
    entity_type: string,
    state: string)

  datatype CompanyPatch = CompanyPatch(
    id: Option<string>,
    user_id: Option<string>,
    company_name: Option<string>,
    ein: Option<string>,
    entity_type: Option<string>,
    state: Option<string>)

  /** `{...c, ...u}`. */
  function MergeCompany(c: Company, u: CompanyPatch): Company {
    Company(u.id.GetOr(c.id), u.user_id.GetOr(c.user_id), u.company_name.GetOr(c.company_name),
            u.ein.GetOr(c.ein), u.entity_type.GetOr(c.entity_type), u.state.GetOr(c.state))
  }

  function CompanyPatchOf(q: Company): (u: CompanyPatch)
    ensures u.id.Some? && u.user_id.Some? && u.company_name.Some?
    ensures u.ein.Some? && u.entity_type.Some? && u.state.Some?
  {
    CompanyPatch(Some(q.id), Some(q.user_id), Some(q.company_name), Some(q.ein),
                 Some(q.entity_type), Some(q.state))
  }

  /** A field the partial carries takes the partial's value; every other keeps the company's. */
  lemma MergeCompanyFields(c: Company, u: CompanyPatch)
    ensures var r := MergeCompany(c, u);
      && (u.id.Some? ==> r.id == u.id.value) && (u.id.None? ==> r.id == c.id)
      && (u.user_id.Some? ==> r.user_id == u.user_id.value) && (u.user_id.None? ==> r.user_id == c.user_id)
      && (u.company_name.Some? ==> r.company_name == u.company_name.value)
      && (u.company_name.None? ==> r.company_name == c.company_name)
      && (u.ein.Some? ==> r.ein == u.ein.value) && (u.ein.None? ==> r.ein == c.ein)
      && (u.entity_type.Some? ==> r.entity_type == u.entity_type.value)
      && (u.entity_type.None? ==> r.entity_type == c.entity_type)
      && (u.state.Some? ==> r.state == u.state.value) && (u.state.None? ==> r.state == c.state)
  {
  }

  lemma MergeCompanyWhole(c: Company, q: Company)
    ensures MergeCompany(c, CompanyPatchOf(q)) == q
  {
  }

  lemma MergeCompanyIdempotent(c: Company, u: CompanyPatch)
    ensures MergeCompany(MergeCompany(c, u), u) == MergeCompany(c, u)
  {
  }

  /** `RoyaltySource.status`. */
  datatype Status = NotStarted | InProgress | Complete

  datatype RoyaltySource = RoyaltySource(id: string, name: string, status: Status, notes: string)

  /** `Document.type`. */
  datatype DocType = Contract | Registration | RoyaltyStatement | SplitSheet {
    /** The string the source stores for the type. */
    function Name(): string {
      match this
      case Contract => "contract"
      case Registration => "registration"
      case RoyaltyStatement => "royalty_statement"
      case SplitSheet => "split_sheet"
    }
  }

  datatype Document = Document(id: string, title: string, doc_type: DocType, date: string, url: string)

  datatype Task = Task(id: string, description: string, completed: bool)

  datatype Venue = Venue(
    venue: string,
    address: string,
    street: string,
    city: string,
    state: string,
    zip: string,
    phone: string,
    website: string)
}
