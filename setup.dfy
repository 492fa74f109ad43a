/** The publishing setup page: saving the two profiles, toggling a royalty
    source's status, and the company one-sheet. */
module PublishingSetup {
  import opened Wrappers
  import opened Types
  import opened Text
  import opened Tables
  import MockDb

  // ----- Royalty status toggle -----

  /** `status === 'Complete' ? 'Not Started' : 'Complete'`. */
  function NextStatus(st: Status): (r: Status)
    ensures r != InProgress
    ensures r == NotStarted <==> st == Complete
  {
    if st == Complete then NotStarted else Complete
  }

  /** Toggling twice restores Not Started and Complete, but sends In Progress
      to Not Started: the toggle never returns to In Progress. */
  lemma NextStatusTwice(st: Status)
    ensures st != InProgress ==> NextStatus(NextStatus(st)) == st
    ensures st == InProgress ==> NextStatus(NextStatus(st)) == NotStarted
  {
  }

  /** `prev.map(p => p.id === updated?.id ? updated : p)`: with nothing returned
      no entry matches, since every id is a string. */
  function ReplaceReturned(local: seq<RoyaltySource>, updated: Option<RoyaltySource>): (r: seq<RoyaltySource>)
    ensures updated.None? ==> r == local
    ensures updated.Some? ==> |r| == |local|
    ensures updated.Some? ==> forall i :: 0 <= i < |local| ==>
              r[i] == if local[i].id == updated.value.id then updated.value else local[i]
  {
    match updated
    case None => local
    case Some(u) => ReplaceWhere(local, MockDb.SourceHasId(u.id), u)
  }

  // ----- One-sheet -----

  /** `(companyData?.company_name || 'artist')`. */
  function SlugSource(company: Option<Company>): string {
    if company.Some? && company.value.company_name != "" then company.value.company_name else "artist"
  }

  /** A name with every white-space character removed, then lowercased. */
  function SlugOf(name: string): (slug: string)
    ensures |slug| <= |name|
    ensures forall c :: c in slug ==> !IsSpace(c) && !IsUpper(c)
  {
    var r := Lower(RemoveSpaces(name));
    assert forall c :: c in r ==> exists i :: 0 <= i < |r| && r[i] == c;
    r
  }

  /** The slug is built character by character, in order: white space is
      dropped and any other character is lowercased. */
  lemma SlugOfChar(c: char)
    ensures SlugOf([c]) == if IsSpace(c) then [] else [LowerChar(c)]
  {
    RemoveSpacesChar(c);
  }

  lemma SlugOfAppend(a: string, b: string)
    ensures SlugOf(a + b) == SlugOf(a) + SlugOf(b)
  {
    RemoveSpacesAppend(a, b);
    LowerAppend(RemoveSpaces(a), RemoveSpaces(b));
  }

  /** The slug of the company name, or of "artist" when there is no name. */
  function Slug(company: Option<Company>): (slug: string)
    ensures forall c :: c in slug ==> !IsSpace(c) && !IsUpper(c)
    ensures company.Some? && company.value.company_name != "" ==> slug == SlugOf(company.value.company_name)
  {
    SlugOf(SlugSource(company))
  }

  /** `legal@<slug>.com`. */
  function ContactEmail(company: Option<Company>): (email: string)
    ensures email == "legal@" + Slug(company) + ".com"
    ensures |email| >= 10 && StartsWith(email, "legal@") && email[|email| - 4..] == ".com"
    ensures forall c :: c in email[6..|email| - 4] ==> !IsSpace(c) && !IsUpper(c)
  {
    var slug := Slug(company);
    var email := "legal@" + slug + ".com";
    assert email[..6] == "legal@";
    assert email[6..|email| - 4] == slug;
    assert email[|email| - 4..] == ".com";
    email
  }

  /** The slug is empty, giving "legal@.com", exactly when the company name is
      non-empty and made only of white space. */
  lemma {:induction false} EmptySlugIffBlankName(company: Option<Company>)
    ensures Slug(company) == "" <==>
              company.Some? && company.value.company_name != "" && Blank(company.value.company_name)
  {
    RemoveSpacesEmptyIffBlank(SlugSource(company));
    assert Slug(company) == Lower(RemoveSpaces(SlugSource(company)));
    assert !Blank("artist") by { assert !IsSpace("artist"[0]); }
  }

  lemma {:induction false} RemoveSpacesEmptyIffBlank(s: string)
    ensures RemoveSpaces(s) == "" <==> Blank(s)
  {
    if s != [] {
      RemoveSpacesEmptyIffBlank(s[1..]);
      assert Blank(s) <==> IsSpace(s[0]) && Blank(s[1..]) by {
        if IsSpace(s[0]) && Blank(s[1..]) {
          forall i | 0 <= i < |s| ensures IsSpace(s[i]) {
            if i > 0 { assert s[i] == s[1..][i - 1]; }
          }
        }
      }
    }
  }

  /** The interpolated values of the one-sheet text. A missing profile prints
      as "undefined" in the entity and EIN lines. */
  datatype OneSheet = OneSheet(company: string, entity: string, ein: string, contact: string)

  function MakeOneSheet(company: Option<Company>): (sheet: OneSheet)
    ensures sheet.company == "N/A" <==> company.None? || company.value.company_name in {"", "N/A"}
    ensures company.Some? && company.value.company_name != "" ==> sheet.company == company.value.company_name
    ensures company.None? ==> sheet.entity == "undefined" && sheet.ein == "undefined"
    ensures company.Some? ==> sheet.entity == company.value.entity_type && sheet.ein == company.value.ein
    ensures sheet.contact == ContactEmail(company)
  {
    match company
    case None => OneSheet("N/A", "undefined", "undefined", ContactEmail(company))
    case Some(c) =>
      OneSheet(if c.company_name != "" then c.company_name else "N/A", c.entity_type, c.ein, ContactEmail(company))
  }

  /** A name without white space or capitals is its own slug. */
  lemma {:induction false} SlugOfPlainName(s: string)
    requires forall i :: 0 <= i < |s| ==> !IsSpace(s[i]) && !IsUpper(s[i])
    ensures Lower(RemoveSpaces(s)) == s
  {
    if s != [] {
      SlugOfPlainName(s[1..]);
    }
  }

  lemma LowerLetter(c: char)
    requires 'a' <= c <= 'z'
    ensures !IsSpace(c) && !IsUpper(c)
  {
  }

  /** Without a company name, whether the profile is missing or its name is
      empty as in the seed data, the slug is "artist". */
  lemma SlugDefault(company: Option<Company>)
    ensures company.None? || company.value.company_name == "" ==> Slug(company) == "artist"
  {
    var a := "artist";
    forall i | 0 <= i < |a| ensures !IsSpace(a[i]) && !IsUpper(a[i]) {
      LowerLetter(a[i]);
    }
    SlugOfPlainName(a);
  }

  lemma ContactExample()
    ensures ContactEmail(Some(Company("1", "u1", "A b", "", "LLC", ""))) == "legal@ab.com"
  {
    assert !IsSpace('A') && IsSpace(' ') && !IsSpace('b');
    assert RemoveSpaces("b") == "b";
    assert RemoveSpaces(" b") == "b";
    assert RemoveSpaces("A b") == "Ab";
    assert Lower("Ab") == "ab";
  }

  /** The state the setup page holds: the two profile drafts (absent until
      loaded) and the local checklist. */
  class SetupPage {
    var proData: Option<ProProfile>
    var companyData: Option<Company>
    var royalties: seq<RoyaltySource>

    constructor ()
      ensures proData.None? && companyData.None? && royalties == []
    {
      proData := None;
      companyData := None;
      royalties := [];
    }

    /** The mount effect: fetch both profiles and the checklist. */
    method Load(db: MockDb.Store)
      modifies this
      ensures proData == Some(db.pro) && companyData == Some(db.company)
      ensures royalties == db.royaltySources
    {
      var p := db.ProGet();
      proData := Some(p);
      var c := db.CompanyGet();
      companyData := Some(c);
      royalties := db.RoyaltySourcesGetAll();
    }

    /** A form field edit: the loaded draft takes the edited field and keeps
        the others. The form is shown only once both profiles are loaded. */
    method EditPro(u: ProPatch)
      requires proData.Some?
      modifies this`proData
      ensures proData == Some(MergePro(old(proData).value, u))
    {
      proData := Some(MergePro(proData.value, u));
    }

    method EditCompany(u: CompanyPatch)
      requires companyData.Some?
      modifies this`companyData
      ensures companyData == Some(MergeCompany(old(companyData).value, u))
    {
      companyData := Some(MergeCompany(companyData.value, u));
    }

    /** `handleSavePro`: the store is called only once the draft is loaded; the
        whole draft is passed as the partial, so the stored profile becomes it. */
    method SavePro(db: MockDb.Store) returns (saved: bool)
      modifies db`pro
      ensures saved <==> proData.Some?
      ensures saved ==> db.pro == proData.value
      ensures !saved ==> db.pro == old(db.pro)
    {
      saved := proData.Some?;
      if saved {
        var _ := db.ProUpdate(ProPatchOf(proData.value));
        MergeProWhole(old(db.pro), proData.value);
      }
    }

    method SaveCompany(db: MockDb.Store) returns (saved: bool)
      modifies db`company
      ensures saved <==> companyData.Some?
      ensures saved ==> db.company == companyData.value
      ensures !saved ==> db.company == old(db.company)
    {
      saved := companyData.Some?;
      if saved {
        var _ := db.CompanyUpdate(CompanyPatchOf(companyData.value));
        MergeCompanyWhole(old(db.company), companyData.value);
      }
    }

    /** The checklist's Toggle button for one rendered entry. */
    method ToggleRoyalty(db: MockDb.Store, source: RoyaltySource)
      modifies this`royalties, db`royaltySources
      ensures db.royaltySources == MockDb.SetStatus(old(db.royaltySources), source.id, NextStatus(source.status))
      ensures royalties == ReplaceReturned(old(royalties),
                             MockDb.SourceWithId(db.royaltySources, source.id))
      ensures MockDb.SourceWithId(old(db.royaltySources), source.id).None? ==> royalties == old(royalties)
    {
      var newStatus := NextStatus(source.status);
      var updated := db.RoyaltySourcesUpdate(source.id, newStatus);
      royalties := ReplaceReturned(royalties, updated);
    }
  }
}
