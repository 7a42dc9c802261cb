/** The upload form component: a search box that narrows the list of
    SharePoint sites offered in the site selector, the drop zone's file-type
    flag, and the submit button that stays disabled until a file is chosen. */
module FileUploadField {
  import opened Common

  /** A site as the sites endpoint lists it; the name may be missing. */
  datatype Site = Site(id: string, name: Option<string>)

  /** The dropped file, by name. */
  type FileRef = string

  /** `site.name || ''`. */
  function NameOf(s: Site): string
  {
    if s.name.Some? then s.name.value else ""
  }

  /** `(site.name || '').includes(value)`: the query, untrimmed, occurs in
      the name. */
  predicate Matches(value: string, s: Site)
  {
    IsInfix(value, NameOf(s))
  }

  /** The sites offered for the query `value`: all of them when the query is
      blank, otherwise the matching ones in their order. */
  function Shown(sites: seq<Site>, value: string): (r: seq<Site>)
    ensures Strip(value, JsSpace) == [] ==> r == sites
    ensures Strip(value, JsSpace) != [] ==>
      && IsSubsequence(r, sites)
      && (forall i :: 0 <= i < |r| ==> Matches(value, r[i]))
      && (forall i :: 0 <= i < |sites| && Matches(value, sites[i]) ==> sites[i] in r)
  {
    if Strip(value, JsSpace) == [] then sites else Filter(sites, s => Matches(value, s))
  }

  /** `disabled={!file}`. */
  predicate SubmitDisabled(file: Option<FileRef>)
  {
    file.None?
  }

  /** The component's state: the `sites` prop, the list shown, the shared
      search value, the file-type flag, and the files handed to the parent's
      `onFileChange`, in order. */
  class UploadForm {
    var sites: seq<Site>
    var filteredSites: seq<Site>
    var searchValue: string
    var errorFileType: bool
    var forwarded: seq<FileRef>

    /** The list shown is always drawn from the current sites, in order. */
    predicate Valid()
      reads this
    {
      IsSubsequence(filteredSites, sites)
    }

    /** First render: every site is shown; the search value is whatever the
        shared store already holds. */
    constructor (sites: seq<Site>, storedSearch: string)
      ensures Valid()
      ensures this.sites == sites && filteredSites == sites && searchValue == storedSearch
      ensures !errorFileType && forwarded == []
    {
      this.sites := sites;
      filteredSites := sites;
      searchValue := storedSearch;
      errorFileType := false;
      forwarded := [];
      SubsequenceOfItself(sites);
    }

    /** The effect on a new `sites` prop: the whole new list is shown, the
        search box keeps its text. */
    method OnSitesChanged(newSites: seq<Site>)
      modifies this
      ensures Valid()
      ensures sites == newSites && filteredSites == newSites
      ensures searchValue == old(searchValue) && errorFileType == old(errorFileType) && forwarded == old(forwarded)
    {
      sites := newSites;
      filteredSites := newSites;
      SubsequenceOfItself(newSites);
    }

    /** `handleSearch`: store the raw text, show the sites it selects. */
    method HandleSearch(value: string)
      modifies this
      ensures Valid()
      ensures searchValue == value && filteredSites == Shown(sites, value)
      ensures sites == old(sites) && errorFileType == old(errorFileType) && forwarded == old(forwarded)
    {
      searchValue := value;
      if Strip(value, JsSpace) == [] {
        filteredSites := sites;
        SubsequenceOfItself(sites);
      } else {
        filteredSites := Filter(sites, s => Matches(value, s));
      }
    }

    /** The drop zone's callback: no file (a rejected type) raises the flag
        and is not passed on; a file clears the flag and is passed on. */
    method OnFileChange(f: Option<FileRef>)
      modifies this
      ensures Valid() == old(Valid())
      ensures errorFileType <==> f.None?
      ensures forwarded == old(forwarded) + (if f.Some? then [f.value] else [])
      ensures sites == old(sites) && filteredSites == old(filteredSites) && searchValue == old(searchValue)
    {
      if f.None? {
        errorFileType := true;
      } else {
        errorFileType := false;
        forwarded := forwarded + [f.value];
      }
    }
  }

  lemma {:induction false} SubsequenceOfItself<T>(s: seq<T>)
    ensures IsSubsequence(s, s)
    decreases |s|
  {
    if s != [] {
      SubsequenceOfItself(s[1..]);
    }
  }

  /** The first character of a non-empty infix occurs in the text. */
  lemma {:induction false} InfixHeadOccurs(needle: string, hay: string)
    requires needle != [] && IsInfix(needle, hay)
    ensures needle[0] in hay
    decreases |hay|
  {
    if !(needle <= hay) {
      InfixHeadOccurs(needle, hay[1..]);
    }
  }

  /** Searching again with the same text over the list shown changes nothing. */
  lemma SearchIsIdempotent(sites: seq<Site>, value: string)
    ensures Shown(Shown(sites, value), value) == Shown(sites, value)
  {
    if Strip(value, JsSpace) != [] {
      FilterIdempotent(sites, s => Matches(value, s));
    }
  }

  /** The query is trimmed only to decide whether it is blank: a non-blank
      query that starts with a space hides every site whose name has no
      space. */
  lemma PaddedQueryMatchesLiterally(sites: seq<Site>, value: string, s: Site)
    requires Strip(value, JsSpace) != [] && value[0] == ' '
    requires s in sites && ' ' !in NameOf(s)
    ensures s !in Shown(sites, value)
  {
    if Matches(value, s) {
      InfixHeadOccurs(value, NameOf(s));
    }
  }

  /** A query every name contains (the empty query among them) shows every
      site. */
  lemma MatchingEverySiteShowsAll(sites: seq<Site>, value: string)
    requires forall i :: 0 <= i < |sites| ==> Matches(value, sites[i])
    ensures Shown(sites, value) == sites
  {
    if Strip(value, JsSpace) != [] {
      FilterKeepsPassing(sites, s => Matches(value, s));
    }
  }
}
