/**
  The demo-site catalogue of the iframe cube and the cell holding the four
  URLs currently shown on its faces (Front, Back, Left, Right).
 */
module IframeCubeStore {

  /** One catalogue entry: a display name and the URL to frame. */
  datatype Site = Site(name: string, url: string)

  /** Number of cube faces, and so the length of every selection. */
  const Faces: nat := 4

  /** The catalogue, in display order. */
  const AvailableSites: seq<Site> := [
    Site("SvelteKit", "https://kit.svelte.dev/docs/introduction"),
    Site("Three.js", "https://threejs.org/docs/#manual/en/introduction/Creating-a-scene"),
    Site("Example.com", "http://example.com/"),
    Site("Wikipedia", "https://en.wikipedia.org/wiki/Main_Page"),
    Site("Google", "https://www.google.com/webhp?igu=1"),
    Site("DuckDuckGo", "https://duckduckgo.com")
  ]

  /** The URL of every site, in order. */
  function Urls(sites: seq<Site>): (r: seq<string>)
    ensures |r| == |sites|
    ensures forall i :: 0 <= i < |sites| ==> r[i] == sites[i].url
  {
    if sites == [] then [] else [sites[0].url] + Urls(sites[1..])
  }

  /** The value the cell starts with: the URLs of the first four sites. */
  function InitialSelection(): (r: seq<string>)
    ensures |r| == Faces
    ensures forall i :: 0 <= i < Faces ==> r[i] == AvailableSites[i].url
  {
    Urls(AvailableSites[..Faces])
  }

  /** The catalogue has six entries, so the first four are well defined, and
      the initial selection lists their URLs in catalogue order. */
  lemma InitialSelectionIsFirstFourUrls()
    ensures |AvailableSites| == 6
    ensures InitialSelection() == [
      "https://kit.svelte.dev/docs/introduction",
      "https://threejs.org/docs/#manual/en/introduction/Creating-a-scene",
      "http://example.com/",
      "https://en.wikipedia.org/wiki/Main_Page"
    ]
  {
    var r := InitialSelection();
    assert r[0] == AvailableSites[0].url;
    assert r[1] == AvailableSites[1].url;
    assert r[2] == AvailableSites[2].url;
    assert r[3] == AvailableSites[3].url;
  }

  /** The catalogue lists its six sites under these names, in this order. */
  lemma CatalogueNames()
    ensures |AvailableSites| == 6
    ensures Names(AvailableSites) == ["SvelteKit", "Three.js", "Example.com", "Wikipedia", "Google", "DuckDuckGo"]
  {
    var n := Names(AvailableSites);
    assert n[0] == AvailableSites[0].name && n[5] == AvailableSites[5].name;
  }

  /** The name of every site, in order. */
  function Names(sites: seq<Site>): (r: seq<string>)
    ensures |r| == |sites|
    ensures forall i :: 0 <= i < |sites| ==> r[i] == sites[i].name
  {
    if sites == [] then [] else [sites[0].name] + Names(sites[1..])
  }

  /** The face indices an update may write to. */
  predicate InRange(index: int) {
    0 <= index < Faces
  }

  /** The selection after updating one face: slot `index` holds `url` and
      every other slot is as before; an index outside [0, 4) changes nothing. */
  function Updated(sites: seq<string>, index: int, url: string): (r: seq<string>)
    requires |sites| == Faces
    ensures |r| == Faces
    ensures InRange(index) ==> r[index] == url
    ensures forall j :: 0 <= j < Faces && j != index ==> r[j] == sites[j]
    ensures !InRange(index) ==> r == sites
  {
    if 0 <= index < Faces then sites[index := url] else sites
  }

  /** A second write to the same face overrides the first. */
  lemma UpdatedLastWriteWins(sites: seq<string>, index: int, first: string, second: string)
    requires |sites| == Faces
    ensures Updated(Updated(sites, index, first), index, second) == Updated(sites, index, second)
  {
    var a := Updated(Updated(sites, index, first), index, second);
    var b := Updated(sites, index, second);
    assert forall j :: 0 <= j < Faces ==> a[j] == b[j];
  }

  /** Writes to two different faces commute. */
  lemma UpdatedCommute(sites: seq<string>, i: int, j: int, u: string, v: string)
    requires |sites| == Faces
    requires i != j
    ensures Updated(Updated(sites, i, u), j, v) == Updated(Updated(sites, j, v), i, u)
  {
    var a := Updated(Updated(sites, i, u), j, v);
    var b := Updated(Updated(sites, j, v), i, u);
    assert forall k :: 0 <= k < Faces ==> a[k] == b[k];
  }

  /** Writing back the URL a face already shows leaves the selection as it was. */
  lemma UpdatedSameUrlIsIdentity(sites: seq<string>, index: int)
    requires |sites| == Faces && InRange(index)
    ensures Updated(sites, index, sites[index]) == sites
  {
    var a := Updated(sites, index, sites[index]);
    assert forall k :: 0 <= k < Faces ==> a[k] == sites[k];
  }

  /** Updating face 2 of the initial selection changes only face 2, and the
      indices -1 and 4 are ignored. */
  lemma DefaultSelectionScenario()
    ensures Updated(InitialSelection(), 2, "https://example.org") == [
      "https://kit.svelte.dev/docs/introduction",
      "https://threejs.org/docs/#manual/en/introduction/Creating-a-scene",
      "https://example.org",
      "https://en.wikipedia.org/wiki/Main_Page"
    ]
    ensures Updated(InitialSelection(), -1, "x") == InitialSelection()
    ensures Updated(InitialSelection(), 4, "x") == InitialSelection()
  {
    InitialSelectionIsFirstFourUrls();
  }

  /** The `selectedSites` cell: it holds the array of URLs currently
      published to the cube, and an update publishes a new array. */
  class SelectedSites {
    var value: array<string>

    ghost predicate Valid()
      reads this
    {
      value.Length == Faces
    }

    /** The URLs currently published, face by face. */
    function Sites(): (s: seq<string>)
      reads this, value
      ensures |s| == value.Length
    {
      value[..]
    }

    /** The cell as the module creates it: the first four catalogue URLs. */
    constructor ()
      ensures Valid() && fresh(value)
      ensures Sites() == InitialSelection()
    {
      var init := InitialSelection();
      var a := new string[][init[0], init[1], init[2], init[3]];
      assert a[..] == init;
      value := a;
    }

    /** Copies the published array, writes `url` into slot `index` of the copy
        when the index is a face, and publishes the copy. The earlier array
        is left as it was. */
    method UpdateSite(index: int, url: string)
      requires Valid()
      modifies this
      ensures Valid() && fresh(value)
      ensures old(value)[..] == old(value[..])
      ensures Sites() == Updated(old(Sites()), index, url)
    {
      var current := value;
      var newSites := new string[current.Length];
      var i := 0;
      while i < current.Length
        invariant 0 <= i <= current.Length
        invariant newSites[..i] == current[..i]
      {
        newSites[i] := current[i];
        i := i + 1;
      }
      assert newSites[..] == current[..];
      if index >= 0 && index < 4 {
        newSites[index] := url;
      }
      value := newSites;
    }
  }
}
