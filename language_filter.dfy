/**
 * ymt/js/languageFilter.js: the language dropdown of the home page. Its grid holds an
 * "All Languages" entry followed by every distinct language of the playlist in the
 * default sort order of `Array.prototype.sort`; `filterChannels` keeps the channels of the
 * chosen language. Building the DOM entries and their listeners is not part of this
 * model; the list of values it renders is.
 */
module LanguageFilter {
  import opened JsArrays
  import opened M3uParser

  const MaxColumns: nat := 4

  /** `new Set(channels.map(channel => channel.language))`, in iteration order. */
  function Languages(channels: seq<Channel>): (r: seq<string>)
    ensures Distinct(r)
    ensures forall l :: l in r <==> exists i :: 0 <= i < |channels| && channels[i].language == l
  {
    var all := seq(|channels|, i requires 0 <= i < |channels| => channels[i].language);
    assert forall l :: l in all <==> exists i :: 0 <= i < |channels| && channels[i].language == l by {
      forall l | l in all ensures exists i :: 0 <= i < |channels| && channels[i].language == l {
        var i :| 0 <= i < |all| && all[i] == l;
      }
      forall l | exists i :: 0 <= i < |channels| && channels[i].language == l ensures l in all {
        var i :| 0 <= i < |channels| && channels[i].language == l;
        assert all[i] == l;
      }
    }
    Unique(all)
  }

  /** `getLanguageGridDimensions(channels)` */
  datatype Dimensions = Dimensions(columns: nat, rows: nat, totalItems: nat)

  /** `Math.ceil(a / b)` for a positive divisor. */
  function CeilDiv(a: nat, b: nat): nat
    requires b > 0
  {
    (a + b - 1) / b
  }

  function GridDimensions(channels: seq<Channel>): (r: Dimensions)
    ensures r.totalItems == |Languages(channels)| + 1
    ensures 1 <= r.columns <= MaxColumns && r.columns <= r.totalItems
  {
    var totalItems := |Languages(channels)| + 1;
    var columns := if MaxColumns < totalItems then MaxColumns else totalItems;
    Dimensions(columns, CeilDiv(totalItems, columns), totalItems)
  }

  /** One entry more than there are languages, at most four columns and at least one, and
      just enough rows to hold every entry. */
  lemma GridDimensionsBounds(channels: seq<Channel>)
    ensures var d := GridDimensions(channels);
      d.totalItems == |Languages(channels)| + 1 &&
      1 <= d.columns <= MaxColumns && d.columns <= d.totalItems &&
      (d.totalItems <= MaxColumns ==> d.columns == d.totalItems && d.rows == 1) &&
      (d.rows - 1) * d.columns < d.totalItems <= d.rows * d.columns
  {
    var d := GridDimensions(channels);
    CeilDivBounds(d.totalItems, d.columns);
  }

  lemma CeilDivBounds(a: nat, b: nat)
    requires b > 0
    ensures (CeilDiv(a, b) - 1) * b < a || a == 0
    ensures a <= CeilDiv(a, b) * b
    ensures 0 < a <= b ==> CeilDiv(a, b) == 1
  {
    var q, r := (a + b - 1) / b, (a + b - 1) % b;
    assert a + b - 1 == q * b + r;
  }

  /** The values of the rendered entries: '' for "All Languages", then the languages in
      sorted order. */
  function Options(channels: seq<Channel>): (r: seq<string>)
    ensures |r| == |Languages(channels)| + 1 && r[0] == ""
    ensures forall k :: 1 <= k < |r| ==> r[k] in Languages(channels)
  {
    [""] + SortStrings(Languages(channels))
  }

  /** After the "All Languages" entry come the playlist's languages, each once, in
      strictly increasing order; one entry per grid cell. */
  lemma OptionsOrder(channels: seq<Channel>)
    ensures var o := Options(channels);
      o[0] == "" && |o| == GridDimensions(channels).totalItems &&
      StrictlySorted(o[1..]) &&
      forall l :: l in o[1..] <==> exists i :: 0 <= i < |channels| && channels[i].language == l
  {
    assert Options(channels)[1..] == SortStrings(Languages(channels));
  }

  /** The entry the dropdown highlights: 0 without a selection, otherwise the sorted
      position of the selection plus one (0 again when no channel has that language). */
  function Highlight(channels: seq<Channel>, selected: string): nat
  {
    if selected == "" then 0 else IndexOf(SortStrings(Languages(channels)), selected) + 1
  }

  /** The highlighted entry is the selection's own entry, and the first entry when there
      is no selection or the selection is not offered. */
  lemma HighlightIsSelection(channels: seq<Channel>, selected: string)
    ensures var h := Highlight(channels, selected);
      h < |Options(channels)| &&
      (selected != "" && selected in Options(channels) ==> h >= 1 && Options(channels)[h] == selected) &&
      (selected == "" || selected !in Options(channels) ==> h == 0)
  {
    var sorted := SortStrings(Languages(channels));
    if selected != "" {
      assert selected in Options(channels) <==> selected in sorted;
      var k := IndexOf(sorted, selected);
      if k >= 0 {
        assert Options(channels)[k + 1] == sorted[k];
      }
    }
  }

  /** The index updateLanguageList leaves the dropdown at: the highlight while it is open,
      otherwise the index it had. */
  function ListedIndex(channels: seq<Channel>, selected: string, isInDropdown: bool, languageIndex: int): int
  {
    if isInDropdown && Highlight(channels, selected) != languageIndex then Highlight(channels, selected)
    else languageIndex
  }

  lemma ListedIndexFollowsDropdown(channels: seq<Channel>, selected: string, isInDropdown: bool, languageIndex: int)
    ensures isInDropdown ==> ListedIndex(channels, selected, isInDropdown, languageIndex) == Highlight(channels, selected)
    ensures !isInDropdown ==> ListedIndex(channels, selected, isInDropdown, languageIndex) == languageIndex
  {
  }

  /** `filterChannels(channels, selectedLanguage)` */
  function FilterChannels(channels: seq<Channel>, selected: string): (r: seq<Channel>)
    ensures |r| <= |channels|
    ensures forall c :: c in r ==> c in channels
    ensures selected != "" ==> forall c :: c in r ==> c.language == selected
  {
    if selected == "" then channels else Filter(channels, (c: Channel) => c.language == selected)
  }

  /** No selection keeps every channel; a selection keeps exactly the channels of that
      language, never more than there were. */
  lemma FilterChannelsMatches(channels: seq<Channel>, selected: string)
    ensures selected == "" ==> FilterChannels(channels, selected) == channels
    ensures |FilterChannels(channels, selected)| <= |channels|
    ensures selected != "" ==>
      forall c :: c in FilterChannels(channels, selected) <==> c in channels && c.language == selected
  {
  }

  /** Filtering the filtered list again by the same selection changes nothing. */
  lemma FilterChannelsIdempotent(channels: seq<Channel>, selected: string)
    ensures FilterChannels(FilterChannels(channels, selected), selected) == FilterChannels(channels, selected)
  {
    if selected != "" {
      FilterIdempotent(channels, (c: Channel) => c.language == selected);
    }
  }
}
