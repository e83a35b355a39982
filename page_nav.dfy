/**
 * ymt/js/pageNav.js: the about and settings pages' menu. Up and Down move the selection
 * round a ring of menu items and Enter follows the selected item's label to a page. The
 * items' `selected` classes are modelled as one flag per item; the label of an item is
 * the text of its last `span`.
 */
module PageNav {
  import opened JsBuiltins

  // ---------------------------------------------------------------------------
  // The selection marks
  // ---------------------------------------------------------------------------

  /** The flags updateSelectedNav leaves: only item `i` of `n` is selected. */
  function Marks(n: nat, i: int): (r: seq<bool>)
    ensures |r| == n
  {
    seq(n, j => j == i)
  }

  /** How many flags are set. */
  function CountTrue(s: seq<bool>): nat
    decreases |s|
  {
    if s == [] then 0 else CountTrue(s[..|s| - 1]) + (if s[|s| - 1] then 1 else 0)
  }

  lemma {:induction false} NoneSet(s: seq<bool>)
    requires forall j :: 0 <= j < |s| ==> !s[j]
    ensures CountTrue(s) == 0
    decreases |s|
  {
    if s != [] {
      NoneSet(s[..|s| - 1]);
    }
  }

  /** With the index in range exactly one item is marked, and it is the item at the
      index; with the index out of range none is. */
  lemma {:induction false} ExactlyOneSelected(n: nat, i: int)
    ensures 0 <= i < n ==> CountTrue(Marks(n, i)) == 1 && Marks(n, i)[i]
    ensures !(0 <= i < n) ==> CountTrue(Marks(n, i)) == 0
    decreases n
  {
    if n == 0 {
    } else {
      var m := Marks(n, i);
      assert m[..n - 1] == Marks(n - 1, i);
      if i == n - 1 {
        NoneSet(Marks(n - 1, i));
      } else {
        ExactlyOneSelected(n - 1, i);
      }
    }
  }

  // ---------------------------------------------------------------------------
  // The index
  // ---------------------------------------------------------------------------

  /** The index chosen on load: the last item already marked, otherwise 0. */
  function InitialIndex(marked: seq<bool>): (r: nat)
    ensures r == 0 || r < |marked|
    ensures (exists j :: 0 <= j < |marked| && marked[j]) ==> r < |marked| && marked[r]
    ensures forall j :: r < j < |marked| ==> !marked[j]
    ensures (forall j :: 0 <= j < |marked| ==> !marked[j]) ==> r == 0
    decreases |marked|
  {
    if marked == [] then 0
    else if marked[|marked| - 1] then |marked| - 1
    else
      var r := InitialIndex(marked[..|marked| - 1]);
      assert forall j :: 0 <= j < |marked| - 1 ==> marked[..|marked| - 1][j] == marked[j];
      r
  }

  /** ArrowDown: the next item, the first after the last. */
  function Down(i: int, n: nat): (r: int)
    ensures n == 0 ==> r == i
    ensures n > 0 ==> 0 <= r < n
  {
    if n == 0 then i else (i + 1) % n
  }

  /** ArrowUp: the previous item, the last before the first. */
  function Up(i: int, n: nat): (r: int)
    ensures n == 0 ==> r == i
    ensures n > 0 ==> 0 <= r < n
  {
    if n == 0 then i else (i - 1 + n) % n
  }

  /** The remainder of a value in [0, 2n) by n, without nonlinear reasoning. */
  lemma ModOnce(a: int, n: int)
    requires 0 < n && 0 <= a < 2 * n
    ensures a % n == if a < n then a else a - n
  {
    if a < n {
      assert a == 0 * n + a;
    } else {
      assert a == 1 * n + (a - n);
    }
  }

  /** Both moves keep an index in range; Up undoes Down and Down undoes Up; Down steps
      forward by one except from the last item, which goes to the first. */
  lemma UpDownInverse(i: int, n: nat)
    requires 0 <= i < n
    ensures 0 <= Down(i, n) < n && 0 <= Up(i, n) < n
    ensures Up(Down(i, n), n) == i && Down(Up(i, n), n) == i
    ensures Down(i, n) == if i == n - 1 then 0 else i + 1
    ensures Up(i, n) == if i == 0 then n - 1 else i - 1
  {
    ModOnce(i + 1, n);
    ModOnce(i - 1 + n, n);
    var d, u := Down(i, n), Up(i, n);
    ModOnce(d - 1 + n, n);
    ModOnce(u + 1, n);
  }

  /** k presses of Down, one after another. */
  function DownTimes(i: int, n: nat, k: nat): int
  {
    if k == 0 then i else Down(DownTimes(i, n, k - 1), n)
  }

  /** Up to n presses of Down move k items forward round the ring. */
  lemma {:induction false} DownSteps(i: int, n: nat, k: nat)
    requires 0 <= i < n && k <= n
    ensures DownTimes(i, n, k) == if i + k < n then i + k else i + k - n
    decreases k
  {
    if k > 0 {
      DownSteps(i, n, k - 1);
      UpDownInverse(DownTimes(i, n, k - 1), n);
    }
  }

  /** n presses of Down bring the selection back where it started. */
  lemma FullCircle(i: int, n: nat)
    requires 0 <= i < n
    ensures DownTimes(i, n, n) == i
  {
    DownSteps(i, n, n);
  }

  // ---------------------------------------------------------------------------
  // Enter
  // ---------------------------------------------------------------------------

  /** The page a label leads to, compared in lower case; other labels lead nowhere. */
  function PageFor(text: string): Option<string>
  {
    var l := AsciiLower(text);
    if l == "home" then Some("index.html")
    else if l == "language" || l == "category" then Some("player.html")
    else if l == "about" then Some("about.html")
    else if l == "settings" then Some("settings.html")
    else if l == "aatral tv" then Some("aatral-tv/aatral-tv.html")
    else None
  }

  /** The menu labels that lead somewhere, and the pages, in the source's table. */
  const Table: seq<(string, string)> := [
    ("home", "index.html"), ("language", "player.html"), ("category", "player.html"),
    ("about", "about.html"), ("settings", "settings.html"), ("aatral tv", "aatral-tv/aatral-tv.html")]

  /** A label leads to a page exactly when its lower-case form is in the table, and then
      to that entry's page; 'language' and 'category' both open the player. */
  lemma PageForTable(text: string)
    ensures PageFor(text).Some? <==> exists k :: 0 <= k < |Table| && Table[k].0 == AsciiLower(text)
    ensures forall k :: 0 <= k < |Table| && Table[k].0 == AsciiLower(text) ==> PageFor(text) == Some(Table[k].1)
  {
    var l := AsciiLower(text);
    if PageFor(text).Some? {
      if l == "home" { assert Table[0].0 == l; }
      else if l == "language" { assert Table[1].0 == l; }
      else if l == "category" { assert Table[2].0 == l; }
      else if l == "about" { assert Table[3].0 == l; }
      else if l == "settings" { assert Table[4].0 == l; }
      else { assert Table[5].0 == l; }
    }
  }

  // ---------------------------------------------------------------------------
  // The handler
  // ---------------------------------------------------------------------------

  /** The handler's state: the closure's index and the items' flags. */
  datatype Menu = Menu(selectedIndex: int, marks: seq<bool>)

  /** The menu after a keydown and the page it leads to, if any. An empty menu has no
      item to read a label from, so Enter does nothing. */
  function KeyDown(m: Menu, labels: seq<string>, key: string): (r: (Menu, Option<string>))
    ensures r.1.Some? ==> key == "Enter" && r.0 == m && 0 <= m.selectedIndex < |labels|
    ensures key != "ArrowDown" && key != "ArrowUp" ==> r.0 == m
    ensures (key == "ArrowDown" || key == "ArrowUp") && |labels| > 0 ==>
      0 <= r.0.selectedIndex < |labels| && |r.0.marks| == |labels| && r.0.marks[r.0.selectedIndex]
  {
    var n := |labels|;
    if key == "ArrowDown" then (Menu(Down(m.selectedIndex, n), Marks(n, Down(m.selectedIndex, n))), None)
    else if key == "ArrowUp" then (Menu(Up(m.selectedIndex, n), Marks(n, Up(m.selectedIndex, n))), None)
    else if key == "Enter" && 0 <= m.selectedIndex < n then (m, PageFor(labels[m.selectedIndex]))
    else (m, None)
  }

  /** The menu as loaded, before any key. */
  function Loaded(marked: seq<bool>): Menu
  {
    Menu(InitialIndex(marked), marked)
  }

  /** What stays true from load on: the index is in range whenever there are items, and
      the flags are one per item. */
  predicate InRange(m: Menu, n: nat)
  {
    (n > 0 ==> 0 <= m.selectedIndex < n) && |m.marks| == n
  }

  /** Every key keeps the index in range; after an arrow exactly the selected item is
      marked; only Enter leads anywhere, and then to the selected item's page. */
  lemma KeyDownKeepsInRange(m: Menu, labels: seq<string>, key: string)
    requires InRange(m, |labels|)
    ensures InRange(KeyDown(m, labels, key).0, |labels|)
    ensures key in {"ArrowDown", "ArrowUp"} && |labels| > 0 ==>
      var m' := KeyDown(m, labels, key).0;
      CountTrue(m'.marks) == 1 && m'.marks[m'.selectedIndex]
    ensures KeyDown(m, labels, key).1.Some? ==>
      key == "Enter" && KeyDown(m, labels, key).1 == PageFor(labels[m.selectedIndex])
  {
    var n := |labels|;
    if n > 0 {
      UpDownInverse(m.selectedIndex, n);
      ExactlyOneSelected(n, KeyDown(m, labels, key).0.selectedIndex);
    }
  }

  lemma LoadedInRange(marked: seq<bool>)
    ensures InRange(Loaded(marked), |marked|)
  {
  }

  /** The keydown listener's closure over the menu items. */
  class PageMenu {
    const labels: seq<string>
    var selectedIndex: int
    var marks: seq<bool>

    function State(): Menu
      reads this
    {
      Menu(selectedIndex, marks)
    }

    /** DOMContentLoaded: scan the items for the last one already marked. */
    constructor (labels: seq<string>, marked: seq<bool>)
      requires |marked| == |labels|
      ensures this.labels == labels
      ensures State() == Loaded(marked)
    {
      this.labels := labels;
      marks := marked;
      var index := 0;
      var j := 0;
      while j < |marked|
        invariant 0 <= j <= |marked|
        invariant index == InitialIndex(marked[..j])
      {
        assert marked[..j + 1][..j] == marked[..j];
        if marked[j] {
          index := j;
        }
        j := j + 1;
      }
      assert marked[..j] == marked;
      selectedIndex := index;
    }

    /** updateSelectedNav: mark the selected item and clear every other. */
    method UpdateSelectedNav()
      modifies this
      ensures selectedIndex == old(selectedIndex)
      ensures marks == Marks(|labels|, selectedIndex)
    {
      var m: seq<bool> := [];
      var j := 0;
      while j < |labels|
        invariant 0 <= j <= |labels|
        invariant m == Marks(j, selectedIndex)
      {
        m := m + [j == selectedIndex];
        j := j + 1;
      }
      marks := m;
    }

    /** The keydown listener; the page it returns is assigned to `window.location.href`. */
    method HandleKey(key: string) returns (href: Option<string>)
      modifies this
      ensures (State(), href) == KeyDown(old(State()), labels, key)
    {
      href := None;
      if key == "ArrowDown" {
        selectedIndex := Down(selectedIndex, |labels|);
        UpdateSelectedNav();
      } else if key == "ArrowUp" {
        selectedIndex := Up(selectedIndex, |labels|);
        UpdateSelectedNav();
      } else if key == "Enter" && 0 <= selectedIndex < |labels| {
        href := PageFor(labels[selectedIndex]);
      }
    }
  }
}
