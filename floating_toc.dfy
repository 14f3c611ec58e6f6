/** The floating table of contents: the reading-progress figure, the scroll spy that
    picks the highlighted heading, the auto-scroll of the list towards it, and the
    guard that hides the panel when the page has no headings. */
module FloatingToc {
  import opened Js

  // ---------------------------------------------------------------------------
  // Reading progress

  /** `updateProgress`: the share of the scrollable height above the viewport, as a
      percentage capped at 100; 0 when the page does not scroll. */
  function ReadingProgress(scrollY: real, scrollHeight: real, innerHeight: real): (r: real)
  {
    var docHeight := scrollHeight - innerHeight;
    if docHeight > 0.0 then
      (var p := scrollY / docHeight * 100.0; if p < 100.0 then p else 100.0)
    else 0.0
  }

  /** The figure never passes 100 and is 0 on a page that does not scroll; at or past
      the bottom it is exactly 100. It is not clamped below: it is negative exactly
      when the scroll position is (an overscroll bounce), and otherwise within
      0..100. */
  lemma ReadingProgressBounds(scrollY: real, scrollHeight: real, innerHeight: real)
    ensures ReadingProgress(scrollY, scrollHeight, innerHeight) <= 100.0
    ensures scrollHeight - innerHeight <= 0.0 ==> ReadingProgress(scrollY, scrollHeight, innerHeight) == 0.0
    ensures scrollHeight - innerHeight > 0.0
            ==> (ReadingProgress(scrollY, scrollHeight, innerHeight) == 100.0 <==> scrollY >= scrollHeight - innerHeight)
    ensures scrollHeight - innerHeight > 0.0
            ==> (ReadingProgress(scrollY, scrollHeight, innerHeight) < 0.0 <==> scrollY < 0.0)
  {
    var d := scrollHeight - innerHeight;
    if d > 0.0 {
      var q := scrollY / d;
      assert q * d == scrollY;
      if scrollY >= d {
        assert q >= 1.0;
      } else {
        assert q < 1.0;
      }
      if scrollY < 0.0 {
        assert q < 0.0;
      } else {
        assert q >= 0.0;
      }
    }
  }

  /** Scrolling further down never lowers the figure. */
  lemma ReadingProgressMonotone(y1: real, y2: real, scrollHeight: real, innerHeight: real)
    requires y1 <= y2
    ensures ReadingProgress(y1, scrollHeight, innerHeight) <= ReadingProgress(y2, scrollHeight, innerHeight)
  {
    var d := scrollHeight - innerHeight;
    if d > 0.0 {
      assert y2 / d - y1 / d == (y2 - y1) / d;
      assert (y2 - y1) / d >= 0.0;
    }
  }

  // ---------------------------------------------------------------------------
  // The scroll spy

  /** A heading element: its `data-id` attribute (possibly absent) and the top and
      bottom of its bounding box relative to the viewport. */
  datatype Heading = Heading(dataId: Option<string>, top: real, bottom: real)

  /** An entry of the `notion-h` collection: a heading element, or an entry that is
      not an Element and is skipped. */
  datatype Node = Other | H(h: Heading)

  /** The headings of a collection, in order. */
  function Headings(nodes: seq<Node>): (hs: seq<Heading>)
    ensures |hs| <= |nodes|
  {
    if nodes == [] then []
    else (match nodes[0] case Other => [] case H(h) => [h]) + Headings(nodes[1..])
  }

  /** How far above the viewport top a heading must be to count as passed: 150, or a
      quarter of its distance from the previous passed heading when that is larger. */
  function Offset(prevBottom: Option<real>, top: real): (o: real)
    ensures o >= 150.0
    ensures prevBottom.None? ==> o == 150.0
    ensures prevBottom.Some? ==> o >= (top - prevBottom.value) / 4.0
    ensures o == 150.0 || (prevBottom.Some? && o == (top - prevBottom.value) / 4.0)
  {
    var gap := if prevBottom.Some? then top - prevBottom.value else 0.0;
    if gap / 4.0 > 150.0 then gap / 4.0 else 150.0
  }

  /** A heading passes when its top is more than its offset above the viewport. */
  predicate Passes(h: Heading, prevBottom: Option<real>)
  {
    h.top - Offset(prevBottom, h.top) < 0.0
  }

  /** The scan as the listener performs it, from id `current` and the bottom of the
      last passed heading: each passing heading becomes current; at the first heading
      that does not pass, the scan stops, keeping the current id unless that is
      falsy, in which case the stopping heading's id is taken. */
  function Spy(nodes: seq<Node>, current: Option<string>, prevBottom: Option<real>): Option<string>
    decreases |nodes|
  {
    if nodes == [] then current
    else match nodes[0]
      case Other => Spy(nodes[1..], current, prevBottom)
      case H(h) =>
        var cur := if TruthyString(current) then current else h.dataId;
        if Passes(h, prevBottom) then Spy(nodes[1..], h.dataId, Some(h.bottom)) else cur
  }

  /** The bottom the offset of heading j is measured from. */
  function PrevBottom(hs: seq<Heading>, j: nat, prev0: Option<real>): Option<real>
    requires j < |hs|
  {
    if j == 0 then prev0 else Some(hs[j - 1].bottom)
  }

  /** Heading j passes, measured from the heading before it. */
  predicate PassesAt(hs: seq<Heading>, j: nat, prev0: Option<real>)
    requires j < |hs|
  {
    Passes(hs[j], PrevBottom(hs, j, prev0))
  }

  /** The run of passing headings is exactly the first k. */
  predicate PassedPrefix(hs: seq<Heading>, k: nat, prev0: Option<real>)
  {
    && k <= |hs|
    && (forall j :: 0 <= j < k ==> PassesAt(hs, j, prev0))
    && (k < |hs| ==> !PassesAt(hs, k, prev0))
  }

  /** The id chosen once the first k headings have passed: the last of them (or the
      starting id when k is 0), replaced by heading k's id when it is falsy and the
      scan stopped at heading k. */
  function Chosen(hs: seq<Heading>, current: Option<string>, k: nat): Option<string>
    requires k <= |hs|
  {
    var last := if k == 0 then current else hs[k - 1].dataId;
    if k == |hs| || TruthyString(last) then last else hs[k].dataId
  }

  /** The scan chooses by the run of passing headings: non-Element entries play no
      part, and with headings 0..k-1 passing and heading k not, the result is
      `Chosen(…, k)`. */
  lemma {:induction false} SpyChoosesByPassedPrefix(nodes: seq<Node>, current: Option<string>, prev0: Option<real>, k: nat)
    requires PassedPrefix(Headings(nodes), k, prev0)
    ensures Spy(nodes, current, prev0) == Chosen(Headings(nodes), current, k)
    decreases |nodes|
  {
    var hs := Headings(nodes);
    if nodes != [] {
      var rest := Headings(nodes[1..]);
      match nodes[0]
      case Other =>
        assert hs == rest;
        SpyChoosesByPassedPrefix(nodes[1..], current, prev0, k);
      case H(h) =>
        assert hs == [h] + rest;
        assert hs[0] == h;
        if k > 0 {
          assert PassesAt(hs, 0, prev0);
          forall j | 0 <= j < k - 1 ensures PassesAt(rest, j, Some(h.bottom)) {
            assert PassesAt(hs, j + 1, prev0);
            assert hs[j + 1] == rest[j];
            assert PrevBottom(hs, j + 1, prev0) == PrevBottom(rest, j, Some(h.bottom));
          }
          if k - 1 < |rest| {
            assert !PassesAt(hs, k, prev0);
            assert hs[k] == rest[k - 1];
            assert PrevBottom(hs, k, prev0) == PrevBottom(rest, k - 1, Some(h.bottom));
          }
          SpyChoosesByPassedPrefix(nodes[1..], h.dataId, Some(h.bottom), k - 1);
          if k > 1 {
            assert hs[k - 1] == rest[k - 2];
          }
        } else {
          assert !PassesAt(hs, 0, prev0);
        }
    }
  }

  /** The length of the run of passing headings. */
  function PassedCount(hs: seq<Heading>, prev0: Option<real>): (k: nat)
    ensures PassedPrefix(hs, k, prev0)
    decreases |hs|
  {
    if hs == [] || !Passes(hs[0], prev0) then 0
    else
      var k' := PassedCount(hs[1..], Some(hs[0].bottom));
      assert forall j :: 0 <= j < k' ==> PassesAt(hs[1..], j, Some(hs[0].bottom));
      assert forall j :: 1 <= j < k' + 1 ==> hs[j] == hs[1..][j - 1] && PassesAt(hs[1..], j - 1, Some(hs[0].bottom));
      assert k' < |hs[1..]| ==> hs[k' + 1] == hs[1..][k'];
      1 + k'
  }

  /** Started from null, as the listener registered at mount always is: with no
      headings the result is null; when the first heading does not pass, it is the
      first heading's id; otherwise the last passing heading's id (or, if that is
      falsy and some heading did not pass, the first non-passing one's). */
  lemma SpyFromNull(nodes: seq<Node>)
    ensures Headings(nodes) == [] ==> Spy(nodes, None, None) == None
    ensures Headings(nodes) != [] && !Passes(Headings(nodes)[0], None)
            ==> Spy(nodes, None, None) == Headings(nodes)[0].dataId
    ensures Spy(nodes, None, None) == Chosen(Headings(nodes), None, PassedCount(Headings(nodes), None))
  {
    var k := PassedCount(Headings(nodes), None);
    SpyChoosesByPassedPrefix(nodes, None, None, k);
  }

  /** `actionSectionScrollSpy`'s loop over the collection. */
  method ScrollSpy(nodes: seq<Node>, initial: Option<string>) returns (id: Option<string>)
    ensures id == Spy(nodes, initial, None)
  {
    var prevBottom: Option<real> := None;
    var current := initial;
    var i := 0;
    while i < |nodes|
      invariant 0 <= i <= |nodes|
      invariant Spy(nodes[i..], current, prevBottom) == Spy(nodes, initial, None)
      decreases |nodes| - i
    {
      assert nodes[i..][1..] == nodes[i + 1..];
      match nodes[i]
      case Other =>
        i := i + 1;
      case H(h) =>
        if !TruthyString(current) {
          current := h.dataId;
        }
        if h.top - Offset(prevBottom, h.top) < 0.0 {
          current := h.dataId;
          prevBottom := Some(h.bottom);
          i := i + 1;
        } else {
          break;
        }
    }
    id := current;
  }

  // ---------------------------------------------------------------------------
  // Auto-scroll of the list

  /** `ids.indexOf(x)`: the first position holding x, or -1 (a null id is never found). */
  function IndexOf(ids: seq<string>, x: Option<string>): (r: int)
    ensures -1 <= r < |ids|
    ensures r >= 0 ==> x == Some(ids[r]) && forall j :: 0 <= j < r ==> x != Some(ids[j])
    ensures r == -1 ==> forall j :: 0 <= j < |ids| ==> x != Some(ids[j])
    decreases |ids|
  {
    if ids == [] then -1
    else if x == Some(ids[0]) then 0
    else
      var t := IndexOf(ids[1..], x);
      assert forall j :: 1 <= j < |ids| ==> ids[j] == ids[1..][j - 1];
      if t == -1 then -1 else t + 1
  }

  /** JavaScript's `i || 0` on a number: 0 is falsy, so 0 becomes 0. */
  function OrZero(i: int): int
  {
    if i == 0 then 0 else i
  }

  /** The `scrollTo` target of the list, or nothing when the list is not mounted or
      there are no ids. */
  function AutoScrollTop(ids: seq<string>, current: Option<string>, listMounted: bool): Option<int>
  {
    if listMounted && |ids| > 0 then Some(32 * OrZero(IndexOf(ids, current)) - 60) else None
  }

  /** The list scrolls only when mounted with at least one id; it puts the entry at
      the first position holding the id 60 pixels below the top, and when the id is
      not in the list (or is null), `|| 0` does not rescue the -1, so the target is
      -92. */
  lemma AutoScrollTarget(ids: seq<string>, current: Option<string>, listMounted: bool, j: nat)
    ensures AutoScrollTop(ids, current, listMounted).Some? <==> listMounted && |ids| > 0
    ensures listMounted && j < |ids| && current == Some(ids[j]) && (forall i :: 0 <= i < j ==> ids[i] != ids[j])
            ==> AutoScrollTop(ids, current, listMounted) == Some(32 * j - 60)
    ensures listMounted && |ids| > 0 && (forall i :: 0 <= i < |ids| ==> current != Some(ids[i]))
            ==> AutoScrollTop(ids, current, listMounted) == Some(-92)
  {
    var r := IndexOf(ids, current);
  }

  // ---------------------------------------------------------------------------
  // The table of contents and the empty guard

  /** A table-of-contents entry as the page supplies it; only the block id matters here. */
  datatype TocItem = TocItem(id: string)

  /** The ids the list links to, from a toc that is null/undefined (`None`) or a list;
      `None` when the panel renders nothing. `toId` is the page library's `uuidToId`. */
  function TocIds(toc: Option<seq<TocItem>>, toId: string -> string): (r: Option<seq<string>>)
    ensures r.None? <==> toc.None? || |toc.value| < 1
    ensures r.Some? ==> |r.value| == |toc.value| && forall i :: 0 <= i < |r.value| ==> r.value[i] == toId(toc.value[i].id)
  {
    if toc.None? || |toc.value| < 1 then None
    else Some(seq(|toc.value|, i requires 0 <= i < |toc.value| => toId(toc.value[i].id)))
  }

  /** The scroll position and the heading elements as the listeners read them. */
  datatype Page = Page(nodes: seq<Node>, scrollY: real, scrollHeight: real, innerHeight: real)

  class TocWidget {
    // React state
    var activeSection: Option<string>
    var progress: real
    var isExpanded: bool
    // `tocIds.current`
    var tocIds: seq<string>
    // The panel rendered something, and the list element behind `tRef` exists
    var rendered: bool
    var listMounted: bool
    // The last `scrollTo` target given to the list, if any
    var listScroll: Option<int>

    /** The list element exists exactly when the panel is rendered and expanded. */
    predicate Valid()
      reads this`rendered, this`isExpanded, this`listMounted
    {
      listMounted == (rendered && isExpanded)
    }

    /** A render with the given toc: the guard hides the panel (leaving `tocIds` as it
        was) or the ids are rebuilt. */
    method Render(toc: Option<seq<TocItem>>, toId: string -> string)
      modifies this`tocIds, this`rendered, this`listMounted
      ensures Valid()
      ensures rendered == TocIds(toc, toId).Some?
      ensures tocIds == if rendered then TocIds(toc, toId).value else old(tocIds)
    {
      var ids := TocIds(toc, toId);
      if ids.None? {
        rendered := false;
      } else {
        tocIds := ids.value;
        rendered := true;
      }
      listMounted := rendered && isExpanded;
    }

    /** The scroll spy listener. It was registered at mount, so it reads the initial
        `activeSection` (null) whatever the state holds now; it then scrolls the list. */
    method SpyListener(page: Page)
      requires Valid()
      modifies this`activeSection, this`listScroll
      ensures activeSection == Spy(page.nodes, None, None)
      ensures var target := AutoScrollTop(tocIds, activeSection, listMounted);
              listScroll == if target.Some? then target else old(listScroll)
    {
      var id := ScrollSpy(page.nodes, None);
      activeSection := id;
      var target := AutoScrollTop(tocIds, id, listMounted);
      if target.Some? {
        listScroll := target;
      }
    }

    /** The progress listener. */
    method ProgressListener(page: Page)
      modifies this`progress
      ensures progress == ReadingProgress(page.scrollY, page.scrollHeight, page.innerHeight)
      ensures progress <= 100.0
    {
      ReadingProgressBounds(page.scrollY, page.scrollHeight, page.innerHeight);
      progress := ReadingProgress(page.scrollY, page.scrollHeight, page.innerHeight);
    }

    /** Mount: the first render with the initial state, then the mount effect runs
        both listeners once. */
    constructor (toc: Option<seq<TocItem>>, toId: string -> string, page: Page)
      ensures Valid() && isExpanded
      ensures rendered == TocIds(toc, toId).Some?
      ensures tocIds == if rendered then TocIds(toc, toId).value else []
      ensures activeSection == Spy(page.nodes, None, None)
      ensures progress == ReadingProgress(page.scrollY, page.scrollHeight, page.innerHeight)
      ensures listScroll == AutoScrollTop(tocIds, activeSection, listMounted)
    {
      activeSection, progress, isExpanded := None, 0.0, true;
      tocIds, listScroll := [], None;
      rendered, listMounted := false, false;
      new;
      Render(toc, toId);
      SpyListener(page);
      ProgressListener(page);
    }

    /** The toggle button flips the panel; the re-render with the same toc mounts or
        drops the list. */
    method Toggle()
      requires Valid() && rendered
      modifies this`isExpanded, this`listMounted
      ensures Valid() && isExpanded == !old(isExpanded)
      ensures listMounted == isExpanded
    {
      isExpanded := !isExpanded;
      listMounted := rendered && isExpanded;
    }
  }

  /** The highlighted heading is not kept across scrolls: once the reader scrolls
      back above every heading, the first heading is highlighted, whichever was
      before. */
  method SpyRestartsFromNull() returns (w: TocWidget, before: Option<string>)
    ensures before == Some("usage") && w.activeSection == Some("intro")
  {
    var toc := Some([TocItem("intro"), TocItem("usage")]);
    var toId := (s: string) => s;
    var a := Heading(Some("intro"), -400.0, -300.0);
    var b := Heading(Some("usage"), -200.0, 300.0);
    var nodes := [H(a), H(b)];
    assert nodes[1..] == [H(b)] && nodes[1..][1..] == [];
    assert Passes(a, None) && Passes(b, Some(a.bottom));
    assert Spy(nodes[1..][1..], b.dataId, Some(b.bottom)) == Some("usage");
    assert Spy(nodes[1..], a.dataId, Some(a.bottom)) == Some("usage");
    assert Spy(nodes, None, None) == Some("usage");
    w := new TocWidget(toc, toId, Page(nodes, 900.0, 3000.0, 800.0));
    before := w.activeSection;
    var a' := Heading(Some("intro"), 400.0, 500.0);
    var b' := Heading(Some("usage"), 600.0, 1100.0);
    var later := [Other, H(a'), H(b')];
    assert later[1..] == [H(a'), H(b')] && !Passes(a', None);
    w.SpyListener(Page(later, 100.0, 3000.0, 800.0));
  }
}
