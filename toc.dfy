/**
 The table-of-contents scroll spy of the documentation site.

 On page load the script finds the TOC container, collects its fragment links
 and the headings of the content region, and, when both are non-empty, installs
 a scroll handler and runs it once. The handler picks the last heading (in
 document order) whose top offset is at most `scrollY + 100` and, when that
 heading's id is non-empty, marks active exactly the links whose hash is `#`
 followed by that id; otherwise no link stays active.

 The DOM is abstracted: the heading elements are a fixed sequence of ids whose
 `offsetTop` values are read afresh at every event, the links an array of
 (hash, active) records whose `active` flag stands for the `active` class, and
 the presence of the TOC container a boolean.
 */
module Toc {

  datatype Option<T> = None | Some(value: T)

  /** A heading of the content region: its `id` and its `offsetTop`. */
  datatype Heading = Heading(id: string, offsetTop: int)

  /** A TOC link: its `hash` and whether it carries the `active` class. */
  datatype Link = Link(hash: string, active: bool)

  /** The fixed lookahead added to the scroll offset. */
  const LookaheadBias := 100

  function ScrollPos(scrollY: int): int {
    scrollY + LookaheadBias
  }

  /** A heading counts as reached once its top is at or above the scroll position. */
  predicate Reached(h: Heading, scrollY: int) {
    h.offsetTop <= ScrollPos(scrollY)
  }

  /** Reference definition: `k` is the greatest index whose heading is reached. */
  predicate IsCurrentIndex(headings: seq<Heading>, scrollY: int, k: int) {
    && 0 <= k < |headings|
    && Reached(headings[k], scrollY)
    && forall j :: k < j < |headings| ==> !Reached(headings[j], scrollY)
  }

  /** The index of the heading the scan settles on, counted from the end. */
  function CurrentIndex(headings: seq<Heading>, scrollY: int): (r: Option<nat>)
    ensures r.Some? ==> IsCurrentIndex(headings, scrollY, r.value)
    ensures r.None? ==> forall j :: 0 <= j < |headings| ==> !Reached(headings[j], scrollY)
    decreases |headings|
  {
    if |headings| == 0 then None
    else if Reached(headings[|headings| - 1], scrollY) then Some(|headings| - 1)
    else CurrentIndex(headings[..|headings| - 1], scrollY)
  }

  /** The value of `currentId` once the heading scan is done (`None` stands for `null`). */
  function CurrentId(headings: seq<Heading>, scrollY: int): Option<string> {
    match CurrentIndex(headings, scrollY)
    case Some(k) => Some(headings[k].id)
    case None => None
  }

  /** JavaScript truthiness of `currentId`: neither `null` nor the empty string. */
  predicate Truthy(currentId: Option<string>) {
    currentId.Some? && currentId.value != ""
  }

  /** The condition under which a link gets the `active` class back. */
  predicate MarksActive(hash: string, currentId: Option<string>) {
    Truthy(currentId) && hash == "#" + currentId.value
  }

  /** The links after the marking loop: every flag recomputed from the hash alone. */
  function Mark(links: seq<Link>, currentId: Option<string>): seq<Link> {
    seq(|links|, i requires 0 <= i < |links| =>
      Link(links[i].hash, MarksActive(links[i].hash, currentId)))
  }

  /** The whole effect of one run of the scroll handler on the links. */
  function Recompute(headings: seq<Heading>, links: seq<Link>, scrollY: int): seq<Link> {
    Mark(links, CurrentId(headings, scrollY))
  }

  /** The headings as laid out at one moment: the fixed ids with their current offsets. */
  function Layout(ids: seq<string>, offsets: seq<int>): seq<Heading>
    requires |offsets| == |ids|
  {
    seq(|ids|, i requires 0 <= i < |ids| => Heading(ids[i], offsets[i]))
  }

  function Hashes(links: seq<Link>): seq<string> {
    seq(|links|, i requires 0 <= i < |links| => links[i].hash)
  }

  // ---------------------------------------------------------------------------
  // The scroll handler, step by step
  // ---------------------------------------------------------------------------

  /** The heading scan: `currentId` is reassigned for every reached heading. */
  method ScanHeadings(headings: seq<Heading>, scrollY: int) returns (currentId: Option<string>)
    ensures currentId == CurrentId(headings, scrollY)
  {
    var scrollPos := ScrollPos(scrollY);
    currentId := None;
    var i := 0;
    while i < |headings|
      invariant 0 <= i <= |headings|
      invariant currentId == CurrentId(headings[..i], scrollY)
    {
      if headings[i].offsetTop <= scrollPos {
        currentId := Some(headings[i].id);
      }
      assert headings[..i + 1][..i] == headings[..i];
      i := i + 1;
    }
    assert headings[..|headings|] == headings;
  }

  /** The marking loop: each link loses `active`, then regains it on an exact hash match. */
  method MarkLinks(links: array<Link>, currentId: Option<string>)
    modifies links
    ensures links[..] == Mark(old(links[..]), currentId)
  {
    var i := 0;
    while i < links.Length
      invariant 0 <= i <= links.Length
      invariant forall k :: 0 <= k < i ==>
        links[k] == Link(old(links[k]).hash, MarksActive(old(links[k]).hash, currentId))
      invariant forall k :: i <= k < links.Length ==> links[k] == old(links[k])
    {
      links[i] := links[i].(active := false);
      if currentId.Some? && currentId.value != "" && links[i].hash == "#" + currentId.value {
        links[i] := links[i].(active := true);
      }
      i := i + 1;
    }
  }

  /** `setActiveLink`: scan the headings, then update the links' flags in place. */
  method SetActiveLink(headings: seq<Heading>, links: array<Link>, scrollY: int)
    modifies links
    ensures links[..] == Recompute(headings, old(links[..]), scrollY)
  {
    var currentId := ScanHeadings(headings, scrollY);
    MarkLinks(links, currentId);
  }

  // ---------------------------------------------------------------------------
  // Installation on page load
  // ---------------------------------------------------------------------------

  /**
   The page as the load handler sees it, and whether the scroll handler is installed.
   The heading elements (their ids) are captured once; their offsets are layout
   state that each event reads anew, so they are a parameter of each event.
   */
  class ScrollSpy {
    const tocFound: bool
    const ids: seq<string>
    const links: array<Link>
    var listening: bool

    constructor (tocFound: bool, ids: seq<string>, links: array<Link>)
      ensures this.tocFound == tocFound && this.ids == ids && this.links == links
      ensures !listening
    {
      this.tocFound := tocFound;
      this.ids := ids;
      this.links := links;
      listening := false;
    }

    /** The guard of the load handler: a TOC, at least one link and one heading. */
    predicate CanSpy()
      reads this
    {
      tocFound && links.Length != 0 && |ids| != 0
    }

    /** The `DOMContentLoaded` handler, given the headings' offsets at load time. */
    method OnContentLoaded(scrollY: int, offsets: seq<int>)
      requires |offsets| == |ids|
      modifies this`listening, links
      ensures listening == (old(listening) || CanSpy())
      ensures CanSpy() ==> links[..] == Recompute(Layout(ids, offsets), old(links[..]), scrollY)
      ensures !CanSpy() ==> links[..] == old(links[..])
    {
      if !tocFound {
        return;
      }
      if links.Length == 0 || |ids| == 0 {
        return;
      }
      listening := true;
      SetActiveLink(Layout(ids, offsets), links, scrollY);
    }

    /**
     A scroll event, given the headings' offsets at that moment: it reaches
     `setActiveLink` only once the handler is installed.
     */
    method OnScroll(scrollY: int, offsets: seq<int>)
      requires |offsets| == |ids|
      modifies links
      ensures listening ==> links[..] == Recompute(Layout(ids, offsets), old(links[..]), scrollY)
      ensures !listening ==> links[..] == old(links[..])
    {
      if listening {
        SetActiveLink(Layout(ids, offsets), links, scrollY);
      }
    }
  }

  // ---------------------------------------------------------------------------
  // Properties of the selection rule
  // ---------------------------------------------------------------------------

  /** The scan's result is exactly the reference definition: last reached index, or none. */
  lemma CurrentIndexIff(headings: seq<Heading>, scrollY: int, k: int)
    ensures CurrentIndex(headings, scrollY) == Some(k) <==> IsCurrentIndex(headings, scrollY, k)
  {
  }

  /** Position wins, not offset: any reached heading is at or before the selected one. */
  lemma LaterReachedHeadingWins(headings: seq<Heading>, scrollY: int, j: int)
    requires 0 <= j < |headings| && Reached(headings[j], scrollY)
    ensures CurrentIndex(headings, scrollY).Some?
    ensures j <= CurrentIndex(headings, scrollY).value
  {
  }

  /** Scrolling down never moves the selection to an earlier heading. */
  lemma SelectionMonotoneInScroll(headings: seq<Heading>, scrollY1: int, scrollY2: int)
    requires scrollY1 <= scrollY2
    ensures CurrentIndex(headings, scrollY1).Some? ==>
      && CurrentIndex(headings, scrollY2).Some?
      && CurrentIndex(headings, scrollY1).value <= CurrentIndex(headings, scrollY2).value
  {
    var r1 := CurrentIndex(headings, scrollY1);
    if r1.Some? {
      assert Reached(headings[r1.value], scrollY2);
      LaterReachedHeadingWins(headings, scrollY2, r1.value);
    }
  }

  /** A later heading with a smaller offset beats an earlier one with a larger offset. */
  lemma UnsortedOffsetsSelectLaterHeading()
    ensures CurrentId([Heading("a", 500), Heading("b", 50)], 450) == Some("b")
    ensures CurrentId([Heading("a", 500), Heading("b", 50)], 0) == Some("b")
  {
  }

  /** Three headings at 0, 500 and 1000: what is selected at several scroll offsets. */
  lemma ThreeHeadingsWalkthrough()
    ensures CurrentId([Heading("a", 0), Heading("b", 500), Heading("c", 1000)], 0) == Some("a")
    ensures CurrentId([Heading("a", 0), Heading("b", 500), Heading("c", 1000)], 450) == Some("b")
    ensures CurrentId([Heading("a", 0), Heading("b", 500), Heading("c", 1000)], 899) == Some("b")
    ensures CurrentId([Heading("a", 0), Heading("b", 500), Heading("c", 1000)], 950) == Some("c")
    ensures CurrentId([Heading("a", 0), Heading("b", 500), Heading("c", 1000)], 2000) == Some("c")
    ensures Recompute([Heading("a", 0), Heading("b", 500), Heading("c", 1000)],
                      [Link("#a", false), Link("#b", true), Link("#c", false)], 0)
         == [Link("#a", true), Link("#b", false), Link("#c", false)]
    ensures Recompute([Heading("a", 0), Heading("b", 500), Heading("c", 1000)],
                      [Link("#a", false), Link("#b", true), Link("#c", false)], 450)
         == [Link("#a", false), Link("#b", true), Link("#c", false)]
  {
    var headings := [Heading("a", 0), Heading("b", 500), Heading("c", 1000)];
    // At scroll offset 0 only the first heading is reached, so the scan ends at index 0.
    assert IsCurrentIndex(headings, 0, 0);
    CurrentIndexIff(headings, 0, 0);
    // The marking step compares each hash with the fragment of the selected id.
    var links := [Link("#a", false), Link("#b", true), Link("#c", false)];
    assert "#" + "a" == "#a" && "#" + "b" == "#b";
    assert Recompute(headings, links, 0) == Mark(links, Some("a"));
    assert Recompute(headings, links, 450) == Mark(links, Some("b"));
  }

  /** Above the first heading nothing is selected. */
  lemma NoHeadingReachedExample()
    ensures CurrentId([Heading("a", 200), Heading("b", 800)], 0) == None
    ensures CurrentId([Heading("a", 200), Heading("b", 800)], 100) == Some("a")
    ensures Recompute([Heading("a", 200), Heading("b", 800)], [Link("#a", true), Link("#b", false)], 0)
         == [Link("#a", false), Link("#b", false)]
  {
  }

  // ---------------------------------------------------------------------------
  // Properties of the link update
  // ---------------------------------------------------------------------------

  /** Recomputation keeps the number, order and hashes of the links. */
  lemma RecomputeKeepsHashes(headings: seq<Heading>, links: seq<Link>, scrollY: int)
    ensures Hashes(Recompute(headings, links, scrollY)) == Hashes(links)
  {
  }

  /** Link `i` ends active exactly when its hash is `#` plus the non-empty id of the last reached heading. */
  lemma ActiveIffMatchesCurrentHeading(headings: seq<Heading>, links: seq<Link>, scrollY: int, i: int)
    requires 0 <= i < |links|
    ensures Recompute(headings, links, scrollY)[i].active <==>
      exists k :: IsCurrentIndex(headings, scrollY, k) && headings[k].id != "" && links[i].hash == "#" + headings[k].id
  {
    var r := CurrentIndex(headings, scrollY);
    if r.Some? {
      forall k | IsCurrentIndex(headings, scrollY, k) ensures k == r.value {
        CurrentIndexIff(headings, scrollY, k);
      }
    }
  }

  /** Nothing is active when no heading is reached or the selected heading's id is empty. */
  lemma NothingActiveWhenFalsy(headings: seq<Heading>, links: seq<Link>, scrollY: int)
    requires CurrentIndex(headings, scrollY).None? || headings[CurrentIndex(headings, scrollY).value].id == ""
    ensures forall i :: 0 <= i < |links| ==> !Recompute(headings, links, scrollY)[i].active
  {
  }

  /** All active links share one hash: the selected heading's fragment. */
  lemma ActiveLinksShareHash(headings: seq<Heading>, links: seq<Link>, scrollY: int, i: int, j: int)
    requires 0 <= i < |links| && 0 <= j < |links|
    requires Recompute(headings, links, scrollY)[i].active
    ensures CurrentIndex(headings, scrollY).Some?
    ensures links[i].hash == "#" + headings[CurrentIndex(headings, scrollY).value].id
    ensures Recompute(headings, links, scrollY)[j].active <==> links[j].hash == links[i].hash
  {
  }

  /** The new flags depend on the links' hashes only, never on their previous flags. */
  lemma RecomputeIgnoresPriorFlags(headings: seq<Heading>, links1: seq<Link>, links2: seq<Link>, scrollY: int)
    requires Hashes(links1) == Hashes(links2)
    ensures Recompute(headings, links1, scrollY) == Recompute(headings, links2, scrollY)
  {
    assert |links1| == |Hashes(links1)|;
    assert forall i :: 0 <= i < |links1| ==> links1[i].hash == Hashes(links1)[i];
  }

  /** Running the handler twice at the same scroll offset is the same as running it once. */
  lemma RecomputeIdempotent(headings: seq<Heading>, links: seq<Link>, scrollY: int)
    ensures Recompute(headings, Recompute(headings, links, scrollY), scrollY) == Recompute(headings, links, scrollY)
  {
    RecomputeKeepsHashes(headings, links, scrollY);
    RecomputeIgnoresPriorFlags(headings, Recompute(headings, links, scrollY), links, scrollY);
  }
}
