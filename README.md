# Table-of-contents scroll spy, modelled in Dafny

This project models the documentation site's table-of-contents "scroll spy" (`assets/js/toc.js`) and proves properties of the model. All of it is in `toc.dfy`, module `Toc`.

When the page has loaded, the script looks for the TOC container. It collects the container's fragment links and the `h2`/`h3` headings that carry an id. If there is no container, or either list is empty, it stops. Otherwise it installs a scroll handler and runs that handler once. On each run the handler:

1. computes `scrollPos = scrollY + 100`;
2. scans the headings in document order and keeps the id of the last one whose `offsetTop` is at most `scrollPos`;
3. removes `active` from every link, then adds it back to each link whose hash is `#` followed by that id, if the id is neither `null` nor empty.

The model abstracts the DOM as follows:

- A heading is a `Heading(id, offsetTop)` value. The list of heading elements is captured once at load, so the class `ScrollSpy` keeps only their ids. Their `offsetTop` values are layout state that the handler reads again on every run, so each event receives the offsets of that moment. `Layout(ids, offsets)` pairs them into the `seq<Heading>` the scan works on.
- The links are an `array<Link>`. Each `Link(hash, active)` holds the link's `hash`, and its `active` flag stands for the `active` class.
- `currentId` is an `Option<string>`. `None` is `null`. `Truthy` models the JavaScript test `currentId && …`, which fails for `null` and for `""`.
- Whether the TOC container exists is the boolean `tocFound` of the class `ScrollSpy`. Whether the scroll listener is registered is its field `listening`.

The two loops of `setActiveLink` are the methods `ScanHeadings` and `MarkLinks`. Each is proved against a specification function: `CurrentId` for the scan, and `Mark` for the marking loop (`Recompute` combines the two). The lemmas state what the source promises about those functions.

The scroll spy is meant to keep a single link active, but the code does not enforce that, and the model follows the code. The code marks every link whose hash matches, so two links with the same hash are both marked. `ActiveLinksShareHash` states what the code does guarantee: all active links have the same hash, which is the selected heading's fragment.

## Model

| member | source | states |
|---|---|---|
| Toc.CurrentIndex | assets/js/toc.js:18-25 | If an index is selected, that heading is reached (`offsetTop <= scrollY + 100`) and no later heading is. If nothing is selected, no heading is reached. |
| Toc.CurrentIndexIff | assets/js/toc.js:20-25 | The scan selects `k` if and only if `k` is the greatest index whose heading is reached (the reference definition `IsCurrentIndex`). |
| Toc.LaterReachedHeadingWins | assets/js/toc.js:21-25 | Every reached heading lies at or before the selected index. Selection goes by position in document order, not by the largest offset. |
| Toc.UnsortedOffsetsSelectLaterHeading | assets/js/toc.js:21-25 | Offsets 500 then 50: the later heading "b" is selected, even though the earlier heading has the larger offset. |
| Toc.SelectionMonotoneInScroll | assets/js/toc.js:18-25 | If `scrollY1 <= scrollY2` and something is selected at `scrollY1`, then something is selected at `scrollY2`, and its index is no smaller. |
| Toc.ThreeHeadingsWalkthrough | assets/js/toc.js:18-32 | Headings at 0, 500 and 1000. Scroll offset 0 selects "a". Offsets 450 and 899 select "b". Offsets 950 and 2000 select "c". With links `#a`, `#b`, `#c`, only `#a` ends active at offset 0 and only `#b` at offset 450. |
| Toc.NoHeadingReachedExample | assets/js/toc.js:18-32 | First heading at 200. At scroll offset 0 nothing is selected, and a previously active link ends inactive. At offset 100 the first heading is selected. |
| Toc.ScanHeadings | assets/js/toc.js:18-25 | The forward scan, which reassigns `currentId` at each reached heading, returns `CurrentId`: the id of the last reached heading, or `null`. |
| Toc.MarkLinks | assets/js/toc.js:27-32 | After the loop, every link keeps its hash and position. Its flag is set exactly when `currentId` is truthy and the hash equals `#` + `currentId`. |
| Toc.SetActiveLink | assets/js/toc.js:17-33 | The links array after one handler run equals `Recompute` applied to the headings, the old links and `scrollY`. |
| Toc.ScrollSpy.constructor | assets/js/toc.js:3-10 | Captures the TOC presence, the heading elements' ids and the links once. No scroll listener is installed yet. |
| Toc.ScrollSpy.OnContentLoaded | assets/js/toc.js:2-37 | With no TOC, or with zero links or zero headings, no listener is installed and no flag changes. Otherwise the listener is installed and the flags already reflect the scroll offset and the heading offsets at load time. |
| Toc.ScrollSpy.OnScroll | assets/js/toc.js:22-35 | A scroll event recomputes the flags only when the listener is installed, from the heading offsets current at that event. Otherwise nothing changes. |
| Toc.RecomputeKeepsHashes | assets/js/toc.js:27-32 | Recomputation keeps the number, order and hashes of the links. Only the active flags change. |
| Toc.ActiveIffMatchesCurrentHeading | assets/js/toc.js:20-32 | Link `i` ends active if and only if it matches the last reached heading: that heading's id is non-empty and the link's hash is `#` + id. Several links with that hash are all active. |
| Toc.NothingActiveWhenFalsy | assets/js/toc.js:20-29 | If no heading is reached, or the selected heading's id is empty, every link ends inactive. |
| Toc.ActiveLinksShareHash | assets/js/toc.js:27-32 | If some link is active, a heading is selected and that link's hash is its fragment. Any link is then active if and only if it has the same hash. |
| Toc.RecomputeIgnoresPriorFlags | assets/js/toc.js:27-32 | Two link lists with the same hashes give the same result. The prior active flags never matter. |
| Toc.RecomputeIdempotent | assets/js/toc.js:17-36 | Running the handler a second time at the same scroll offset leaves the links as the first run left them. |

## Left out

- DOM queries (`querySelector`, `querySelectorAll`, the selectors `a[href^="#"]`, `.docs-content h2[id]` and `.docs-content h3[id]`) are not modelled. Their results are inputs: `tocFound`, the heading sequence and the link array.
- Event registration and the browser event loop are not modelled. The scroll listener is the flag `listening`, and each event is a call to `OnContentLoaded` or `OnScroll`.
- The `console.log` diagnostics are left out. They only report; they change nothing.
- Layout geometry is not modelled. The headings' `offsetTop` values and `scrollY` are integer inputs given to each event. A fractional `scrollY` is not modelled.
- URL normalisation behind `link.hash` is not modelled. The hash is a plain string.
