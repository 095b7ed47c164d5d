/**
 * The script injected into the EPUB reader's web view: it tracks the section the reader is in,
 * rebuilds the narration index of a section when the reader enters it, decides whether the
 * host should turn to the next page, and reports everything to the host as messages.
 */
module ReadingTracker {
  import opened Wrappers
  import opened Text

  /** An EPUB CFI as the rendering engine hands it out; the script never looks inside one. */
  datatype Cfi = Cfi(raw: string)

  /** The engine's three-way CFI comparison (`epubcfi.compare`): positive when the first is later. */
  type Comparator = (Cfi, Cfi) -> int

  /** What a reading-order comparator is expected to satisfy. */
  ghost predicate IsReadingOrder(compare: Comparator)
  {
    && (forall a :: compare(a, a) == 0)
    && (forall a, b :: compare(a, b) > 0 <==> compare(b, a) < 0)
    && (forall a, b, c :: compare(a, b) >= 0 && compare(b, c) >= 0 ==> compare(a, c) >= 0)
  }

  /** The tags the section query selects; `Other` stands for any tag the loop does not handle. */
  datatype Tag = Img | A | H1 | H2 | H3 | Span | Other(name: string)

  /** A selected element: its node identity, tag, `alt` attribute and `textContent`. */
  datatype Element = Element(node: nat, tag: Tag, alt: string, textContent: string)

  /** The DOM range handed to `cfiFromRange`: a whole node, or offsets into the node's first child. */
  datatype Range =
    | NodeContents(node: nat)
    | FirstChildRange(node: nat, startOffset: int, endOffset: int)

  /**
   * Building a range and anchoring it (`setStart`/`setEnd`, then `cfiFromRange`):
   * `None` when any of those calls throws.
   */
  type Anchoring = Range -> Option<Cfi>

  /** One narratable unit of the index: `{ sentence, cfisRange }`. */
  datatype Entry = Entry(sentence: string, cfisRange: Cfi)

  /** The payload of a `relocated` event: `location.start.index` and the page's two CFIs. */
  datatype Location = Location(index: int, startCfi: Cfi, endCfi: Cfi)

  /** Everything the script posts to the host, in the order it posts them. */
  datatype Message =
    | Started                                         // { msgg: "시작" }
    | BookEnd                                         // { bookEnd: 1 }
    | Relocate(reprogress: real, prevIndex: int, currentLocIdx: int, stCfi: Cfi, edCfi: Cfi)
    | ParseStarted                                    // { msgg: "챕터 파싱 시작" }
    | AnchorError                                     // { msgg: "에러남" }
    | FormArr(entries: seq<Entry>)                    // { formArr }
    | GoNextPage                                      // { gonextpage: 1 }

  /** The value `nowIndex` is declared with. */
  const InitialIndex: int := 0

  // ---------------------------------------------------------------------------------------
  // Page advance

  /** The page-move decision: the target lies strictly after the current page's end. */
  predicate ShouldAdvance(compare: Comparator, target: Cfi, currentEnd: Cfi)
  {
    compare(target, currentEnd) > 0
  }

  /** Under a reading order, a target at the current end never turns the page. */
  lemma TargetAtEndDoesNotAdvance(compare: Comparator, c: Cfi)
    requires IsReadingOrder(compare)
    ensures !ShouldAdvance(compare, c, c)
  {
  }

  /** Under a reading order, every target at or after one that turns the page turns it too. */
  lemma LaterTargetAlsoAdvances(compare: Comparator, target: Cfi, later: Cfi, currentEnd: Cfi)
    requires IsReadingOrder(compare)
    requires compare(later, target) >= 0
    requires ShouldAdvance(compare, target, currentEnd)
    ensures ShouldAdvance(compare, later, currentEnd)
  {
  }

  // ---------------------------------------------------------------------------------------
  // Building the narration index of a section

  /** The range `createCfiObject` anchors: the whole node, or `[indexOf(sentence), +length)`. */
  function RangeFor(sentence: string, e: Element, isNode: bool): Range
  {
    if isNode then NodeContents(e.node)
    else
      var startOffset := IndexOf(e.textContent, sentence);
      FirstChildRange(e.node, startOffset, startOffset + |sentence|)
  }

  /** What `createCfiObject` returns: the entry, or `None` (the script's `null`) on failure. */
  function CfiObject(sentence: string, e: Element, isNode: bool, anchor: Anchoring): Option<Entry>
  {
    match anchor(RangeFor(sentence, e, isNode))
    case None => None
    case Some(cfi) => Some(Entry(sentence, cfi))
  }

  /** The sentence and mode the loop uses for an element, or `None` for a tag it skips. */
  function Plan(e: Element): Option<(string, bool)>
  {
    match e.tag
    case Img => Some((e.alt, true))
    case Other(_) => None
    case _ => Some((e.textContent, false))
  }

  /** The entry the loop pushes for one element, if any. */
  function Attempt(e: Element, anchor: Anchoring): Option<Entry>
  {
    match Plan(e)
    case None => None
    case Some((sentence, isNode)) => CfiObject(sentence, e, isNode, anchor)
  }

  /** The element is handled by the loop but its anchoring fails. */
  predicate Fails(e: Element, anchor: Anchoring)
  {
    Plan(e).Some? && Attempt(e, anchor).None?
  }

  /** The `formArr` built from the elements, in their order. */
  function Index(es: seq<Element>, anchor: Anchoring): seq<Entry>
  {
    if es == [] then []
    else
      var last := es[|es| - 1];
      Index(es[..|es| - 1], anchor) + (if Attempt(last, anchor).Some? then [Attempt(last, anchor).value] else [])
  }

  /** The error messages posted while the elements are anchored: one per failure, in order. */
  function Errors(es: seq<Element>, anchor: Anchoring): (r: seq<Message>)
    ensures forall k :: 0 <= k < |r| ==> r[k] == AnchorError
  {
    if es == [] then []
    else Errors(es[..|es| - 1], anchor) + (if Fails(es[|es| - 1], anchor) then [AnchorError] else [])
  }

  /** The messages one pass of `getFormArrForCustomBook` posts. */
  function IndexingMessages(es: seq<Element>, anchor: Anchoring): seq<Message>
  {
    [ParseStarted] + Errors(es, anchor) + [FormArr(Index(es, anchor))]
  }

  /** The number of elements the loop handles (every tag but `Other`). */
  function HandledCount(es: seq<Element>): (n: nat)
    ensures n <= |es|
  {
    if es == [] then 0
    else HandledCount(es[..|es| - 1]) + (if Plan(es[|es| - 1]).Some? then 1 else 0)
  }

  /** The positions of the elements that yield an entry, in increasing order. */
  ghost function Positions(es: seq<Element>, anchor: Anchoring): seq<nat>
  {
    if es == [] then []
    else Positions(es[..|es| - 1], anchor) + (if Attempt(es[|es| - 1], anchor).Some? then [|es| - 1] else [])
  }

  /**
   * `pos` picks, in increasing order, exactly the elements that yield an entry, and the
   * `k`-th entry is the one the `pos[k]`-th element yields.
   */
  ghost predicate SelectsInOrder(pos: seq<nat>, es: seq<Element>, anchor: Anchoring, entries: seq<Entry>)
  {
    && |pos| == |entries|
    && (forall k :: 0 <= k < |pos| ==> pos[k] < |es| && Attempt(es[pos[k]], anchor) == Some(entries[k]))
    && (forall k, l :: 0 <= k < l < |pos| ==> pos[k] < pos[l])
    && (forall j :: 0 <= j < |es| && Attempt(es[j], anchor).Some? ==> j in pos)
  }

  /** The index keeps document order and has one entry per element anchored, and no other. */
  lemma {:induction false} IndexKeepsDocumentOrder(es: seq<Element>, anchor: Anchoring)
    ensures SelectsInOrder(Positions(es, anchor), es, anchor, Index(es, anchor))
    ensures forall k :: 0 <= k < |Positions(es, anchor)| ==> Positions(es, anchor)[k] < |es|
  {
    if es != [] {
      var n := |es| - 1;
      var init := es[..n];
      IndexKeepsDocumentOrder(init, anchor);
      var p, r := Positions(init, anchor), Index(init, anchor);
      assert forall j :: 0 <= j < n ==> init[j] == es[j];
      if Attempt(es[n], anchor).Some? {
        assert Positions(es, anchor) == p + [n];
        assert Index(es, anchor) == r + [Attempt(es[n], anchor).value];
      } else {
        assert Positions(es, anchor) == p;
        assert Index(es, anchor) == r;
      }
    }
  }

  /** Every handled element yields either an entry or an error message, never both. */
  lemma {:induction false} IndexAccountsForEveryElement(es: seq<Element>, anchor: Anchoring)
    ensures |Index(es, anchor)| + |Errors(es, anchor)| == HandledCount(es)
    ensures |Index(es, anchor)| <= |es|
  {
    if es != [] {
      IndexAccountsForEveryElement(es[..|es| - 1], anchor);
    }
  }

  /** A text element is anchored over its whole text: `[0, |textContent|)` of its first child. */
  lemma TextAnchorCoversWholeText(e: Element)
    requires e.tag in {A, H1, H2, H3, Span}
    ensures Plan(e) == Some((e.textContent, false))
    ensures RangeFor(e.textContent, e, false) == FirstChildRange(e.node, 0, |e.textContent|)
  {
  }

  /** An image is anchored as a whole node, with its `alt` text as the sentence. */
  lemma ImageAnchorsWholeNode(e: Element)
    requires e.tag == Img
    ensures Plan(e) == Some((e.alt, true))
    ensures RangeFor(e.alt, e, true) == NodeContents(e.node)
  {
  }

  // ---------------------------------------------------------------------------------------
  // Relocation

  /** The messages one `relocated` event posts while `nowIndex` holds `nowIndex`. */
  function RelocationMessages(nowIndex: int, loc: Location, percentageFromCfi: Cfi -> real,
                              es: seq<Element>, anchor: Anchoring): seq<Message>
  {
    [BookEnd, Relocate(percentageFromCfi(loc.startCfi), nowIndex, loc.index, loc.startCfi, loc.endCfi)]
      + (if loc.index != nowIndex then IndexingMessages(es, anchor) else [])
  }

  /** The number of `{ formArr }` messages in a message sequence. */
  function FormArrCount(msgs: seq<Message>): nat
  {
    if msgs == [] then 0
    else (if msgs[0].FormArr? then 1 else 0) + FormArrCount(msgs[1..])
  }

  lemma {:induction false} FormArrCountAppend(a: seq<Message>, b: seq<Message>)
    ensures FormArrCount(a + b) == FormArrCount(a) + FormArrCount(b)
  {
    if a == [] {
      assert a + b == b;
    } else {
      assert (a + b)[0] == a[0];
      assert (a + b)[1..] == a[1..] + b;
      FormArrCountAppend(a[1..], b);
    }
  }

  lemma {:induction false} NoFormArrAmongErrors(msgs: seq<Message>)
    requires forall k :: 0 <= k < |msgs| ==> msgs[k] == AnchorError
    ensures FormArrCount(msgs) == 0
  {
    if msgs != [] {
      NoFormArrAmongErrors(msgs[1..]);
    }
  }

  /** One indexing pass posts exactly one `{ formArr }`, after the parse-start notice. */
  lemma IndexingPostsOneFormArr(es: seq<Element>, anchor: Anchoring)
    ensures IndexingMessages(es, anchor)[0] == ParseStarted
    ensures FormArrCount(IndexingMessages(es, anchor)) == 1
  {
    NoFormArrAmongErrors(Errors(es, anchor));
    FormArrCountAppend([ParseStarted], Errors(es, anchor));
    FormArrCountAppend([ParseStarted] + Errors(es, anchor), [FormArr(Index(es, anchor))]);
  }

  /**
   * A relocation posts `bookEnd` and then the location report, and it rebuilds the index
   * (one `{ formArr }` message) exactly when the section index changed.
   */
  lemma RelocationReindexesOnlyOnSectionChange(nowIndex: int, loc: Location, percentageFromCfi: Cfi -> real,
                                               es: seq<Element>, anchor: Anchoring)
    ensures RelocationMessages(nowIndex, loc, percentageFromCfi, es, anchor)[0] == BookEnd
    ensures RelocationMessages(nowIndex, loc, percentageFromCfi, es, anchor)[1].Relocate?
    ensures RelocationMessages(nowIndex, loc, percentageFromCfi, es, anchor)[1].prevIndex == nowIndex
    ensures RelocationMessages(nowIndex, loc, percentageFromCfi, es, anchor)[1].stCfi == loc.startCfi
    ensures RelocationMessages(nowIndex, loc, percentageFromCfi, es, anchor)[1].edCfi == loc.endCfi
    ensures FormArrCount(RelocationMessages(nowIndex, loc, percentageFromCfi, es, anchor))
         == if loc.index != nowIndex then 1 else 0
  {
    var head := [BookEnd, Relocate(percentageFromCfi(loc.startCfi), nowIndex, loc.index, loc.startCfi, loc.endCfi)];
    assert FormArrCount(head) == 0 by {
      assert FormArrCount(head[1..][1..]) == 0 by { assert head[1..][1..] == []; }
      assert !head[1..][0].FormArr?;
    }
    if loc.index != nowIndex {
      IndexingPostsOneFormArr(es, anchor);
      FormArrCountAppend(head, IndexingMessages(es, anchor));
    } else {
      assert RelocationMessages(nowIndex, loc, percentageFromCfi, es, anchor) == head;
    }
  }

  /** Because `nowIndex` starts at 0, a first relocation into section 0 builds no index. */
  lemma FirstRelocationIntoSectionZeroBuildsNoIndex(loc: Location, percentageFromCfi: Cfi -> real,
                                                   es: seq<Element>, anchor: Anchoring)
    requires loc.index == 0
    ensures FormArrCount(RelocationMessages(InitialIndex, loc, percentageFromCfi, es, anchor)) == 0
  {
    RelocationReindexesOnlyOnSectionChange(InitialIndex, loc, percentageFromCfi, es, anchor);
  }

  // ---------------------------------------------------------------------------------------
  // The script's state and handlers

  /** The injected script: its one variable `nowIndex` and the stream of posted messages. */
  class Tracker {
    var nowIndex: int
    /** Every message posted to the host so far, oldest first. */
    var log: seq<Message>

    /** Loading the script declares `nowIndex` and posts the start-up notice. */
    constructor ()
      ensures nowIndex == InitialIndex
      ensures log == [Started]
    {
      nowIndex := InitialIndex;
      log := [Started];
    }

    /** `handlePageMove`: asks for the next page when the target lies beyond the page's end. */
    method HandlePageMove(target: Cfi, currentEnd: Cfi, compare: Comparator)
      modifies this`log
      ensures nowIndex == old(nowIndex)
      ensures log == old(log) + (if ShouldAdvance(compare, target, currentEnd) then [GoNextPage] else [])
    {
      var vallnum := compare(target, currentEnd);
      if vallnum > 0 {
        log := log + [GoNextPage];
      }
    }

    /** `createCfiObject`: the entry for `sentence`, or `None` after posting the error notice. */
    method CreateCfiObject(sentence: string, e: Element, isNode: bool, anchor: Anchoring)
      returns (entry: Option<Entry>)
      modifies this`log
      ensures entry == CfiObject(sentence, e, isNode, anchor)
      ensures entry.Some? ==> entry.value.sentence == sentence
      ensures log == old(log) + (if entry.None? then [AnchorError] else [])
    {
      var range := RangeFor(sentence, e, isNode);
      var cfisRange := anchor(range);
      if cfisRange.Some? {
        entry := Some(Entry(sentence, cfisRange.value));
      } else {
        log := log + [AnchorError];
        entry := None;
      }
    }

    /** `getFormArrForCustomBook`: indexes the selected elements of the displayed section. */
    method GetFormArrForCustomBook(elements: seq<Element>, anchor: Anchoring)
      modifies this`log
      ensures nowIndex == old(nowIndex)
      ensures log == old(log) + IndexingMessages(elements, anchor)
    {
      log := log + [ParseStarted];
      var formArr: seq<Entry> := [];
      var i := 0;
      while i < |elements|
        invariant 0 <= i <= |elements|
        invariant formArr == Index(elements[..i], anchor)
        invariant log == old(log) + [ParseStarted] + Errors(elements[..i], anchor)
      {
        var element := elements[i];
        assert elements[..i + 1][..i] == elements[..i];
        if element.tag == Img {
          var tempObj := CreateCfiObject(element.alt, element, true, anchor);
          if tempObj.Some? {
            formArr := formArr + [tempObj.value];
          }
        } else if element.tag in {H1, H2, H3, Span, A} {
          var tempObj := CreateCfiObject(element.textContent, element, false, anchor);
          if tempObj.Some? {
            formArr := formArr + [tempObj.value];
          }
        }
        i := i + 1;
      }
      assert elements[..|elements|] == elements;
      log := log + [FormArr(formArr)];
    }

    /**
     * The `relocated` handler: reports the new location, and when the section index differs
     * from `nowIndex`, records it and rebuilds the index from the section's elements.
     */
    method OnRelocated(location: Location, percentageFromCfi: Cfi -> real,
                       elements: seq<Element>, anchor: Anchoring)
      modifies this
      ensures nowIndex == location.index
      ensures log == old(log) + RelocationMessages(old(nowIndex), location, percentageFromCfi, elements, anchor)
    {
      var currentLocIdx := location.index;
      log := log + [BookEnd];
      var locPercentage := percentageFromCfi(location.startCfi);
      log := log + [Relocate(locPercentage, nowIndex, currentLocIdx, location.startCfi, location.endCfi)];
      if currentLocIdx != nowIndex {
        nowIndex := currentLocIdx;
        GetFormArrForCustomBook(elements, anchor);
      }
    }
  }
}
