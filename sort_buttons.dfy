/**
 * The sort buttons of the accessible search-result list: three buttons (relevance, publication
 * date, title), the state they keep, the request each press sends, and the direction each
 * button's accessibility hint announces.
 */
module SortButtons {
  import opened Wrappers

  /** The selected button (`sortOrder`): `'correct' | 'published_date' | 'title'`. */
  datatype SortKey = Correct | PublishedDate | Title

  /** A sort direction: `'asc' | 'desc'`. */
  datatype Direction = Asc | Desc

  /** The `sortBy` argument of a request; relevance is sent as `null`. */
  datatype SortField = ByPublishedDate | ByTitle

  /** One `updateSortAndFetch(sortBy, sortOrder)` call. */
  datatype Request = Request(sortBy: Option<SortField>, sortOrder: Direction)

  /** The three state variables of the component. */
  datatype SortState = SortState(sortOrder: SortKey, isLastest: bool, isAlpabetAsc: bool)

  /** The values the state is declared with, and the values `resetStates` restores. */
  const Initial: SortState := SortState(Correct, true, true)

  /** The words a button's label and hint use to name a direction. */
  datatype DirectionWord =
    | Newest      // 최신순
    | Oldest      // 오래된순
    | Ascending   // 오름차순
    | Descending  // 내림차순

  /** The direction each word stands for in a request ("newest first" is a descending date sort). */
  function WordDirection(w: DirectionWord): Direction
  {
    match w
    case Newest => Desc
    case Oldest => Asc
    case Ascending => Asc
    case Descending => Desc
  }

  /** The direction named by a button's accessibility hint; the relevance hint names none. */
  function HintWord(s: SortState, key: SortKey): Option<DirectionWord>
  {
    match key
    case Correct => None
    case PublishedDate =>
      if s.sortOrder == PublishedDate then Some(if !s.isLastest then Newest else Oldest)
      else Some(if s.isLastest then Newest else Oldest)
    case Title =>
      if s.sortOrder == Title then Some(if !s.isAlpabetAsc then Ascending else Descending)
      else Some(if s.isAlpabetAsc then Ascending else Descending)
  }

  /** The direction named by a button's label ("현재 …", the current setting). */
  function LabelWord(s: SortState, key: SortKey): Option<DirectionWord>
  {
    match key
    case Correct => None
    case PublishedDate => Some(if s.isLastest then Newest else Oldest)
    case Title => Some(if s.isAlpabetAsc then Ascending else Descending)
  }

  /**
   * `handleSortChange(order)`: the next state and the request sent. Re-pressing the selected
   * date or title button flips its stored direction and sends the new one; pressing it while
   * another button is selected sends the stored direction unchanged; relevance sends
   * `(null, 'desc')` and keeps both stored directions.
   */
  function Press(s: SortState, order: SortKey): (r: (SortState, Request))
    ensures r.0.sortOrder == order
    ensures order == Correct ==>
      && r.1 == Request(None, Desc)
      && r.0.isLastest == s.isLastest && r.0.isAlpabetAsc == s.isAlpabetAsc
    ensures order == PublishedDate ==>
      && r.1.sortBy == Some(ByPublishedDate)
      && r.0.isAlpabetAsc == s.isAlpabetAsc
      && (r.0.isLastest != s.isLastest <==> s.sortOrder == PublishedDate)
      && (r.1.sortOrder == Desc <==> r.0.isLastest)
    ensures order == Title ==>
      && r.1.sortBy == Some(ByTitle)
      && r.0.isLastest == s.isLastest
      && (r.0.isAlpabetAsc != s.isAlpabetAsc <==> s.sortOrder == Title)
      && (r.1.sortOrder == Asc <==> r.0.isAlpabetAsc)
  {
    match order
    case PublishedDate =>
      if s.sortOrder == order then
        var nextLastest := !s.isLastest;
        (s.(sortOrder := order, isLastest := nextLastest),
         Request(Some(ByPublishedDate), if nextLastest then Desc else Asc))
      else
        (s.(sortOrder := order), Request(Some(ByPublishedDate), if s.isLastest then Desc else Asc))
    case Title =>
      if s.sortOrder == order then
        var nextAlpabetAsc := !s.isAlpabetAsc;
        (s.(sortOrder := order, isAlpabetAsc := nextAlpabetAsc),
         Request(Some(ByTitle), if nextAlpabetAsc then Asc else Desc))
      else
        (s.(sortOrder := order), Request(Some(ByTitle), if s.isAlpabetAsc then Asc else Desc))
    case Correct =>
      (s.(sortOrder := order), Request(None, Desc))
  }

  /** Each direction button's hint announces the direction its next press will request. */
  lemma HintAnnouncesNextRequest(s: SortState, key: SortKey)
    ensures key != Correct <==> HintWord(s, key).Some?
    ensures key != Correct ==> WordDirection(HintWord(s, key).value) == Press(s, key).1.sortOrder
  {
  }

  /** After a press of a direction button, its label names the direction just requested. */
  lemma LabelShowsLastRequest(s: SortState, key: SortKey)
    ensures key != Correct ==> WordDirection(LabelWord(Press(s, key).0, key).value) == Press(s, key).1.sortOrder
  {
  }

  /** Pressing the selected direction button twice returns to the state before the two presses. */
  lemma DoublePressRestoresState(s: SortState, key: SortKey)
    requires s.sortOrder == key
    ensures Press(Press(s, key).0, key).0 == s
  {
  }

  /** The component's state and the requests it has sent through `updateSortAndFetch`. */
  class SortControls {
    var sortOrder: SortKey
    var isLastest: bool
    var isAlpabetAsc: bool
    /** Every `updateSortAndFetch` call so far, oldest first. */
    var requests: seq<Request>

    function State(): SortState
      reads this
    {
      SortState(sortOrder, isLastest, isAlpabetAsc)
    }

    /** The three `useState` initial values; nothing has been requested yet. */
    constructor ()
      ensures State() == Initial
      ensures requests == []
    {
      sortOrder := Correct;
      isLastest := true;
      isAlpabetAsc := true;
      requests := [];
    }

    /** `resetStates`: restores the initial values without sending a request. */
    method ResetStates()
      modifies this
      ensures State() == Initial
      ensures requests == old(requests)
    {
      sortOrder := Correct;
      isLastest := true;
      isAlpabetAsc := true;
    }

    /** `handleSortChange`: updates the state and sends one request. */
    method HandleSortChange(order: SortKey)
      modifies this
      ensures State() == Press(old(State()), order).0
      ensures requests == old(requests) + [Press(old(State()), order).1]
    {
      if order == PublishedDate {
        if sortOrder == order {
          var nextLastest := !isLastest;
          requests := requests + [Request(Some(ByPublishedDate), if nextLastest then Desc else Asc)];
          isLastest := nextLastest;
        } else {
          requests := requests + [Request(Some(ByPublishedDate), if isLastest then Desc else Asc)];
        }
      } else if order == Title {
        if sortOrder == order {
          var nextAlpabetAsc := !isAlpabetAsc;
          requests := requests + [Request(Some(ByTitle), if nextAlpabetAsc then Asc else Desc)];
          isAlpabetAsc := nextAlpabetAsc;
        } else {
          requests := requests + [Request(Some(ByTitle), if isAlpabetAsc then Asc else Desc)];
        }
      } else {
        requests := requests + [Request(None, Desc)];
      }
      sortOrder := order;
    }
  }
}
