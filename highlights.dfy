/**
 * The three highlight cards: each shows an aggregate count from the last
 * highlights response and names the quick filter that clicking it selects.
 */
module Highlights {
  import opened Options
  import opened Payload

  /** The `data` object of a highlights response; any count may be missing. */
  datatype Counts = Counts(totalDraft: Option<int>, totalPending: Option<int>, totalRejected: Option<int>)

  /** A highlights response, whose `data` may itself be missing. */
  datatype HighlightsResponse = HighlightsResponse(data: Option<Counts>)

  /** A card: the count it shows and its description. */
  datatype Card = Card(count: int, description: string)

  /** The count for one bucket: a missing response, data object or field shows as 0. */
  function CountOf(h: Option<HighlightsResponse>, pick: Counts -> Option<int>): (n: int)
    ensures h.Some? && h.value.data.Some? && pick(h.value.data.value).Some? ==>
              n == pick(h.value.data.value).value
    ensures !(h.Some? && h.value.data.Some? && pick(h.value.data.value).Some?) ==> n == 0
  {
    if h.Some? && h.value.data.Some? then GetOr(pick(h.value.data.value), 0) else 0
  }

  /**
   * The cards in display order: Draft, Pending Information, Rejected, each
   * with its reported count or 0 when that count is missing.
   */
  function CardsData(h: Option<HighlightsResponse>): (cards: seq<Card>)
    ensures |cards| == 3
    ensures cards[0].description == Draft
    ensures cards[1].description == PendingInformation
    ensures cards[2].description == Rejected
    ensures h.None? || h.value.data.None? ==> forall i :: 0 <= i < 3 ==> cards[i].count == 0
    ensures h.Some? && h.value.data.Some? ==>
              && cards[0].count == GetOr(h.value.data.value.totalDraft, 0)
              && cards[1].count == GetOr(h.value.data.value.totalPending, 0)
              && cards[2].count == GetOr(h.value.data.value.totalRejected, 0)
  {
    [ Card(CountOf(h, (c: Counts) => c.totalDraft), Draft),
      Card(CountOf(h, (c: Counts) => c.totalPending), PendingInformation),
      Card(CountOf(h, (c: Counts) => c.totalRejected), Rejected) ]
  }

  /**
   * Every card names a quick filter with a preset, so selecting it (with no
   * explicit selector set) always puts an approval status in the request.
   */
  lemma EveryCardSelectsAPreset(h: Option<HighlightsResponse>, i: int, s: Snapshot, searchTerm: string)
    requires 0 <= i < |CardsData(h)|
    requires s.approvalStatus.None?
    ensures CardsData(h)[i].description != ""
    ensures ApprovalStatus in Filters(s, CardsData(h)[i].description, searchTerm)
  {
    ExplicitSelectorsWin(s, CardsData(h)[i].description, searchTerm);
  }
}
