/** The feedback list (client/src/components/feedback-list.tsx): which of
    its four views is shown, the count with its Polish noun, and one card
    per feedback. */
module FeedbackList {
  import opened Wrappers
  import opened Schema

  /** A card, keyed by the feedback's id. */
  datatype Card = Card(key: string, item: FeedbackWithUser)

  datatype View =
    | LoadingView
    | ErrorView
    | EmptyView
    | ListView(count: nat, noun: string, cards: seq<Card>)

  /** "opinia" for one, "opinie" below five, "opinii" otherwise. */
  function PluralWord(n: int): string
  {
    if n == 1 then "opinia" else if n < 5 then "opinie" else "opinii"
  }

  lemma PluralWordChoice(n: nat)
    requires n >= 1
    ensures n == 1 ==> PluralWord(n) == "opinia"
    ensures 2 <= n <= 4 ==> PluralWord(n) == "opinie"
    ensures n >= 5 ==> PluralWord(n) == "opinii"
  {
  }

  /** One card per feedback, in the order given. */
  function Cards(items: seq<FeedbackWithUser>): (cards: seq<Card>)
    ensures |cards| == |items|
    ensures forall i :: 0 <= i < |items| ==> cards[i] == Card(items[i].feedback.id, items[i])
  {
    if items == [] then [] else [Card(items[0].feedback.id, items[0])] + Cards(items[1..])
  }

  /** The view: loading wins over everything, then an error, then the
      empty state for missing or empty data, and otherwise the list. */
  function SelectView(isLoading: bool, hasError: bool, data: Option<seq<FeedbackWithUser>>): (v: View)
    ensures isLoading ==> v == LoadingView
    ensures !isLoading && hasError ==> v == ErrorView
    ensures !isLoading && !hasError && (data.None? || data.value == []) ==> v == EmptyView
    ensures v.ListView? <==> !isLoading && !hasError && data.Some? && data.value != []
    ensures v.ListView? ==>
      && v.count == |data.value| >= 1
      && v.noun == PluralWord(|data.value|)
      && |v.cards| == |data.value|
      && forall i :: 0 <= i < |v.cards| ==> v.cards[i].item == data.value[i]
  {
    if isLoading then LoadingView
    else if hasError then ErrorView
    else if data.None? || data.value == [] then EmptyView
    else ListView(|data.value|, PluralWord(|data.value|), Cards(data.value))
  }
}
