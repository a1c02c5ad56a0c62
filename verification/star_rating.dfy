/** The star-rating control (client/src/components/star-rating.tsx): five
    stars valued 1 to 5, a click rule that sets or clears the rating, a fill
    rule and the size class the stars are drawn with. */
module StarRating {
  import opened Wrappers

  datatype Size = Sm | Md | Lg

  const DefaultSize := Md

  function SizeClass(size: Size): string
  {
    match size
    case Sm => "h-5 w-5"
    case Md => "h-8 w-8"
    case Lg => "h-10 w-10"
  }

  /** The stars, in the order they are drawn. */
  const StarValues: seq<int> := [1, 2, 3, 4, 5]

  /** handleClick: nothing is reported when the control is read-only or has
      no callback; otherwise clicking the current rating clears it (0) and
      clicking any other star selects that star. */
  function HandleClick(value: int, rating: int, readonly: bool, hasCallback: bool): (reported: Option<int>)
    ensures reported.Some? <==> !readonly && hasCallback
    ensures reported.Some? && value == rating ==> reported.value == 0
    ensures reported.Some? && value != rating ==> reported.value == value
  {
    if !readonly && hasCallback then Some(if value == rating then 0 else value) else None
  }

  /** Every rating the control reports is 0 (cleared) or a star value. */
  lemma ReportedRatingInRange(i: int, rating: int, readonly: bool, hasCallback: bool)
    requires 0 <= i < |StarValues|
    ensures var r := HandleClick(StarValues[i], rating, readonly, hasCallback);
      r.Some? ==> 0 <= r.value <= 5 && (r.value == 0 || r.value in StarValues)
  {
  }

  /** Clicking the same star twice in an editable control returns to no
      rating, whatever the rating was before. */
  lemma ClickTwiceClears(value: int, rating: int)
    requires 1 <= value <= 5
    ensures var once := HandleClick(value, rating, false, true).value;
      HandleClick(value, once, false, true) == (if value == rating then Some(value) else Some(0))
  {
  }

  /** A star is drawn filled exactly when its value is at most the rating. */
  predicate IsFilled(value: int, rating: int)
  {
    value <= rating
  }

  /** The fill state of each drawn star, in order. */
  function FillStates(rating: int): (fills: seq<bool>)
    ensures |fills| == |StarValues|
    ensures forall i :: 0 <= i < |fills| ==> fills[i] == IsFilled(StarValues[i], rating)
  {
    seq(|StarValues|, i requires 0 <= i < |StarValues| => IsFilled(StarValues[i], rating))
  }

  function CountFilled(fills: seq<bool>): nat
  {
    if fills == [] then 0 else CountFilled(fills[..|fills| - 1]) + (if fills[|fills| - 1] then 1 else 0)
  }

  /** The first k stars hold min(k, rating) filled ones, and the filled ones
      come first. */
  lemma {:induction false} FilledPrefix(rating: int, k: nat)
    requires 0 <= rating <= 5 && k <= 5
    ensures CountFilled(FillStates(rating)[..k]) == if k < rating then k else rating
  {
    if k > 0 {
      var fills := FillStates(rating);
      assert fills[..k][..k - 1] == fills[..k - 1];
      FilledPrefix(rating, k - 1);
      assert fills[k - 1] == (k <= rating);
    }
  }

  /** A rating from 0 to 5 shows exactly that many filled stars: 0 fills
      none and 5 fills all. */
  lemma FilledCountIsRating(rating: int)
    requires 0 <= rating <= 5
    ensures CountFilled(FillStates(rating)) == rating
    ensures rating == 0 ==> forall i :: 0 <= i < 5 ==> !FillStates(rating)[i]
    ensures rating == 5 ==> forall i :: 0 <= i < 5 ==> FillStates(rating)[i]
  {
    FilledPrefix(rating, 5);
    assert FillStates(rating)[..5] == FillStates(rating);
  }

  /** One drawn star: its value, its size class, whether it is filled and
      whether its button is disabled. */
  datatype DrawnStar = DrawnStar(value: int, sizeClass: string, filled: bool, disabled: bool)

  /** The five stars as drawn: all share the size class of the requested
      size ("md" when none is given), each is filled by the fill rule, and
      every button is disabled exactly when the control is read-only. */
  function Stars(rating: int, readonly: bool, size: Option<Size>): (stars: seq<DrawnStar>)
    ensures |stars| == |StarValues|
    ensures forall i :: 0 <= i < |stars| ==> stars[i].value == StarValues[i]
    ensures forall i :: 0 <= i < |stars| ==> stars[i].sizeClass == SizeClass(size.GetOr(DefaultSize))
    ensures size.None? ==> forall i :: 0 <= i < |stars| ==> stars[i].sizeClass == "h-8 w-8"
    ensures forall i :: 0 <= i < |stars| ==> stars[i].filled == FillStates(rating)[i]
    ensures forall i :: 0 <= i < |stars| ==> stars[i].disabled == readonly
  {
    var fills := FillStates(rating);
    seq(|StarValues|, i requires 0 <= i < |StarValues| =>
      DrawnStar(StarValues[i], SizeClass(size.GetOr(DefaultSize)), fills[i], readonly))
  }

  /** The size classes differ, so the drawn size tells the requested size. */
  lemma SizeClassInjective(a: Size, b: Size)
    requires SizeClass(a) == SizeClass(b)
    ensures a == b
  {
  }
}
