/**
 * The post placement card: the `cx` class joiner, the normalised current placement,
 * the label lookup, the pill colours and the two-dialog placement change. The
 * dialogs' answers and the mutation's settlement are inputs; what the handler shows
 * and sends is returned as a trace of events.
 */
module PlacementCard {
  import opened Wrappers
  import opened JsStrings
  import opened JsValues
  import Seqs

  /** `cx(...classes)`: the truthy entries joined by single spaces. */
  function Cx(classes: seq<Val>): string {
    JoinVals(Seqs.Filter(classes, Truthy), " ")
  }

  /** A falsy entry anywhere in the list changes nothing. */
  lemma CxDropsFalsy(before: seq<Val>, falsy: Val, after: seq<Val>)
    requires !Truthy(falsy)
    ensures Cx(before + [falsy] + after) == Cx(before + after)
  {
    Seqs.FilterSkipsRejected(before, falsy, after, Truthy);
  }

  /** Non-empty class strings are joined in order with one space between each pair. */
  lemma CxOfClassStrings(classes: seq<string>)
    requires forall i :: 0 <= i < |classes| ==> classes[i] != ""
    ensures Cx(seq(|classes|, i requires 0 <= i < |classes| => Str(classes[i]))) == JoinStrings(classes, " ")
  {
    var vals := seq(|classes|, i requires 0 <= i < |classes| => Str(classes[i]));
    Seqs.FilterKeepsAll(vals, Truthy);
    JoinValsOfStrings(vals, " ");
    assert seq(|vals|, i requires 0 <= i < |vals| => vals[i].s) == classes;
  }

  /** The card's `className` prop is appended to the base classes only when it is non-empty. */
  lemma CardClasses(base: string, className: Option<string>)
    requires base != ""
    ensures className.Some? && className.value != "" ==>
              Cx([Str(base), Str(className.value)]) == base + " " + className.value
    ensures className.None? ==> Cx([Str(base), Undef]) == base
    ensures className.Some? && className.value == "" ==> Cx([Str(base), Str("")]) == base
  {
    Seqs.FilterSkipsRejected([Str(base)], Undef, [], Truthy);
    Seqs.FilterSkipsRejected([Str(base)], Str(""), [], Truthy);
    Seqs.FilterKeepsAll([Str(base)], Truthy);
    assert [Str(base)] + [Undef] + [] == [Str(base), Undef];
    assert [Str(base)] + [Str("")] + [] == [Str(base), Str("")];
    assert JoinVals([Str(base)], " ") == base;
    if className.Some? && className.value != "" {
      var two := [Str(base), Str(className.value)];
      Seqs.FilterKeepsAll(two, Truthy);
      assert two[1..] == [Str(className.value)];
      assert JoinVals(two, " ") == base + " " + JoinVals([Str(className.value)], " ");
    }
  }

  /** `PLACEMENT_LABEL` and the select dialog's `inputOptions`: the three known placements. */
  function Labels(): map<string, string> {
    map["general" := "General", "featured" := "Featured", "popular" := "Popular"]
  }

  /** `PLACEMENT_LABEL[x] || x`: the label of a known placement, the raw value otherwise. */
  function LabelOr(x: string): (r: string)
    ensures x in Labels() ==> r == Labels()[x]
    ensures x !in Labels() ==> r == x
    ensures r == "" <==> x == ""
  {
    if x in Labels() && Labels()[x] != "" then Labels()[x] else x
  }

  /** `(p || "general").toString().toLowerCase()`. */
  function Normalize(p: Option<string>): (r: string)
    ensures r != "" && Lower(r) == r
    ensures p.None? || p.value == "" ==> r == "general"
    ensures p.Some? && p.value != "" ==> r == Lower(p.value)
  {
    LowerIdempotent(OptOr(p, "general"));
    Lower(OptOr(p, "general"))
  }

  /** Normalisation ignores letter case, and an already normalised placement is its own normal form. */
  lemma NormalizeIgnoresCase(s: string)
    requires s != ""
    ensures Normalize(Some(s)) == Normalize(Some(Lower(s)))
    ensures Normalize(Some(Normalize(Some(s)))) == Normalize(Some(s))
  {
    LowerIdempotent(s);
  }

  const FeaturedPill: string := "bg-[var(--rs-primary-100)] text-[var(--rs-primary-800)] border-[var(--rs-primary-200)]"
  const PopularPill: string := "bg-[var(--accent)] text-[var(--secondary)] border-[var(--border)]"
  const DefaultPill: string := "bg-white text-[var(--muted)] border-[var(--border)]"

  /** `placementPillClass`. */
  function PillClass(p: Option<string>): (r: string)
    ensures Normalize(p) == "featured" <==> r == FeaturedPill
    ensures Normalize(p) == "popular" <==> r == PopularPill
    ensures Normalize(p) != "featured" && Normalize(p) != "popular" <==> r == DefaultPill
  {
    assert |FeaturedPill| != |PopularPill| && |FeaturedPill| != |DefaultPill| && |PopularPill| != |DefaultPill|;
    var v := Normalize(p);
    if v == "featured" then FeaturedPill
    else if v == "popular" then PopularPill
    else DefaultPill
  }

  /** The pill colour does not depend on letter case: `FEATURED` and `featured` look alike. */
  lemma PillClassIgnoresCase(s: string)
    requires s != ""
    ensures PillClass(Some(s)) == PillClass(Some(Lower(s)))
  {
    NormalizeIgnoresCase(s);
  }

  /** The select dialog's preselected value: the current placement when it is an option, else `general`. */
  function Preselect(current: string): (r: string)
    ensures r in Labels()
    ensures current in Labels() ==> r == current
    ensures current !in Labels() ==> r == "general"
  {
    if current in Labels() && Labels()[current] != "" then current else "general"
  }

  const GenericError: string := "Something went wrong."
  const RequestFailed: string := "Request failed. Please try again."
  const NoChange: string := "No placement change selected."

  /** `getApiErrorMessage`: nothing, a string, `data.message`, `error`, then the fixed text. */
  function ApiErrorMessage(err: Val): (r: Val)
    ensures Truthy(r)
    ensures !Truthy(err) ==> r == Str(GenericError)
    ensures Truthy(err) && err.Str? ==> r == err
    ensures Truthy(err) && !err.Str? && Truthy(Get(Get(err, "data"), "message")) ==>
              r == Get(Get(err, "data"), "message")
    ensures Truthy(err) && !err.Str? && !Truthy(Get(Get(err, "data"), "message")) && Truthy(Get(err, "error")) ==>
              r == Get(err, "error")
    ensures Truthy(err) && !err.Str? && !Truthy(Get(Get(err, "data"), "message")) && !Truthy(Get(err, "error")) ==>
              r == Str(RequestFailed)
  {
    if !Truthy(err) then Str(GenericError)
    else if err.Str? then err
    else if Truthy(Get(Get(err, "data"), "message")) then Get(Get(err, "data"), "message")
    else if Truthy(Get(err, "error")) then Get(err, "error")
    else Str(RequestFailed)
  }

  /** The confirmation dialog's text. */
  function ConfirmHtml(current: string, next: string): string {
    "Move from <b>" + LabelOr(current) + "</b> to <b>" + LabelOr(next) + "</b>?"
  }

  /** The success toast. */
  function UpdatedText(next: string): string {
    "Placement updated to \"" + LabelOr(next) + "\"."
  }

  /** The post as the card receives it. */
  datatype Post = Post(id: string, title: Option<string>, placement: Option<string>)

  /** How the select dialog was closed. */
  datatype SelectAnswer = Dismissed | Chosen(value: string)

  datatype ToastKind = Info | Success | Failure

  /** What `handleChangePlacement` shows and sends, in order. */
  datatype Event =
    | SelectDialog(preselected: string)
    | Toast(kind: ToastKind, text: Val)
    | ConfirmDialog(html: string)
    | LoadingDialog
    | UpdatePlacement(id: string, placement: string)
    | CloseDialog

  /** The lower-cased choice. */
  function Next(answer: SelectAnswer): string
    requires answer.Chosen?
  {
    Lower(answer.value)
  }

  /** The choice names a placement other than the current one. */
  predicate IsChange(current: string, answer: SelectAnswer) {
    answer.Chosen? && Next(answer) != "" && Next(answer) != current
  }

  /**
   * `handleChangePlacement`: a dismissed select dialog stops; an empty or unchanged
   * choice only shows an info toast; a declined confirmation stops; otherwise the
   * post's id and the lower-cased choice are sent, and the settlement decides the toast.
   */
  method HandleChangePlacement(post: Post, answer: SelectAnswer, confirmed: bool, settled: Outcome<Val, Val>)
    returns (trace: seq<Event>)
    ensures trace != [] && trace[0] == SelectDialog(Preselect(Normalize(post.placement)))
    ensures IsChange(Normalize(post.placement), answer) && confirmed ==>
              UpdatePlacement(post.id, Next(answer)) in trace
    ensures !IsChange(Normalize(post.placement), answer) || !confirmed ==>
              forall e :: e in trace ==> !e.UpdatePlacement?
    ensures answer.Dismissed? ==> trace == [SelectDialog(Preselect(Normalize(post.placement)))]
    ensures answer.Chosen? && !IsChange(Normalize(post.placement), answer) ==>
              trace == [SelectDialog(Preselect(Normalize(post.placement))), Toast(Info, Str(NoChange))]
    ensures IsChange(Normalize(post.placement), answer) ==>
              |trace| >= 2 && trace[1] == ConfirmDialog(ConfirmHtml(Normalize(post.placement), Next(answer)))
    ensures IsChange(Normalize(post.placement), answer) && !confirmed ==> |trace| == 2
    ensures IsChange(Normalize(post.placement), answer) && confirmed ==>
              trace[2..] == [LoadingDialog, UpdatePlacement(post.id, Next(answer)), CloseDialog,
                             SettledToast(Next(answer), settled)]
  {
    var current := Normalize(post.placement);
    var ask := SelectDialog(Preselect(current));
    if answer.Dismissed? {
      return [ask];
    }
    var next := Lower(answer.value);
    if next == "" || next == current {
      return [ask, Toast(Info, Str(NoChange))];
    }
    var confirm := ConfirmDialog(ConfirmHtml(current, next));
    if !confirmed {
      return [ask, confirm];
    }
    return [ask, confirm, LoadingDialog, UpdatePlacement(post.id, next), CloseDialog, SettledToast(next, settled)];
  }

  /** The toast that reports how the mutation settled. */
  function SettledToast(next: string, settled: Outcome<Val, Val>): Event {
    if settled.Resolved? then Toast(Success, Str(UpdatedText(next)))
    else Toast(Failure, ApiErrorMessage(settled.error))
  }

  /** Choosing the current placement in any letter case is not a change. */
  lemma SameChoiceInOtherCaseIsNoChange(post: Post, s: string)
    requires Normalize(post.placement) == Lower(s)
    ensures !IsChange(Normalize(post.placement), Chosen(s))
  {
  }
}
