/** The post editor's draft slice: a title and an HTML body, each set in place. */
module EditorSlice {

  datatype Draft = Draft(title: string, content: string)

  const InitialDraft: Draft := Draft("", "")

  datatype Action = SetDraftTitle(title: string) | SetDraftContent(content: string)

  function Reduce(st: Draft, a: Action): (r: Draft)
    ensures r.title == (if a.SetDraftTitle? then a.title else st.title)
    ensures r.content == (if a.SetDraftContent? then a.content else st.content)
  {
    match a
    case SetDraftTitle(t) => st.(title := t)
    case SetDraftContent(c) => st.(content := c)
  }

  /** Two sets of the same field: the second one wins. */
  lemma LastWriteWins(st: Draft, a: Action, b: Action)
    requires (a.SetDraftTitle? && b.SetDraftTitle?) || (a.SetDraftContent? && b.SetDraftContent?)
    ensures Reduce(Reduce(st, a), b) == Reduce(st, b)
  {
  }

  /** Setting the title and setting the content commute. */
  lemma TitleAndContentCommute(st: Draft, title: string, content: string)
    ensures Reduce(Reduce(st, SetDraftTitle(title)), SetDraftContent(content))
         == Reduce(Reduce(st, SetDraftContent(content)), SetDraftTitle(title))
  {
  }

  class EditorState {
    var draftTitle: string
    var draftContent: string

    function Value(): Draft
      reads this
    {
      Draft(draftTitle, draftContent)
    }

    constructor ()
      ensures Value() == InitialDraft
    {
      draftTitle, draftContent := "", "";
    }

    method SetDraftTitle(payload: string)
      modifies this
      ensures Value() == Reduce(old(Value()), Action.SetDraftTitle(payload))
    {
      draftTitle := payload;
    }

    method SetDraftContent(payload: string)
      modifies this
      ensures Value() == Reduce(old(Value()), Action.SetDraftContent(payload))
    {
      draftContent := payload;
    }
  }
}
