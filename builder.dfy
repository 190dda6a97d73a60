/** The wizard component's state: the current step and the draft, changed only
    by the navigation buttons, the field editors and the principle toggle. */
module Builder {
  import opened Concerns
  import opened Drafts
  import opened Preview

  datatype Option<T> = None | Some(value: T)

  /** The number of steps the wizard shows in its progress indicator. */
  const LastStep: int := 5

  class SubmissionBuilder {
    var step: int
    var draft: Draft

    /** The step is always one of the five rendered in the progress indicator. */
    ghost predicate Valid()
      reads this
    {
      1 <= step <= LastStep
    }

    /** The selection invariant the toggle keeps. */
    ghost predicate SelectionValid()
      reads this
    {
      ValidSelection(draft.principlesConcerns)
    }

    /** The component mounts on step 1 with the empty draft. */
    constructor ()
      ensures Valid() && SelectionValid()
      ensures step == 1 && draft == Initial
    {
      step := 1;
      draft := Initial;
    }

    /** The mount-time restore: a stored draft, if there is one, replaces the whole draft. */
    method Load(saved: Option<Draft>)
      requires Valid()
      modifies this
      ensures Valid()
      ensures step == old(step)
      ensures draft == if saved.Some? then saved.value else old(draft)
    {
      if saved.Some? {
        draft := saved.value;
      }
    }

    /** `setStep(n)`: every call site passes a literal in 1..5, and only the step changes. */
    method GoTo(n: int)
      requires Valid()
      requires 1 <= n <= LastStep
      modifies this
      ensures Valid()
      ensures step == n
      ensures draft == old(draft)
    {
      step := n;
    }

    /** An input's change handler: one free-text field replaced, everything else carried over. */
    method Edit(f: Field, v: string)
      requires Valid()
      requires Editable(f)
      modifies this
      ensures Valid()
      ensures step == old(step)
      ensures draft == WithText(old(draft), f, v)
      ensures old(SelectionValid()) ==> SelectionValid()
    {
      draft := WithText(draft, f, v);
    }

    /** The radio inputs' change handler: only the submission type changes. */
    method ChooseType(t: SubmissionType)
      requires Valid()
      modifies this
      ensures Valid()
      ensures step == old(step)
      ensures draft == WithType(old(draft), t)
      ensures old(SelectionValid()) ==> SelectionValid()
    {
      draft := WithType(draft, t);
    }

    /** The principle toggle: only the concern list changes; it stays duplicate-free for any concern,
        and within the catalog when the concern is from the catalog. */
    method TogglePrinciple(c: string)
      requires Valid()
      modifies this
      ensures Valid()
      ensures step == old(step)
      ensures draft == WithToggled(old(draft), c)
      ensures old(NoDuplicates(draft.principlesConcerns)) ==> NoDuplicates(draft.principlesConcerns)
      ensures old(SelectionValid()) && c in Catalog ==> SelectionValid()
    {
      if NoDuplicates(draft.principlesConcerns) {
        ToggleKeepsNoDuplicates(draft.principlesConcerns, c);
      }
      if SelectionValid() && c in Catalog {
        ToggleKeepsValid(draft.principlesConcerns, c);
      }
      draft := WithToggled(draft, c);
    }

    /** The copy button, shown on the preview step: the clipboard payload is the rendered draft. */
    method CopyText() returns (text: string)
      requires Valid()
      requires step == LastStep
      ensures Header <= text
      ensures text == Render(draft)
    {
      text := Render(draft);
    }
  }

  /** A session that visits every step, including 3 and 4, and comes back to step 1: the draft is untouched. */
  method NavigationKeepsDraft(b: SubmissionBuilder)
    requires b.Valid()
    modifies b
    ensures b.Valid() && b.step == 1
    ensures b.draft == old(b.draft)
  {
    b.GoTo(2);
    b.GoTo(3);
    b.GoTo(4);
    b.GoTo(5);
    b.GoTo(1);
  }

  /** Toggling the same absent concern twice in a session restores the draft exactly. */
  method ToggleTwiceSession(b: SubmissionBuilder, c: string)
    requires b.Valid()
    requires c !in b.draft.principlesConcerns
    modifies b
    ensures b.Valid() && b.step == old(b.step)
    ensures b.draft == old(b.draft)
  {
    ghost var before := b.draft;
    b.TogglePrinciple(c);
    b.TogglePrinciple(c);
    ToggleTwiceAbsent(before.principlesConcerns, c);
  }
}
