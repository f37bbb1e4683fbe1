/**
 The order of the four screens of the demo (BaseForm.FormType and the two
 switch expressions that step through it), and the guard that decides
 whether forward navigation happens at all.
 */
module Navigation {

  /** A C# enum is an integer with named constants; FormType names four of them.
      Any other integer can still be cast to FormType, which is why the two
      switches below carry a default arm. */
  newtype FormType = int

  const MainForm: FormType := 1
  const Form2: FormType := 2
  const Form3: FormType := 3
  const Form4: FormType := 4

  /** One of the four named screens. */
  predicate Declared(t: FormType)
  {
    MainForm <= t <= Form4
  }

  /** The screen after `current`; the last screen has no successor and stays put. */
  function GetNextFormType(current: FormType): (next: FormType)
    ensures Declared(next)
    ensures Declared(current) ==> next == if current == Form4 then Form4 else current + 1
    ensures !Declared(current) ==> next == MainForm
  {
    if current == MainForm then Form2
    else if current == Form2 then Form3
    else if current == Form3 then Form4
    else if current == Form4 then Form4
    else MainForm
  }

  /** The screen before `current`; the first screen has no predecessor and stays put. */
  function GetPreviousFormType(current: FormType): (previous: FormType)
    ensures Declared(previous)
    ensures Declared(current) ==> previous == if current == MainForm then MainForm else current - 1
    ensures !Declared(current) ==> previous == MainForm
  {
    if current == Form4 then Form3
    else if current == Form3 then Form2
    else if current == Form2 then MainForm
    else if current == MainForm then MainForm
    else MainForm
  }

  /** The condition NavigateToNextForm tests before it navigates: it refuses
      only a wrap-around from the last screen back to the first. */
  predicate NavigatesForward(current: FormType)
  {
    var next := GetNextFormType(current);
    next != MainForm || current != Form4
  }

  /** The guard never refuses: from Form4 the next screen is Form4 itself, and
      from every other value the wrap-around it looks for cannot arise. */
  lemma NavigatesForwardAlways(current: FormType)
    ensures NavigatesForward(current)
    ensures Declared(current) ==> GetNextFormType(current) != MainForm
  {
  }

  /** Going forward and then back returns to the screen one started from,
      except on the last screen, where forward stays put. */
  lemma PreviousUndoesNext(t: FormType)
    requires Declared(t) && t != Form4
    ensures GetPreviousFormType(GetNextFormType(t)) == t
  {
  }

  /** Going back and then forward returns to the screen one started from,
      except on the first screen, where back stays put. */
  lemma NextUndoesPrevious(t: FormType)
    requires Declared(t) && t != MainForm
    ensures GetNextFormType(GetPreviousFormType(t)) == t
  {
  }

  /** The screen reached from `t` by pressing "next" `k` times. */
  function PressNext(t: FormType, k: nat): FormType
    decreases k
  {
    if k == 0 then t else PressNext(GetNextFormType(t), k - 1)
  }

  /** The screen reached from `t` by pressing "back" `k` times. */
  function PressBack(t: FormType, k: nat): FormType
    decreases k
  {
    if k == 0 then t else PressBack(GetPreviousFormType(t), k - 1)
  }

  /** Pressing "next" k times advances k screens, saturating at the last one. */
  lemma {:induction false} PressNextSaturates(t: FormType, k: nat)
    requires Declared(t)
    ensures PressNext(t, k) == if t + k as FormType <= Form4 then t + k as FormType else Form4
    decreases k
  {
    if k > 0 {
      PressNextSaturates(GetNextFormType(t), k - 1);
    }
  }

  /** Pressing "back" k times goes back k screens, saturating at the first one. */
  lemma {:induction false} PressBackSaturates(t: FormType, k: nat)
    requires Declared(t)
    ensures PressBack(t, k) == if t - k as FormType >= MainForm then t - k as FormType else MainForm
    decreases k
  {
    if k > 0 {
      PressBackSaturates(GetPreviousFormType(t), k - 1);
    }
  }
}
