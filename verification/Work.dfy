/** Background operations as a whole: runs of flush, clean and shrink steps that clean no
    further than some root. */
module Work {
  import opened Types
  import opened AncestorSets
  import opened Storages
  import opened Store
  import opened Invariant
  import opened Loads
  import opened Machine
  import opened Runs
  import opened Views

  /** The running step, if it cleans, does so only up to `bound`. */
  ghost predicate Bounded(bound: Slot, phase: Phase) {
    && (phase.Flushing? && phase.clean ==> phase.bound <= bound)
    && (phase.Cleaning? ==> phase.bound <= bound)
  }

  predicate IsBackground(step: Step) {
    step.Flushes? || step.Cleans? || step.Shrinks?
  }

  /** One background step. */
  ghost predicate WorkNext(bound: Slot, st: State, st': State) {
    && (exists step: Step :: IsBackground(step) && Takes(st, step, st'))
    && Bounded(bound, st.phase) && Bounded(bound, st'.phase)
  }

  /** `st'` is reached from `st` by background steps alone. */
  ghost predicate Worked(bound: Slot, st: State, st': State) {
    Later((x, y) => WorkNext(bound, x, y), st, st')
  }

  /** States in which the invariant holds. */
  type SoundState = st: State | Inv(st) ghost witness Empty()

  lemma NotYetWorked(bound: Slot, st: State)
    ensures Worked(bound, st, st)
  {
    NoStep((x, y) => WorkNext(bound, x, y), st);
  }

  lemma WorkOne(bound: Slot, st0: State, st: State, st': State)
    requires Worked(bound, st0, st) && WorkNext(bound, st, st')
    ensures Worked(bound, st0, st')
  {
    OneMore((x, y) => WorkNext(bound, x, y), st0, st, st');
  }

  lemma FlushIsWork(bound: Slot, st: State, step: FlushStep, st': State)
    requires Flushed(st, step, st') && Bounded(bound, st.phase) && Bounded(bound, st'.phase)
    ensures WorkNext(bound, st, st')
  {
    assert Takes(st, Flushes(step), st');
  }

  lemma CleanIsWork(bound: Slot, st: State, step: CleanStep, st': State)
    requires Cleaned(st, step, st') && Bounded(bound, st.phase) && Bounded(bound, st'.phase)
    ensures WorkNext(bound, st, st')
  {
    assert Takes(st, Cleans(step), st');
  }

  lemma ShrinkIsWork(bound: Slot, st: State, step: ShrinkStep, st': State)
    requires Shrunk(st, step, st') && Bounded(bound, st.phase) && Bounded(bound, st'.phase)
    ensures WorkNext(bound, st, st')
  {
    assert Takes(st, Shrinks(step), st');
  }

  lemma FlushWork(bound: Slot, st0: State, st: SoundState, step: FlushStep, st': State)
    requires Worked(bound, st0, st) && Flushed(st, step, st')
    requires Bounded(bound, st.phase) && Bounded(bound, st'.phase)
    ensures Inv(st') && Worked(bound, st0, st')
  {
    FlushKeepsInv(st, step, st');
    FlushIsWork(bound, st, step, st');
    WorkOne(bound, st0, st, st');
  }

  lemma CleanWork(bound: Slot, st0: State, st: SoundState, step: CleanStep, st': State)
    requires Worked(bound, st0, st) && Cleaned(st, step, st')
    requires Bounded(bound, st.phase) && Bounded(bound, st'.phase)
    ensures Inv(st') && Worked(bound, st0, st')
  {
    CleanKeepsInv(st, step, st');
    CleanIsWork(bound, st, step, st');
    WorkOne(bound, st0, st, st');
  }

  lemma ShrinkWork(bound: Slot, st0: State, st: SoundState, step: ShrinkStep, st': State)
    requires Worked(bound, st0, st) && Shrunk(st, step, st')
    requires Bounded(bound, st.phase) && Bounded(bound, st'.phase)
    ensures Inv(st') && Worked(bound, st0, st')
  {
    ShrinkKeepsInv(st, step, st');
    ShrinkIsWork(bound, st, step, st');
    WorkOne(bound, st0, st, st');
  }

  lemma WorkTogether(bound: Slot, st: State, mid: State, st': State)
    requires Worked(bound, st, mid) && Worked(bound, mid, st')
    ensures Worked(bound, st, st')
  {
    Together((x, y) => WorkNext(bound, x, y), st, mid, st');
  }

  // ---------------------------------------------------------------------------------------
  // Meaning
  // ---------------------------------------------------------------------------------------

  lemma WorkKeepsRoots(st: State, step: Step, st': State)
    requires IsBackground(step) && Takes(st, step, st')
    ensures st'.roots == st.roots
  {
    match step
    case Flushes(s) => FlushKeepsRoots(st, s, st');
    case Cleans(s) => CleanKeepsRoots(st, s, st');
    case Shrinks(s) => ShrinkKeepsRoots(st, s, st');
    case _ =>
  }

  lemma BoundedShelters(bound: Slot, st: State, a: Ancestors)
    requires SeesUpTo(st.roots, a, bound) && Bounded(bound, st.phase)
    ensures Sheltered(st, a)
  {
  }

  ghost predicate AnswersIn(roots: set<Slot>, a: Ancestors, k: Pubkey, account: Option<Account>, st: State) {
    Inv(st) && st.roots == roots && Load(st, a, k) == account
  }

  lemma WorkNextPreserves(bound: Slot, st: State, st': State, a: Ancestors, k: Pubkey)
    requires Inv(st) && WorkNext(bound, st, st')
    requires Consistent(st.roots, a) && SeesUpTo(st.roots, a, bound)
    ensures Inv(st') && st'.roots == st.roots && Load(st', a, k) == Load(st, a, k)
  {
    var step: Step :| IsBackground(step) && Takes(st, step, st');
    TakenKeepsInv(st, step, st');
    WorkKeepsRoots(st, step, st');
    BoundedShelters(bound, st, a);
    BoundedShelters(bound, st', a);
    StepPreservesLoad(st, step, st', a, k);
  }

  /** A background operation that cleans up to `bound` changes nothing for a consistent reader
      that sees the roots up to `bound`. */
  lemma WorkPreservesLoad(bound: Slot, st: State, st': State, a: Ancestors, k: Pubkey)
    requires Inv(st) && Worked(bound, st, st')
    requires Consistent(st.roots, a) && SeesUpTo(st.roots, a, bound)
    ensures Inv(st') && st'.roots == st.roots && Load(st', a, k) == Load(st, a, k)
  {
    var account := Load(st, a, k);
    forall x, y | AnswersIn(st.roots, a, k, account, x) && WorkNext(bound, x, y)
      ensures AnswersIn(st.roots, a, k, account, y)
    {
      WorkNextPreserves(bound, x, y, a, k);
    }
    Induction((x, y) => WorkNext(bound, x, y), x => AnswersIn(st.roots, a, k, account, x), st, st');
  }
}
