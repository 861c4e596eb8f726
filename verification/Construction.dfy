/**
What constructors do, and what a construction does around them (include/gc/gc_new.hpp).  A
constructor is a program: it may park, collect, write memory, register root ranges, make and
destroy weak handles, and construct further objects and arrays, before it returns or throws.
 */
module Construction {
  import opened Wrappers
  import opened Words
  import opened Bits
  import opened ChunkHeaders
  import opened Blocks
  import opened WeakRegistry
  import opened Layout
  import opened Marking
  import opened HeapState
  import opened Mutation
  import opened HandleState
  import opened GCManager

  // --- Programs ---

  // Whether the internal collections of an allocation run out of memory, the words a scan of
  // this thread's stack visits, and the collections of other threads wherever it may park.
  datatype Setting = Setting(
    failure: Failure, allocationFailure: Failure, stack: seq<Word>,
    parkedFirst: Parked, parkedThen: Parked, parkedAlloc: Parked, parkedRetry: Parked, parkedRegister: Parked,
    parkedLast: Parked)

  datatype Step =
    | Park(parked: Parked)
    | CollectNow(stack: seq<Word>, failure: Failure, parked: Parked)
    | Write(address: Address, value: Word)
    | AddRange(begin: Address, end: Address, parked: Parked)
    | RemoveRange(begin: Address, end: Address, parked: Parked)
    | PointWeakly(storage: Address, target: Address, parked: Parked)
    | DropHandle(storage: Address, parked: Parked)
    | Attempt(tried: Step)
    | Build(one: ObjectSpec)
    | BuildArray(many: ArraySpec)

  // The steps of a constructor (Attempt catches what a step throws), and whether it throws
  // when it has run them.
  datatype Body = Body(steps: seq<Step>, throws: bool)

  datatype ObjectSpec = ObjectSpec(size: Word, alignment: Word, destructor: seq<Act>, body: Body, setting: Setting)

  // What the constructors of the elements do, and what their destructors do; elements past
  // the end of a list have trivial ones.
  datatype ArraySpec = ArraySpec(
    count: Word, elementSize: Word, elementAlignment: Word, elements: seq<Body>, destructors: seq<seq<Act>>,
    setting: Setting)

  function DestructorOf(spec: ArraySpec, i: nat): seq<Act> {
    if i < |spec.destructors| then spec.destructors[i] else []
  }

  // ArrayDestructor::destroy for n elements, as the collector runs it: the last one first.
  function FinalizerOf(spec: ArraySpec, n: nat): seq<Act>
    decreases n
  {
    if n == 0 then [] else DestructorOf(spec, n - 1) + FinalizerOf(spec, n - 1)
  }

  // The same act when the program runs it, outside a collection.  shutdown() throws while a
  // block is under construction, after parking.
  function StepOf(act: Act, setting: Setting): Step {
    match act
    case Recollect => CollectNow(setting.stack, setting.failure, setting.parkedLast)
    case Reshutdown => Park(setting.parkedLast)
    case Store(address, value) => Write(address, value)
    case DropWeak(storage) => DropHandle(storage, setting.parkedLast)
    case DropRange(begin, end) => RemoveRange(begin, end, setting.parkedLast)
  }

  // The steps that may end with an exception.
  predicate MayThrow(step: Step) {
    step.CollectNow? || step.Build? || step.BuildArray?
  }

  // --- Where arrays lie ---

  datatype ArrayPlace = ArrayPlace(payload: Address, layout: ArrayLayout, elementSize: nat)

  // Where an array goes, given its payload; None stands for std::bad_alloc.  The alignment of
  // a C++ type is a power of two.
  function PlaceOf(spec: ArraySpec, payload: Address): Option<ArrayPlace> {
    if spec.elementAlignment == 0 || COUNT_SIZE + spec.elementAlignment > WORD_MAX then None
    else
      var layout := ArrayLayoutOf(spec.count, spec.elementSize, spec.elementAlignment);
      if layout.None? then None else Some(ArrayPlace(payload, layout.value, spec.elementSize))
  }

  // --- Programs as they ran ---

  // One step: the collections while it was parked lead to `mid`, and it ended in `after`,
  // with an exception if `threw`.  A construction has its own record.
  datatype Stage = Stage(
    before: Snapshot, pauses: seq<Pause>, mid: Snapshot, after: Snapshot, threw: bool, making: Option<Making>)

  // One constructor or destructor.
  datatype Execution = Execution(before: Snapshot, stages: seq<Stage>, after: Snapshot, threw: bool)

  // One construction.  NotMade: no block came about; `asked` is where it failed.  Made: the
  // pauses lead to `start`, where the block appears; the constructors run from `born` to
  // `left`, the destructors of a rollback to `done`, and after further pauses the block is
  // published or released in `mid`.
  datatype Making =
    | NotMade(before: Snapshot, pauses: seq<Pause>, asked: Snapshot, after: Snapshot)
    | Made(before: Snapshot, pauses: seq<Pause>, start: Snapshot, payload: Address, born: Snapshot,
           runs: seq<Execution>, left: Snapshot, endings: seq<Execution>, done: Snapshot,
           more: seq<Pause>, mid: Snapshot, after: Snapshot)

  predicate EmptyRange(begin: Address, end: Address) {
    begin == 0 || end == 0 || begin == end
  }

  predicate FreeForHandle(w: WeakState, h: Address) {
    h != 0 && h !in w.handles && h !in w.guarded
  }

  // The steps that construct nothing.
  ghost predicate PlainPerformed(step: Step, g: Stage) {
    && (g.threw ==> MayThrow(step)) && g.making.None?
    && match step
       case Park(_) => Paused(g.before, g.pauses, g.after)
       case CollectNow(stack, _, _) =>
         && Paused(g.before, g.pauses, g.after)
         && (!g.threw ==> g.pauses != [] && g.pauses[|g.pauses| - 1].stack == stack)
       case Write(address, value) => g.after == AfterAct(g.before, Act.Store(address, value))
       case AddRange(begin, end, _) =>
         if EmptyRange(begin, end) then g.after == g.before
         else Paused(WithRanges(g.before, g.before.rootRanges + [Normalized(begin, end)]), g.pauses, g.after)
       case RemoveRange(begin, end, _) =>
         if EmptyRange(begin, end) then g.after == g.before
         else
           && Paused(g.before, g.pauses, g.mid)
           && g.after == WithRanges(g.mid, WithoutFirst(g.mid.rootRanges, Normalized(begin, end)))
       case PointWeakly(h, target, _) =>
         if !FreeForHandle(g.before.weak, h) then g.after == g.before
         else
           && Paused(WithWord(Created(g.before, h), h, EncodeWeak(target)), g.pauses, g.mid)
           && g.after == LetGo(Initialized(g.mid, target, h), {h})
       case DropHandle(h, _) =>
         if h !in g.before.weak.handles || h in g.before.weak.busy then g.after == g.before
         else
           && Paused(Taken(g.before, {h}), g.pauses, g.mid)
           && g.after == if Load(g.before.weak.memory, h) == 0 then Destroyed(g.mid, h)
                         else Destroyed(AfterUnregister(g.mid, h), h)
       case _ => false
  }

  // What a step does.
  ghost predicate Performed(step: Step, g: Stage)
    decreases step, 0
  {
    match step
    case Attempt(tried) => !g.threw && exists threw :: Performed(tried, g.(threw := threw))
    case Build(one) => g.making.Some? && Frames(g) && ObjectMade(one, g.making.value, g.threw)
    case BuildArray(many) => g.making.Some? && Frames(g) && ArrayMade(many, g.making.value, g.threw)
    case _ => PlainPerformed(step, g)
  }

  // The stage of a construction begins and ends where the construction does.
  ghost predicate Frames(g: Stage) {
    g.making.Some? && g.making.value.before == g.before && g.making.value.after == g.after
  }

  // The stages follow each other from s to s'.
  ghost predicate Follows(s: Snapshot, stages: seq<Stage>, s': Snapshot)
    decreases |stages|
  {
    if stages == [] then s' == s
    else Follows(s, stages[..|stages| - 1], stages[|stages| - 1].before) && stages[|stages| - 1].after == s'
  }

  // The steps of the body ran in order, all of them or up to the first that threw.
  ghost predicate Ran(body: Body, run: Execution)
    decreases body, 0
  {
    && |run.stages| <= |body.steps| && Follows(run.before, run.stages, run.after)
    && (forall i :: 0 <= i < |run.stages| ==> Performed(body.steps[i], run.stages[i]))
    && (forall i :: 0 <= i < |run.stages| - 1 ==> !run.stages[i].threw)
    && if run.stages != [] && run.stages[|run.stages| - 1].threw then run.threw
       else |run.stages| == |body.steps| && run.threw == body.throws
  }

  // A destructor ran all its acts and caught what they threw.
  ghost predicate Acted(acts: seq<Act>, setting: Setting, run: Execution) {
    && |run.stages| == |acts| && Follows(run.before, run.stages, run.after) && !run.threw
    && forall i :: 0 <= i < |acts| ==> PlainPerformed(StepOf(acts[i], setting), run.stages[i])
  }

  // --- Constructions as they ran ---

  // finish_construction, or release_unconstructed after an exception.
  ghost predicate MayConclude(mid: Snapshot, p: Address, threw: bool) {
    ValidState(mid) && if threw then BytesHeld(mid, p) else p in mid.allocations
  }

  ghost function Conclusion(mid: Snapshot, p: Address, threw: bool): Snapshot
    requires MayConclude(mid, p, threw)
  {
    if threw then Released(mid, p) else Constructed(mid, p)
  }

  // gc_new.
  ghost predicate ObjectMade(spec: ObjectSpec, m: Making, threw: bool)
    decreases spec, 0
  {
    match m
    case NotMade(before, pauses, asked, after) => threw && Paused(before, pauses, after)
    case Made(before, pauses, start, p, born, runs, left, endings, done, more, mid, after) =>
      && Paused(before, pauses, start) && ValidState(start)
      && Allocated(start, born, p, spec.size, spec.alignment, Some(spec.destructor), true)
      && |runs| == 1 && Ran(spec.body, runs[0]) && runs[0].threw == threw
      && runs[0].before == born && runs[0].after == left
      && endings == [] && done == left
      && Paused(done, more, mid) && MayConclude(mid, p, threw) && after == Conclusion(mid, p, threw)
  }

  // The state in which the i-th of some executions begins that follow each other from s.
  ghost function Between(s: Snapshot, runs: seq<Execution>, i: nat): Snapshot
    requires i <= |runs|
  {
    if i == 0 then s else runs[i - 1].after
  }

  // construct_array.
  ghost predicate ArrayMade(spec: ArraySpec, m: Making, threw: bool)
    decreases spec, 1
  {
    if m.NotMade? then
      Paused(m.before, m.pauses, m.after) && if spec.count == 0 then !threw && m.after == m.before else threw
    else
      && ArrayBegun(spec, m) && (threw ==> 0 < |m.runs| <= spec.count)
      && ElementsRan(spec, Completed(spec, m, threw), m.runs, m.payload, m.born, m.left, threw)
      && (if threw then ElementsEnded(spec, Completed(spec, m, threw), m.endings, m.left, m.done)
          else m.endings == [] && m.done == m.left)
      && ArrayConcluded(m, threw)
  }

  // How many elements were complete in the end.
  function Completed(spec: ArraySpec, m: Making, threw: bool): Word
    requires m.Made?
  {
    if threw && 0 < |m.runs| <= spec.count then |m.runs| - 1 else spec.count
  }

  ghost predicate ArrayBegun(spec: ArraySpec, m: Making) {
    && m.Made? && spec.count > 0 && PlaceOf(spec, m.payload).Some?
    && var layout := PlaceOf(spec, m.payload).value.layout;
    && Paused(m.before, m.pauses, m.start) && ValidState(m.start)
    && Allocated(m.start, m.born, m.payload, layout.payloadSize, layout.alignment,
                 Some(FinalizerOf(spec, spec.count)), true)
  }

  ghost predicate ArrayConcluded(m: Making, threw: bool)
    requires m.Made?
  {
    && Paused(m.done, m.more, m.mid) && MayConclude(m.mid, m.payload, threw)
    && m.after == Unguarded(Conclusion(m.mid, m.payload, threw), m.payload)
  }

  // The constructors of the first n elements ran and returned, each with its own index as the
  // count at p, and n is the count afterwards; or the constructor of element n threw.
  ghost predicate ElementsRan(
      spec: ArraySpec, n: Word, runs: seq<Execution>, p: Address, s: Snapshot, s': Snapshot, threw: bool)
    decreases spec, 0
  {
    && |runs| <= |spec.elements|
    && |runs| == (if threw then n + 1 else if n <= |spec.elements| then n else |spec.elements|)
    && (forall i :: 0 <= i < |runs| ==>
          Ran(spec.elements[i], runs[i]) && runs[i].before == Guarded(Between(s, runs, i), p, i) &&
          (runs[i].threw <==> threw && i == n))
    && s' == if threw then runs[n].after else Guarded(Between(s, runs, |runs|), p, n)
  }

  // Of n elements, the destructors of the last ones ran, in descending order.
  ghost predicate ElementsEnding(spec: ArraySpec, n: nat, endings: seq<Execution>, s: Snapshot, s': Snapshot) {
    && |endings| <= n && s' == Between(s, endings, |endings|)
    && forall i :: 0 <= i < |endings| ==>
         Acted(DestructorOf(spec, n - 1 - i), spec.setting, endings[i]) && endings[i].before == Between(s, endings, i)
  }

  ghost predicate ElementsEnded(spec: ArraySpec, n: nat, endings: seq<Execution>, s: Snapshot, s': Snapshot) {
    |endings| == n && ElementsEnding(spec, n, endings, s, s')
  }

  // Why an allocation failed: an unregistered thread gets std::logic_error; otherwise the
  // threshold was reached and the collection failed, or the allocation was refused.
  ghost predicate AllocationFails(
      s: Snapshot, pauses: seq<Pause>, asked: Snapshot, s': Snapshot, size: Word, alignment: Word,
      allocator: OperatorNew, setting: Setting, registeredThread: bool, status: Status)
  {
    && Paused(s, pauses, s') && status == (if registeredThread then BadAlloc else LogicError)
    && (registeredThread ==>
          && Passed(s, pauses, asked, s')
          && ((setting.failure != NoFailure && asked.managedBytes + size >= asked.threshold) ||
              Refused(asked, s', size, alignment, allocator)))
  }
}
