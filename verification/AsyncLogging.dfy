/** networker/base/AsyncLogging.cpp: producers and one backend thread exchange heap buffers.

    `Log` is everything the two sides own. `append` and the backend's critical section are
    atomic, being under the lock; what the backend does between two critical sections,
    `WriteOut`, may have any number of appends before it. The wait inside the critical
    section gives up the lock, so `Collect` is the part that follows the wait.
    A C++ assertion that would fail sets `aborted`. */
module AsyncLoggings {
  import LogStreams
  import opened Options

  type Line = string

  const CAPACITY: nat := LogStreams.LARGE_BUFFER

  /** A buffer object and the lines in it. */
  datatype Buf<B> = Buf(id: B, lines: seq<Line>)

  /** One output.append: the text of a buffer, or the notice of an overload. */
  datatype Chunk = Text(lines: seq<Line>) | Notice(dropped: nat)

  datatype Log<B> = Log(
    current: Buf<B>,
    next: Option<Buf<B>>,
    full: seq<Buf<B>>,          // buffers_
    spare1: Option<Buf<B>>,     // newBuffer1
    spare2: Option<Buf<B>>,     // newBuffer2
    toWrite: seq<Buf<B>>,
    writing: bool,              // the backend is between Collect and the end of its loop
    written: seq<Chunk>,
    aborted: bool,
    // history
    appended: seq<Line>,        // every line, in lock order
    batches: seq<seq<seq<Line>>>)  // what each Collect took, buffer by buffer

  function Size(lines: seq<Line>): nat {
    if lines == [] then 0 else Size(lines[..|lines| - 1]) + |lines[|lines| - 1]|
  }

  /** FixedBuffer::append, on lines. */
  function Put<B>(b: Buf<B>, line: Line): Buf<B> {
    if CAPACITY > Size(b.lines) + |line| then b.(lines := b.lines + [line]) else b
  }

  /** append; `id` is the buffer that new would return, if it comes to that. */
  function Append<B>(s: Log<B>, line: Line, id: B): Log<B> {
    var s0 := s.(appended := s.appended + [line]);
    if CAPACITY > Size(s.current.lines) + |line| then s0.(current := Put(s.current, line))
    else
      var next := if s.next.Some? then s.next.value else Buf(id, []);
      s0.(full := s.full + [s.current], next := None, current := Put(next, line))
  }

  function Lines<B>(bs: seq<Buf<B>>): seq<seq<Line>> {
    seq(|bs|, i requires 0 <= i < |bs| => bs[i].lines)
  }

  function Collect<B>(s: Log<B>): Log<B> {
    if s.spare1.None? || s.spare1.value.lines != [] || s.spare2.None? || s.spare2.value.lines != [] || s.toWrite != []
    then s.(aborted := true)
    else
      var all := s.full + [s.current];
      s.(current := s.spare1.value, spare1 := None, full := [], toWrite := all,
         next := if s.next.None? then s.spare2 else s.next,
         spare2 := if s.next.None? then None else s.spare2,
         writing := true, batches := s.batches + [Lines(all)])
  }

  /** What the file receives for one batch. */
  function Render(batch: seq<seq<Line>>): seq<Chunk> {
    if |batch| > 25 then [Notice(|batch| - 2), Text(batch[0]), Text(batch[1])]
    else Texts(batch)
  }

  function Texts(batch: seq<seq<Line>>): seq<Chunk> {
    seq(|batch|, i requires 0 <= i < |batch| => Text(batch[i]))
  }

  /** An overloaded backend keeps two buffers of its batch. */
  function Kept<B>(batch: seq<Buf<B>>): seq<Buf<B>> {
    if |batch| > 25 then batch[..2] else batch
  }

  function NoticeFor<B>(batch: seq<Buf<B>>): seq<Chunk> {
    if |batch| > 25 then [Notice(|batch| - 2)] else []
  }

  /** The code after the critical section, line by line: drop, write, keep two, refill the
      spares from the back. */
  function WriteOut<B>(s: Log<B>): Log<B> {
    var kept := Kept(s.toWrite);
    var two := if |kept| > 2 then kept[..2] else kept;
    if two == [] || (s.spare1.None? && s.spare2.None? && |two| < 2) then s.(aborted := true)
    else
      var last := |two| - 1;
      var spare1 := if s.spare1.None? then Some(two[last].(lines := [])) else s.spare1;
      var rest := if s.spare1.None? then two[..last] else two;
      var spare2 := if s.spare2.None? then Some(rest[|rest| - 1].(lines := [])) else s.spare2;
      s.(written := s.written + NoticeFor(s.toWrite) + Texts(Lines(kept)), spare1 := spare1,
         spare2 := spare2, toWrite := [], writing := false)
  }

  datatype Step<B> = AppendLine(line: Line, id: B) | CollectAll | WriteAll

  // ---------------------------------------------------------------- ownership

  function One<B>(o: Option<Buf<B>>): multiset<B> {
    if o.Some? then multiset{o.value.id} else multiset{}
  }

  function Ids<B>(bs: seq<Buf<B>>): seq<B> {
    seq(|bs|, i requires 0 <= i < |bs| => bs[i].id)
  }

  function Bag<B>(bs: seq<Buf<B>>): multiset<B> {
    multiset(Ids(bs))
  }

  /** Every buffer object either side holds, counted. */
  function Owned<B>(s: Log<B>): multiset<B> {
    Front(s) + Back(s)
  }

  function Front<B>(s: Log<B>): multiset<B> {
    multiset{s.current.id} + One(s.next) + Bag(s.full)
  }

  function Back<B>(s: Log<B>): multiset<B> {
    One(s.spare1) + One(s.spare2) + Bag(s.toWrite)
  }

  predicate OnceEach<B(==)>(m: multiset<B>) {
    forall x <- m :: m[x] == 1
  }

  predicate Enabled<B(==)>(s: Log<B>, step: Step<B>) {
    match step
    case AppendLine(_, id) => id !in Owned(s)
    case CollectAll => !s.writing
    case WriteAll => s.writing
  }

  function Apply<B(==)>(s: Log<B>, step: Step<B>): Log<B>
    requires Enabled(s, step)
  {
    match step
    case AppendLine(line, id) => Append(s, line, id)
    case CollectAll => Collect(s)
    case WriteAll => WriteOut(s)
  }

  // ---------------------------------------------------------------- the invariant

  /** No object is held twice; a missing spare in the front means a full buffer is waiting;
      between rounds the backend has both its spares, empty. */
  ghost predicate OwnInv<B>(s: Log<B>) {
    && !s.aborted
    && OnceEach(Owned(s)) && SlotsOk(s)
  }

  ghost predicate AllFit<B>(bs: seq<Buf<B>>) { forall b <- bs :: Size(b.lines) < CAPACITY }

  ghost predicate SlotsOk<B>(s: Log<B>) {
    && (s.next.None? ==> s.full != [])
    && (s.next.Some? ==> s.next.value.lines == [])
    && (s.spare1.Some? ==> s.spare1.value.lines == [])
    && (s.spare2.Some? ==> s.spare2.value.lines == [])
    && (s.writing ==> s.toWrite != [] && s.spare1.None? && (s.spare2.None? ==> |s.toWrite| >= 2))
    && (!s.writing ==> s.toWrite == [] && s.spare1.Some? && s.spare2.Some?)
    && Size(s.current.lines) < CAPACITY
    && AllFit(s.full) && AllFit(s.toWrite)
  }

  function Fits(lines: seq<Line>): seq<Line> {
    if lines == [] then []
    else
      var last := lines[|lines| - 1];
      Fits(lines[..|lines| - 1]) + if |last| < CAPACITY then [last] else []
  }

  function Flatten<T>(ss: seq<seq<T>>): seq<T> {
    if ss == [] then [] else Flatten(ss[..|ss| - 1]) + ss[|ss| - 1]
  }

  function FlatRender(batches: seq<seq<seq<Line>>>): seq<Chunk> {
    if batches == [] then [] else FlatRender(batches[..|batches| - 1]) + Render(batches[|batches| - 1])
  }

  /** The batches whose chunks are in the file already. */
  function Finished<B>(s: Log<B>): seq<seq<seq<Line>>> {
    if s.writing && s.batches != [] then s.batches[..|s.batches| - 1] else s.batches
  }

  /** Every line that fits a buffer is in exactly one place, in order, whole: in a collected
      batch, in a full buffer, or in the current one. */
  ghost predicate LinesInv<B>(s: Log<B>) {
    Fits(s.appended) == Flatten(Flatten(s.batches)) + Flatten(Lines(s.full)) + s.current.lines
  }

  /** The file is what the finished batches render to. */
  ghost predicate FileInv<B>(s: Log<B>) {
    && s.written == FlatRender(Finished(s))
    && (s.writing ==> s.batches != [] && s.batches[|s.batches| - 1] == Lines(s.toWrite))
  }

  ghost predicate FlowInv<B>(s: Log<B>) { LinesInv(s) && FileInv(s) }

  ghost predicate Inv<B>(s: Log<B>) { OwnInv(s) && FlowInv(s) }

  // ---------------------------------------------------------------- small facts

  lemma FlattenSnoc<T>(ss: seq<seq<T>>, s: seq<T>)
    ensures Flatten(ss + [s]) == Flatten(ss) + s
  {
    assert (ss + [s])[..|ss|] == ss;
  }

  lemma {:induction false} FlattenAppend<T>(a: seq<seq<T>>, b: seq<seq<T>>)
    ensures Flatten(a + b) == Flatten(a) + Flatten(b)
  {
    if b == [] {
      assert a + b == a;
    } else {
      var b', x := b[..|b| - 1], b[|b| - 1];
      assert b == b' + [x];
      assert a + b == (a + b') + [x];
      FlattenAppend(a, b');
      FlattenSnoc(a + b', x);
      FlattenSnoc(b', x);
    }
  }

  lemma SizeSnoc(lines: seq<Line>, line: Line)
    ensures Size(lines + [line]) == Size(lines) + |line|
  {
    assert (lines + [line])[..|lines|] == lines;
  }

  lemma FitsSnoc(lines: seq<Line>, line: Line)
    ensures Fits(lines + [line]) == Fits(lines) + if |line| < CAPACITY then [line] else []
  {
    assert (lines + [line])[..|lines|] == lines;
  }

  lemma LinesSnoc<B>(bs: seq<Buf<B>>, b: Buf<B>)
    ensures Lines(bs + [b]) == Lines(bs) + [b.lines]
  {
  }

  // ---------------------------------------------------------------- every step keeps it

  lemma BagSnoc<B>(bs: seq<Buf<B>>, b: Buf<B>)
    ensures Bag(bs + [b]) == Bag(bs) + multiset{b.id}
  {
    assert Ids(bs + [b]) == Ids(bs) + [b.id];
  }

  lemma AppendOwned<B>(s: Log<B>, line: Line, id: B)
    ensures var s' := Append(s, line, id);
            && Back(s') == Back(s)
            && Front(s') == Front(s) + if CAPACITY <= Size(s.current.lines) + |line| && s.next.None?
                                       then multiset{id} else multiset{}
  {
    var s' := Append(s, line, id);
    if CAPACITY <= Size(s.current.lines) + |line| {
      BagSnoc(s.full, s.current);
      var one := if s.next.Some? then s.next.value.id else id;
      assert Front(s') == multiset{one} + multiset{} + (Bag(s.full) + multiset{s.current.id});
      Rotated(multiset{one}, Bag(s.full), multiset{s.current.id});
    } else {
      assert s'.current.id == s.current.id;
      assert Front(s') == Front(s) + multiset{};
    }
  }

  lemma Rotated<B>(n: multiset<B>, f: multiset<B>, c: multiset<B>)
    ensures n + multiset{} + (f + c) == c + n + f == c + multiset{} + f + n
  {
  }

  lemma SumSwap<B>(a: multiset<B>, b: multiset<B>, c: multiset<B>)
    ensures (a + b) + c == (a + c) + b
  {
  }

  lemma OnceEachPlus<B>(m: multiset<B>, x: B)
    requires OnceEach(m) && x !in m
    ensures OnceEach(m + multiset{x}) && OnceEach(m + multiset{})
  {
    assert m + multiset{} == m;
  }

  lemma AppendKeepsOwn<B>(s: Log<B>, line: Line, id: B)
    requires OwnInv(s) && Enabled(s, AppendLine(line, id))
    ensures OwnInv(Append(s, line, id))
  {
    AppendOwned(s, line, id);
    var more := if CAPACITY <= Size(s.current.lines) + |line| && s.next.None? then multiset{id} else multiset{};
    SumSwap(Front(s), more, Back(s));
    OnceEachPlus(Owned(s), id);
    AppendKeepsSlots(s, line, id);
  }

  lemma PutFits<B>(b: Buf<B>, line: Line)
    requires Size(b.lines) < CAPACITY
    ensures Size(Put(b, line).lines) < CAPACITY
  {
    SizeSnoc(b.lines, line);
  }

  lemma AppendKeepsSlots<B>(s: Log<B>, line: Line, id: B)
    requires SlotsOk(s)
    ensures SlotsOk(Append(s, line, id))
  {
    if CAPACITY > Size(s.current.lines) + |line| {
      PutFits(s.current, line);
    } else {
      PutFits(if s.next.Some? then s.next.value else Buf(id, []), line);
      FitSnoc(s.full, s.current);
    }
  }

  lemma FitSnoc<B>(bs: seq<Buf<B>>, b: Buf<B>)
    requires AllFit(bs) && Size(b.lines) < CAPACITY
    ensures AllFit(bs + [b])
  {
  }

  lemma CollectOwned<B>(s: Log<B>)
    requires SlotsOk(s) && !s.writing
    ensures Owned(Collect(s)) == Owned(s)
  {
    var s' := Collect(s);
    BagSnoc(s.full, s.current);
    assert Bag(s.toWrite) == multiset{} && Bag(s'.full) == multiset{};
    Exchanged(multiset{s.current.id}, One(s.next), Bag(s.full), One(s.spare1), One(s.spare2));
  }

  lemma Exchanged<B>(c: multiset<B>, n: multiset<B>, f: multiset<B>, s1: multiset<B>, s2: multiset<B>)
    ensures (s1 + n + multiset{}) + (multiset{} + s2 + (f + c)) == (c + n + f) + (s1 + s2 + multiset{})
    ensures (s1 + s2 + multiset{}) + (multiset{} + multiset{} + (f + c))
            == (c + multiset{} + f) + (s1 + s2 + multiset{})
  {
  }

  lemma CollectKeepsOwn<B>(s: Log<B>)
    requires OwnInv(s) && !s.writing
    ensures OwnInv(Collect(s))
  {
    CollectOwned(s);
    FitSnoc(s.full, s.current);
  }

  /** The buffers reset() keeps are among those written. */
  lemma BagFirstTwo<B>(bs: seq<Buf<B>>)
    requires bs != []
    ensures multiset{bs[0].id} <= Bag(bs)
    ensures |bs| > 1 ==> multiset{bs[0].id, bs[1].id} <= Bag(bs)
  {
    var n := if |bs| > 1 then 2 else 1;
    assert Ids(bs) == Ids(bs)[..n] + Ids(bs)[n..];
    assert Ids(bs)[..n] == if |bs| > 1 then [bs[0].id, bs[1].id] else [bs[0].id];
  }

  lemma WriteOutIs<B>(s: Log<B>)
    requires s.spare1.None? && s.toWrite != [] && (s.spare2.None? ==> |s.toWrite| > 1)
    ensures var b := s.toWrite;
            WriteOut(s) == s.(written := s.written + NoticeFor(b) + Texts(Lines(Kept(b))),
                              spare1 := Some(Buf(b[if |b| == 1 then 0 else 1].id, [])),
                              spare2 := if s.spare2.Some? then s.spare2 else Some(Buf(b[0].id, [])),
                              toWrite := [], writing := false)
  {
    var b := s.toWrite;
    if |b| > 1 {
      assert b[..2][..1] == [b[0]] && b[..1] == [b[0]];
    }
  }

  /** Which buffers become the spares. */
  lemma WriteOutSpares<B>(s: Log<B>)
    requires SlotsOk(s) && s.writing
    ensures var s' := WriteOut(s);
            var b := s.toWrite;
            && s'.aborted == s.aborted && s'.toWrite == [] && !s'.writing
            && s'.current == s.current && s'.next == s.next && s'.full == s.full
            && s'.spare1 == Some(Buf(b[if |b| == 1 then 0 else 1].id, []))
            && s'.spare2 == if s.spare2.Some? then s.spare2 else Some(Buf(b[0].id, []))
  {
    WriteOutIs(s);
  }

  /** The buffers that WriteOut takes back into the spares. */
  function Taken<B>(s: Log<B>): multiset<B>
    requires s.toWrite != []
  {
    var b := s.toWrite;
    if |b| == 1 then multiset{b[0].id}
    else if s.spare2.Some? then multiset{b[1].id} else multiset{b[1].id, b[0].id}
  }

  lemma TakenIsHeld<B>(s: Log<B>)
    requires s.toWrite != []
    ensures Taken(s) <= Bag(s.toWrite)
  {
    BagFirstTwo(s.toWrite);
  }

  lemma WriteOutBack<B>(s: Log<B>)
    requires SlotsOk(s) && s.writing
    ensures Front(WriteOut(s)) == Front(s)
    ensures Back(WriteOut(s)) == (One(s.spare2) + Taken(s)) + multiset{}
  {
    var s' := WriteOut(s);
    WriteOutSpares(s);
    assert One(s'.spare1) + One(s'.spare2) == One(s.spare2) + Taken(s);
  }

  lemma WriteOutOwned<B>(s: Log<B>)
    requires SlotsOk(s) && s.writing
    ensures Owned(WriteOut(s)) <= Owned(s)
  {
    WriteOutBack(s);
    TakenIsHeld(s);
    SumGrows(Front(s), One(s.spare2), Taken(s), Bag(s.toWrite));
  }

  lemma SumGrows<B>(f: multiset<B>, o: multiset<B>, k: multiset<B>, b: multiset<B>)
    requires k <= b
    ensures f + ((o + k) + multiset{}) <= f + (multiset{} + o + b)
  {
  }

  lemma OnceEachSubset<B>(m: multiset<B>, m': multiset<B>)
    requires OnceEach(m) && m' <= m
    ensures OnceEach(m')
  {
  }

  /** The two assertions that the back of the batch is there to be taken hold. */
  lemma WriteOutKeepsOwn<B>(s: Log<B>)
    requires OwnInv(s) && s.writing
    ensures OwnInv(WriteOut(s))
  {
    WriteOutSpares(s);
    WriteOutOwned(s);
    OnceEachSubset(Owned(s), Owned(WriteOut(s)));
  }

  /** Where append puts the line: behind the others of the current buffer, or alone in a new
      one; nowhere if it fits none. */
  lemma AppendShape<B>(s: Log<B>, line: Line, id: B)
    requires SlotsOk(s)
    ensures var s' := Append(s, line, id);
            if CAPACITY > Size(s.current.lines) + |line|
            then |line| < CAPACITY && s'.full == s.full && s'.current.lines == s.current.lines + [line]
            else Lines(s'.full) == Lines(s.full) + [s.current.lines]
                 && s'.current.lines == if |line| < CAPACITY then [line] else []
  {
    LinesSnoc(s.full, s.current);
  }

  lemma AppendKeepsLines<B>(s: Log<B>, line: Line, id: B)
    requires SlotsOk(s) && LinesInv(s)
    ensures LinesInv(Append(s, line, id))
  {
    var s' := Append(s, line, id);
    FitsSnoc(s.appended, line);
    LineKept(s, line, id);
    Join3(Flatten(Flatten(s.batches)), Flatten(Lines(s.full)), s.current.lines);
    Join3(Flatten(Flatten(s.batches)), Flatten(Lines(s'.full)), s'.current.lines);
    Join3(Flatten(Flatten(s.batches)), Flatten(Lines(s.full)) + s.current.lines,
          if |line| < CAPACITY then [line] else []);
  }

  lemma AppendKeepsFlow<B>(s: Log<B>, line: Line, id: B)
    requires SlotsOk(s) && FlowInv(s)
    ensures FlowInv(Append(s, line, id))
  {
    AppendKeepsLines(s, line, id);
    FileUntouched(s, Append(s, line, id));
  }

  lemma FileUntouched<B>(s: Log<B>, s': Log<B>)
    requires FileInv(s)
    requires s'.batches == s.batches && s'.written == s.written && s'.writing == s.writing && s'.toWrite == s.toWrite
    ensures FileInv(s')
  {
    assert Finished(s') == Finished(s);
  }

  lemma Regroup<T>(a: seq<T>, b: seq<T>, c: seq<T>, d: seq<T>)
    ensures (a + b + c) + d == a + b + (c + d) == a + (b + c) + d
  {
  }

  lemma CollectKeepsFlow<B>(s: Log<B>)
    requires SlotsOk(s) && FlowInv(s) && !s.writing
    ensures FlowInv(Collect(s))
  {
    var s' := Collect(s);
    var all := Lines(s.full + [s.current]);
    LinesSnoc(s.full, s.current);
    FlattenSnoc(Lines(s.full), s.current.lines);
    FlattenSnoc(s.batches, all);
    FlattenAppend(Flatten(s.batches), all);
    assert Lines(s'.full) == [] && s'.current.lines == [];
    Regroup(Flatten(Flatten(s.batches)), Flatten(Lines(s.full)), s.current.lines, []);
    assert s'.batches[..|s'.batches| - 1] == s.batches;
  }

  lemma RenderOf<B>(bs: seq<Buf<B>>)
    ensures Render(Lines(bs)) == NoticeFor(bs) + Texts(Lines(Kept(bs)))
  {
  }

  lemma Join3<T>(a: seq<T>, b: seq<T>, c: seq<T>)
    ensures a + b + c == a + (b + c)
  {
  }

  lemma WriteOutWrites<B>(s: Log<B>)
    requires SlotsOk(s) && s.writing
    ensures WriteOut(s).written == s.written + Render(Lines(s.toWrite))
    ensures WriteOut(s).batches == s.batches && WriteOut(s).appended == s.appended
  {
    RenderOf(s.toWrite);
    Join3(s.written, NoticeFor(s.toWrite), Texts(Lines(Kept(s.toWrite))));
  }

  lemma RenderSnoc(batches: seq<seq<seq<Line>>>, batch: seq<seq<Line>>)
    ensures FlatRender(batches + [batch]) == FlatRender(batches) + Render(batch)
  {
    assert (batches + [batch])[..|batches|] == batches;
  }

  lemma WriteOutKeepsFile<B>(s: Log<B>)
    requires SlotsOk(s) && FileInv(s) && s.writing
    ensures FileInv(WriteOut(s))
  {
    WriteOutSpares(s);
    WriteOutWrites(s);
    RenderSnoc(Finished(s), Lines(s.toWrite));
    assert s.batches == Finished(s) + [Lines(s.toWrite)];
  }

  lemma WriteOutKeepsFlow<B>(s: Log<B>)
    requires SlotsOk(s) && FlowInv(s) && s.writing
    ensures FlowInv(WriteOut(s))
  {
    WriteOutSpares(s);
    WriteOutWrites(s);
    WriteOutKeepsFile(s);
  }

  lemma StepKeepsInv<B>(s: Log<B>, step: Step<B>)
    requires Inv(s) && Enabled(s, step)
    ensures Inv(Apply(s, step))
  {
    match step {
      case AppendLine(line, id) =>
        AppendKeepsOwn(s, line, id);
        AppendKeepsFlow(s, line, id);
      case CollectAll =>
        CollectKeepsOwn(s);
        CollectKeepsFlow(s);
      case WriteAll =>
        WriteOutKeepsOwn(s);
        WriteOutKeepsFlow(s);
    }
  }

  // ---------------------------------------------------------------- whole runs

  ghost predicate IsRun<B>(s: Log<B>, steps: seq<Step<B>>)
    decreases steps
  {
    steps == [] || (Enabled(s, steps[0]) && IsRun(Apply(s, steps[0]), steps[1..]))
  }

  function After<B(==)>(s: Log<B>, steps: seq<Step<B>>): Log<B>
    requires IsRun(s, steps)
    decreases steps
  {
    if steps == [] then s else After(Apply(s, steps[0]), steps[1..])
  }

  /** Four empty buffers: two in the front, two in the backend. */
  function Start<B>(a: B, b: B, c: B, d: B): Log<B> {
    Log(Buf(a, []), Some(Buf(b, [])), [], Some(Buf(c, [])), Some(Buf(d, [])), [], false, [], false, [], [])
  }

  lemma StartInv<B>(a: B, b: B, c: B, d: B)
    requires a != b && a != c && a != d && b != c && b != d && c != d
    ensures Inv(Start(a, b, c, d))
  {
    var s := Start(a, b, c, d);
    assert Ids(s.full) == [] && Ids(s.toWrite) == [] && Lines(s.full) == [];
    assert Owned(s) == multiset{a, b, c, d};
  }

  lemma {:induction false} RunKeepsInv<B>(s: Log<B>, steps: seq<Step<B>>)
    requires Inv(s) && IsRun(s, steps)
    ensures Inv(After(s, steps))
    decreases steps
  {
    if steps != [] {
      StepKeepsInv(s, steps[0]);
      RunKeepsInv(Apply(s, steps[0]), steps[1..]);
    }
  }

  /** In every interleaving of appends with the backend: no buffer is ever held twice, the
      assertions on the spares never fail, and at the head of the backend's loop both spares
      are there and empty. */
  lemma BuffersOwnedOnce<B>(a: B, b: B, c: B, d: B, steps: seq<Step<B>>)
    requires a != b && a != c && a != d && b != c && b != d && c != d
    requires IsRun(Start(a, b, c, d), steps)
    ensures var s := After(Start(a, b, c, d), steps);
            && !s.aborted && OnceEach(Owned(s))
            && (s.next.None? ==> s.full != [])
            && (!s.writing ==> s.spare1.Some? && s.spare1.value.lines == []
                               && s.spare2.Some? && s.spare2.value.lines == [] && s.toWrite == [])
  {
    StartInv(a, b, c, d);
    RunKeepsInv(Start(a, b, c, d), steps);
  }

  /** The lines of a file, notices left out. */
  function TextOf(chunks: seq<Chunk>): seq<Line> {
    if chunks == [] then []
    else
      var last := chunks[|chunks| - 1];
      TextOf(chunks[..|chunks| - 1]) + if last.Text? then last.lines else []
  }

  lemma {:induction false} TextOfAppend(a: seq<Chunk>, b: seq<Chunk>)
    ensures TextOf(a + b) == TextOf(a) + TextOf(b)
  {
    if b == [] {
      assert a + b == a;
    } else {
      var b' := b[..|b| - 1];
      assert (a + b)[..|a + b| - 1] == a + b';
      TextOfAppend(a, b');
    }
  }

  lemma {:induction false} TextOfTexts(batch: seq<seq<Line>>)
    ensures TextOf(Texts(batch)) == Flatten(batch)
  {
    var cs := Texts(batch);
    if batch != [] {
      var batch' := batch[..|batch| - 1];
      TextOfTexts(batch');
      assert cs[..|cs| - 1] == Texts(batch');
    }
  }

  /** A batch of up to 25 buffers is written whole. A longer one is written up to its second
      buffer, exactly the rest of it is lost, and the notice says how many buffers that is. */
  lemma OverloadLoses(batch: seq<seq<Line>>)
    ensures |batch| <= 25 ==> TextOf(Render(batch)) == Flatten(batch)
    ensures |batch| > 25 ==> TextOf(Render(batch)) == Flatten(batch[..2])
                             && Render(batch)[0] == Notice(|batch[2..]|)
                             && Flatten(batch) == TextOf(Render(batch)) + Flatten(batch[2..])
  {
    if |batch| <= 25 {
      TextOfTexts(batch);
    } else {
      var r := Render(batch);
      var two := batch[..2];
      TextOfTexts(two);
      assert r == [Notice(|batch| - 2)] + Texts(two);
      TextOfAppend([Notice(|batch| - 2)], Texts(two));
      assert TextOf([Notice(|batch| - 2)]) == [] by { assert [Notice(|batch| - 2)][..0] == []; }
      FlattenAppend(two, batch[2..]);
      assert batch == two + batch[2..];
    }
  }

  lemma {:induction false} SmallBatchesWhole(batches: seq<seq<seq<Line>>>)
    requires forall b <- batches :: |b| <= 25
    ensures TextOf(FlatRender(batches)) == Flatten(Flatten(batches))
  {
    if batches != [] {
      var before, last := batches[..|batches| - 1], batches[|batches| - 1];
      assert batches == before + [last];
      assert forall b <- before :: b in batches;
      SmallBatchesWhole(before);
      OverloadLoses(last);
      TextOfAppend(FlatRender(before), Render(last));
      FlattenAppend(Flatten(before), last);
    }
  }

  /** What the file does not have yet: the batch being written, the full buffers, and the
      current one. */
  function Unwritten<B>(s: Log<B>): seq<Line> {
    (if s.writing then Flatten(Lines(s.toWrite)) else []) + Flatten(Lines(s.full)) + s.current.lines
  }

  function GivenBy<B>(step: Step<B>): seq<Line> {
    if step.AppendLine? then [step.line] else []
  }

  /** The lines that a run appends, in lock order. */
  function Given<B>(steps: seq<Step<B>>): seq<Line> {
    if steps == [] then [] else GivenBy(steps[0]) + Given(steps[1..])
  }

  lemma WritingAppends<B>(s: Log<B>)
    ensures WriteOut(s).appended == s.appended && Collect(s).appended == s.appended
  {
  }

  lemma StepAppends<B>(s: Log<B>, step: Step<B>)
    requires Enabled(s, step)
    ensures Apply(s, step).appended == s.appended + GivenBy(step)
  {
    match step {
      case AppendLine(line, id) =>
      case _ =>
        WritingAppends(s);
        assert s.appended + [] == s.appended;
    }
  }

  lemma {:induction false} RunAppends<B>(s: Log<B>, steps: seq<Step<B>>)
    requires IsRun(s, steps)
    ensures After(s, steps).appended == s.appended + Given(steps)
    decreases steps
  {
    if steps != [] {
      StepAppends(s, steps[0]);
      RunAppends(Apply(s, steps[0]), steps[1..]);
      Join3(s.appended, GivenBy(steps[0]), Given(steps[1..]));
    }
  }

  /** Conservation. Every appended line shorter than a buffer is, whole and in lock order, in
      a collected batch, in a full buffer or in the current one; the file is exactly what the
      finished batches render to. So while no batch exceeds 25 buffers, the file followed by
      what is still held is everything appended. */
  lemma LogConservation<B>(a: B, b: B, c: B, d: B, steps: seq<Step<B>>)
    requires a != b && a != c && a != d && b != c && b != d && c != d
    requires IsRun(Start(a, b, c, d), steps)
    ensures var s := After(Start(a, b, c, d), steps);
            && s.appended == Given(steps)
            && Fits(s.appended) == Flatten(Flatten(s.batches)) + Flatten(Lines(s.full)) + s.current.lines
            && s.written == FlatRender(Finished(s))
            && ((forall x <- s.batches :: |x| <= 25) ==> TextOf(s.written) + Unwritten(s) == Fits(s.appended))
  {
    ReachedFlow(a, b, c, d, steps);
    Conserved(After(Start(a, b, c, d), steps));
  }

  lemma ReachedFlow<B>(a: B, b: B, c: B, d: B, steps: seq<Step<B>>)
    requires a != b && a != c && a != d && b != c && b != d && c != d
    requires IsRun(Start(a, b, c, d), steps)
    ensures FlowInv(After(Start(a, b, c, d), steps)) && After(Start(a, b, c, d), steps).appended == Given(steps)
  {
    StartInv(a, b, c, d);
    RunKeepsInv(Start(a, b, c, d), steps);
    RunAppends(Start(a, b, c, d), steps);
    assert [] + Given(steps) == Given(steps);
  }

  lemma Conserved<B>(s: Log<B>)
    requires FlowInv(s)
    ensures Fits(s.appended) == Flatten(Flatten(s.batches)) + Flatten(Lines(s.full)) + s.current.lines
    ensures s.written == FlatRender(Finished(s))
    ensures (forall x <- s.batches :: |x| <= 25) ==> TextOf(s.written) + Unwritten(s) == Fits(s.appended)
  {
    if forall x <- s.batches :: |x| <= 25 {
      NothingLost(s);
    }
  }

  lemma NothingLost<B>(s: Log<B>)
    requires FlowInv(s) && forall x <- s.batches :: |x| <= 25
    ensures TextOf(s.written) + Unwritten(s) == Fits(s.appended)
  {
    var taken := if s.writing then Flatten(Lines(s.toWrite)) else [];
    assert forall x <- Finished(s) :: x in s.batches;
    SmallBatchesWhole(Finished(s));
    TakenSplit(s);
    Chain(TextOf(s.written), taken, Flatten(Lines(s.full)), s.current.lines);
  }

  lemma TakenSplit<B>(s: Log<B>)
    requires s.writing ==> s.batches != [] && s.batches[|s.batches| - 1] == Lines(s.toWrite)
    ensures Flatten(Flatten(s.batches))
            == Flatten(Flatten(Finished(s))) + if s.writing then Flatten(Lines(s.toWrite)) else []
  {
    if s.writing {
      var before, batch := Finished(s), Lines(s.toWrite);
      assert s.batches == before + [batch];
      FlattenSnoc(before, batch);
      FlattenAppend(Flatten(before), batch);
    }
  }

  lemma Chain<T>(a: seq<T>, b: seq<T>, c: seq<T>, d: seq<T>)
    ensures a + (b + c + d) == (a + b) + c + d
  {
  }

  /** stop() lets the backend leave at the head of its loop, with no last collection. The log
      is complete then exactly when nothing is held in the front. */
  lemma StopLosesTheRest<B>(s: Log<B>)
    requires Inv(s) && !s.writing && forall x <- s.batches :: |x| <= 25
    ensures TextOf(s.written) == Fits(s.appended) <==> Flatten(Lines(s.full)) == [] && s.current.lines == []
  {
    NothingLost(s);
    assert |TextOf(s.written) + Unwritten(s)| == |TextOf(s.written)| + |Unwritten(s)|;
  }

  /** A line is lost at append exactly when it is as long as a whole buffer or longer. */
  lemma LineKept<B>(s: Log<B>, line: Line, id: B)
    requires SlotsOk(s)
    ensures var s' := Append(s, line, id);
            Flatten(Lines(s'.full)) + s'.current.lines
            == Flatten(Lines(s.full)) + s.current.lines + if |line| < CAPACITY then [line] else []
    ensures var s' := Append(s, line, id);
            if Size(s.current.lines + [line]) < CAPACITY
            then s'.full == s.full && s'.current.id == s.current.id && s'.next == s.next
            else s'.full == s.full + [s.current] && s'.next == None
                 && s'.current.id == if s.next.Some? then s.next.value.id else id
  {
    SizeSnoc(s.current.lines, line);
    AppendShape(s, line, id);
    if CAPACITY > Size(s.current.lines) + |line| {
      Join3(Flatten(Lines(s.full)), s.current.lines, [line]);
    } else {
      FlattenSnoc(Lines(s.full), s.current.lines);
    }
  }

  // ---------------------------------------------------------------- the object

  /** The bytes of a buffer that holds these lines. */
  function Join(lines: seq<Line>): (text: string)
    ensures |text| == Size(lines)
  {
    if lines == [] then [] else Join(lines[..|lines| - 1]) + lines[|lines| - 1]
  }

  /** On bytes, Put is FixedBuffer::append: all of the line, or none of it. */
  lemma PutBytes<B>(b: Buf<B>, line: Line)
    ensures Join(Put(b, line).lines) == if CAPACITY - |Join(b.lines)| > |line| then Join(b.lines) + line
                                        else Join(b.lines)
  {
    assert (b.lines + [line])[..|b.lines|] == b.lines;
  }

  /** A FixedBuffer<kLargeBuffer>, seen line by line. */
  class LineBuffer {
    var lines: seq<Line>

    constructor ()
      ensures lines == []
    {
      lines := [];
    }

    method Append(line: Line)
      modifies this
      ensures lines == Put(Buf(this, old(lines)), line).lines
    {
      if CAPACITY > Size(lines) + |line| {
        lines := lines + [line];
      }
    }

    method Reset()
      modifies this
      ensures lines == []
    {
      lines := [];
    }
  }

  ghost function AsBuf(b: LineBuffer): Buf<LineBuffer>
    reads b
  {
    Buf(b, b.lines)
  }

  ghost function AsOption(b: LineBuffer?): Option<Buf<LineBuffer>>
    reads b
  {
    if b == null then None else Some(AsBuf(b))
  }

  ghost function AsBufs(bs: seq<LineBuffer>): (r: seq<Buf<LineBuffer>>)
    reads bs
    ensures Ids(r) == bs
  {
    seq(|bs|, i requires 0 <= i < |bs| reads bs => Buf(bs[i], bs[i].lines))
  }

  lemma Once<B>(s: Log<B>, x: B)
    requires OnceEach(Owned(s))
    ensures (if x == s.current.id then 1 else 0) + One(s.next)[x] + Bag(s.full)[x]
            + One(s.spare1)[x] + One(s.spare2)[x] + Bag(s.toWrite)[x] <= 1
  {
    if x in Owned(s) {
      assert Owned(s)[x] == 1;
    }
    assert Front(s)[x] == multiset{s.current.id}[x] + One(s.next)[x] + Bag(s.full)[x];
    assert Back(s)[x] == One(s.spare1)[x] + One(s.spare2)[x] + Bag(s.toWrite)[x];
    assert Owned(s)[x] == Front(s)[x] + Back(s)[x];
  }

  /** The fields both sides share, under the lock, and the locals of the backend. */
  class AsyncLogging {
    var currentBuffer: LineBuffer
    var nextBuffer: LineBuffer?
    var buffers: seq<LineBuffer>
    var newBuffer1: LineBuffer?
    var newBuffer2: LineBuffer?
    var buffersToWrite: seq<LineBuffer>
    var output: seq<Chunk>
    ghost var writing: bool
    ghost var appended: seq<Line>
    ghost var batches: seq<seq<seq<Line>>>

    ghost function Value(): Log<LineBuffer>
      reads this, currentBuffer, nextBuffer, buffers, newBuffer1, newBuffer2, buffersToWrite
    {
      Log(AsBuf(currentBuffer), AsOption(nextBuffer), AsBufs(buffers), AsOption(newBuffer1), AsOption(newBuffer2),
          AsBufs(buffersToWrite), writing, output, false, appended, batches)
    }

    /** No object is held in two places: what append and the writing rely on. */
    ghost predicate Separate()
      reads this
    {
      && currentBuffer != nextBuffer && currentBuffer != newBuffer1 && currentBuffer != newBuffer2
      && currentBuffer !in buffers && currentBuffer !in buffersToWrite
      && (nextBuffer != null ==> nextBuffer != newBuffer1 && nextBuffer != newBuffer2
                                 && nextBuffer !in buffers && nextBuffer !in buffersToWrite)
      && (newBuffer2 != null ==> newBuffer2 !in buffersToWrite)
      && forall b <- buffersToWrite :: b !in buffers
    }

    lemma AlwaysSeparate()
      requires OwnInv(Value())
      ensures Separate()
    {
      var s := Value();
      Once(s, currentBuffer);
      if nextBuffer != null {
        Once(s, nextBuffer);
      }
      if newBuffer2 != null {
        Once(s, newBuffer2);
      }
      forall b | b in buffersToWrite ensures b !in buffers {
        Once(s, b);
        assert b in Bag(s.toWrite);
        assert b in buffers ==> b in Bag(s.full);
      }
    }

    /** The front's two buffers, and the two the backend makes before its loop. */
    constructor ()
      ensures nextBuffer != null && newBuffer1 != null && newBuffer2 != null
      ensures Value() == Start(currentBuffer, nextBuffer as LineBuffer, newBuffer1 as LineBuffer,
                               newBuffer2 as LineBuffer)
      ensures Inv(Value())
    {
      var a := new LineBuffer();
      var b := new LineBuffer();
      var c := new LineBuffer();
      var d := new LineBuffer();
      currentBuffer, nextBuffer, newBuffer1, newBuffer2 := a, b, c, d;
      buffers, buffersToWrite, output := [], [], [];
      writing, appended, batches := false, [], [];
      new;
      StartInv(a, b, c, d);
    }

    /** FixedBuffer::append on the current buffer. */
    method PutCurrent(line: Line)
      requires currentBuffer != nextBuffer && currentBuffer != newBuffer1 && currentBuffer != newBuffer2
      requires currentBuffer !in buffers && currentBuffer !in buffersToWrite
      modifies currentBuffer
      ensures Value() == old(Value()).(current := Put(old(AsBuf(currentBuffer)), line))
    {
      currentBuffer.Append(line);
      assert AsBufs(buffers) == old(AsBufs(buffers));
      assert AsBufs(buffersToWrite) == old(AsBufs(buffersToWrite));
    }

    /** A full current buffer joins the queue; the next one, or a new one, takes its place. */
    method Rotate()
      modifies this`currentBuffer, this`nextBuffer, this`buffers
      ensures old(nextBuffer) != null ==> currentBuffer == old(nextBuffer)
      ensures old(nextBuffer) == null ==> fresh(currentBuffer) && currentBuffer.lines == []
      ensures nextBuffer == null && buffers == old(buffers + [currentBuffer])
      ensures Value() == old(Value()).(full := old(AsBufs(buffers) + [AsBuf(currentBuffer)]), next := None,
                                       current := AsBuf(currentBuffer))
    {
      buffers := buffers + [currentBuffer];
      assert AsBufs(buffers) == old(AsBufs(buffers) + [AsBuf(currentBuffer)]);
      if nextBuffer != null {
        currentBuffer := nextBuffer;
        nextBuffer := null;
      } else {
        currentBuffer := new LineBuffer();
      }
    }

    method AppendLine(line: Line)
      requires Separate()
      modifies this`currentBuffer, this`nextBuffer, this`buffers, this`appended, currentBuffer, nextBuffer
      ensures Value() == Append(old(Value()), line, currentBuffer)
      ensures currentBuffer == old(currentBuffer) || currentBuffer == old(nextBuffer) || fresh(currentBuffer)
    {
      appended := appended + [line];
      if CAPACITY - Size(currentBuffer.lines) > |line| {
        PutCurrent(line);
      } else {
        Rotate();
        PutCurrent(line);
      }
    }

    /** The critical section of the backend, after its wait. */
    method CollectBuffers()
      requires newBuffer1 != null && newBuffer1.lines == []
      requires newBuffer2 != null && newBuffer2.lines == []
      requires buffersToWrite == []
      modifies this`currentBuffer, this`nextBuffer, this`buffers, this`newBuffer1, this`newBuffer2,
               this`buffersToWrite, this`writing, this`batches
      ensures Value() == Collect(old(Value()))
    {
      TakeAll();
      if nextBuffer == null {
        nextBuffer, newBuffer2 := newBuffer2, null;
      }
    }

    /** The current buffer joins the full ones, the first spare takes its place, and the vectors
        are swapped. */
    method TakeAll()
      requires newBuffer1 != null && buffersToWrite == []
      modifies this`currentBuffer, this`buffers, this`newBuffer1, this`buffersToWrite, this`writing, this`batches
      ensures var q := old(Value());
              Value() == q.(current := q.spare1.value, spare1 := None, full := [], toWrite := q.full + [q.current],
                            writing := true, batches := q.batches + [Lines(q.full + [q.current])])
    {
      buffers := buffers + [currentBuffer];
      assert AsBufs(buffers) == old(AsBufs(buffers) + [AsBuf(currentBuffer)]);
      batches := batches + [Lines(AsBufs(buffers))];
      currentBuffer, newBuffer1 := newBuffer1, null;
      buffersToWrite, buffers := buffers, buffersToWrite;
      writing := true;
    }

    method DropExcess()
      modifies this`output, this`buffersToWrite
      ensures buffersToWrite == if |old(buffersToWrite)| > 25 then old(buffersToWrite)[..2] else old(buffersToWrite)
      ensures output == old(output) + if |old(buffersToWrite)| > 25 then [Notice(|old(buffersToWrite)| - 2)] else []
    {
      if |buffersToWrite| > 25 {
        output := output + [Notice(|buffersToWrite| - 2)];
        buffersToWrite := buffersToWrite[..2];
      }
    }

    method WriteTexts()
      modifies this`output
      ensures output == old(output) + Texts(Lines(AsBufs(buffersToWrite)))
    {
      var i := 0;
      while i < |buffersToWrite|
        invariant i <= |buffersToWrite|
        invariant output == old(output) + Texts(Lines(AsBufs(buffersToWrite)))[..i]
      {
        output := output + [Text(buffersToWrite[i].lines)];
        i := i + 1;
      }
    }

    /** The spares come back from the end of what was written, emptied. */
    method Refill()
      requires Separate() && newBuffer1 == null && 1 <= |buffersToWrite| <= 2
      requires newBuffer2 == null ==> |buffersToWrite| == 2
      modifies this`newBuffer1, this`newBuffer2, this`buffersToWrite, buffersToWrite
      ensures Value() == old(Value()).(spare1 := Some(Buf(old(buffersToWrite)[|old(buffersToWrite)| - 1], [])),
                                       spare2 := if old(newBuffer2) != null then old(AsOption(newBuffer2))
                                                 else Some(Buf(old(buffersToWrite)[0], [])),
                                       toWrite := AsBufs(buffersToWrite))
    {
      newBuffer1 := buffersToWrite[|buffersToWrite| - 1];
      buffersToWrite := buffersToWrite[..|buffersToWrite| - 1];
      assert newBuffer1 in old(buffersToWrite);
      newBuffer1.Reset();
      assert AsBufs(buffers) == old(AsBufs(buffers));
      if newBuffer2 == null {
        newBuffer2 := buffersToWrite[|buffersToWrite| - 1];
        buffersToWrite := buffersToWrite[..|buffersToWrite| - 1];
        assert newBuffer2 in old(buffersToWrite);
        newBuffer2.Reset();
        assert AsBufs(buffers) == old(AsBufs(buffers));
      }
    }

    /** Drop, write, and keep two at most. */
    method WriteBatch()
      modifies this`output, this`buffersToWrite
      ensures var bs := old(AsBufs(buffersToWrite)); output == old(output) + NoticeFor(bs) + Texts(Lines(Kept(bs)))
      ensures var bs := old(buffersToWrite); buffersToWrite == if |bs| > 2 then bs[..2] else bs
      ensures Value() == old(Value()).(written := output, toWrite := AsBufs(buffersToWrite))
    {
      DropExcess();
      assert AsBufs(buffersToWrite) == Kept(old(AsBufs(buffersToWrite)));
      WriteTexts();
      if |buffersToWrite| > 2 {
        buffersToWrite := buffersToWrite[..2];
      }
    }

    /** What the backend does after it: everything is written from the buffers it holds. */
    method WriteBuffers()
      requires Separate() && newBuffer1 == null && buffersToWrite != []
      requires newBuffer2 == null ==> |buffersToWrite| > 1
      modifies this`output, this`buffersToWrite, this`newBuffer1, this`newBuffer2, this`writing, buffersToWrite
      ensures Value() == WriteOut(old(Value()))
    {
      WriteOutIs(Value());
      WriteBatch();
      RefillAll(old(buffersToWrite));
    }

    /** The rest of it; `bs` are the buffers of the batch. */
    method RefillAll(ghost bs: seq<LineBuffer>)
      requires Separate() && newBuffer1 == null && bs != [] && (newBuffer2 == null ==> |bs| > 1)
      requires buffersToWrite == if |bs| > 2 then bs[..2] else bs
      modifies this`buffersToWrite, this`newBuffer1, this`newBuffer2, this`writing, buffersToWrite
      ensures Value() == old(Value()).(spare1 := Some(Buf(bs[if |bs| == 1 then 0 else 1], [])),
                                       spare2 := if old(newBuffer2) != null then old(AsOption(newBuffer2))
                                                 else Some(Buf(bs[0], [])),
                                       toWrite := [], writing := false)
    {
      Refill();
      buffersToWrite := [];
      writing := false;
      assert AsBufs(buffersToWrite) == [];
    }
  }
}
