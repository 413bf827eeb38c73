/** The recursive spin lock of the multi-core kernel: a word that packs a magic number,
    a recursion count and the owner, changed by several CPUs step by step. */
module SpinLock {
  import opened BitOps

  // ---- the word ------------------------------------------------------------------------

  const MAGIC: nat := 0xB33F_0000
  const FREE: nat := 0xB33F_FFFF

  /** The word for a recursion count and an owner. A count of 256 disappears in the magic
      number, whose lowest bit is set already. */
  function Pack(count: nat, owner: nat): nat
    requires owner < 256
  {
    MAGIC + count % 256 * 256 + owner
  }

  function Owner(w: nat): nat { w % 256 }
  function Count(w: nat): nat { w / 256 % 256 }
  function Magic(w: nat): nat { w / 0x1_0000 * 0x1_0000 }

  /** The word as it is put together bit by bit. */
  lemma PackBits(count: nat, owner: nat)
    requires count <= 256 && owner < 256
    ensures Or(Or(MAGIC, Shl(count, 8)), owner) == Pack(count, owner)
  {
    hide Or, Shl;
    ShlIs(0xB33F); ShlIs(1); ShlIs(count);
    if count < 256 {
      OrLow(0xB33F, Shl(count, 8), 16);
      ShlIs(0xB33F * 256 + count);
      OrLow(0xB33F * 256 + count, owner, 8);
    } else {
      OrHigh(0xB33F, 0, 1, 16);
      OddOr(0xB33F);
      ShlIs(0xB33F * 256);
      OrLow(0xB33F * 256, owner, 8);
    }
  }

  lemma OddOr(a: nat)
    requires a % 2 == 1
    ensures Or(a, 1) == a
  {
    OrZero(a / 2);
  }

  /** A 32-bit word as the masks take it apart. */
  lemma UnpackBits(w: nat)
    requires w < 0x1_0000_0000
    ensures And(w, 0xFF) == Owner(w) && And(w, 0xFF00) == Shl(Count(w), 8) && And(w, 0xFFFF_0000) == Magic(w)
  {
    hide And, Shl;
    var h, m := w / 256, w / 0x1_0000;
    ShlIs(1); ShlIs(0); ShlIs(0xFF); ShlIs(0xFFFF); ShlIs(h); ShlIs(m); ShlIs(h / 256);
    AndMasks(h, w % 256, 0, 8);
    AndZero(h);
    AndMasks(h, w % 256, 0xFF, 8);
    AndMasks(h / 256, h % 256, 0, 8);
    AndZero(h / 256);
    AndMasks(m, w % 0x1_0000, 0xFFFF, 16);
    AndMasks(0, m, 0, 16);
    AndZero(0);
  }

  lemma Unpack(count: nat, owner: nat)
    requires count < 256 && owner < 255
    ensures var w := Pack(count, owner); Owner(w) == owner && Count(w) == count && Magic(w) == MAGIC && w != FREE
  {
  }

  // ---- the CPUs ------------------------------------------------------------------------

  /** Where a CPU is: outside, before the magic test or the compare-and-set of a lock,
      before the write of a recursive lock, before the compare-and-set of an unlock, or
      before its write. The last word read goes along. */
  datatype Pc = Out | Testing | Trying | Again(seen: nat) | Releasing | Less(seen: nat)

  /** depth counts, for each CPU, its completed locks less its completed unlocks. */
  datatype State = State(word: nat, pcs: seq<Pc>, depth: seq<int>)

  datatype Step =
    | StartLock      // k_cpu_spin_lock is called
    | TestMagic
    | TryLock        // compare-and-set
    | CountUp        // the write that follows when the lock is ours
    | StartUnlock    // k_cpu_spin_unlock is called
    | TryUnlock      // compare-and-set
    | CountDown

  predicate Enabled(s: State, c: nat, a: Step)
    requires c < |s.pcs|
  {
    match a
    case StartLock => s.pcs[c].Out?
    case TestMagic => s.pcs[c].Testing?
    case TryLock => s.pcs[c].Trying?
    case CountUp => s.pcs[c].Again?
    case StartUnlock => s.pcs[c].Out?
    case TryUnlock => s.pcs[c].Releasing?
    case CountDown => s.pcs[c].Less? && Count(s.pcs[c].seen) != 0
  }

  function Goto(s: State, c: nat, pc: Pc): State
    requires c < |s.pcs|
  {
    s.(pcs := s.pcs[c := pc])
  }

  function Took(s: State, c: nat, n: int): State
    requires c < |s.depth|
  {
    s.(depth := s.depth[c := s.depth[c] + n])
  }

  /** One step of CPU c. */
  function Next(s: State, c: nat, a: Step): State
    requires c < |s.pcs| == |s.depth| && c < 255 && Enabled(s, c, a)
  {
    match a
    case StartLock => Goto(s, c, Testing)
    case TestMagic => Goto(if Magic(s.word) != MAGIC then s.(word := FREE) else s, c, Trying)
    case TryLock =>
      var res := s.word;
      if res == FREE then Took(Goto(s.(word := Pack(0, c)), c, Out), c, 1)
      else if Owner(res) == c then Goto(s, c, Again(res))
      else s
    case CountUp =>
      Took(Goto(s.(word := Pack(Count(s.pcs[c].seen) + 1, c)), c, Out), c, 1)
    case StartUnlock => Goto(s, c, Releasing)
    case TryUnlock =>
      var res := s.word;
      if res == Pack(0, c) then Took(Goto(s.(word := FREE), c, Out), c, -1)
      else if Owner(res) == c && Count(res) != 0 then Goto(s, c, Less(res))
      else Goto(s, c, Out)
    case CountDown =>
      Took(Goto(s.(word := Pack(Count(s.pcs[c].seen) - 1, c)), c, Out), c, -1)
  }

  // ---- the invariant -------------------------------------------------------------------

  /** CPUs are numbered below 255; the reserved owner 255 marks the free lock. */
  predicate Sized(s: State) { |s.pcs| == |s.depth| <= 255 }

  predicate Held(w: nat, o: nat) { o < 255 && Magic(w) == MAGIC && Owner(w) == o && w != FREE }

  /** Nobody holds the lock, or one CPU does and the word says which and how often. */
  ghost predicate WordOk(s: State)
    requires Sized(s)
  {
    if s.word == FREE then forall c :: 0 <= c < |s.depth| ==> s.depth[c] == 0
    else
      var o := Owner(s.word);
      && o < |s.depth| && Held(s.word, o) && s.depth[o] == Count(s.word) + 1
      && forall c :: 0 <= c < |s.depth| && c != o ==> s.depth[c] == 0
  }

  /** A pending write is the owner's, and the word is still the one it has seen. */
  predicate PcOk(w: nat, c: nat, pc: Pc) {
    match pc
    case Again(seen) => seen == w && Held(w, c)
    case Less(seen) => seen == w && Held(w, c) && Count(w) > 0
    case _ => true
  }

  ghost predicate Inv(s: State) {
    Sized(s) && WordOk(s) && forall c :: 0 <= c < |s.pcs| ==> PcOk(s.word, c, s.pcs[c])
  }

  /** The recursion fits the eight bits of the count. */
  predicate Fits(s: State, c: nat, a: Step)
    requires c < |s.pcs|
  {
    a.CountUp? && s.pcs[c].Again? ==> Count(s.pcs[c].seen) < 255
  }

  lemma Repack(w: nat, o: nat)
    requires Held(w, o)
    ensures w == Pack(Count(w), o)
  {
    assert w == w / 0x1_0000 * 0x1_0000 + w / 256 % 256 * 256 + w % 256;
  }

  lemma FreeIs()
    ensures Magic(FREE) == MAGIC && Owner(FREE) == 255
  {
  }

  /** A step of a CPU that does not own a held lock leaves the word alone. */
  lemma OnlyOwnerWrites(s: State, c: nat, a: Step)
    requires Inv(s) && c < |s.pcs| && Enabled(s, c, a)
    requires s.word != FREE && Owner(s.word) != c
    ensures Next(s, c, a).word == s.word && Next(s, c, a).depth == s.depth
  {
    hide Owner, Count, Magic;
    PackOwner(c);
  }

  lemma PackOwner(c: nat)
    requires c < 255
    ensures Owner(Pack(0, c)) == c && Count(Pack(0, c)) == 0
  {
    Unpack(0, c);
  }

  /** Every step keeps the word in agreement with who holds the lock and how often. */
  lemma StepInv(s: State, c: nat, a: Step)
    requires Inv(s) && c < |s.pcs| && Enabled(s, c, a) && Fits(s, c, a)
    ensures Inv(Next(s, c, a))
  {
    hide Pack, Owner, Count, Magic;
    FreeIs();
    Unpack(0, c);
    match a
    case TestMagic =>
    case TryLock =>
    case CountUp =>
      Unpack(Count(s.word) + 1, c) by { CountBound(s.word); }
    case TryUnlock =>
      if s.word != FREE { Repack(s.word, Owner(s.word)); }
    case CountDown =>
      Unpack(Count(s.word) - 1, c) by { CountBound(s.word); }
    case _ =>
  }

  lemma CountBound(w: nat)
    ensures Count(w) < 256
  {
  }

  // ---- runs ------------------------------------------------------------------------------

  datatype Action = Action(cpu: nat, step: Step)

  predicate LegalRun(s: State, run: seq<Action>)
    decreases |run|
  {
    run == [] || (
      var x := run[0];
      x.cpu < |s.pcs| == |s.depth| && x.cpu < 255 && Enabled(s, x.cpu, x.step) && Fits(s, x.cpu, x.step)
      && LegalRun(Next(s, x.cpu, x.step), run[1..]))
  }

  function Run(s: State, run: seq<Action>): State
    requires LegalRun(s, run)
    decreases |run|
  {
    if run == [] then s else Run(Next(s, run[0].cpu, run[0].step), run[1..])
  }

  /** n CPUs and a lock that krhino_spin_lock_init has set free. */
  function Start(n: nat): State { State(FREE, seq(n, _ => Out), seq(n, _ => 0)) }

  lemma {:induction false} RunInv(s: State, run: seq<Action>)
    requires Inv(s) && LegalRun(s, run)
    ensures Inv(Run(s, run))
    decreases |run|
  {
    hide Inv, Next, Enabled, Fits;
    if run != [] {
      StepInv(s, run[0].cpu, run[0].step);
      RunInv(Next(s, run[0].cpu, run[0].step), run[1..]);
    }
  }

  /** Under every interleaving: at most one CPU holds the lock, the word names it, and
      the lock is free exactly when every CPU has unlocked as often as it locked. */
  lemma MutualExclusion(n: nat, run: seq<Action>)
    requires n <= 255 && LegalRun(Start(n), run)
    ensures var s := Run(Start(n), run);
      && |s.depth| == n
      && (s.word == FREE <==> forall c :: 0 <= c < n ==> s.depth[c] == 0)
      && (forall c :: 0 <= c < n && s.depth[c] > 0 ==> s.word == Pack(s.depth[c] - 1, c))
      && (forall c, d :: 0 <= c < n && 0 <= d < n && s.depth[c] != 0 && s.depth[d] != 0 ==> c == d)
  {
    var s := Run(Start(n), run);
    hide Run, LegalRun, Pack, Owner, Count, Magic;
    StartInv(n);
    RunInv(Start(n), run);
    RunSize(Start(n), run);
    if s.word != FREE { Repack(s.word, Owner(s.word)); }
  }

  lemma StartInv(n: nat)
    requires n <= 255
    ensures Inv(Start(n)) && |Start(n).depth| == n
  {
  }

  lemma {:induction false} RunSize(s: State, run: seq<Action>)
    requires Inv(s) && LegalRun(s, run)
    ensures |Run(s, run).depth| == |s.depth|
    decreases |run|
  {
    if run != [] {
      NextSize(s, run[0].cpu, run[0].step);
      StepInv(s, run[0].cpu, run[0].step);
      RunSize(Next(s, run[0].cpu, run[0].step), run[1..]);
    }
  }

  lemma NextSize(s: State, c: nat, a: Step)
    requires c < |s.pcs| == |s.depth| && c < 255 && Enabled(s, c, a)
    ensures |Next(s, c, a).depth| == |s.depth|
  {
  }

  /** The 257th lock in a row is what the count cannot hold: the word then says that
      the lock was taken once. Up to there it never does. */
  lemma CountWraps(s: State, c: nat)
    requires Inv(s) && c < |s.pcs| && s.pcs[c].Again?
    ensures var s1 := Next(s, c, CountUp);
      (s1.depth[c] == Count(s1.word) + 1) <==> Count(s.word) < 255
  {
    var n := Count(s.word);
    CountBound(s.word);
    if n < 255 { Unpack(n + 1, c); } else { Unpack(0, c); assert Pack(256, c) == Pack(0, c); }
  }

  // ---- progress --------------------------------------------------------------------------

  function Steps(c: nat, steps: seq<Step>): seq<Action> {
    if steps == [] then [] else [Action(c, steps[0])] + Steps(c, steps[1..])
  }

  /** One step of a run. */
  lemma RunStep(s: State, c: nat, a: Step, more: seq<Step>)
    requires c < |s.pcs| == |s.depth| && c < 255 && Enabled(s, c, a) && Fits(s, c, a) && LegalRun(Next(s, c, a), Steps(c, more))
    ensures LegalRun(s, Steps(c, [a] + more)) && Run(s, Steps(c, [a] + more)) == Run(Next(s, c, a), Steps(c, more))
  {
    hide Next, Enabled, Fits;
    assert ([a] + more)[1..] == more;
    assert ([Action(c, a)] + Steps(c, more))[1..] == Steps(c, more);
  }

  /** A CPU that locks while the lock is free, and no other is at it, has it after three
      steps; one that has it already has it once more after four. */
  lemma Acquires(s: State, c: nat)
    requires Inv(s) && c < |s.pcs| && s.pcs[c].Out?
    ensures s.word == FREE ==> var r := Steps(c, [StartLock, TestMagic, TryLock]);
      LegalRun(s, r) && Run(s, r) == s.(word := Pack(0, c), depth := s.depth[c := 1])
    ensures s.word != FREE && Owner(s.word) == c && Count(s.word) < 255 ==> var r := Steps(c, [StartLock, TestMagic, TryLock, CountUp]);
      LegalRun(s, r) && Run(s, r) == s.(word := Pack(s.depth[c], c), depth := s.depth[c := s.depth[c] + 1])
  {
    FreeIs();
    hide Pack, Count, Magic, Owner, Run, LegalRun, Steps;
    var s1 := Next(s, c, StartLock);
    var s2 := Next(s1, c, TestMagic);
    assert s2 == s.(pcs := s.pcs[c := Trying]);
    NoSteps(c);
    if s.word == FREE {
      var s3 := Next(s2, c, TryLock);
      NoRun(s3);
      RunStep(s2, c, TryLock, []);
      RunStep(s1, c, TestMagic, [TryLock] + []);
      RunStep(s, c, StartLock, [TestMagic] + ([TryLock] + []));
      assert [StartLock] + ([TestMagic] + ([TryLock] + [])) == [StartLock, TestMagic, TryLock];
    } else if Owner(s.word) == c && Count(s.word) < 255 {
      var s3 := Next(s2, c, TryLock);
      var s4 := Next(s3, c, CountUp);
      NoRun(s4);
      RunStep(s3, c, CountUp, []);
      RunStep(s2, c, TryLock, [CountUp] + []);
      RunStep(s1, c, TestMagic, [TryLock] + ([CountUp] + []));
      RunStep(s, c, StartLock, [TestMagic] + ([TryLock] + ([CountUp] + [])));
      assert [StartLock] + ([TestMagic] + ([TryLock] + ([CountUp] + []))) == [StartLock, TestMagic, TryLock, CountUp];
    }
  }

  lemma NoSteps(c: nat)
    ensures Steps(c, []) == []
  {
  }

  lemma NoRun(s: State)
    ensures LegalRun(s, []) && Run(s, []) == s
  {
  }

  /** A CPU that unlocks what it has locked once frees it in two steps; locked more often,
      it has it once less after three. */
  lemma Releases(s: State, c: nat)
    requires Inv(s) && c < |s.pcs| && s.pcs[c].Out?
    ensures s.depth[c] == 1 ==> var r := Steps(c, [StartUnlock, TryUnlock]);
      LegalRun(s, r) && Run(s, r) == s.(word := FREE, depth := s.depth[c := 0])
    ensures s.depth[c] > 1 ==> var r := Steps(c, [StartUnlock, TryUnlock, CountDown]);
      LegalRun(s, r) && Run(s, r) == s.(word := Pack(s.depth[c] - 2, c), depth := s.depth[c := s.depth[c] - 1])
  {
    FreeIs();
    Unpack(0, c);
    if s.word != FREE { Repack(s.word, Owner(s.word)); }
    hide Pack, Count, Magic, Owner, Run, LegalRun, Steps;
    var s1 := Next(s, c, StartUnlock);
    NoSteps(c);
    if s.depth[c] == 1 {
      var s2 := Next(s1, c, TryUnlock);
      NoRun(s2);
      RunStep(s1, c, TryUnlock, []);
      RunStep(s, c, StartUnlock, [TryUnlock] + []);
      assert [StartUnlock] + ([TryUnlock] + []) == [StartUnlock, TryUnlock];
    } else if s.depth[c] > 1 {
      var s2 := Next(s1, c, TryUnlock);
      var s3 := Next(s2, c, CountDown);
      NoRun(s3);
      RunStep(s2, c, CountDown, []);
      RunStep(s1, c, TryUnlock, [CountDown] + []);
      RunStep(s, c, StartUnlock, [TryUnlock] + ([CountDown] + []));
      assert [StartUnlock] + ([TryUnlock] + ([CountDown] + [])) == [StartUnlock, TryUnlock, CountDown];
    }
  }
}
