/** All interleavings of threads that log and add masks (mainLogger.AddMask, log and mask in
    api/v1/logger.go).  A logging thread holds logMu while it masks under a read lock of maskMu and
    writes the line to both destinations, character by character. */
module LogHistory {
  import opened Masking
  import opened Logger

  /** `known` holds the masks whose AddMask had returned when the logging call started; `used` counts
      the masks the text was masked with. */
  datatype Phase =
    | Idle
    | LogWait(msg: string, known: set<string>)
    | LogHeld(msg: string, known: set<string>)
    | Replacing(msg: string, known: set<string>, text: string, used: nat)
    | Printing(msg: string, known: set<string>, text: string, used: nat, pos: nat)
    | Buffering(msg: string, known: set<string>, text: string, used: nat, pos: nat)
    | AddWait(mask: string)
    | AddHeld(mask: string)
    | AddDone(mask: string)

  datatype Entry = Entry(msg: string, known: set<string>, text: string, used: nat)

  /** `returned` are the masks whose AddMask has returned, `entries` the printed messages. */
  datatype State = State(
    threads: seq<Phase>, masks: seq<string>, returned: set<string>, out: string, buf: string, entries: seq<Entry>)

  datatype Event =
    | StartLog(msg: string) | TakeLog | TakeRead | ReplaceNext | DropRead | PrintChar | EndPrint | BufferChar | DropLog
    | StartAdd(mask: string) | TakeWrite | Append | DropWrite

  predicate HoldsLog(p: Phase) {
    p.LogHeld? || p.Replacing? || p.Printing? || p.Buffering?
  }

  predicate HoldsWrite(p: Phase) {
    p.AddHeld? || p.AddDone?
  }

  predicate NoneHolds(s: State, holds: Phase -> bool) {
    forall j :: 0 <= j < |s.threads| ==> !holds(s.threads[j])
  }

  function Line(text: string): string {
    text + "\n"
  }

  predicate Enabled(s: State, i: nat, e: Event) {
    && i < |s.threads|
    && var p := s.threads[i];
      match e
      case StartLog(msg) => p.Idle? && msg != ""
      case TakeLog => p.LogWait? && NoneHolds(s, HoldsLog)
      case TakeRead => p.LogHeld? && NoneHolds(s, HoldsWrite)
      case ReplaceNext => p.Replacing? && p.used < |s.masks|
      case DropRead => p.Replacing? && p.used == |s.masks|
      case PrintChar => p.Printing? && p.pos < |Line(p.text)|
      case EndPrint => p.Printing? && p.pos == |Line(p.text)|
      case BufferChar => p.Buffering? && p.pos < |Line(p.text)|
      case DropLog => p.Buffering? && p.pos == |Line(p.text)|
      case StartAdd(mask) => p.Idle?
      case TakeWrite => p.AddWait? && NoneHolds(s, HoldsWrite) && NoneHolds(s, (q: Phase) => q.Replacing?)
      case Append => p.AddHeld?
      case DropWrite => p.AddDone?
  }

  function Next(s: State, p: Phase, e: Event): Phase {
    match e
    case StartLog(msg) => LogWait(msg, s.returned)
    case TakeLog => if p.LogWait? then LogHeld(p.msg, p.known) else p
    case TakeRead => if p.LogHeld? then Replacing(p.msg, p.known, p.msg, 0) else p
    case ReplaceNext =>
      if p.Replacing? && p.used < |s.masks| then Replacing(p.msg, p.known, MaskOne(p.text, s.masks[p.used]), p.used + 1) else p
    case DropRead => if p.Replacing? then Printing(p.msg, p.known, p.text, p.used, 0) else p
    case PrintChar => if p.Printing? then Printing(p.msg, p.known, p.text, p.used, p.pos + 1) else p
    case EndPrint => if p.Printing? then Buffering(p.msg, p.known, p.text, p.used, 0) else p
    case BufferChar => if p.Buffering? then Buffering(p.msg, p.known, p.text, p.used, p.pos + 1) else p
    case DropLog => Idle
    case StartAdd(mask) => AddWait(mask)
    case TakeWrite => if p.AddWait? then AddHeld(p.mask) else p
    case Append => if p.AddHeld? then AddDone(p.mask) else p
    case DropWrite => Idle
  }

  function Apply(s: State, i: nat, e: Event): State
    requires Enabled(s, i, e)
  {
    var p := s.threads[i];
    var s' := s.(threads := s.threads[i := Next(s, p, e)]);
    match e
    case PrintChar => s'.(out := s.out + [Line(p.text)[p.pos]])
    case EndPrint => s'.(entries := s.entries + [Entry(p.msg, p.known, p.text, p.used)])
    case BufferChar => s'.(buf := s.buf + [Line(p.text)[p.pos]])
    case Append => s'.(masks := s.masks + [p.mask])
    case DropWrite => s'.(returned := s.returned + {p.mask})
    case _ => s'
  }

  predicate Init(s: State) {
    && (forall i :: 0 <= i < |s.threads| ==> s.threads[i].Idle?)
    && s.masks == [] && s.returned == {} && s.out == "" && s.buf == "" && s.entries == []
  }

  ghost predicate Step(s: State, s': State) {
    exists i: nat, e :: Enabled(s, i, e) && s' == Apply(s, i, e)
  }

  ghost predicate IsRun(run: seq<State>) {
    && run != [] && Init(run[0])
    && forall k :: 0 <= k < |run| - 1 ==> Step(run[k], run[k + 1])
  }

  /*** The invariant. ***/

  predicate AllIn(known: set<string>, masks: seq<string>) {
    forall m :: m in known ==> m in masks
  }

  /** A text masked with the first `used` masks, all known ones among them. */
  predicate Masked(msg: string, known: set<string>, text: string, used: nat, masks: seq<string>) {
    used <= |masks| && text == MaskAll(msg, masks[..used]) && AllIn(known, masks[..used])
  }

  predicate PhaseInv(s: State, p: Phase) {
    match p
    case Idle => true
    case LogWait(msg, known) => known <= s.returned
    case LogHeld(msg, known) => known <= s.returned
    case Replacing(msg, known, text, used) =>
      known <= s.returned && used <= |s.masks| && text == MaskAll(msg, s.masks[..used])
    case Printing(msg, known, text, used, pos) => Masked(msg, known, text, used, s.masks) && pos <= |Line(text)|
    case Buffering(msg, known, text, used, pos) => Masked(msg, known, text, used, s.masks) && pos <= |Line(text)|
    case AddWait(mask) => true
    case AddHeld(mask) => true
    case AddDone(mask) => mask in s.masks
  }

  function Texts(entries: seq<Entry>): (r: seq<string>)
    ensures |r| == |entries|
  {
    seq(|entries|, i requires 0 <= i < |entries| => entries[i].text)
  }

  /** Both outputs against the phase of the thread that holds logMu. */
  predicate OutputInv(s: State, p: Phase) {
    var lines := Lines(Texts(s.entries));
    match p
    case Printing(_, _, text, _, pos) => pos <= |Line(text)| && s.out == lines + Line(text)[..pos] && s.buf == lines
    case Buffering(_, _, text, _, pos) =>
      && s.entries != [] && s.entries[|s.entries| - 1].text == text && pos <= |Line(text)|
      && s.out == lines
      && s.buf == Lines(Texts(s.entries[..|s.entries| - 1])) + Line(text)[..pos]
    case _ => s.out == lines && s.buf == lines
  }

  predicate EntriesInv(s: State) {
    forall k :: 0 <= k < |s.entries| ==>
      var e := s.entries[k]; Masked(e.msg, e.known, e.text, e.used, s.masks)
  }

  /** logMu has one holder; maskMu has one writer or any number of readers. */
  predicate Compatible(p: Phase, q: Phase) {
    && !(HoldsLog(p) && HoldsLog(q))
    && !(HoldsWrite(p) && (HoldsWrite(q) || q.Replacing?))
    && !(HoldsWrite(q) && p.Replacing?)
  }

  predicate LocksInv(s: State) {
    forall i, j :: 0 <= i < |s.threads| && 0 <= j < |s.threads| && i != j ==> Compatible(s.threads[i], s.threads[j])
  }

  predicate OutputsInv(s: State) {
    && (forall i :: 0 <= i < |s.threads| && HoldsLog(s.threads[i]) ==> OutputInv(s, s.threads[i]))
    && (NoneHolds(s, HoldsLog) ==> OutputInv(s, Idle))
  }

  predicate Inv(s: State) {
    && LocksInv(s) && OutputsInv(s) && EntriesInv(s)
    && AllIn(s.returned, s.masks)
    && forall i :: 0 <= i < |s.threads| ==> PhaseInv(s, s.threads[i])
  }

  lemma MaskedGrows(msg: string, known: set<string>, text: string, used: nat, masks: seq<string>, mask: string)
    requires Masked(msg, known, text, used, masks)
    ensures Masked(msg, known, text, used, masks + [mask])
  {
    assert (masks + [mask])[..used] == masks[..used];
  }

  lemma LocksKept(s: State, i: nat, e: Event)
    requires Inv(s) && Enabled(s, i, e)
    ensures LocksInv(Apply(s, i, e))
  {
    var p := Next(s, s.threads[i], e);
    forall j | 0 <= j < |s.threads| && j != i ensures Compatible(p, s.threads[j]) && Compatible(s.threads[j], p) {
      assert Compatible(s.threads[i], s.threads[j]);
    }
  }

  lemma LinesSnoc(entries: seq<Entry>, e: Entry)
    ensures Lines(Texts(entries + [e])) == Lines(Texts(entries)) + Line(e.text)
  {
    assert Texts(entries + [e])[..|entries|] == Texts(entries);
    assert Lines(Texts(entries)) + e.text + "\n" == Lines(Texts(entries)) + (e.text + "\n");
  }

  /** The step of the thread that holds logMu. */
  lemma OutputStep(s: State, i: nat, e: Event)
    requires Enabled(s, i, e) && HoldsLog(s.threads[i]) && OutputInv(s, s.threads[i])
    ensures OutputInv(Apply(s, i, e), Apply(s, i, e).threads[i])
  {
    var p := s.threads[i];
    match e {
      case PrintChar =>
        PrefixStep(Lines(Texts(s.entries)), Line(p.text), p.pos);
      case EndPrint =>
        PrintEnded(s, p);
      case BufferChar =>
        PrefixStep(Lines(Texts(s.entries[..|s.entries| - 1])), Line(p.text), p.pos);
      case DropLog =>
        BufferEnded(s, p);
      case _ =>
    }
  }

  lemma PrefixStep(a: string, line: string, pos: nat)
    requires pos < |line|
    ensures (a + line[..pos]) + [line[pos]] == a + line[..pos + 1]
  {
  }

  lemma PrintEnded(s: State, p: Phase)
    requires p.Printing? && OutputInv(s, p) && p.pos == |Line(p.text)|
    ensures var entries := s.entries + [Entry(p.msg, p.known, p.text, p.used)];
      && s.out == Lines(Texts(entries))
      && entries[..|entries| - 1] == s.entries && s.buf == Lines(Texts(s.entries)) + Line(p.text)[..0]
  {
    LinesSnoc(s.entries, Entry(p.msg, p.known, p.text, p.used));
    assert Line(p.text)[..p.pos] == Line(p.text);
  }

  lemma BufferEnded(s: State, p: Phase)
    requires p.Buffering? && OutputInv(s, p) && p.pos == |Line(p.text)|
    ensures s.buf == Lines(Texts(s.entries))
  {
    var n := |s.entries| - 1;
    LinesSnoc(s.entries[..n], s.entries[n]);
    assert s.entries[..n] + [s.entries[n]] == s.entries;
    assert Line(p.text)[..p.pos] == Line(p.text);
  }

  predicate Quiet(e: Event) {
    !e.PrintChar? && !e.EndPrint? && !e.BufferChar?
  }

  lemma HolderOutputs(s: State, i: nat, e: Event)
    requires LocksInv(s) && Enabled(s, i, e) && HoldsLog(s.threads[i]) && OutputInv(s, s.threads[i])
    ensures OutputsInv(Apply(s, i, e))
  {
    var s' := Apply(s, i, e);
    OutputStep(s, i, e);
    forall j | 0 <= j < |s'.threads| && j != i ensures !HoldsLog(s'.threads[j]) {
      assert Compatible(s.threads[i], s.threads[j]);
    }
    assert NoneHolds(s', HoldsLog) ==> !HoldsLog(s'.threads[i]);
  }

  lemma OtherOutputs(s: State, i: nat, e: Event)
    requires OutputsInv(s) && Enabled(s, i, e) && !HoldsLog(s.threads[i])
    ensures OutputsInv(Apply(s, i, e))
  {
    var s' := Apply(s, i, e);
    assert Quiet(e);
    assert s'.out == s.out && s'.buf == s.buf && s'.entries == s.entries;
    forall j | 0 <= j < |s'.threads| && j != i ensures s'.threads[j] == s.threads[j] {
    }
    if e.TakeLog? {
      assert NoneHolds(s, HoldsLog);
    } else {
      assert !HoldsLog(s'.threads[i]);
      assert NoneHolds(s', HoldsLog) ==> NoneHolds(s, HoldsLog);
    }
  }

  lemma OutputsKept(s: State, i: nat, e: Event)
    requires LocksInv(s) && OutputsInv(s) && Enabled(s, i, e)
    ensures OutputsInv(Apply(s, i, e))
  {
    if HoldsLog(s.threads[i]) {
      HolderOutputs(s, i, e);
    } else {
      OtherOutputs(s, i, e);
    }
  }

  lemma PhaseKept(s: State, i: nat, e: Event, j: nat)
    requires Inv(s) && Enabled(s, i, e) && j < |s.threads|
    ensures PhaseInv(Apply(s, i, e), Apply(s, i, e).threads[j])
  {
    var s' := Apply(s, i, e);
    var p := s.threads[j];
    assert PhaseInv(s, p) && PhaseInv(s, s.threads[i]);
    if j == i {
      match e {
        case ReplaceNext =>
          assert s.masks[..p.used + 1][..p.used] == s.masks[..p.used];
        case DropRead =>
          assert s.masks[..p.used] == s.masks;
        case TakeRead =>
          assert s.masks[..0] == [];
        case _ =>
      }
    } else if e.Append? {
      assert !p.Replacing?;
      if p.Printing? || p.Buffering? {
        MaskedGrows(p.msg, p.known, p.text, p.used, s.masks, s.threads[i].mask);
      }
    }
  }

  lemma EntriesKept(s: State, i: nat, e: Event)
    requires Inv(s) && Enabled(s, i, e)
    ensures EntriesInv(Apply(s, i, e))
  {
    var s' := Apply(s, i, e);
    forall k | 0 <= k < |s'.entries|
      ensures Masked(s'.entries[k].msg, s'.entries[k].known, s'.entries[k].text, s'.entries[k].used, s'.masks)
    {
      var x := s'.entries[k];
      if k < |s.entries| {
        assert x == s.entries[k] && Masked(x.msg, x.known, x.text, x.used, s.masks);
        if e.Append? {
          MaskedGrows(x.msg, x.known, x.text, x.used, s.masks, s.threads[i].mask);
        }
      } else {
        assert PhaseInv(s, s.threads[i]);
      }
    }
  }

  lemma InvKept(s: State, i: nat, e: Event)
    requires Inv(s) && Enabled(s, i, e)
    ensures Inv(Apply(s, i, e))
  {
    LocksKept(s, i, e);
    OutputsKept(s, i, e);
    EntriesKept(s, i, e);
    forall j | 0 <= j < |s.threads| ensures PhaseInv(Apply(s, i, e), Apply(s, i, e).threads[j]) {
      PhaseKept(s, i, e, j);
    }
    assert PhaseInv(s, s.threads[i]);
  }

  lemma InitInv(s: State)
    requires Init(s)
    ensures Inv(s)
  {
    assert Texts([]) == [];
  }

  lemma {:induction false} RunInv(run: seq<State>, k: nat)
    requires IsRun(run) && k < |run|
    ensures Inv(run[k])
  {
    if k > 0 {
      RunInv(run, k - 1);
      assert Step(run[k - 1], run[k - 1 + 1]);
      var i: nat, e :| Enabled(run[k - 1], i, e) && run[k] == Apply(run[k - 1], i, e);
      InvKept(run[k - 1], i, e);
    } else {
      InitInv(run[0]);
    }
  }

  /*** Whole histories. ***/

  /** In every interleaving, for masks whose stars do no harm: a printed message
      contains none of the masks whose AddMask had returned before its logging started.  Whatever the
      masks, it is the original message with some positions starred. */
  lemma LoggedAfterMaskIsClean(run: seq<State>, k: nat, n: nat, m: string)
    requires IsRun(run) && k < |run| && n < |run[k].entries|
    ensures Starred(run[k].entries[n].text, run[k].entries[n].msg)
    ensures ListSafe(run[k].masks) && m in run[k].entries[n].known && m != "" ==> !Occurs(m, run[k].entries[n].text)
  {
    RunInv(run, k);
    var s := run[k];
    var e := s.entries[n];
    assert Masked(e.msg, e.known, e.text, e.used, s.masks);
    var used := s.masks[..e.used];
    MaskAllStarred(e.msg, used);
    if ListSafe(s.masks) && m in e.known {
      ListSafePrefix(s.masks, e.used);
      ListSafeRemoves(e.msg, used);
      assert m in used;
    }
  }

  /** So it is whenever no mask has a star. */
  lemma StarFreeLogIsClean(run: seq<State>, k: nat, n: nat, m: string)
    requires IsRun(run) && k < |run| && n < |run[k].entries| && AllStarFree(run[k].masks)
    requires m in run[k].entries[n].known && m != ""
    ensures !Occurs(m, run[k].entries[n].text)
  {
    StarFreeListSafe(run[k].masks);
    LoggedAfterMaskIsClean(run, k, n, m);
  }

  /*** Calls and returns. ***/

  /** Step j of the run is event e of thread i. */
  predicate EventAt(run: seq<State>, j: nat, i: nat, e: Event) {
    j + 1 < |run| && Enabled(run[j], i, e) && run[j + 1] == Apply(run[j], i, e)
  }

  /** A call of AddMask for m returned within the first k steps. */
  ghost predicate AddReturned(run: seq<State>, k: nat, m: string) {
    exists j: nat, i: nat :: j < k && EventAt(run, j, i, DropWrite) && run[j].threads[i] == AddDone(m)
  }

  /** A logging call for msg began within the first k steps, when these masks had been returned. */
  ghost predicate LogCalled(run: seq<State>, k: nat, msg: string, known: set<string>) {
    exists j: nat, i: nat :: j < k && EventAt(run, j, i, StartLog(msg)) && known == run[j].returned
  }

  /** Only the end of a call of AddMask adds to the returned masks. */
  lemma StepReturns(run: seq<State>, k: nat, i: nat, e: Event)
    requires EventAt(run, k, i, e)
    ensures e == DropWrite ==> run[k].threads[i].AddDone? && run[k + 1].returned == run[k].returned + {run[k].threads[i].mask}
    ensures e != DropWrite ==> run[k + 1].returned == run[k].returned
  {
  }

  lemma {:induction false} ReturnedStays(run: seq<State>, j: nat, k: nat, m: string)
    requires IsRun(run) && j <= k < |run| && m in run[j].returned
    ensures m in run[k].returned
    decreases k
  {
    if j < k {
      ReturnedStays(run, j, k - 1, m);
      var i, e := StepEvent(run, k - 1);
      StepReturns(run, k - 1, i, e);
    }
  }

  lemma {:induction false} ReturnedFrom(run: seq<State>, k: nat, m: string)
    requires IsRun(run) && k < |run| && m in run[k].returned
    ensures AddReturned(run, k, m)
    decreases k
  {
    if k > 0 {
      var i, e := StepEvent(run, k - 1);
      StepReturns(run, k - 1, i, e);
      if m in run[k - 1].returned {
        ReturnedFrom(run, k - 1, m);
        var j: nat, l: nat :| j < k - 1 && EventAt(run, j, l, DropWrite) && run[j].threads[l] == AddDone(m);
        assert j < k;
      } else {
        assert EventAt(run, k - 1, i, DropWrite) && run[k - 1].threads[i] == AddDone(m);
      }
    }
  }

  lemma ReturnedExactly(run: seq<State>, k: nat, m: string)
    requires IsRun(run) && k < |run|
    ensures m in run[k].returned <==> AddReturned(run, k, m)
  {
    if m in run[k].returned {
      ReturnedFrom(run, k, m);
    }
    if AddReturned(run, k, m) {
      ReturnedSince(run, k, m);
    }
  }

  lemma ReturnedSince(run: seq<State>, k: nat, m: string)
    requires IsRun(run) && k < |run| && AddReturned(run, k, m)
    ensures m in run[k].returned
  {
    var j: nat, i: nat :| j < k && EventAt(run, j, i, DropWrite) && run[j].threads[i] == AddDone(m);
    StepReturns(run, j, i, DropWrite);
    ReturnedStays(run, j + 1, k, m);
  }

  lemma StepEvent(run: seq<State>, k: nat) returns (i: nat, e: Event)
    requires IsRun(run) && k + 1 < |run|
    ensures EventAt(run, k, i, e)
  {
    assert Step(run[k], run[k + 1]);
    i, e :| Enabled(run[k], i, e) && run[k + 1] == Apply(run[k], i, e);
  }

  predicate Carries(p: Phase, msg: string, known: set<string>) {
    (p.LogWait? || p.LogHeld? || p.Replacing? || p.Printing? || p.Buffering?) && p.msg == msg && p.known == known
  }

  lemma CallGrows(run: seq<State>, k: nat, msg: string, known: set<string>)
    requires LogCalled(run, k, msg, known)
    ensures LogCalled(run, k + 1, msg, known)
  {
    var j: nat, i: nat :| j < k && EventAt(run, j, i, StartLog(msg)) && known == run[j].returned;
    assert j < k + 1;
  }

  /** What a thread logs was handed to a logging call. */
  lemma {:induction false} ThreadCalled(run: seq<State>, k: nat, i: nat, msg: string, known: set<string>)
    requires IsRun(run) && k < |run| && i < |run[k].threads| && Carries(run[k].threads[i], msg, known)
    ensures LogCalled(run, k, msg, known)
  {
    if k > 0 {
      var l, e := StepEvent(run, k - 1);
      if Carries(run[k - 1].threads[i], msg, known) {
        ThreadCalled(run, k - 1, i, msg, known);
        CallGrows(run, k - 1, msg, known);
      } else {
        assert l == i && e == StartLog(msg) && known == run[k - 1].returned;
        assert EventAt(run, k - 1, i, StartLog(msg));
      }
    }
  }

  lemma {:induction false} EntryCalled(run: seq<State>, k: nat, n: nat)
    requires IsRun(run) && k < |run| && n < |run[k].entries|
    ensures LogCalled(run, k, run[k].entries[n].msg, run[k].entries[n].known)
  {
    if k > 0 {
      var entry := run[k].entries[n];
      var i, e := StepEvent(run, k - 1);
      if n < |run[k - 1].entries| {
        EntryCalled(run, k - 1, n);
      } else {
        ThreadCalled(run, k - 1, i, entry.msg, entry.known);
      }
      CallGrows(run, k - 1, entry.msg, entry.known);
    }
  }

  /** Every printed message was handed to a logging call, and contains no mask for which a call of AddMask
      had returned before that call began. */
  lemma CleanAfterReturn(run: seq<State>, k: nat, n: nat) returns (j: nat, i: nat)
    requires IsRun(run) && k < |run| && n < |run[k].entries|
    ensures j < k && EventAt(run, j, i, StartLog(run[k].entries[n].msg))
    ensures ListSafe(run[k].masks) ==>
              forall m :: m != "" && AddReturned(run, j, m) ==> !Occurs(m, run[k].entries[n].text)
  {
    var entry := run[k].entries[n];
    EntryCalled(run, k, n);
    j, i :| j < k && EventAt(run, j, i, StartLog(entry.msg)) && entry.known == run[j].returned;
    forall m | m != "" && AddReturned(run, j, m) ensures ListSafe(run[k].masks) ==> !Occurs(m, entry.text) {
      ReturnedExactly(run, j, m);
      LoggedAfterMaskIsClean(run, k, n, m);
    }
  }

  predicate IsPrefix(a: string, b: string) {
    |a| <= |b| && b[..|a|] == a
  }

  /** The thread has printed a part of its line after the given lines. */
  predicate PrintsAfter(s: State, lines: string, p: Phase) {
    p.Printing? && p.pos <= |Line(p.text)| && s.out == lines + Line(p.text)[..p.pos]
  }

  /** In every interleaving the buffer is a prefix of the output, both are equal whenever nobody holds
      the lock, and both are whole lines, except for the one line being written: the lines of one
      logged group are never separated. */
  lemma SameOutputs(run: seq<State>, k: nat)
    requires IsRun(run) && k < |run|
    ensures var s := run[k]; var lines := Lines(Texts(s.entries));
      && IsPrefix(s.buf, s.out) && IsPrefix(lines, s.out)
      && (NoneHolds(s, HoldsLog) ==> s.out == s.buf == lines)
      && (s.out == lines || exists i :: 0 <= i < |s.threads| && PrintsAfter(s, lines, s.threads[i]))
  {
    RunInv(run, k);
    var s := run[k];
    if i :| 0 <= i < |s.threads| && HoldsLog(s.threads[i]) {
      HeldOutputs(s, s.threads[i]);
    } else {
      assert NoneHolds(s, HoldsLog);
    }
  }

  lemma HeldOutputs(s: State, p: Phase)
    requires OutputInv(s, p)
    ensures var lines := Lines(Texts(s.entries));
      && IsPrefix(s.buf, s.out) && IsPrefix(lines, s.out)
      && (s.out == lines || PrintsAfter(s, lines, p))
  {
    if p.Buffering? {
      var n := |s.entries| - 1;
      LinesSnoc(s.entries[..n], s.entries[n]);
      assert s.entries[..n] + [s.entries[n]] == s.entries;
      PrefixOfLine(Lines(Texts(s.entries[..n])), Line(p.text), p.pos);
    } else if p.Printing? {
      PrefixOfLine(Lines(Texts(s.entries)), Line(p.text), p.pos);
    }
  }

  lemma PrefixOfLine(a: string, line: string, pos: nat)
    requires pos <= |line|
    ensures IsPrefix(a + line[..pos], a + line) && IsPrefix(a, a + line[..pos]) && IsPrefix(a, a + line)
  {
  }

  /** Entry n of a history stands contiguously in the output. */
  lemma {:induction false} EntryContiguous(entries: seq<Entry>, n: nat)
    requires n < |entries|
    ensures var o := |Lines(Texts(entries[..n]))|; var line := Line(entries[n].text); var lines := Lines(Texts(entries));
      o + |line| <= |lines| && lines[o..o + |line|] == line
    decreases |entries|
  {
    var last := |entries| - 1;
    LinesSnoc(entries[..last], entries[last]);
    assert entries[..last] + [entries[last]] == entries;
    if n < last {
      EntryContiguous(entries[..last], n);
      assert entries[..last][..n] == entries[..n];
    }
  }

  /** No deadlock: while a call is in progress some thread can go on. */
  lemma SomeThreadCanGoOn(run: seq<State>, k: nat)
    requires IsRun(run) && k < |run|
    requires exists i :: 0 <= i < |run[k].threads| && !run[k].threads[i].Idle?
    ensures exists i: nat, e: Event :: !e.StartLog? && !e.StartAdd? && Enabled(run[k], i, e)
  {
    RunInv(run, k);
    var s := run[k];
    if i :| 0 <= i < |s.threads| && HoldsWrite(s.threads[i]) {
      assert Enabled(s, i, if s.threads[i].AddHeld? then Append else DropWrite);
    } else if i :| 0 <= i < |s.threads| && HoldsLog(s.threads[i]) {
      var p := s.threads[i];
      assert PhaseInv(s, p);
      var e := match p
        case LogHeld(_, _) => TakeRead
        case Replacing(_, _, _, used) => if used < |s.masks| then ReplaceNext else DropRead
        case Printing(_, _, text, _, pos) => if pos < |Line(text)| then PrintChar else EndPrint
        case Buffering(_, _, text, _, pos) => if pos < |Line(text)| then BufferChar else DropLog
        case _ => TakeLog;
      assert Enabled(s, i, e);
    } else {
      var i :| 0 <= i < |s.threads| && !s.threads[i].Idle?;
      assert Enabled(s, i, if s.threads[i].LogWait? then TakeLog else TakeWrite);
    }
  }
}
