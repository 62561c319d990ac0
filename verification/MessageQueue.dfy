/** The two rings that carry window messages to another thread: one guarded by a pair of
    counting semaphores, one by a flag for each slot. */
module MessageQueue {
  import opened Helpers

  datatype Message = Message(window: nat, id: nat, wParam: nat, lParam: nat)

  // ----- the semaphore ring, step by step -----

  /** Where the writing thread is: it holds a space permit unless it is idle. */
  datatype Writer = WriterIdle | Storing(message: Message) | Advancing | Releasing

  /** Where the reading thread is: it holds a data permit unless it is idle. */
  datatype Reader = ReaderIdle | Loading | Stepping(loaded: Message) | Freeing(read: Message)

  /** `stored` and `loadedAll` record the whole history: what was put in a slot and what was
      taken from one. */
  datatype State = State(
    data: seq<Message>, writerIndex: nat, readerIndex: nat, space: nat, ready: nat,
    writer: Writer, reader: Reader,
    stored: seq<Message>, loadedAll: seq<Message>)

  datatype Action = TryWrite(message: Message) | WriterStep | TryRead | ReaderStep

  function Initial(blank: Message): State {
    State(seq(RING_SIZE, _ => blank), 0, 0, RING_SIZE, 0, WriterIdle, ReaderIdle, [], [])
  }

  /** One step of one thread.  A step a thread cannot take leaves everything as it is: a
      wait on an empty semaphore is a refused call. */
  function Next(s: State, a: Action): State
    requires |s.data| == RING_SIZE && s.writerIndex < RING_SIZE && s.readerIndex < RING_SIZE
  {
    match a
    case TryWrite(m) =>
      if s.writer.WriterIdle? && s.space > 0 then s.(space := s.space - 1, writer := Storing(m)) else s
    case WriterStep =>
      (match s.writer
       case WriterIdle => s
       case Storing(m) => s.(data := s.data[s.writerIndex := m], stored := s.stored + [m], writer := Advancing)
       case Advancing => s.(writerIndex := (s.writerIndex + 1) % RING_SIZE, writer := Releasing)
       case Releasing => s.(ready := s.ready + 1, writer := WriterIdle))
    case TryRead =>
      if s.reader.ReaderIdle? && s.ready > 0 then s.(ready := s.ready - 1, reader := Loading) else s
    case ReaderStep =>
      (match s.reader
       case ReaderIdle => s
       case Loading =>
         var m := s.data[s.readerIndex];
         s.(loadedAll := s.loadedAll + [m], reader := Stepping(m))
       case Stepping(m) => s.(readerIndex := (s.readerIndex + 1) % RING_SIZE, reader := Freeing(m))
       case Freeing(m) => s.(space := s.space + 1, reader := ReaderIdle))
  }

  function WriterHolds(s: State): nat { if s.writer.WriterIdle? then 0 else 1 }
  function ReaderHolds(s: State): nat { if s.reader.ReaderIdle? then 0 else 1 }

  /** Messages in a slot whose data permit has not been given out yet. */
  function Announced(s: State): int {
    |s.stored| - (if s.writer.Advancing? || s.writer.Releasing? then 1 else 0)
  }

  function Taken(s: State): nat {
    |s.loadedAll| + (if s.reader.Loading? then 1 else 0)
  }

  function Freed(s: State): int {
    |s.loadedAll| - (if s.reader.Stepping? || s.reader.Freeing? then 1 else 0)
  }

  ghost predicate Inv(s: State) {
    && |s.data| == RING_SIZE
    && |s.loadedAll| <= |s.stored|
    && s.loadedAll == s.stored[..|s.loadedAll|]
    && s.ready == Announced(s) - Taken(s)
    && s.space == RING_SIZE - (|s.stored| + (if s.writer.Storing? then 1 else 0)) + Freed(s)
    && s.writerIndex == (if s.writer.Advancing? then |s.stored| - 1 else |s.stored|) % RING_SIZE
    && s.readerIndex == (if s.reader.Stepping? then |s.loadedAll| - 1 else |s.loadedAll|) % RING_SIZE
    && (s.writer.Advancing? || s.writer.Releasing? ==> |s.stored| > 0)
    && (s.reader.Stepping? ==> |s.loadedAll| > 0 && s.reader.loaded == s.loadedAll[|s.loadedAll| - 1])
    && (s.reader.Freeing? ==> |s.loadedAll| > 0 && s.reader.read == s.loadedAll[|s.loadedAll| - 1])
    && (forall k | |s.loadedAll| <= k < |s.stored| :: s.data[k % RING_SIZE] == s.stored[k])
  }

  function RunFrom(s: State, actions: seq<Action>): State
    requires Inv(s)
    ensures Inv(RunFrom(s, actions))
    decreases |actions|
  {
    if actions == [] then s
    else
      NextKeepsInv(s, actions[0]);
      RunFrom(Next(s, actions[0]), actions[1..])
  }

  /** Every step of either thread keeps the invariant. */
  lemma NextKeepsInv(s: State, a: Action)
    requires Inv(s)
    ensures Inv(Next(s, a))
  {
    match a
    case TryWrite(_) =>
    case TryRead =>
    case WriterStep => WriterKeepsInv(s);
    case ReaderStep => ReaderKeepsInv(s);
  }

  lemma WriterKeepsInv(s: State)
    requires Inv(s)
    ensures Inv(Next(s, WriterStep))
  {
    if s.writer.Storing? {
      StoreKeepsSlots(s, s.writer.message);
    } else if s.writer.Advancing? {
      NextSlot(|s.stored| - 1);
    }
  }

  lemma ReaderKeepsInv(s: State)
    requires Inv(s)
    ensures Inv(Next(s, ReaderStep))
  {
    if s.reader.Loading? {
      assert s.data[s.readerIndex] == s.stored[|s.loadedAll|];
    } else if s.reader.Stepping? {
      NextSlot(|s.loadedAll| - 1);
    }
  }

  /** The slot a writer is about to fill holds no message still to be read. */
  lemma StoreKeepsSlots(s: State, m: Message)
    requires Inv(s) && s.writer.Storing?
    ensures var t := Next(s, WriterStep);
            forall k | |t.loadedAll| <= k < |t.stored| :: t.data[k % RING_SIZE] == t.stored[k]
  {
    var t := Next(s, WriterStep);
    forall k | |t.loadedAll| <= k < |t.stored|
      ensures t.data[k % RING_SIZE] == t.stored[k]
    {
      if k < |s.stored| {
        SlotsDiffer(k, |s.stored|);
      }
    }
  }

  lemma NextSlot(n: nat)
    ensures (n % RING_SIZE + 1) % RING_SIZE == (n + 1) % RING_SIZE
  {
  }

  lemma InitialInv(blank: Message)
    ensures Inv(Initial(blank))
  {
  }

  /** At every point of every interleaving of one writer and one reader: what has been read is
      exactly the beginning of what has been stored, in order; the permits that are free, ready
      and held add up to the size of the ring; and a release never overfills a semaphore. */
  lemma EveryInterleaving(blank: Message, actions: seq<Action>)
    ensures Inv(Initial(blank))
    ensures var s := RunFrom(Initial(blank), actions);
            && s.loadedAll <= s.stored
            && |s.stored| - |s.loadedAll| <= RING_SIZE
            && s.space + s.ready + WriterHolds(s) + ReaderHolds(s) == RING_SIZE
            && (s.writer.Releasing? ==> s.ready < RING_SIZE)
            && (s.reader.Freeing? ==> s.space < RING_SIZE)
  {
    InitialInv(blank);
  }

  /** The messages of the writes that are not refused. */
  function Accepted(s: State, actions: seq<Action>): seq<Message>
    requires Inv(s)
    decreases |actions|
  {
    if actions == [] then []
    else
      var a := actions[0];
      NextKeepsInv(s, a);
      (if a.TryWrite? && Next(s, a) != s then [a.message] else []) + Accepted(Next(s, a), actions[1..])
  }

  /** Those stored, and the one on its way to its slot. */
  function Written(s: State): seq<Message> {
    s.stored + (if s.writer.Storing? then [s.writer.message] else [])
  }

  /** Nothing is lost, made up or put out of order on the way from the callers to the slots. */
  lemma {:induction false} WrittenAreAccepted(s: State, actions: seq<Action>)
    requires Inv(s)
    ensures Written(RunFrom(s, actions)) == Written(s) + Accepted(s, actions)
    decreases |actions|
  {
    hide Next, Written;
    if actions != [] {
      var a := actions[0];
      NextKeepsInv(s, a);
      WrittenStep(s, a);
      WrittenAreAccepted(Next(s, a), actions[1..]);
    }
  }

  lemma WrittenStep(s: State, a: Action)
    requires Inv(s)
    ensures var t := Next(s, a);
            Written(t) == Written(s) + (if a.TryWrite? && t != s then [a.message] else [])
  {
  }

  /** What has been read is the beginning of what the callers wrote, however the threads take turns,
      and what has not been read, in a slot or on its way to one, is no more than the ring holds. */
  lemma ReadsWhatWasWritten(blank: Message, actions: seq<Action>)
    ensures Inv(Initial(blank))
    ensures var s := RunFrom(Initial(blank), actions);
            && s.loadedAll <= Accepted(Initial(blank), actions)
            && |Accepted(Initial(blank), actions)| - |s.loadedAll| <= RING_SIZE
  {
    EveryInterleaving(blank, actions);
    WrittenAreAccepted(Initial(blank), actions);
    assert Written(Initial(blank)) == [];
    hide Next, RunFrom, Accepted;
    var s := RunFrom(Initial(blank), actions);
    assert s.stored <= Written(s);
  }

  /** The two threads are never at the same slot: while one is about to fill a slot and the
      other about to empty one, these are different slots. */
  lemma NeverSameSlot(blank: Message, actions: seq<Action>)
    ensures Inv(Initial(blank))
    ensures var s := RunFrom(Initial(blank), actions);
            s.writer.Storing? && s.reader.Loading? ==> s.writerIndex != s.readerIndex
  {
  }

  /** A write is refused exactly when every slot is taken, counting the one a reader has not
      given back yet; a read is refused exactly when every announced message is taken. */
  lemma RefusedIff(blank: Message, actions: seq<Action>, m: Message)
    ensures Inv(Initial(blank))
    ensures var s := RunFrom(Initial(blank), actions);
            && (s.writer.WriterIdle? ==> (Next(s, TryWrite(m)) == s <==> |s.stored| - Freed(s) == RING_SIZE))
            && (s.reader.ReaderIdle? ==> (Next(s, TryRead) == s <==> |s.loadedAll| == Announced(s)))
  {
  }

  /** The messages from the reader's slot up to the writer's. */
  function Ring(s: State, n: nat): seq<Message>
    requires |s.data| == RING_SIZE
  {
    seq(n, k requires 0 <= k < n => s.data[(s.readerIndex + k) % RING_SIZE])
  }

  /** With both threads idle the ring is a plain bounded queue: the ready permits count the
      messages still to be read, and they lie in order from the reader's slot on. */
  lemma IdleIsQueue(blank: Message, actions: seq<Action>)
    ensures Inv(Initial(blank))
    ensures var s := RunFrom(Initial(blank), actions);
            s.writer.WriterIdle? && s.reader.ReaderIdle? ==>
              && s.ready == |s.stored| - |s.loadedAll|
              && s.space == RING_SIZE - s.ready
              && s.stored == s.loadedAll + Ring(s, s.ready)
  {
    InitialInv(blank);
    var s := RunFrom(Initial(blank), actions);
    if s.writer.WriterIdle? && s.reader.ReaderIdle? {
      RingIsUnread(s);
    }
  }

  lemma RingIsUnread(s: State)
    requires Inv(s) && s.writer.WriterIdle? && s.reader.ReaderIdle?
    ensures Ring(s, s.ready) == s.stored[|s.loadedAll|..]
  {
    var n := |s.loadedAll|;
    forall k | 0 <= k < s.ready
      ensures Ring(s, s.ready)[k] == s.stored[n + k]
    {
      SlotOffset(n, k);
      assert s.data[(n + k) % RING_SIZE] == s.stored[n + k];
    }
  }

  lemma SlotOffset(n: nat, k: nat)
    ensures (n % RING_SIZE + k) % RING_SIZE == (n + k) % RING_SIZE
  {
  }

  // ----- the flag ring, step by step -----

  /** The writer raises the flag of its slot before it stores the message. */
  datatype FlagWriter = FlagWriterIdle | Raised(message: Message) | Stored
  datatype FlagReader = FlagReaderIdle | Seen | Copied(message: Message) | Lowered(copied: Message)

  /** `clean` says that no slot was read while its message was still to be stored. */
  datatype FlagState = FlagState(
    data: seq<Message>, cave: seq<bool>, writerIndex: nat, readerIndex: nat,
    writer: FlagWriter, reader: FlagReader,
    stored: seq<Message>, loadedAll: seq<Message>, clean: bool)

  function FlagInitial(blank: Message): FlagState {
    FlagState(seq(RING_SIZE, _ => blank), seq(RING_SIZE, _ => false), 0, 0, FlagWriterIdle, FlagReaderIdle, [], [],
              true)
  }

  function FlagNext(s: FlagState, a: Action): FlagState
    requires |s.data| == RING_SIZE && |s.cave| == RING_SIZE && s.writerIndex < RING_SIZE && s.readerIndex < RING_SIZE
  {
    match a
    case TryWrite(m) =>
      if s.writer.FlagWriterIdle? && !s.cave[s.writerIndex]
      then s.(cave := s.cave[s.writerIndex := true], writer := Raised(m)) else s
    case WriterStep =>
      (match s.writer
       case FlagWriterIdle => s
       case Raised(m) => s.(data := s.data[s.writerIndex := m], stored := s.stored + [m], writer := Stored)
       case Stored => s.(writerIndex := (s.writerIndex + 1) % RING_SIZE, writer := FlagWriterIdle))
    case TryRead =>
      if s.reader.FlagReaderIdle? && s.cave[s.readerIndex] then s.(reader := Seen) else s
    case ReaderStep =>
      (match s.reader
       case FlagReaderIdle => s
       case Seen =>
         var m := s.data[s.readerIndex];
         s.(loadedAll := s.loadedAll + [m], reader := Copied(m),
            clean := s.clean && !(s.writer.Raised? && s.writerIndex == s.readerIndex))
       case Copied(m) => s.(cave := s.cave[s.readerIndex := false], reader := Lowered(m))
       case Lowered(m) => s.(readerIndex := (s.readerIndex + 1) % RING_SIZE, reader := FlagReaderIdle))
  }

  /** Messages whose flag has been raised, and slots whose flag has been lowered again. */
  function RaisedCount(s: FlagState): nat { |s.stored| + (if s.writer.Raised? then 1 else 0) }

  function LoweredCount(s: FlagState): int { |s.loadedAll| - (if s.reader.Copied? then 1 else 0) }

  ghost predicate FlagInv(s: FlagState) {
    && |s.data| == RING_SIZE && |s.cave| == RING_SIZE
    && 0 <= LoweredCount(s) <= RaisedCount(s) <= LoweredCount(s) + RING_SIZE
    && |s.loadedAll| <= RaisedCount(s)
    && (s.reader.Seen? ==> |s.loadedAll| < RaisedCount(s))
    && (s.writer.Stored? ==> |s.stored| > 0)
    && (s.reader.Lowered? ==> |s.loadedAll| > 0)
    && s.writerIndex == (if s.writer.Stored? then |s.stored| - 1 else |s.stored|) % RING_SIZE
    && s.readerIndex == (if s.reader.Copied? || s.reader.Lowered? then |s.loadedAll| - 1 else |s.loadedAll|) % RING_SIZE
    && (forall i | 0 <= i < RING_SIZE :: s.cave[i] <==> Ahead(i, LoweredCount(s)) < RaisedCount(s) - LoweredCount(s))
    && (s.clean ==> |s.loadedAll| <= |s.stored| && s.loadedAll == s.stored[..|s.loadedAll|])
    && (forall k | |s.loadedAll| <= k < |s.stored| :: s.data[k % RING_SIZE] == s.stored[k])
  }

  /** How far slot `i` lies ahead of slot `from % RING_SIZE`. */
  function Ahead(i: nat, from: int): nat { (i - from) % RING_SIZE }

  lemma AheadOfItself(n: nat, from: nat)
    requires from <= n < from + RING_SIZE
    ensures Ahead(n % RING_SIZE, from) == n - from
  {
  }

  lemma AheadDiffers(i: nat, j: nat, from: int)
    requires i < RING_SIZE && j < RING_SIZE && i != j
    ensures Ahead(i, from) != Ahead(j, from)
  {
  }

  lemma AheadOfNext(i: nat, from: int)
    requires i < RING_SIZE && Ahead(i, from) != 0
    ensures Ahead(i, from + 1) == Ahead(i, from) - 1
  {
  }

  lemma AheadWraps(i: nat, from: int)
    ensures Ahead(i, from % RING_SIZE) == Ahead(i, from)
  {
  }

  lemma FlagNextKeepsInv(s: FlagState, a: Action)
    requires FlagInv(s)
    ensures FlagInv(FlagNext(s, a))
  {
    match a
    case TryWrite(_) => FlagRaiseKeepsInv(s, a);
    case TryRead => FlagSeeKeepsInv(s);
    case WriterStep => FlagWriterKeepsInv(s);
    case ReaderStep => FlagReaderKeepsInv(s);
  }

  lemma FlagRaiseKeepsInv(s: FlagState, a: Action)
    requires FlagInv(s) && a.TryWrite?
    ensures FlagInv(FlagNext(s, a))
  {
    hide Ahead;
    var (low, up) := (LoweredCount(s), RaisedCount(s));
    if s.writer.FlagWriterIdle? && !s.cave[s.writerIndex] {
      assert up < low + RING_SIZE by {
        AheadBelow(s.writerIndex, low);
      }
      AheadOfItself(up, low);
      forall i | 0 <= i < RING_SIZE && i != s.writerIndex
        ensures Ahead(i, low) != up - low
      {
        AheadDiffers(i, s.writerIndex, low);
      }
    }
  }

  lemma AheadBelow(i: nat, from: int)
    ensures Ahead(i, from) < RING_SIZE
  {
  }

  lemma FlagSeeKeepsInv(s: FlagState)
    requires FlagInv(s)
    ensures FlagInv(FlagNext(s, TryRead))
  {
  }

  lemma FlagWriterKeepsInv(s: FlagState)
    requires FlagInv(s)
    ensures FlagInv(FlagNext(s, WriterStep))
  {
    hide Ahead;
    if s.writer.Raised? {
      var t := FlagNext(s, WriterStep);
      assert LoweredCount(t) == LoweredCount(s) && RaisedCount(t) == RaisedCount(s);
      forall k | |s.loadedAll| <= k < |s.stored|
        ensures t.data[k % RING_SIZE] == t.stored[k]
      {
        SlotsDiffer(k, |s.stored|);
      }
    } else if s.writer.Stored? {
      NextSlot(|s.stored| - 1);
    }
  }

  lemma FlagReaderKeepsInv(s: FlagState)
    requires FlagInv(s)
    ensures FlagInv(FlagNext(s, ReaderStep))
  {
    hide Ahead;
    match s.reader
    case FlagReaderIdle =>
    case Lowered(_) => NextSlot(|s.loadedAll| - 1);
    case Seen => FlagSeenKeepsInv(s);
    case Copied(_) => FlagLowerKeepsInv(s);
  }

  lemma FlagSeenKeepsInv(s: FlagState)
    requires FlagInv(s) && s.reader.Seen?
    ensures FlagInv(FlagNext(s, ReaderStep))
  {
  }

  lemma FlagLowerKeepsInv(s: FlagState)
    requires FlagInv(s) && s.reader.Copied?
    ensures FlagInv(FlagNext(s, ReaderStep))
  {
    hide Ahead;
    var (low, up) := (LoweredCount(s), RaisedCount(s));
    var t := FlagNext(s, ReaderStep);
    AheadOfItself(low, low);
    AheadBehind(low);
    forall i | 0 <= i < RING_SIZE
      ensures t.cave[i] <==> Ahead(i, low + 1) < up - (low + 1)
    {
      if i != s.readerIndex {
        AheadDiffers(i, s.readerIndex, low);
        AheadOfNext(i, low);
      }
    }
  }

  lemma AheadBehind(n: nat)
    ensures Ahead(n % RING_SIZE, n + 1) == RING_SIZE - 1
  {
  }

  /** A reader about to copy its slot finds a stored message there exactly when the writer is
      not between raising the flag of that same slot and storing. */
  lemma FlagLoadFreshIff(s: FlagState)
    requires FlagInv(s) && s.reader.Seen?
    ensures !(s.writer.Raised? && s.writerIndex == s.readerIndex) <==> |s.loadedAll| < |s.stored|
    ensures |s.loadedAll| < |s.stored| ==> s.data[s.readerIndex] == s.stored[|s.loadedAll|]
  {
    if s.writer.Raised? && |s.loadedAll| < |s.stored| {
      SlotsDiffer(|s.loadedAll|, |s.stored|);
    }
  }

  function FlagRunFrom(s: FlagState, actions: seq<Action>): FlagState
    requires FlagInv(s)
    ensures FlagInv(FlagRunFrom(s, actions))
    decreases |actions|
  {
    if actions == [] then s
    else
      FlagNextKeepsInv(s, actions[0]);
      FlagRunFrom(FlagNext(s, actions[0]), actions[1..])
  }

  lemma FlagInitialInv(blank: Message)
    ensures FlagInv(FlagInitial(blank))
  {
  }

  /** Every interleaving in which no slot is read while its message is still to be stored is
      first in, first out, and never holds more than the ring does. */
  lemma FlagCleanRunsAreFifo(blank: Message, actions: seq<Action>)
    ensures FlagInv(FlagInitial(blank))
    ensures var s := FlagRunFrom(FlagInitial(blank), actions);
            && (s.clean ==> s.loadedAll <= s.stored)
            && RaisedCount(s) - LoweredCount(s) <= RING_SIZE
  {
    FlagInitialInv(blank);
  }

  lemma {:induction false} FlagRunSnoc(s: FlagState, actions: seq<Action>, a: Action)
    requires FlagInv(s)
    ensures FlagRunFrom(s, actions + [a]) == FlagNext(FlagRunFrom(s, actions), a)
    decreases |actions|
  {
    hide FlagNext;
    if actions == [] {
      FlagNextKeepsInv(s, a);
      assert actions + [a] == [a] && [a][1..] == [];
      assert FlagRunFrom(s, [a]) == FlagRunFrom(FlagNext(s, a), []);
    } else {
      FlagNextKeepsInv(s, actions[0]);
      assert (actions + [a])[1..] == actions[1..] + [a];
      FlagRunSnoc(FlagNext(s, actions[0]), actions[1..], a);
    }
  }

  /** The messages of the writes that are not refused. */
  function FlagAccepted(s: FlagState, actions: seq<Action>): seq<Message>
    requires FlagInv(s)
    decreases |actions|
  {
    if actions == [] then []
    else
      var a := actions[0];
      FlagNextKeepsInv(s, a);
      (if a.TryWrite? && FlagNext(s, a) != s then [a.message] else []) + FlagAccepted(FlagNext(s, a), actions[1..])
  }

  function FlagWritten(s: FlagState): seq<Message> {
    s.stored + (if s.writer.Raised? then [s.writer.message] else [])
  }

  /** Here too nothing is lost, made up or put out of order on the way to the slots. */
  lemma {:induction false} FlagWrittenAreAccepted(s: FlagState, actions: seq<Action>)
    requires FlagInv(s)
    ensures FlagWritten(FlagRunFrom(s, actions)) == FlagWritten(s) + FlagAccepted(s, actions)
    decreases |actions|
  {
    hide FlagNext, FlagWritten;
    if actions != [] {
      var a := actions[0];
      FlagNextKeepsInv(s, a);
      FlagWrittenStep(s, a);
      FlagWrittenAreAccepted(FlagNext(s, a), actions[1..]);
    }
  }

  lemma FlagWrittenStep(s: FlagState, a: Action)
    requires FlagInv(s)
    ensures var t := FlagNext(s, a);
            FlagWritten(t) == FlagWritten(s) + (if a.TryWrite? && t != s then [a.message] else [])
  {
  }

  /** No more has been loaded than stored. */
  predicate Behind(s: FlagState) { |s.loadedAll| <= |s.stored| }

  /** At every point of the run. */
  ghost predicate AlwaysBehind(s: FlagState, actions: seq<Action>)
    requires FlagInv(s)
  {
    forall k | 0 <= k <= |actions| :: Behind(FlagRunFrom(s, actions[..k]))
  }

  /** One more step stays clean exactly when it does not load more than was stored. */
  lemma CleanStep(s: FlagState, a: Action)
    requires FlagInv(s) && s.clean
    ensures FlagNext(s, a).clean <==> Behind(FlagNext(s, a))
  {
    if a.ReaderStep? && s.reader.Seen? {
      FlagLoadFreshIff(s);
    }
  }

  lemma StaysUnclean(s: FlagState, a: Action)
    requires FlagInv(s) && !s.clean
    ensures !FlagNext(s, a).clean
  {
  }

  /** An interleaving reads no slot whose message is still to be stored -- and so is first in,
      first out -- exactly when at no point of it more has been loaded than stored. */
  lemma {:induction false} FlagCleanIff(s: FlagState, actions: seq<Action>)
    requires FlagInv(s) && s.clean
    ensures FlagRunFrom(s, actions).clean <==> AlwaysBehind(s, actions)
    decreases |actions|
  {
    hide FlagNext, Behind;
    if actions == [] {
      CleanIsBehind(s);
      assert forall k | 0 <= k <= |actions| :: actions[..k] == [];
    } else {
      var (n, front) := (|actions| - 1, actions[..|actions| - 1]);
      FlagCleanIff(s, front);
      FlagRunSnoc(s, front, actions[n]);
      assert front + [actions[n]] == actions && actions[..n + 1] == actions;
      var t := FlagRunFrom(s, front);
      if t.clean {
        CleanStep(t, actions[n]);
      } else {
        StaysUnclean(t, actions[n]);
      }
      assert forall k | 0 <= k <= n :: front[..k] == actions[..k];
    }
  }

  lemma CleanIsBehind(s: FlagState)
    requires FlagInv(s) && s.clean
    ensures Behind(s)
  {
  }

  /** The flag comes before the message: a reader that looks in between takes what the slot
      held before. */
  lemma FlagRace(blank: Message, m: Message)
    ensures FlagInv(FlagInitial(blank))
    ensures var s := FlagRunFrom(FlagInitial(blank), [TryWrite(m), TryRead, ReaderStep, WriterStep]);
            !s.clean && s.stored == [m] && s.loadedAll == [blank]
  {
    FlagInitialInv(blank);
    var (s0, acts) := (FlagInitial(blank), [TryWrite(m), TryRead, ReaderStep, WriterStep]);
    var s1 := FlagNext(s0, TryWrite(m));
    var s2 := FlagNext(s1, TryRead);
    var s3 := FlagNext(s2, ReaderStep);
    var s4 := FlagNext(s3, WriterStep);
    assert s4.loadedAll == [blank] && s4.stored == [m] && !s4.clean;
    FlagNextKeepsInv(s0, TryWrite(m));
    FlagNextKeepsInv(s1, TryRead);
    FlagNextKeepsInv(s2, ReaderStep);
    FlagNextKeepsInv(s3, WriterStep);
    assert acts[1..] == [TryRead, ReaderStep, WriterStep];
    assert acts[1..][1..] == [ReaderStep, WriterStep];
    assert acts[1..][1..][1..] == [WriterStep];
    assert acts[1..][1..][1..][1..] == [];
    assert FlagRunFrom(s3, [WriterStep]) == FlagRunFrom(s4, []);
    assert FlagRunFrom(s2, [ReaderStep, WriterStep]) == FlagRunFrom(s3, [WriterStep]);
    assert FlagRunFrom(s1, [TryRead, ReaderStep, WriterStep]) == FlagRunFrom(s2, [ReaderStep, WriterStep]);
  }

  // ----- the flag ring with calls that do not overlap -----

  class FlagQueue {
    const data: array<Message>
    const cave: array<bool>
    var writerIndex: nat
    var readerIndex: nat
    ghost var contents: seq<Message>

    ghost predicate Valid()
      reads this, data, cave
    {
      && data.Length == RING_SIZE && cave.Length == RING_SIZE
      && writerIndex < RING_SIZE && readerIndex < RING_SIZE && |contents| <= RING_SIZE
      && writerIndex == (readerIndex + |contents|) % RING_SIZE
      && (forall i | 0 <= i < RING_SIZE :: cave[i] <==> Ahead(i, readerIndex) < |contents|)
      && (forall i | 0 <= i < RING_SIZE :: cave[i] ==> data[i] == contents[Ahead(i, readerIndex)])
    }

    constructor (blank: Message)
      ensures Valid() && contents == [] && fresh(data) && fresh(cave)
    {
      data := new Message[RING_SIZE](_ => blank);
      cave := new bool[RING_SIZE](_ => false);
      writerIndex, readerIndex, contents := 0, 0, [];
    }

    method Write(v: Message) returns (ok: bool)
      requires Valid()
      modifies this, data, cave
      ensures Valid() && ok == (|old(contents)| < RING_SIZE)
      ensures contents == if ok then old(contents) + [v] else old(contents)
    {
      hide Ahead;
      ghost var n := |contents|;
      AheadBelow(writerIndex, readerIndex);
      if n < RING_SIZE {
        AheadOfItself(readerIndex + n, readerIndex);
      }
      if !cave[writerIndex] {
        forall i | 0 <= i < RING_SIZE && i != writerIndex
          ensures Ahead(i, readerIndex) != n
        {
          AheadDiffers(i, writerIndex, readerIndex);
        }
        NextSlot(readerIndex + n);
        cave[writerIndex] := true;
        data[writerIndex] := v;
        writerIndex := (writerIndex + 1) % RING_SIZE;
        contents := contents + [v];
        return true;
      }
      return false;
    }

    method Read() returns (ok: bool, v: Option<Message>)
      requires Valid()
      modifies this, cave
      ensures Valid() && ok == (old(contents) != []) && v.Some? == ok
      ensures ok ==> old(contents) == [v.value] + contents
      ensures !ok ==> contents == []
    {
      hide Ahead;
      assert cave[readerIndex] <==> contents != [] by {
        AheadOfItself(readerIndex, readerIndex);
      }
      if cave[readerIndex] {
        v := Some(data[readerIndex]);
        AheadOfItself(readerIndex, readerIndex);
        AheadBehind(readerIndex);
        AheadWraps(readerIndex, readerIndex + 1);
        forall i | 0 <= i < RING_SIZE && i != readerIndex
          ensures Ahead(i, (readerIndex + 1) % RING_SIZE) == Ahead(i, readerIndex) - 1
        {
          AheadDiffers(i, readerIndex, readerIndex);
          AheadOfNext(i, readerIndex);
          AheadWraps(i, readerIndex + 1);
        }
        cave[readerIndex] := false;
        readerIndex := (readerIndex + 1) % RING_SIZE;
        contents := contents[1..];
        return true, v;
      }
      return false, None;
    }

    /** One pass over the queue, at most as many reads as it has slots: it takes everything
        that was there, in the order it was written. */
    method Drain() returns (processed: seq<Message>)
      requires Valid()
      modifies this, cave
      ensures Valid() && contents == [] && processed == old(contents)
    {
      processed := [];
      var i := 0;
      while i < RING_SIZE
        invariant i <= RING_SIZE && Valid()
        invariant processed + contents == old(contents) && |processed| == i
      {
        var ok, msg := Read();
        if ok {
          processed := processed + [msg.value];
        } else {
          break;
        }
        i := i + 1;
      }
    }
  }
}
