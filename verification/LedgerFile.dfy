/**
 The accounting ledger's file operations: the write loop, the queue that lets one append run at a time,
 and the replay loops.
 */
module LedgerFile {
  import opened Prelude
  import opened JsonLexical
  import opened JsonValues
  import opened JsonCanonical
  import opened LedgerFraming

  function TextOf(s: Source): Text
    decreases |s|
  {
    if s == [] then Empty else Char(s[0], TextOf(s[1..]))
  }

  lemma {:induction false} TextOfJoins(a: Source, b: Source)
    ensures TextOf(a + b) == Cat(TextOf(a), TextOf(b))
    decreases |a|
  {
    if a == [] {
      assert a + b == b;
    } else {
      TextOfJoins(a[1..], b);
      assert (a + b)[1..] == a[1..] + b;
    }
  }

  lemma {:induction false} TextOfSource(text: Text)
    ensures TextOf(SourceOf(text)) == text
  {
    if text.Char? {
      TextOfSource(text.rest);
      assert SourceOf(text)[1..] == SourceOf(text.rest);
    }
  }

  class AccountingLedger {
    const codec: Codec
    var file: Source

    constructor (codec: Codec)
      ensures this.codec == codec && file == []
    {
      this.codec, file := codec, [];
    }

    /** `writes` is how many units each write call takes; a call that takes none is an error. */
    method Write(record: Source, writes: seq<nat>) returns (ok: bool)
      modifies this
      ensures ok ==> file == old(file) + record
      ensures !ok ==> exists k | 0 <= k < |record| :: file == old(file) + record[..k]
      ensures ok <==> Completes(writes, |record|)
    {
      var offset, call := 0, 0;
      assert old(file) + record[..0] == old(file);
      while offset < |record|
        invariant 0 <= offset <= |record| && 0 <= call <= |writes|
        invariant file == old(file) + record[..offset]
        invariant AllPositive(writes[..call])
        invariant if offset < |record| then Total(writes[..call]) == offset else Total(writes[..call]) >= offset
        decreases |writes| - call
      {
        if call == |writes| || writes[call] == 0 {
          NoLaterCall(writes, call, |record|);
          return false;
        }
        var taken := if writes[call] < |record| - offset then writes[call] else |record| - offset;
        assert record[..offset + taken] == record[..offset] + record[offset..offset + taken];
        TotalGrows(writes, call);
        file := file + record[offset..offset + taken];
        offset, call := offset + taken, call + 1;
      }
      assert record[..|record|] == record;
      assert Total(writes[..call]) >= |record| && AllPositive(writes[..call]);
      ok := true;
    }

    /** `synced`: the file reaches the disk. When it does not, the append fails although the record is written. */
    method Append(v: Value, writes: seq<nat>, synced: bool) returns (ok: bool)
      requires Good(codec, v)
      modifies this
      ensures ok <==> synced && Completes(writes, |SourceOf(Record(codec, v))|)
      ensures Completes(writes, |SourceOf(Record(codec, v))|) ==>
                TextOf(file) == Cat(TextOf(old(file)), Record(codec, v))
      ensures !Completes(writes, |SourceOf(Record(codec, v))|) ==>
                exists k | 0 <= k < |SourceOf(Record(codec, v))| :: file == old(file) + SourceOf(Record(codec, v))[..k]
    {
      var record := SourceOf(Record(codec, v));
      var written := Write(record, writes);
      TextOfJoins(old(file), record);
      TextOfSource(Record(codec, v));
      ok := written && synced;
    }

    method Replay() returns (r: Replay<Value>)
      ensures r == ReplayFile(codec, TextOf(file))
    {
      var lines := Lines(TextOf(file));
      if lines.None? {
        return PartialRecord;
      }
      if exists i | 0 <= i < |lines.value| :: lines.value[i].Empty? {
        return EmptyRecord;
      }
      var events, seen := [], NOTHING_SEEN;
      for index := 0 to |lines.value|
        invariant ReplayLines(codec, lines.value, NOTHING_SEEN)
                  == Prefixed(events, ReplayLines(codec, lines.value[index..], seen))
      {
        var rest := lines.value[index..];
        assert rest[0] == lines.value[index] && rest[1..] == lines.value[index + 1..];
        var parsed := ParseStrict(SourceOf(lines.value[index]), codec.clean);
        if parsed.None? {
          return InvalidJson;
        }
        var ids := codec.schema(parsed.value);
        if ids.None? {
          return InvalidEvent;
        }
        if !Fits(seen, ids.value) {
          return DuplicateId;
        }
        PrefixedJoins(events, parsed.value, ReplayLines(codec, rest[1..], Noted(seen, ids.value)));
        seen, events := Noted(seen, ids.value), events + [parsed.value];
      }
      assert lines.value[|lines.value|..] == [];
      assert events + [] == events;
      return Replayed(events);
    }
  }

  function Prefixed<T>(events: seq<T>, r: Replay<T>): Replay<T> {
    match r
    case Replayed(rest) => Replayed(events + rest)
    case error => error
  }

  lemma PrefixedJoins<T>(events: seq<T>, event: T, r: Replay<T>)
    ensures Prefixed(events + [event], r) == Prefixed(events, Prefixed([event], r))
  {
    if r.Replayed? {
      assert events + [event] + r.events == events + ([event] + r.events);
    }
  }

  function Total(writes: seq<nat>): nat {
    if writes == [] then 0 else Total(writes[..|writes| - 1]) + writes[|writes| - 1]
  }

  /** The calls take the whole record before one of them takes nothing. */
  predicate Completes(writes: seq<nat>, size: nat) {
    size == 0 || exists n | 0 <= n <= |writes| :: Total(writes[..n]) >= size && AllPositive(writes[..n])
  }

  predicate AllPositive(writes: seq<nat>) {
    forall i | 0 <= i < |writes| :: writes[i] > 0
  }

  lemma TotalGrows(writes: seq<nat>, n: nat)
    requires n < |writes|
    ensures Total(writes[..n + 1]) == Total(writes[..n]) + writes[n]
  {
    assert writes[..n + 1][..n] == writes[..n];
  }

  lemma {:induction false} TotalMonotone(writes: seq<nat>, m: nat, n: nat)
    requires m <= n <= |writes|
    ensures Total(writes[..m]) <= Total(writes[..n])
    decreases n
  {
    if m < n {
      TotalMonotone(writes, m, n - 1);
      TotalGrows(writes, n - 1);
    }
  }

  /** Calls that stopped, or a call that took nothing, leave the record incomplete. */
  lemma NoLaterCall(writes: seq<nat>, call: nat, size: nat)
    requires call <= |writes| && Total(writes[..call]) < size && (call < |writes| ==> writes[call] == 0)
    ensures !Completes(writes, size)
  {
    forall n | 0 <= n <= |writes|
      ensures Total(writes[..n]) < size || !AllPositive(writes[..n])
    {
      if n <= call {
        TotalMonotone(writes, n, call);
      } else {
        assert writes[..n][call] == 0;
      }
    }
  }

  // ---- What appends leave in the file ----

  /** An append that wrote this many code units of the record: all of it, or less when it failed. */
  datatype Attempt = Attempt(event: Value, units: nat)

  predicate IsPart(c: Codec, a: Attempt) {
    Good(c, a.event) && a.units <= Size(Record(c, a.event))
  }

  predicate AreParts(c: Codec, attempts: seq<Attempt>) {
    forall i | 0 <= i < |attempts| :: IsPart(c, attempts[i])
  }

  predicate IsWhole(c: Codec, a: Attempt)
    requires IsPart(c, a)
  {
    a.units == Size(Record(c, a.event))
  }

  function Written(c: Codec, a: Attempt): Text
    requires IsPart(c, a)
  {
    First(Record(c, a.event), a.units)
  }

  function AllWritten(c: Codec, attempts: seq<Attempt>): Text
    requires AreParts(c, attempts)
  {
    if attempts == [] then Empty else Cat(Written(c, attempts[0]), AllWritten(c, attempts[1..]))
  }

  lemma {:induction false} AllWrittenSplit(c: Codec, attempts: seq<Attempt>, k: nat)
    requires AreParts(c, attempts) && k <= |attempts|
    ensures AllWritten(c, attempts) == Cat(AllWritten(c, attempts[..k]), AllWritten(c, attempts[k..]))
    decreases k
  {
    if k > 0 {
      var rest, front, back := attempts[1..], attempts[..k], attempts[k..];
      AllWrittenSplit(c, rest, k - 1);
      assert front[1..] == rest[..k - 1] && rest[k - 1..] == back && front[0] == attempts[0];
      CatAssociates(Written(c, attempts[0]), AllWritten(c, rest[..k - 1]), AllWritten(c, back));
    }
  }

  lemma OneMoreWritten(c: Codec, attempts: seq<Attempt>, a: Attempt)
    requires AreParts(c, attempts) && IsPart(c, a)
    ensures AreParts(c, attempts + [a])
    ensures AllWritten(c, attempts + [a]) == Cat(AllWritten(c, attempts), Written(c, a))
  {
    var all, k := attempts + [a], |attempts|;
    AllWrittenSplit(c, all, k);
    assert all[..k] == attempts && all[k..] == [a] && [a][1..] == [];
    CatEmpty(Written(c, a));
  }

  // ---- Concurrent callers ----

  /**
   Appends are chained: the head of `pending` is being written, and `offset` units of its record are in the file.
   `attempts` have ended, and `answers` tells which of them were acknowledged.
   */
  datatype Queue = Queue(file: Text, attempts: seq<Attempt>, answers: seq<bool>, pending: seq<Value>, offset: nat)
  {
    function Ended(acknowledged: bool): Queue
      requires pending != []
    {
      Queue(file, attempts + [Attempt(pending[0], offset)], answers + [acknowledged], pending[1..], 0)
    }
  }

  /** `Fail`: opening, writing or, when the record is in the file, synchronising fails. */
  datatype Step = Call(v: Value) | WriteUnit | Synchronise | Fail

  const IDLE: Queue := Queue(Empty, [], [], [], 0)

  function Next(c: Codec, q: Queue, step: Step): Option<Queue> {
    match step
    case Call(v) => if Good(c, v) then Some(q.(pending := q.pending + [v])) else None
    case WriteUnit =>
      if q.pending == [] || !Good(c, q.pending[0]) || q.offset >= Size(Record(c, q.pending[0])) then None
      else
        var unit := UnitAt(Record(c, q.pending[0]), q.offset);
        Some(q.(file := Cat(q.file, One(unit)), offset := q.offset + 1))
    case Synchronise =>
      if q.pending == [] || !Good(c, q.pending[0]) || q.offset < Size(Record(c, q.pending[0])) then None
      else Some(q.Ended(true))
    case Fail => if q.pending == [] then None else Some(q.Ended(false))
  }

  function Run(c: Codec, steps: seq<Step>): Option<Queue> {
    if steps == [] then Some(IDLE)
    else
      match Run(c, steps[..|steps| - 1])
      case None => None
      case Some(q) => Next(c, q, steps[|steps| - 1])
  }

  function Calls(steps: seq<Step>): seq<Value> {
    if steps == [] then []
    else
      match steps[|steps| - 1]
      case Call(v) => Calls(steps[..|steps| - 1]) + [v]
      case _ => Calls(steps[..|steps| - 1])
  }

  function UnitAt(text: Text, i: nat): CodeUnit
    requires i < Size(text)
  {
    if i == 0 then text.head else UnitAt(text.rest, i - 1)
  }

  function First(text: Text, n: nat): Text
    requires n <= Size(text)
  {
    if n == 0 then Empty else Char(text.head, First(text.rest, n - 1))
  }

  function Behind(text: Text, n: nat): Text
    requires n <= Size(text)
  {
    if n == 0 then text else Behind(text.rest, n - 1)
  }

  lemma {:induction false} FirstGrows(text: Text, n: nat)
    requires n < Size(text)
    ensures Cat(First(text, n), One(UnitAt(text, n))) == First(text, n + 1)
  {
    if n > 0 {
      FirstGrows(text.rest, n - 1);
    }
  }

  lemma {:induction false} FirstAndBehind(text: Text, n: nat)
    requires n <= Size(text)
    ensures Cat(First(text, n), Behind(text, n)) == text
    ensures n == Size(text) ==> First(text, n) == text
  {
    if n > 0 {
      FirstAndBehind(text.rest, n - 1);
    }
  }

  lemma {:induction false} FileOfSplit(c: Codec, vs: seq<Value>, k: nat)
    requires AllGood(c, vs) && k <= |vs|
    ensures AllGood(c, vs[..k]) && AllGood(c, vs[k..])
    ensures FileOf(c, vs) == Cat(FileOf(c, vs[..k]), FileOf(c, vs[k..]))
    decreases k
  {
    if k > 0 {
      FileOfSplit(c, vs[1..], k - 1);
      assert vs[..k][1..] == vs[1..][..k - 1] && vs[1..][k - 1..] == vs[k..];
      CatAssociates(Record(c, vs[0]), FileOf(c, vs[1..][..k - 1]), FileOf(c, vs[k..]));
    }
  }

  /** The append that is under way, as far as it has come. */
  function Open(q: Queue): seq<Attempt> {
    if q.pending == [] then [] else [Attempt(q.pending[0], q.offset)]
  }

  /**
   The file holds what the calls wrote, one after another and in their order, and acknowledged calls wrote their whole
   records.
   */
  ghost predicate InOrder(c: Codec, q: Queue, calls: seq<Value>) {
    CallsInOrder(c, q, calls) && IsHeld(c, q.file, q.attempts, Open(q))
  }

  predicate CallsInOrder(c: Codec, q: Queue, calls: seq<Value>) {
    && AllGood(c, calls) && |q.attempts| <= |calls| && |q.answers| == |q.attempts|
    && q.pending == calls[|q.attempts|..] && (q.pending == [] ==> q.offset == 0)
    && AreParts(c, q.attempts) && AreParts(c, Open(q))
    && (forall i | 0 <= i < |q.attempts| ::
          q.attempts[i].event == calls[i] && (q.answers[i] ==> IsWhole(c, q.attempts[i])))
  }

  predicate IsHeld(c: Codec, file: Text, attempts: seq<Attempt>, open: seq<Attempt>)
    requires AreParts(c, attempts) && AreParts(c, open)
  {
    file == Cat(AllWritten(c, attempts), if open == [] then Empty else Written(c, open[0]))
  }

  /** One more unit of the record is in the file. */
  lemma FileGrows(file: Text, done: Text, record: Text, offset: nat)
    requires offset < Size(record) && file == Cat(done, First(record, offset))
    ensures Cat(file, One(UnitAt(record, offset))) == Cat(done, First(record, offset + 1))
  {
    FirstGrows(record, offset);
    CatAssociates(done, First(record, offset), One(UnitAt(record, offset)));
  }

  lemma UnitIsHeld(c: Codec, file: Text, attempts: seq<Attempt>, a: Attempt)
    requires AreParts(c, attempts) && IsPart(c, a) && !IsWhole(c, a) && IsHeld(c, file, attempts, [a])
    ensures IsPart(c, Attempt(a.event, a.units + 1))
    ensures IsHeld(c, Cat(file, One(UnitAt(Record(c, a.event), a.units))), attempts, [Attempt(a.event, a.units + 1)])
  {
    FileGrows(file, AllWritten(c, attempts), Record(c, a.event), a.units);
  }

  lemma UnitKeepsOrder(c: Codec, q: Queue, calls: seq<Value>)
    requires InOrder(c, q, calls) && Next(c, q, WriteUnit).Some?
    ensures InOrder(c, Next(c, q, WriteUnit).value, calls)
  {
    UnitIsHeld(c, q.file, q.attempts, Open(q)[0]);
  }

  lemma EndIsHeld(c: Codec, file: Text, attempts: seq<Attempt>, a: Attempt)
    requires AreParts(c, attempts) && IsPart(c, a) && IsHeld(c, file, attempts, [a])
    ensures AreParts(c, attempts + [a]) && IsHeld(c, file, attempts + [a], [])
  {
    OneMoreWritten(c, attempts, a);
    CatEmpty(AllWritten(c, attempts + [a]));
  }

  /** An append that has not begun has written nothing. */
  lemma NothingIsHeld(c: Codec, file: Text, attempts: seq<Attempt>, v: Value)
    requires AreParts(c, attempts) && Good(c, v)
    ensures IsPart(c, Attempt(v, 0))
    ensures IsHeld(c, file, attempts, [Attempt(v, 0)]) <==> IsHeld(c, file, attempts, [])
  {
  }

  lemma EndKeepsOrder(c: Codec, q: Queue, calls: seq<Value>, acknowledged: bool)
    requires InOrder(c, q, calls) && q.pending != []
    requires acknowledged ==> IsWhole(c, Open(q)[0])
    ensures InOrder(c, q.Ended(acknowledged), calls)
  {
    var k, next := |q.attempts|, q.Ended(acknowledged);
    assert calls[k..][0] == calls[k] && calls[k..][1..] == calls[k + 1..];
    EndIsHeld(c, q.file, q.attempts, Open(q)[0]);
    if next.pending != [] {
      NothingIsHeld(c, q.file, next.attempts, next.pending[0]);
    }
  }

  lemma CallKeepsOrder(c: Codec, q: Queue, calls: seq<Value>, v: Value)
    requires InOrder(c, q, calls) && Good(c, v)
    ensures InOrder(c, q.(pending := q.pending + [v]), calls + [v])
  {
    var k := |q.attempts|;
    assert (calls + [v])[..k] == calls[..k] && (calls + [v])[k..] == calls[k..] + [v];
    assert q.pending != [] ==> (q.pending + [v])[0] == q.pending[0];
  }

  /** What ended appends and the open one wrote is the whole file. */
  lemma FileIsWritten(c: Codec, q: Queue, calls: seq<Value>)
    requires InOrder(c, q, calls)
    ensures AreParts(c, q.attempts + Open(q)) && q.file == AllWritten(c, q.attempts + Open(q))
  {
    if q.pending == [] {
      assert q.attempts + Open(q) == q.attempts;
      CatEmpty(AllWritten(c, q.attempts));
    } else {
      OneMoreWritten(c, q.attempts, Open(q)[0]);
    }
  }

  lemma StepKeepsOrder(c: Codec, q: Queue, calls: seq<Value>, step: Step)
    requires InOrder(c, q, calls) && Next(c, q, step).Some?
    ensures InOrder(c, Next(c, q, step).value, if step.Call? then calls + [step.v] else calls)
  {
    match step
    case Call(v) => CallKeepsOrder(c, q, calls, v);
    case WriteUnit => UnitKeepsOrder(c, q, calls);
    case Synchronise => EndKeepsOrder(c, q, calls, true);
    case Fail => EndKeepsOrder(c, q, calls, false);
  }

  lemma {:induction false} EveryRunIsInOrder(c: Codec, steps: seq<Step>)
    requires Run(c, steps).Some?
    ensures InOrder(c, Run(c, steps).value, Calls(steps))
  {
    if steps != [] {
      var front, last := steps[..|steps| - 1], steps[|steps| - 1];
      EveryRunIsInOrder(c, front);
      StepKeepsOrder(c, Run(c, front).value, Calls(front), last);
    }
  }

  // ---- Runs without failures ----

  predicate NoneFails(steps: seq<Step>) {
    forall step | step in steps :: !step.Fail?
  }

  lemma {:induction false} EveryEndIsAcknowledged(c: Codec, steps: seq<Step>)
    requires Run(c, steps).Some? && NoneFails(steps)
    ensures forall i | 0 <= i < |Run(c, steps).value.answers| :: Run(c, steps).value.answers[i]
  {
    if steps != [] {
      EveryEndIsAcknowledged(c, steps[..|steps| - 1]);
    }
  }

  /** Whole records, one after another, are the file of their events. */
  lemma {:induction false} WholeRecords(c: Codec, attempts: seq<Attempt>, vs: seq<Value>)
    requires AreParts(c, attempts) && AllGood(c, vs) && |attempts| == |vs|
    requires forall i | 0 <= i < |vs| :: attempts[i].event == vs[i] && IsWhole(c, attempts[i])
    ensures AllWritten(c, attempts) == FileOf(c, vs)
    decreases |vs|
  {
    if vs != [] {
      WholeRecords(c, attempts[1..], vs[1..]);
      FirstAndBehind(Record(c, vs[0]), attempts[0].units);
    }
  }

  /** What is missing of the file of all calls. */
  lemma CutAt(c: Codec, q: Queue, calls: seq<Value>) returns (rest: Text)
    requires InOrder(c, q, calls) && forall i | 0 <= i < |q.attempts| :: IsWhole(c, q.attempts[i])
    ensures Cat(q.file, rest) == FileOf(c, calls)
    ensures q.pending == [] ==> q.file == FileOf(c, calls)
  {
    var k := |q.attempts|;
    FileOfSplit(c, calls, k);
    WholeRecords(c, q.attempts, calls[..k]);
    if q.pending == [] {
      rest := Empty;
      assert calls[..k] == calls;
      CatEmpty(FileOf(c, calls));
    } else {
      var record, later := Record(c, q.pending[0]), FileOf(c, q.pending[1..]);
      rest := Cat(Behind(record, q.offset), later);
      FirstAndBehind(record, q.offset);
      CatAssociates(FileOf(c, calls[..k]), First(record, q.offset), rest);
      CatAssociates(First(record, q.offset), Behind(record, q.offset), later);
    }
  }

  /**
   Whatever callers append concurrently, as long as nothing fails: at any moment replay gives the first events, in the
   order of the calls, or refuses the record being written; and when nothing is pending it gives every event.
   */
  lemma ConcurrentAppendsReplay(c: Codec, steps: seq<Step>)
    requires Idempotent(c.nfc) && Run(c, steps).Some? && NoneFails(steps)
    requires AllGood(c, Calls(steps)) && IdsDistinct(IdsOf(c, Calls(steps)))
    ensures var q, all := Run(c, steps).value, Canonicals(c, Calls(steps));
            && |q.attempts| + |q.pending| == |all|
            && (ReplayFile(c, q.file) == PartialRecord
                || exists n | 0 <= n <= |all| :: ReplayFile(c, q.file) == Replayed(all[..n]))
            && (q.pending == [] ==> ReplayFile(c, q.file) == Replayed(all))
  {
    EveryRunIsInOrder(c, steps);
    EveryEndIsAcknowledged(c, steps);
    var q, calls := Run(c, steps).value, Calls(steps);
    var rest := CutAt(c, q, calls);
    var n := TruncationIsSafe(c, calls, q.file, rest);
    AppendedIsReplayed(c, calls);
  }
}
