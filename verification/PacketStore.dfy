/**
 The agent's queue of data packets and its file: records of a four-byte length, least significant byte
 first, and the packet's bytes.
 */
module PacketStore {
  import opened Frames
  import opened Options

  /** GetDataNo: the big-endian number behind the head, the command and the length. Frames have at least nine bytes. */
  function DataNo(p: seq<Byte>): nat {
    if |p| < 9 then 0 else (p[7] as nat) * 256 + p[8]
  }

  // ----- Push

  /** A packet with this number is queued. */
  predicate Numbered(queue: seq<seq<Byte>>, no: nat) {
    exists i :: 0 <= i < |queue| && DataNo(queue[i]) == no
  }

  /** The packets are whole frames with different numbers. */
  ghost predicate QueueOk(crc: seq<Byte> -> nat, queue: seq<seq<Byte>>) {
    && (forall i :: 0 <= i < |queue| ==> FrameOk(crc, queue[i]) && |queue[i]| < 5000)
    && (forall i, j :: 0 <= i < j < |queue| ==> DataNo(queue[i]) != DataNo(queue[j]))
  }

  function Pushed(queue: seq<seq<Byte>>, p: seq<Byte>): seq<seq<Byte>> {
    if p == [] || Numbered(queue, DataNo(p)) then queue else queue + [p]
  }

  /** Push keeps the numbers different. */
  lemma PushedOk(crc: seq<Byte> -> nat, queue: seq<seq<Byte>>, p: seq<Byte>)
    requires QueueOk(crc, queue) && (p == [] || (FrameOk(crc, p) && |p| < 5000))
    ensures QueueOk(crc, Pushed(queue, p))
  {
  }

  // ----- The file

  /** An int as it is stored. */
  function LittleEndian(n: nat): (r: seq<Byte>)
    ensures |r| == 4
  {
    [n % 256, n / 256 % 256, n / 65536 % 256, n / 16777216 % 256]
  }

  /** A stored int read back, as a signed number of 32 bits. */
  function IntAt(image: seq<Byte>): int
    requires |image| >= 4
  {
    var n := (image[0] as int) + (image[1] as int) * 256 + (image[2] as int) * 65536 + (image[3] as int) * 16777216;
    if n >= 2147483648 then n - 4294967296 else n
  }

  lemma LengthRoundTrip(n: nat, rest: seq<Byte>)
    requires n < 5000
    ensures IntAt(LittleEndian(n) + rest) == n && (LittleEndian(n) + rest)[4..] == rest
  {
  }

  /** Every int of 32 bits is read back, the negative ones from the upper half. */
  lemma IntRoundTrip(v: int, rest: seq<Byte>)
    requires -0x8000_0000 <= v < 0x8000_0000
    ensures var stored := LittleEndian(if v < 0 then v + 0x1_0000_0000 else v);
      IntAt(stored + rest) == v && (stored + rest)[4..] == rest
  {
    var n := if v < 0 then v + 0x1_0000_0000 else v;
    Digits(n);
  }

  lemma Digits(n: nat)
    requires n < 0x1_0000_0000
    ensures n % 256 + n / 256 % 256 * 256 + n / 65536 % 256 * 65536 + n / 16777216 % 256 * 16777216 == n
  {
  }

  /** A packet as it is stored; an empty one is left out. */
  function Record(p: seq<Byte>): (r: seq<Byte>)
    ensures |r| == if p == [] then 0 else |p| + 4
  {
    if p == [] then [] else LittleEndian(|p|) + p
  }

  /** What Save writes. */
  function Image(queue: seq<seq<Byte>>): seq<Byte> {
    if queue == [] then [] else Record(queue[0]) + Image(queue[1..])
  }

  /** What Load makes of the rest of a file: a record cut off ends it, an impossible length is skipped. */
  function Loaded(crc: seq<Byte> -> nat, image: seq<Byte>, queue: seq<seq<Byte>>): seq<seq<Byte>>
    decreases |image|
  {
    if |image| < 4 then queue
    else
      var n, rest := IntAt(image), image[4..];
      if 0 < n < 5000 then
        if n > |rest| then queue
        else if FrameOk(crc, rest[..n]) then Loaded(crc, rest[n..], Pushed(queue, rest[..n]))
        else Loaded(crc, rest[n..], queue)
      else Loaded(crc, rest, queue)
  }

  /** Whatever the file holds, what is loaded is a right queue. */
  lemma {:induction false} LoadedOk(crc: seq<Byte> -> nat, image: seq<Byte>, queue: seq<seq<Byte>>)
    requires QueueOk(crc, queue)
    ensures QueueOk(crc, Loaded(crc, image, queue))
    decreases |image|
  {
    if |image| >= 4 {
      var n, rest := IntAt(image), image[4..];
      if 0 < n < 5000 {
        if n <= |rest| {
          if FrameOk(crc, rest[..n]) {
            PushedOk(crc, queue, rest[..n]);
            LoadedOk(crc, rest[n..], Pushed(queue, rest[..n]));
          } else {
            LoadedOk(crc, rest[n..], queue);
          }
        }
      } else {
        LoadedOk(crc, rest, queue);
      }
    }
  }

  // ----- Saving and loading

  lemma {:induction false} OneRecord(crc: seq<Byte> -> nat, p: seq<Byte>, more: seq<Byte>, queue: seq<seq<Byte>>)
    requires FrameOk(crc, p) && |p| < 5000 && !Numbered(queue, DataNo(p))
    ensures Loaded(crc, Record(p) + more, queue) == Loaded(crc, more, queue + [p])
  {
    var image := Record(p) + more;
    assert image == LittleEndian(|p|) + (p + more);
    LengthRoundTrip(|p|, p + more);
    assert image[4..] == p + more;
    assert (p + more)[..|p|] == p && (p + more)[|p|..] == more;
  }

  /** A length that is not positive, or 5000 and more, is skipped, and what follows is read as a length. */
  lemma BadLengthIsSkipped(crc: seq<Byte> -> nat, v: int, more: seq<Byte>, queue: seq<seq<Byte>>)
    requires -0x8000_0000 <= v <= 0 || 5000 <= v < 0x8000_0000
    ensures Loaded(crc, LittleEndian(if v < 0 then v + 0x1_0000_0000 else v) + more, queue) == Loaded(crc, more, queue)
  {
    IntRoundTrip(v, more);
  }

  /** A record whose bytes are no frame, or whose number is queued, is left out. */
  lemma BadRecordIsLeftOut(crc: seq<Byte> -> nat, p: seq<Byte>, more: seq<Byte>, queue: seq<seq<Byte>>)
    requires 0 < |p| < 5000 && (!FrameOk(crc, p) || Numbered(queue, DataNo(p)))
    ensures Loaded(crc, Record(p) + more, queue) == Loaded(crc, more, queue)
  {
    var image := Record(p) + more;
    assert image == LittleEndian(|p|) + (p + more);
    LengthRoundTrip(|p|, p + more);
    assert (p + more)[..|p|] == p && (p + more)[|p|..] == more;
  }

  /** A record cut off ends the file. */
  lemma CutRecordEnds(crc: seq<Byte> -> nat, p: seq<Byte>, k: nat, queue: seq<seq<Byte>>)
    requires 0 < |p| < 5000 && k < |Record(p)|
    ensures Loaded(crc, Record(p)[..k], queue) == queue
  {
    if k >= 4 {
      assert Record(p)[..k] == LittleEndian(|p|) + p[..k - 4];
      LengthRoundTrip(|p|, p[..k - 4]);
    }
  }

  lemma ImageStep(queue: seq<seq<Byte>>, k: nat)
    requires k < |queue|
    ensures Image(queue[k..]) == Record(queue[k]) + Image(queue[k + 1..])
  {
  }

  lemma NumberIsNew(crc: seq<Byte> -> nat, queue: seq<seq<Byte>>, k: nat)
    requires QueueOk(crc, queue) && k < |queue|
    ensures !Numbered(queue[..k], DataNo(queue[k]))
  {
  }

  lemma {:induction false} LoadStep(crc: seq<Byte> -> nat, queue: seq<seq<Byte>>, k: nat, more: seq<Byte>)
    requires QueueOk(crc, queue) && k < |queue|
    ensures Loaded(crc, Record(queue[k]) + more, queue[..k]) == Loaded(crc, more, queue[..k + 1])
  {
    NumberIsNew(crc, queue, k);
    OneRecord(crc, queue[k], more, queue[..k]);
    assert queue[..k] + [queue[k]] == queue[..k + 1];
  }

  /** Loading a saved queue gives the queue back. */
  lemma {:induction false} LoadUndoesSave(crc: seq<Byte> -> nat, queue: seq<seq<Byte>>, k: nat)
    requires QueueOk(crc, queue) && k <= |queue|
    ensures Loaded(crc, Image(queue[k..]), queue[..k]) == queue
    decreases |queue| - k
  {
    if k == |queue| {
      assert queue[k..] == [] && queue[..k] == queue;
    } else {
      ImageStep(queue, k);
      LoadStep(crc, queue, k, Image(queue[k + 1..]));
      LoadUndoesSave(crc, queue, k + 1);
    }
  }

  lemma {:induction false} CutRecord(crc: seq<Byte> -> nat, p: seq<Byte>, cut: seq<Byte>, queue: seq<seq<Byte>>)
    requires 0 < |p| < 5000
    requires |cut| < |p| + 4 && cut == Record(p)[..|cut|]
    ensures Loaded(crc, cut, queue) == queue
  {
    if |cut| >= 4 {
      LengthRoundTrip(|p|, p[..|cut| - 4]);
      assert cut == LittleEndian(|p|) + p[..|cut| - 4];
    }
  }

  lemma CutEarly(a: seq<Byte>, b: seq<Byte>, n: nat)
    requires n <= |a|
    ensures (a + b)[..n] == a[..n]
  {
  }

  lemma CutLate(a: seq<Byte>, b: seq<Byte>, n: nat)
    requires |a| <= n <= |a| + |b|
    ensures (a + b)[..n] == a + b[..n - |a|]
  {
  }

  /** The number of packets of the queue that are stored when the records from k on get n bytes. */
  function Whole(queue: seq<seq<Byte>>, k: nat, n: nat): (m: nat)
    requires k <= |queue|
    ensures k <= m <= |queue|
    decreases |queue| - k
  {
    if k == |queue| || n < |Record(queue[k])| then k else Whole(queue, k + 1, n - |Record(queue[k])|)
  }

  /** Loading a saved file cut at any byte gives the packets whose records are whole, a beginning of the queue. */
  lemma {:induction false} CutFileLoadsPrefix(crc: seq<Byte> -> nat, queue: seq<seq<Byte>>, k: nat, n: nat)
    requires QueueOk(crc, queue) && k <= |queue| && n <= |Image(queue[k..])|
    ensures Loaded(crc, Image(queue[k..])[..n], queue[..k]) == queue[..Whole(queue, k, n)]
    decreases |queue| - k
  {
    if k == |queue| {
      assert queue[k..] == [];
    } else {
      var p, more := queue[k], Image(queue[k + 1..]);
      var record := Record(p);
      ImageStep(queue, k);
      if n < |p| + 4 {
        CutEarly(record, more, n);
        CutRecord(crc, p, record[..n], queue[..k]);
      } else {
        CutLate(record, more, n);
        LoadStep(crc, queue, k, more[..n - |record|]);
        CutFileLoadsPrefix(crc, queue, k + 1, n - |record|);
      }
    }
  }

  /** Every packet fits exactly if all bytes of the image do. */
  lemma {:induction false} AllWhole(queue: seq<seq<Byte>>, k: nat, n: nat)
    requires k <= |queue| && forall i :: 0 <= i < |queue| ==> queue[i] != []
    ensures Whole(queue, k, n) == |queue| <==> n >= |Image(queue[k..])|
    decreases |queue| - k
  {
    if k == |queue| {
      assert queue[k..] == [];
    } else {
      ImageStep(queue, k);
      if n >= |Record(queue[k])| {
        AllWhole(queue, k + 1, n - |Record(queue[k])|);
      }
    }
  }

  /** A save onto a disk that takes n bytes keeps a packet exactly if its record and all before it fit. */
  lemma SavedExactly(crc: seq<Byte> -> nat, queue: seq<seq<Byte>>, n: nat, j: nat)
    requires QueueOk(crc, queue) && n <= |Image(queue)| && j < |queue|
    ensures queue[j] in Loaded(crc, Image(queue)[..n], []) <==> j < Whole(queue, 0, n)
  {
    assert queue[0..] == queue && queue[..0] == [];
    CutFileLoadsPrefix(crc, queue, 0, n);
    var m := Whole(queue, 0, n);
    if j < m {
      assert queue[..m][j] == queue[j];
    }
  }

  /** A queue of right frames with different numbers is loaded back exactly if every frame is under 5000 bytes. */
  lemma LoadsBackExactly(crc: seq<Byte> -> nat, queue: seq<seq<Byte>>)
    requires forall i :: 0 <= i < |queue| ==> FrameOk(crc, queue[i])
    requires forall i, j :: 0 <= i < j < |queue| ==> DataNo(queue[i]) != DataNo(queue[j])
    ensures Loaded(crc, Image(queue), []) == queue <==> forall i :: 0 <= i < |queue| ==> |queue[i]| < 5000
  {
    LoadedOk(crc, Image(queue), []);
    if forall i :: 0 <= i < |queue| ==> |queue[i]| < 5000 {
      assert queue[0..] == queue && queue[..0] == [];
      LoadUndoesSave(crc, queue, 0);
    }
  }

  function Least(a: nat, b: nat): nat {
    if a < b then a else b
  }

  // ----- The loops

  /** One write: as many bytes as fit, behind a beginning of the whole image. */
  method Write(image: seq<Byte>, bytes: seq<Byte>, room: nat, ghost more: seq<Byte>, ghost whole: seq<Byte>)
    returns (image': seq<Byte>, ok: bool)
    requires |image| <= room && whole == image + (bytes + more)
    ensures ok == (|image| + |bytes| <= room)
    ensures if ok then whole == image' + more && |image'| <= room else room < |whole| && image' == whole[..room]
  {
    ok := |image| + |bytes| <= room;
    image' := image + if ok then bytes else bytes[..room - |image|];
  }

  /** The two writes for a packet; an empty one is left out. */
  method WriteRecord(image: seq<Byte>, p: seq<Byte>, room: nat, ghost more: seq<Byte>, ghost whole: seq<Byte>)
    returns (image': seq<Byte>, ok: bool)
    requires |image| <= room && whole == image + (Record(p) + more)
    ensures |image'| <= room && if ok then whole == image' + more else room < |whole| && image' == whole[..room]
  {
    image', ok := image, true;
    if |p| != 0 {
      Regroup(LittleEndian(|p|), p, more);
      image', ok := Write(image, LittleEndian(|p|), room, p + more, whole);
      if ok {
        image', ok := Write(image', p, room, more, whole);
      }
    } else {
      assert Record(p) + more == more;
    }
  }

  lemma Regroup(a: seq<Byte>, b: seq<Byte>, c: seq<Byte>)
    ensures a + b + c == a + (b + c)
  {
  }

  lemma Finished(image: seq<Byte>, room: nat, whole: seq<Byte>, ok: bool)
    requires |image| <= room && if ok then whole == image + [] else room < |whole| && image == whole[..room]
    ensures image == whole[..Least(room, |whole|)]
  {
  }

  class DataPacketQueue {
    var queue: seq<seq<Byte>>

    /** Push: a packet whose number is already queued is dropped. */
    method Push(p: seq<Byte>)
      modifies this
      ensures queue == Pushed(old(queue), p)
    {
      if p != [] {
        var i := 0;
        while i < |queue|
          invariant i <= |queue| && forall k :: 0 <= k < i ==> DataNo(queue[k]) != DataNo(p)
        {
          if DataNo(queue[i]) == DataNo(p) {
            return;
          }
          i := i + 1;
        }
        queue := queue + [p];
      }
    }

    /** Pop, on a queue that is not empty. */
    method Pop()
      requires queue != []
      modifies this
      ensures queue == old(queue)[1..]
    {
      queue := queue[1..];
    }

    /** Save to a disk that takes room bytes: a short write ends it, so the file is the image or a beginning of it. */
    method Save(room: nat) returns (image: seq<Byte>)
      ensures image == Image(queue)[..Least(room, |Image(queue)|)]
    {
      image := [];
      var i, ok := 0, true;
      ghost var whole := Image(queue);
      assert queue[0..] == queue && [] + Image(queue) == Image(queue);
      while i < |queue| && ok
        invariant i <= |queue| && |image| <= room
        invariant if ok then whole == image + Image(queue[i..]) else room < |whole| && image == whole[..room]
        decreases |queue| - i, ok
      {
        ImageStep(queue, i);
        image, ok := WriteRecord(image, queue[i], room, Image(queue[i + 1..]), whole);
        i := i + 1;
      }
      Finished(image, room, whole, ok);
    }

    /** Load, from the bytes of a file; one that cannot be opened changes nothing. */
    method Load(crc: seq<Byte> -> nat, file: Option<seq<Byte>>)
      modifies this
      ensures queue == if file.Some? then Loaded(crc, file.value, []) else old(queue)
    {
      if file.None? {
        return;
      }
      queue := [];
      var rest := file.value;
      while |rest| >= 4
        invariant Loaded(crc, file.value, []) == Loaded(crc, rest, queue)
        decreases |rest|
      {
        var n := IntAt(rest);
        if 0 < n < 5000 {
          if n > |rest| - 4 {
            return;
          }
          var packet := rest[4..][..n];
          if FrameOk(crc, packet) {
            Push(packet);
          }
          rest := rest[4..][n..];
        } else {
          rest := rest[4..];
        }
      }
    }
  }
}
