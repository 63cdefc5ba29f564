/**
 The agent's frames: building one, checking one, and finding one in a stream of bytes. The CRC is a
 parameter here; the channel is the bytes it delivers before it runs dry or throws.
 */
module Frames {

  type Byte = b: nat | b < 256

  const SOH: Byte := 0x01
  const STX: Byte := 0x02
  const ETX: Byte := 0x03
  const EOT: Byte := 0x04

  /** The longest buffer that is kept when a frame check fails. */
  const MAX_CACHE := 4056

  ghost predicate Crc16(crc: seq<Byte> -> nat) {
    forall s :: crc(s) < 65536
  }

  /** BuildPacket. */
  function Build(crc: seq<Byte> -> nat, machine: Byte, content: seq<Byte>): seq<Byte>
    requires Crc16(crc)
  {
    var c := crc(content + [ETX]);
    [SOH, machine, STX] + content + [ETX] + [c / 256, c % 256] + [EOT]
  }

  /** isFrameCRCOK. */
  predicate FrameOk(crc: seq<Byte> -> nat, f: seq<Byte>) {
    && |f| >= 9 && f[|f| - 1] == EOT && f[|f| - 4] == ETX
    && crc(f[3..|f| - 3]) == (f[|f| - 3] as nat) * 256 + f[|f| - 2]
  }

  /** Where the checked bytes and the CRC of a built frame are. */
  lemma BuiltBody(crc: seq<Byte> -> nat, machine: Byte, content: seq<Byte>)
    requires Crc16(crc)
    ensures var f := Build(crc, machine, content);
      && |f| == |content| + 7 && f[3..|f| - 3] == content + [ETX]
      && f[..3] == [0x01, machine, 0x02] && f[|f| - 1] == 0x04 && f[|f| - 4] == 0x03
      && (f[|f| - 3] as nat) * 256 + f[|f| - 2] == crc(content + [ETX])
  {
  }

  /** A built frame passes the check when its content has two bytes. */
  lemma BuiltIsOk(crc: seq<Byte> -> nat, machine: Byte, content: seq<Byte>)
    requires Crc16(crc)
    ensures FrameOk(crc, Build(crc, machine, content)) <==> |content| >= 2
    ensures |Build(crc, machine, content)| == |content| + 7 && Build(crc, machine, content)[0] == SOH
  {
    BuiltBody(crc, machine, content);
  }

  // ----- Receiving

  /** The distance to the next SOH after the first byte. */
  function NextStart(f: seq<Byte>): (i: nat)
    requires f != []
    ensures 0 < i <= |f| && (i < |f| ==> f[i] == SOH) && forall k :: 0 < k < i ==> f[k] != SOH
  {
    if |f| == 1 || f[1] == SOH then 1 else 1 + NextStart(f[1..])
  }

  /** slipToNextStartToken. */
  function Slip(f: seq<Byte>): (g: seq<Byte>)
    requires f != []
    ensures |g| < |f|
  {
    f[NextStart(f)..]
  }

  /** What is left in the buffer once the data has ended: the first frame that starts at a later SOH, or nothing. */
  function Salvaged(crc: seq<Byte> -> nat, cache: seq<Byte>): seq<Byte>
    decreases |cache|
  {
    if cache == [] then []
    else
      var f := Slip(cache);
      if FrameOk(crc, f) then f else Salvaged(crc, f)
  }

  /** How the channel ends: it has no more data, or a read throws. */
  datatype Ending = Dry | Thrown

  /** Bytes are added to the buffer until it is a frame; a failed check of a long buffer drops its start. */
  function Gathered(crc: seq<Byte> -> nat, cache: seq<Byte>, input: seq<Byte>, ending: Ending): seq<Byte>
    decreases |input|
  {
    if input == [] then if ending == Dry then Salvaged(crc, cache) else cache
    else
      var c := cache + [input[0]];
      if input[0] != EOT then Gathered(crc, c, input[1..], ending)
      else if FrameOk(crc, c) then c
      else Gathered(crc, if |c| > MAX_CACHE then Slip(c) else c, input[1..], ending)
  }

  /** ReceiveFrameFrom: bytes before the first SOH are skipped; what a throw leaves stays in the buffer. */
  function Received(crc: seq<Byte> -> nat, input: seq<Byte>, ending: Ending): seq<Byte>
    decreases |input|
  {
    if input == [] then []
    else if input[0] == SOH then Gathered(crc, [], input, ending)
    else Received(crc, input[1..], ending)
  }

  // ----- What is received is a frame

  lemma {:induction false} SalvagedOk(crc: seq<Byte> -> nat, cache: seq<Byte>)
    ensures Salvaged(crc, cache) == [] || FrameOk(crc, Salvaged(crc, cache))
    decreases |cache|
  {
    if cache != [] && !FrameOk(crc, Slip(cache)) {
      SalvagedOk(crc, Slip(cache));
    }
  }

  /** The buffer is as its users take it to be: empty, or a frame with a right CRC. */
  predicate Right(crc: seq<Byte> -> nat, cache: seq<Byte>) {
    cache == [] || FrameOk(crc, cache)
  }

  lemma {:induction false} GatheredOk(crc: seq<Byte> -> nat, cache: seq<Byte>, input: seq<Byte>)
    ensures Right(crc, Gathered(crc, cache, input, Dry))
    decreases |input|
  {
    if input == [] {
      SalvagedOk(crc, cache);
    } else {
      var c := cache + [input[0]];
      if input[0] != EOT {
        GatheredOk(crc, c, input[1..]);
      } else if !FrameOk(crc, c) {
        GatheredOk(crc, if |c| > MAX_CACHE then Slip(c) else c, input[1..]);
      }
    }
  }

  /** For every stream that runs dry the buffer ends empty or as a frame with a right CRC. */
  lemma {:induction false} ReceivedOk(crc: seq<Byte> -> nat, input: seq<Byte>)
    ensures Right(crc, Received(crc, input, Dry))
    decreases |input|
  {
    if input != [] {
      if input[0] == SOH {
        GatheredOk(crc, [], input);
      } else {
        ReceivedOk(crc, input[1..]);
      }
    }
  }

  /** The bytes complete a frame, or the last of them, an EOT, makes a long buffer slip to nothing or to a frame. */
  predicate Completes(crc: seq<Byte> -> nat, cache: seq<Byte>, input: seq<Byte>)
    decreases |input|
  {
    input != [] &&
    var c := cache + [input[0]];
    if input[0] != EOT then Completes(crc, c, input[1..])
    else if FrameOk(crc, c) then true
    else if |c| > MAX_CACHE then
      Completes(crc, Slip(c), input[1..]) || (|input| == 1 && Right(crc, Slip(c)))
    else Completes(crc, c, input[1..])
  }

  lemma {:induction false} GatheredThrown(crc: seq<Byte> -> nat, cache: seq<Byte>, input: seq<Byte>)
    requires input != []
    ensures Right(crc, Gathered(crc, cache, input, Thrown)) <==> Completes(crc, cache, input)
    decreases |input|
  {
    var c := cache + [input[0]];
    var d := if input[0] == EOT && |c| > MAX_CACHE then Slip(c) else c;
    if |input| > 1 && !(input[0] == EOT && FrameOk(crc, c)) {
      GatheredThrown(crc, d, input[1..]);
    }
  }

  /** A stream that throws leaves the buffer empty or a frame exactly if it had no SOH or completes a frame. */
  lemma {:induction false} ThrownOkExactly(crc: seq<Byte> -> nat, noise: seq<Byte>, input: seq<Byte>)
    requires SOH !in noise && (input != [] ==> input[0] == SOH)
    ensures Right(crc, Received(crc, noise + input, Thrown)) <==> input == [] || Completes(crc, [], input)
  {
    SkipsNoise(crc, noise, input, Thrown);
    if input != [] {
      GatheredThrown(crc, [], input);
    }
  }

  lemma {:induction false} SkipsNoise(crc: seq<Byte> -> nat, noise: seq<Byte>, input: seq<Byte>, ending: Ending)
    requires SOH !in noise
    ensures Received(crc, noise + input, ending) == Received(crc, input, ending)
    decreases |noise|
  {
    if noise == [] {
      assert noise + input == input;
    } else {
      assert (noise + input)[0] == noise[0] && noise[0] in noise;
      assert (noise + input)[1..] == noise[1..] + input;
      SkipsNoise(crc, noise[1..], input, ending);
    }
  }

  /** No EOT comes beyond the limit, so that no check of a long buffer fails. */
  ghost predicate NoEotBeyond(input: seq<Byte>) {
    forall k :: 4056 <= k < |input| ==> input[k] != 0x04
  }

  lemma {:induction false} CompletesExactly(crc: seq<Byte> -> nat, input: seq<Byte>, k: nat)
    requires NoEotBeyond(input) && k <= |input|
    ensures Completes(crc, input[..k], input[k..]) <==> exists n :: k < n <= |input| && FrameOk(crc, input[..n])
    decreases |input| - k
  {
    if k < |input| {
      assert input[k..][0] == input[k] && input[k..][1..] == input[k + 1..];
      assert input[..k] + [input[k]] == input[..k + 1];
      CompletesExactly(crc, input, k + 1);
      if FrameOk(crc, input[..k + 1]) {
        assert input[..k + 1][k] == EOT;
      }
    }
  }

  /**
   Without an EOT beyond the limit: right exactly if some beginning from the SOH on is a frame; else all of it stays in
   the buffer.
   */
  lemma {:induction false} PartThrownExactly(crc: seq<Byte> -> nat, noise: seq<Byte>, input: seq<Byte>)
    requires SOH !in noise && input != [] && input[0] == SOH && NoEotBeyond(input)
    ensures Right(crc, Received(crc, noise + input, Thrown)) <==>
      exists n :: 0 < n <= |input| && FrameOk(crc, input[..n])
    ensures !Right(crc, Received(crc, noise + input, Thrown)) ==> Received(crc, noise + input, Thrown) == input
  {
    ThrownOkExactly(crc, noise, input);
    assert input[..0] == [] && input[0..] == input;
    CompletesExactly(crc, input, 0);
    SkipsNoise(crc, noise, input, Thrown);
    if !Completes(crc, [], input) {
      PartStays(crc, input, 0);
    }
  }

  lemma {:induction false} PartStays(crc: seq<Byte> -> nat, input: seq<Byte>, k: nat)
    requires NoEotBeyond(input) && k <= |input| && !Completes(crc, input[..k], input[k..])
    ensures Gathered(crc, input[..k], input[k..], Thrown) == input
    decreases |input| - k
  {
    if k == |input| {
      assert input[..k] == input;
    } else {
      assert input[k..][0] == input[k] && input[k..][1..] == input[k + 1..];
      assert input[..k] + [input[k]] == input[..k + 1];
      PartStays(crc, input, k + 1);
    }
  }

  // ----- What is salvaged when the data runs dry

  /** A frame starts at this SOH and goes to the end of the buffer. */
  predicate StartsFrame(crc: seq<Byte> -> nat, cache: seq<Byte>, i: nat) {
    0 < i < |cache| && cache[i] == SOH && FrameOk(crc, cache[i..])
  }

  /** The first frame that starts at a later SOH is kept; without one, nothing is. */
  lemma {:induction false} SalvagedIsFirst(crc: seq<Byte> -> nat, cache: seq<Byte>, i: nat)
    requires 0 < i <= |cache| && forall k :: 0 < k < i ==> !StartsFrame(crc, cache, k)
    ensures StartsFrame(crc, cache, i) ==> Salvaged(crc, cache) == cache[i..]
    ensures i == |cache| ==> Salvaged(crc, cache) == []
    decreases |cache|
  {
    var n := NextStart(cache);
    var f := Slip(cache);
    assert FrameOk(crc, f) ==> n < |cache| && StartsFrame(crc, cache, n);
    if n < i && n < |cache| {
      forall k | 0 < k < i - n ensures !StartsFrame(crc, f, k) {
        assert f[k..] == cache[n + k..] && f[k] == cache[n + k];
        assert !StartsFrame(crc, cache, n + k);
      }
      SalvagedIsFirst(crc, f, i - n);
      assert i < |cache| ==> f[i - n..] == cache[i..] && f[i - n] == cache[i];
    }
  }

  lemma {:induction false} DryIsSalvaged(crc: seq<Byte> -> nat, input: seq<Byte>, k: nat)
    requires NoEotBeyond(input) && k <= |input| && !Completes(crc, input[..k], input[k..])
    ensures Gathered(crc, input[..k], input[k..], Dry) == Salvaged(crc, input)
    decreases |input| - k
  {
    if k == |input| {
      assert input[..k] == input;
    } else {
      assert input[k..][0] == input[k] && input[k..][1..] == input[k + 1..];
      assert input[..k] + [input[k]] == input[..k + 1];
      DryIsSalvaged(crc, input, k + 1);
    }
  }

  /**
   A frame behind a false SOH: when no beginning of the stream from the first SOH on is a frame, the first frame that
   starts at a later SOH and ends the stream is received.
   */
  lemma FrameBehindFalseStart(crc: seq<Byte> -> nat, noise: seq<Byte>, input: seq<Byte>, i: nat)
    requires SOH !in noise && input != [] && input[0] == SOH && NoEotBeyond(input)
    requires forall n :: 0 < n <= |input| ==> !FrameOk(crc, input[..n])
    requires 0 < i <= |input| && forall k :: 0 < k < i ==> !StartsFrame(crc, input, k)
    ensures StartsFrame(crc, input, i) ==> Received(crc, noise + input, Dry) == input[i..]
    ensures i == |input| ==> Received(crc, noise + input, Dry) == []
  {
    SkipsNoise(crc, noise, input, Dry);
    assert input[..0] == [] && input[0..] == input;
    CompletesExactly(crc, input, 0);
    DryIsSalvaged(crc, input, 0);
    SalvagedIsFirst(crc, input, i);
  }

  // ----- A frame after noise is found

  /** No shorter beginning of f passes for a frame. */
  ghost predicate NoEarlierFrame(crc: seq<Byte> -> nat, f: seq<Byte>) {
    forall k :: 0 <= k < |f| ==> !FrameOk(crc, f[..k])
  }

  /** No EOT beyond the limit before the last byte: no check of a long buffer fails. */
  ghost predicate NoLateEot(f: seq<Byte>) {
    forall k :: 4056 <= k < |f| - 1 ==> f[k] != 0x04
  }

  lemma {:induction false} FrameIsGathered(crc: seq<Byte> -> nat, f: seq<Byte>, k: nat, rest: seq<Byte>, ending: Ending)
    requires FrameOk(crc, f) && NoEarlierFrame(crc, f) && NoLateEot(f) && k < |f|
    ensures Gathered(crc, f[..k], f[k..] + rest, ending) == f
    decreases |f| - k
  {
    var input := f[k..] + rest;
    assert input[0] == f[k] && input[1..] == f[k + 1..] + rest;
    assert f[..k] + [f[k]] == f[..k + 1];
    if k + 1 == |f| {
      assert f[..k + 1] == f;
    } else {
      FrameIsGathered(crc, f, k + 1, rest, ending);
    }
  }

  /** After noise without SOH, the shortest frame from the first SOH on is received, whatever follows it. */
  lemma {:induction false} FirstFrameWins(crc: seq<Byte> -> nat, noise: seq<Byte>, f: seq<Byte>, rest: seq<Byte>,
                                          ending: Ending)
    requires SOH !in noise && FrameOk(crc, f) && f[0] == SOH && NoEarlierFrame(crc, f) && NoLateEot(f)
    ensures Received(crc, noise + f + rest, ending) == f
  {
    assert noise + f + rest == noise + (f + rest);
    SkipsNoise(crc, noise, f + rest, ending);
    assert f[..0] == [] && f[0..] == f;
    FrameIsGathered(crc, f, 0, rest, ending);
  }

  /** A beginning that passes for a frame has a shortest one. */
  lemma {:induction false} ShortestFrame(crc: seq<Byte> -> nat, f: seq<Byte>, k: nat) returns (n: nat)
    requires k < |f| && FrameOk(crc, f[..k])
    ensures n <= k && FrameOk(crc, f[..n]) && NoEarlierFrame(crc, f[..n])
    decreases k
  {
    n := k;
    if !NoEarlierFrame(crc, f[..k]) {
      var m :| 0 <= m < |f[..k]| && FrameOk(crc, f[..k][..m]);
      assert f[..k][..m] == f[..m];
      n := ShortestFrame(crc, f, m);
    }
  }

  /**
   After noise without SOH, a built frame of acceptable length is received, whatever follows it, exactly if no
   beginning of it passes for a frame.
   */
  lemma {:induction false} FrameIsReceived(crc: seq<Byte> -> nat, noise: seq<Byte>, machine: Byte, content: seq<Byte>,
                                           rest: seq<Byte>, ending: Ending)
    requires Crc16(crc) && SOH !in noise && |content| >= 2 && |content| + 7 <= 4056
    ensures var f := Build(crc, machine, content);
      Received(crc, noise + f + rest, ending) == f <==> NoEarlierFrame(crc, f)
  {
    var f := Build(crc, machine, content);
    BuiltIsOk(crc, machine, content);
    if NoEarlierFrame(crc, f) {
      FirstFrameWins(crc, noise, f, rest, ending);
    } else {
      var k :| 0 <= k < |f| && FrameOk(crc, f[..k]);
      var n := ShortestFrame(crc, f, k);
      assert noise + f + rest == noise + f[..n] + (f[n..] + rest);
      FirstFrameWins(crc, noise, f[..n], f[n..] + rest, ending);
    }
  }

  lemma {:induction false} SalvagedIsShort(crc: seq<Byte> -> nat, cache: seq<Byte>)
    ensures |Salvaged(crc, cache)| <= |cache|
    decreases |cache|
  {
    if cache != [] && !FrameOk(crc, Slip(cache)) {
      SalvagedIsShort(crc, Slip(cache));
    }
  }

  lemma {:induction false} GatheredIsShort(crc: seq<Byte> -> nat, cache: seq<Byte>, input: seq<Byte>, ending: Ending)
    ensures |Gathered(crc, cache, input, ending)| <= |cache| + |input|
    decreases |input|
  {
    if input == [] {
      SalvagedIsShort(crc, cache);
    } else {
      var c := cache + [input[0]];
      if !(input[0] == EOT && FrameOk(crc, c)) {
        GatheredIsShort(crc, if input[0] == EOT && |c| > MAX_CACHE then Slip(c) else c, input[1..], ending);
      }
    }
  }

  /** A frame completed or a slip before the end of f leaves less than f. */
  lemma {:induction false} LessIsLeft(crc: seq<Byte> -> nat, f: seq<Byte>, k: nat, m: nat, ending: Ending)
    requires k < m < |f| && f[m - 1] == EOT && (FrameOk(crc, f[..m]) || m > MAX_CACHE)
    ensures |Gathered(crc, f[..k], f[k..], ending)| < |f|
    decreases m - k
  {
    assert f[k..][0] == f[k] && f[k..][1..] == f[k + 1..];
    assert f[..k] + [f[k]] == f[..k + 1];
    var c := f[..k + 1];
    if f[k] == EOT && FrameOk(crc, c) {
    } else if f[k] == EOT && |c| > MAX_CACHE {
      GatheredIsShort(crc, Slip(c), f[k + 1..], ending);
    } else {
      LessIsLeft(crc, f, k + 1, m, ending);
    }
  }

  /**
   A frame of any length at the end of a stream is received exactly if no beginning is a frame and no EOT comes late.
   */
  lemma {:induction false} LongFrameIsReceived(crc: seq<Byte> -> nat, noise: seq<Byte>, f: seq<Byte>, ending: Ending)
    requires SOH !in noise && FrameOk(crc, f) && f[0] == SOH
    ensures Received(crc, noise + f, ending) == f <==> NoEarlierFrame(crc, f) && NoLateEot(f)
  {
    if NoEarlierFrame(crc, f) && NoLateEot(f) {
      assert noise + f + [] == noise + f;
      FirstFrameWins(crc, noise, f, [], ending);
    } else {
      SkipsNoise(crc, noise, f, ending);
      assert f[..0] == [] && f[0..] == f;
      if !NoLateEot(f) {
        var k :| MAX_CACHE <= k < |f| - 1 && f[k] == EOT;
        LessIsLeft(crc, f, 0, k + 1, ending);
      } else {
        var m :| 0 <= m < |f| && FrameOk(crc, f[..m]);
        assert f[..m][m - 1] == f[m - 1];
        LessIsLeft(crc, f, 0, m, ending);
      }
    }
  }

  /** GetAssignedPort, on an empty buffer or one long enough to hold the port. */
  function AssignedPort(f: seq<Byte>): nat
    requires f == [] || |f| >= 7
  {
    if f == [] then 0 else (f[5] as nat) * 256 + f[6]
  }

  /** A frame built of a command and a port assigns that port. */
  lemma PortIsAssigned(crc: seq<Byte> -> nat, machine: Byte, c: Byte, d: Byte, port: nat, data: seq<Byte>)
    requires Crc16(crc) && port < 65536
    ensures AssignedPort(Build(crc, machine, [c, d, port / 256, port % 256] + data)) == port && AssignedPort([]) == 0
  {
    var content := [c, d, port / 256, port % 256] + data;
    var f := Build(crc, machine, content);
    assert f[3..][..4] == content[..4];
    assert f[5] == f[3..][2] && f[6] == f[3..][3];
  }

  /**
   When the read throws inside a frame, the part received stays in the buffer although it is no frame, and
   the port it assigns is taken although no CRC has been checked.
   */
  lemma {:induction false} CutFrameIsTaken(crc: seq<Byte> -> nat, noise: seq<Byte>, machine: Byte, content: seq<Byte>,
                                           k: nat)
    requires Crc16(crc) && SOH !in noise && |content| >= 2 && |content| + 7 <= MAX_CACHE && 7 <= k < |content| + 7
    requires NoEarlierFrame(crc, Build(crc, machine, content))
    ensures var f := Build(crc, machine, content); var part := Received(crc, noise + f[..k], Thrown);
      part == f[..k] && !Right(crc, part) && AssignedPort(part) == AssignedPort(f)
  {
    var f := Build(crc, machine, content);
    BuiltIsOk(crc, machine, content);
    forall n | 0 < n <= k ensures !FrameOk(crc, f[..k][..n]) {
      assert f[..k][..n] == f[..n];
    }
    PartThrownExactly(crc, noise, f[..k]);
  }

  /** Such content exists for every CRC: content that carries the end of a shorter frame is received cut short. */
  lemma ContentCanEndEarly(crc: seq<Byte> -> nat, machine: Byte, x: seq<Byte>, y: seq<Byte>)
    requires Crc16(crc) && |x| >= 2
    ensures var c := crc(x + [ETX]); !NoEarlierFrame(crc, Build(crc, machine, x + [ETX, c / 256, c % 256, EOT] + y))
  {
    var c := crc(x + [ETX]);
    var f, g := Build(crc, machine, x + [ETX, c / 256, c % 256, EOT] + y), Build(crc, machine, x);
    BuiltIsOk(crc, machine, x);
    assert f[..|g|] == g;
  }

  // ----- The loops

  class Packet {
    var cache: seq<Byte>

    /** isValidFrame: a long buffer that is no frame loses its start; the check is not repeated. */
    method IsValidFrame(crc: seq<Byte> -> nat) returns (ok: bool)
      requires cache != []
      modifies this
      ensures ok == FrameOk(crc, old(cache))
      ensures cache == if !ok && |old(cache)| > MAX_CACHE then Slip(old(cache)) else old(cache)
    {
      ok := FrameOk(crc, cache);
      if !ok && |cache| > MAX_CACHE {
        cache := Slip(cache);
      }
    }

    /** ReceiveFrameFrom, with the channel's bytes up to its end. */
    method ReceiveFrameFrom(crc: seq<Byte> -> nat, input: seq<Byte>, ending: Ending)
      modifies this
      ensures cache == Received(crc, input, ending)
    {
      cache := [];
      var i := 0;
      assert input[0..] == input;
      while i < |input| && input[i] != SOH
        invariant i <= |input| && Received(crc, input, ending) == Received(crc, input[i..], ending)
      {
        assert input[i..][1..] == input[i + 1..];
        i := i + 1;
      }
      if i == |input| {
        return;
      }
      Gather(crc, input, i, ending);
    }

    method Gather(crc: seq<Byte> -> nat, input: seq<Byte>, start: nat, ending: Ending)
      requires start <= |input|
      modifies this
      ensures cache == Gathered(crc, old(cache), input[start..], ending)
    {
      var i := start;
      while i < |input|
        invariant start <= i <= |input|
        invariant Gathered(crc, old(cache), input[start..], ending) == Gathered(crc, cache, input[i..], ending)
      {
        assert input[i..][0] == input[i] && input[i..][1..] == input[i + 1..];
        cache := cache + [input[i]];
        if input[i] == EOT {
          var ok := IsValidFrame(crc);
          if ok {
            return;
          }
        }
        i := i + 1;
      }
      if ending == Thrown {
        return;
      }
      while cache != []
        invariant Gathered(crc, old(cache), input[start..], ending) == Salvaged(crc, cache)
        decreases |cache|
      {
        cache := Slip(cache);
        if FrameOk(crc, cache) {
          return;
        }
      }
    }
  }
}
