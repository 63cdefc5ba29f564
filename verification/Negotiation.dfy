/** Finding a channel to the server: a bounded number of attempts on two ports, whatever the network does. */
module Negotiation {

  /** What comes of opening a port: refused, opened without a command arriving, or a command that assigns a port. */
  datatype Outcome = Refused | Silent | Assigned(port: nat)

  /** The attempts left before the negotiation ends, at most. */
  function Left(retry: nat, retryData: nat): nat
    requires retry < 6 && retryData < 4
  {
    (3 - retryData) * 6 + 6 - retry
  }

  function Other(port: nat, start: nat): nat {
    if port == start then port + 1 else start
  }

  ghost predicate OnPorts(opens: seq<nat>, start: nat) {
    forall k :: 0 <= k < |opens| ==> opens[k] == start || opens[k] == start + 1
  }

  /** negoiateChannel from any point of its loop: the port assigned, or 0, and all the ports tried. */
  function Negotiated(net: nat -> Outcome, opens: seq<nat>, start: nat, port: nat, retry: nat, retryData: nat): (nat,
                      seq<nat>)
    requires retry < 6 && retryData < 4
    decreases Left(retry, retryData)
  {
    var tried := opens + [port];
    match net(|opens|)
    case Refused =>
      if retry == 5 then (0, tried)
      else Negotiated(net, tried, start, if (retry + 1) % 3 == 0 then Other(port, start) else port,
        retry + 1, retryData)
    case Silent =>
      if retryData == 3 then (0, tried)
      else Negotiated(net, tried, start, Other(port, start), 0, retryData + 1)
    case Assigned(p) => (p, tried)
  }

  /** However the network behaves, the attempts are bounded and on two ports. */
  lemma {:induction false} AttemptsAreBounded(net: nat -> Outcome, opens: seq<nat>, start: nat, port: nat, retry: nat,
                                              retryData: nat)
    requires retry < 6 && retryData < 4 && (port == start || port == start + 1) && OnPorts(opens, start)
    ensures var r := Negotiated(net, opens, start, port, retry, retryData);
      |opens| < |r.1| <= |opens| + Left(retry, retryData) && OnPorts(r.1, start)
    decreases Left(retry, retryData)
  {
    var tried := opens + [port];
    match net(|opens|)
    case Refused =>
      if retry < 5 {
        AttemptsAreBounded(net, tried, start, if (retry + 1) % 3 == 0 then Other(port, start) else port,
          retry + 1, retryData);
      }
    case Silent =>
      if retryData < 3 {
        AttemptsAreBounded(net, tried, start, Other(port, start), 0, retryData + 1);
      }
    case Assigned(_) =>
  }

  /** The refusals in a row that end with attempt k. */
  ghost function Row(net: nat -> Outcome, k: nat): nat {
    if net(k) != Refused then 0 else if k == 0 then 1 else 1 + Row(net, k - 1)
  }

  /** The attempts before k that brought no command. */
  ghost function Silences(net: nat -> Outcome, k: nat): nat {
    if k == 0 then 0 else Silences(net, k - 1) + if net(k - 1) == Silent then 1 else 0
  }

  /** It goes on after attempt k: no port is assigned, and six refusals in a row or four silences are not reached. */
  ghost predicate GoesOn(net: nat -> Outcome, k: nat) {
    !net(k).Assigned? && Row(net, k) < 6 && Silences(net, k + 1) < 4
  }

  /** The port after attempt k on this one: the other after three or six refusals in a row and after a silence. */
  ghost function PortAfter(net: nat -> Outcome, k: nat, port: nat, start: nat): nat {
    if Row(net, k) % 3 != 0 then port else if port == start then start + 1 else start
  }

  /** The attempts and the result, read off the network. */
  ghost predicate EndsRight(net: nat -> Outcome, start: nat, first: nat, granted: nat, tried: seq<nat>) {
    && first < |tried|
    && (forall k :: first <= k < |tried| - 1 ==> GoesOn(net, k))
    && (forall k, next :: first <= k < next < |tried| && next == k + 1 ==>
        tried[next] == PortAfter(net, k, tried[k], start))
    && var last := |tried| - 1;
      !GoesOn(net, last) && granted == if net(last).Assigned? then net(last).port else 0
  }

  lemma OneEarlier(net: nat -> Outcome, start: nat, first: nat, granted: nat, tried: seq<nat>)
    requires EndsRight(net, start, first + 1, granted, tried) && GoesOn(net, first)
    requires tried[first + 1] == PortAfter(net, first, tried[first], start)
    ensures EndsRight(net, start, first, granted, tried)
  {
  }

  /** The counts of refusals in a row and of silences before attempt k. */
  ghost predicate Counts(net: nat -> Outcome, k: nat, retry: nat, retryData: nat) {
    retry < 6 && retryData < 4 && retry == (if k == 0 then 0 else Row(net, k - 1)) && retryData == Silences(net, k)
  }

  lemma OneAttempt(net: nat -> Outcome, opens: seq<nat>, start: nat, port: nat, retry: nat, retryData: nat)
    requires Counts(net, |opens|, retry, retryData)
    ensures var k, tried := |opens|, opens + [port];
      var retry', retryData' := Row(net, k), Silences(net, k + 1);
      Negotiated(net, opens, start, port, retry, retryData) ==
        if !GoesOn(net, k) then (if net(k).Assigned? then net(k).port else 0, tried)
        else Negotiated(net, tried, start, PortAfter(net, k, port, start), retry', retryData')
    ensures var k := |opens|; GoesOn(net, k) ==>
      Counts(net, k + 1, Row(net, k), Silences(net, k + 1)) &&
      Left(Row(net, k), Silences(net, k + 1)) < Left(retry, retryData)
  {
  }

  lemma {:induction false} EndsRightFrom(net: nat -> Outcome, opens: seq<nat>, start: nat, port: nat, retry: nat,
                                         retryData: nat)
    requires Counts(net, |opens|, retry, retryData)
    ensures var (granted, tried) := Negotiated(net, opens, start, port, retry, retryData);
      EndsRight(net, start, |opens|, granted, tried) && opens + [port] <= tried
    decreases Left(retry, retryData)
  {
    var tried, k := opens + [port], |opens|;
    OneAttempt(net, opens, start, port, retry, retryData);
    if GoesOn(net, k) {
      var (granted, all) := Negotiated(net, opens, start, port, retry, retryData);
      EndsRightFrom(net, tried, start, PortAfter(net, k, port, start), Row(net, k), Silences(net, k + 1));
      OneEarlier(net, start, k, granted, all);
    }
  }

  /**
   A negotiation goes on until a port is assigned, six attempts in a row are refused or the fourth brings no command;
   it changes the port after every third refusal in a row and after a silence; what is granted is what the last
   attempt assigned.
   */
  lemma NegotiatedExactly(net: nat -> Outcome, start: nat)
    ensures var (granted, tried) := Negotiated(net, [], start, start, 0, 0);
      EndsRight(net, start, 0, granted, tried) && tried[0] == start
  {
    EndsRightFrom(net, [], start, start, 0, 0);
  }

  /** negoiateChannel: at most 24 attempts, all on the start port or the next one. */
  method NegotiateChannel(net: nat -> Outcome, start: nat) returns (granted: nat, opens: seq<nat>)
    ensures (granted, opens) == Negotiated(net, [], start, start, 0, 0)
    ensures |opens| <= 24 && OnPorts(opens, start)
  {
    var port: nat, retry: nat, retryData: nat := start, 0, 0;
    opens := [];
    AttemptsAreBounded(net, [], start, start, 0, 0);
    while true
      invariant retry < 6 && retryData < 4
      invariant Negotiated(net, [], start, start, 0, 0) == Negotiated(net, opens, start, port, retry, retryData)
      decreases Left(retry, retryData)
    {
      var outcome := net(|opens|);
      opens := opens + [port];
      if outcome == Refused {
        retry := retry + 1;
        if retry == 6 {
          return 0, opens;
        }
        if retry % 3 == 0 {
          port := if port == start then port + 1 else start;
        }
        continue;
      }
      retry := 0;
      if outcome == Silent {
        retryData := retryData + 1;
        if retryData == 4 {
          return 0, opens;
        }
        port := if port == start then port + 1 else start;
        continue;
      }
      return outcome.port, opens;
    }
  }

  /** The bound is reached: a network that is silent after every five refusals. */
  lemma {:induction false} BoundIsReached(net: nat -> Outcome, opens: seq<nat>, start: nat, port: nat, retry: nat,
                                          retryData: nat)
    requires retry < 6 && retryData < 4 && |opens| == 6 * retryData + retry
    requires forall k :: 0 <= k < 24 ==> net(k) == if k % 6 == 5 then Silent else Refused
    ensures |Negotiated(net, opens, start, port, retry, retryData).1| == 24
    decreases Left(retry, retryData)
  {
    var tried := opens + [port];
    if retry == 5 {
      assert net(|opens|) == Silent;
      if retryData < 3 {
        BoundIsReached(net, tried, start, Other(port, start), 0, retryData + 1);
      }
    } else {
      assert net(|opens|) == Refused;
      BoundIsReached(net, tried, start, if (retry + 1) % 3 == 0 then Other(port, start) else port,
        retry + 1, retryData);
    }
  }

  /** The connections tried to the assigned port: up to the first that succeeds, and at most three. */
  function Tries(connects: nat -> bool): nat {
    if connects(0) then 1 else if connects(1) then 2 else 3
  }

  ghost predicate Connects(connects: nat -> bool) {
    exists k :: 0 <= k < 3 && connects(k)
  }

  /** The tries end with the first connection that succeeds, or with the third. */
  lemma TriesExactly(connects: nat -> bool)
    ensures 1 <= Tries(connects) <= 3 && forall k :: 0 <= k < Tries(connects) - 1 ==> !connects(k)
    ensures Connects(connects) <==> connects(Tries(connects) - 1)
    ensures !Connects(connects) ==> Tries(connects) == 3
  {
  }

  /** The ports NegoiateControlChannel connects to, in order. */
  ghost function ControlAttempts(first: nat -> Outcome, second: nat -> Outcome, connects: nat -> bool,
                                 start: nat): seq<nat> {
    var (granted, opens) := Negotiated(first, [], start, start, 0, 0);
    if granted == 0 then opens
    else
      var tried := opens + seq(Tries(connects), _ => granted);
      if Connects(connects) then tried else tried + Negotiated(second, [], start, start, 0, 0).1
  }

  /**
   First the ports of a negotiation; if it grants a port, that port until it connects or three times; and if it never
   connects, the ports of a second negotiation.
   */
  lemma ControlAttemptsExactly(first: nat -> Outcome, second: nat -> Outcome, connects: nat -> bool, start: nat)
    ensures var (granted, opens) := Negotiated(first, [], start, start, 0, 0);
      var attempts, n := ControlAttempts(first, second, connects, start), |opens| + Tries(connects);
      && opens <= attempts
      && (granted == 0 ==> attempts == opens)
      && (granted != 0 ==> n <= |attempts| && forall k :: |opens| <= k < n ==> attempts[k] == granted)
      && (granted != 0 && Connects(connects) ==> |attempts| == n)
      && (granted != 0 && !Connects(connects) ==> attempts[n..] == Negotiated(second, [], start, start, 0, 0).1)
  {
  }

  /**
   NegoiateControlChannel: a negotiation, three connections to the assigned port, and another negotiation
   make at most 51 connection attempts; a connection is only made to a port that was assigned.
   */
  method NegotiateControlChannel(first: nat -> Outcome, second: nat -> Outcome, connects: nat -> bool, start: nat)
    returns (connected: bool, attempts: seq<nat>)
    ensures attempts == ControlAttempts(first, second, connects, start) && |attempts| <= 51
    ensures connected <==> Negotiated(first, [], start, start, 0, 0).0 != 0 && Connects(connects)
  {
    var port, opens := NegotiateChannel(first, start);
    ghost var granted, began := port, opens;
    attempts := opens;
    var retryConnect, tries := 1, 0;
    while port != 0 && retryConnect > 0
      invariant retryConnect <= 1 && tries == (if retryConnect == 1 then 0 else 3)
      invariant retryConnect == 1 ==> attempts == began && port == granted
      invariant retryConnect == 0 ==> granted != 0 && !Connects(connects) && |attempts| <= 51
      invariant retryConnect == 0 ==>
        attempts == began + seq(3, _ => granted) + Negotiated(second, [], start, start, 0, 0).1
      decreases retryConnect
    {
      retryConnect := retryConnect - 1;
      while tries < 3
        invariant tries <= 3 && attempts == began + seq(tries, _ => granted) && forall k :: 0 <= k < tries ==>
          !connects(k)
      {
        attempts := attempts + [port];
        if connects(tries) {
          return true, attempts;
        }
        tries := tries + 1;
      }
      port, opens := NegotiateChannel(second, start);
      attempts := attempts + opens;
    }
    connected := false;
  }
}
