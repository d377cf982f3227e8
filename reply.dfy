/** ZigbeeInterfaceDeconzReply
    (libnymea-zigbee/deconz/interface/zigbeeinterfacedeconzreply.cpp): the
    reply object that pairs a request sent to a deCONZ controller with its
    answer. It remembers the command and the 8-bit sequence number of the
    request, owns a single-shot 2000 ms timer, and finishes either when it is
    aborted or when the timer fires. The signals it emits are kept as an event
    log; the timer firing is the call of OnTimeout. */
module DeconzInterface {
  import opened Types

  /** Deconz::Command and Deconz::StatusCode (deconz.h) are not part of this
      model: each stands for its byte. */
  datatype DeconzCommand = DeconzCommand(code: uint8)
  datatype DeconzStatusCode = DeconzStatusCode(code: uint8)

  /** The signals a reply emits. */
  datatype ReplyEvent = Timeout | Finished

  /** The reply timer's settings: its interval in milliseconds and whether it
      fires once. Its expiry is the call of OnTimeout. */
  datatype TimerSettings = TimerSettings(intervalMs: nat, singleShot: bool)

  const ReplyTimeoutMs: nat := 2000

  /** How often e occurs in the log. */
  function Count(log: seq<ReplyEvent>, e: ReplyEvent): (n: nat)
    ensures n <= |log|
    ensures n == 0 <==> e !in log
  {
    if log == [] then 0
    else (if log[0] == e then 1 else 0) + Count(log[1..], e)
  }

  lemma {:induction false} CountAppend(a: seq<ReplyEvent>, b: seq<ReplyEvent>, e: ReplyEvent)
    ensures Count(a + b, e) == Count(a, e) + Count(b, e)
  {
    if a == [] {
      assert a + b == b;
    } else {
      assert (a + b)[1..] == a[1..] + b;
      CountAppend(a[1..], b, e);
    }
  }

  /** The shape of every log: each Timeout is followed at once by Finished. */
  predicate TimeoutsFinish(log: seq<ReplyEvent>) {
    forall i :: 0 <= i < |log| && log[i] == Timeout ==> i + 1 < |log| && log[i + 1] == Finished
  }

  /** In such a log there are at least as many Finished events as Timeout
      events: every timeout also finishes the reply. */
  lemma {:induction false} TimeoutsFinishCount(log: seq<ReplyEvent>)
    requires TimeoutsFinish(log)
    ensures Count(log, Timeout) <= Count(log, Finished)
    decreases |log|
  {
    if log != [] {
      var rest := if log[0] == Timeout then log[2..] else log[1..];
      assert forall i :: 0 <= i < |rest| ==> rest[i] == log[i + |log| - |rest|];
      TimeoutsFinishCount(rest);
      if log[0] == Timeout {
        assert log[1] == Finished && log[1..][1..] == rest;
      }
    }
  }

  class Reply {
    const command: DeconzCommand
    const sequenceNumber: uint8
    const timer: TimerSettings
    var responseData: seq<uint8>
    var statusCode: DeconzStatusCode
    var aborted: bool
    var timedOut: bool
    /** The signals emitted so far, oldest first. */
    var events: seq<ReplyEvent>

    /** The flags record the log: the timeout flag is set once a Timeout was
        emitted, and the aborted flag once a Finished was emitted that no
        Timeout accounts for. */
    ghost predicate Valid()
      reads this
    {
      && TimeoutsFinish(events)
      && (timedOut <==> Count(events, Timeout) > 0)
      && (aborted <==> Count(events, Timeout) < Count(events, Finished))
    }

    constructor (command: DeconzCommand, sequenceNumber: uint8)
      ensures Valid()
      ensures this.command == command && this.sequenceNumber == sequenceNumber
      ensures timer == TimerSettings(ReplyTimeoutMs, true)
      ensures responseData == [] && statusCode == DeconzStatusCode(0)
      ensures !aborted && !timedOut && events == []
    {
      this.command := command;
      this.sequenceNumber := sequenceNumber;
      timer := TimerSettings(ReplyTimeoutMs, true);
      responseData := [];
      statusCode := DeconzStatusCode(0);
      aborted := false;
      timedOut := false;
      events := [];
    }

    method Command() returns (c: DeconzCommand)
      ensures c == command
    {
      c := command;
    }

    method SequenceNumber() returns (n: uint8)
      ensures n == sequenceNumber
    {
      n := sequenceNumber;
    }

    method ResponseData() returns (data: seq<uint8>)
      ensures data == responseData
    {
      data := responseData;
    }

    method StatusCode() returns (s: DeconzStatusCode)
      ensures s == statusCode
    {
      s := statusCode;
    }

    method Aborted() returns (b: bool)
      ensures b == aborted
    {
      b := aborted;
    }

    /** Sets the aborted flag and emits finished once; the timeout flag and
        the timer are left alone, so the timer may still fire. */
    method Abort()
      requires Valid()
      modifies this`aborted, this`events
      ensures Valid()
      ensures aborted
      ensures events == old(events) + [Finished]
    {
      TimeoutsFinishCount(events);
      CountAppend(events, [Finished], Timeout);
      CountAppend(events, [Finished], Finished);
      aborted := true;
      events := events + [Finished];
    }

    /** The timer fired: sets the timeout flag and emits timeout, then
        finished; the aborted flag is left alone. */
    method OnTimeout()
      requires Valid()
      modifies this`timedOut, this`events
      ensures Valid()
      ensures timedOut
      ensures events == old(events) + [Timeout, Finished]
    {
      CountAppend(events, [Timeout, Finished], Timeout);
      CountAppend(events, [Timeout, Finished], Finished);
      timedOut := true;
      events := events + [Timeout, Finished];
    }
  }

  /** Nothing stops the timer after an abort: a reply aborted and then timed
      out has emitted finished twice. */
  method AbortThenTimeout(command: DeconzCommand, sequenceNumber: uint8) returns (r: Reply)
    ensures fresh(r) && r.Valid()
    ensures r.aborted && r.timedOut
    ensures r.events == [Finished, Timeout, Finished]
    ensures Count(r.events, Finished) == 2
  {
    r := new Reply(command, sequenceNumber);
    r.Abort();
    r.OnTimeout();
    assert r.events == [Finished] + [Timeout, Finished];
  }
}
