/**
 * A sequence of driver calls as a dispatcher makes them (detect, init, any
 * number of begin/end tones, fini), run against the device oracle. Each tone
 * operation is one synchronous write, so the records reach the device in call
 * order, and a short write ends the process before any later call runs.
 */
module EvdevSession {
  import opened InputAbi
  import opened EvdevDriver

  /** One call into the driver. A tone call carries the byte count the device
      would accept from its `write`. */
  datatype Call =
    | DetectCall(consoleDevice: Option<string>)
    | InitCall
    | FiniCall
    | BeginCall(freq: u16, written: int)
    | EndCall(written: int)
  {
    predicate IsTone() {
      BeginCall? || EndCall?
    }

    function ToRequest(): Request
      requires IsTone()
    {
      if BeginCall? then Begin(freq) else End
    }
  }

  /** The result of running calls: the descriptor afterwards, every write
      issued, in order, and whether the process is still alive. */
  datatype Trace = Trace(driver: Driver, writes: seq<Write>, outcome: Outcome)

  /** One call. Detection, init and fini never end the process. */
  function Step(abi: Abi, host: Host, d: Driver, c: Call): (t: Trace)
    ensures c.IsTone() ==> t.driver == d
    ensures c.IsTone() ==> t.writes == [Write(d.deviceFd, Encode(abi, d.deviceFlags, c.ToRequest()))]
    ensures c.IsTone() ==> (t.outcome.Ok? <==> d.deviceFd >= 0 && c.written == abi.eventSize)
    ensures !c.IsTone() ==> t.writes == [] && t.outcome.Ok?
    ensures !c.DetectCall? ==> t.driver.deviceFlags == d.deviceFlags
    ensures !c.DetectCall? && !c.FiniCall? ==> t.driver.deviceFd == d.deviceFd
    ensures t.driver.name == d.name
  {
    match c
    case DetectCall(consoleDevice) => Trace(Detect(abi, host, d, consoleDevice).driver, [], Ok)
    case InitCall => Trace(Init(d), [], Ok)
    case FiniCall => Trace(Fini(d).driver, [], Ok)
    case BeginCall(freq, written) =>
      var r := BeginTone(abi, d, freq, written);
      Trace(d, [r.write], r.outcome)
    case EndCall(written) =>
      var r := EndTone(abi, d, written);
      Trace(d, [r.write], r.outcome)
  }

  /** The requests of the tone calls, in call order. */
  function ToneRequests(calls: seq<Call>): seq<Request> {
    if calls == [] then []
    else (if calls[0].IsTone() then [calls[0].ToRequest()] else []) + ToneRequests(calls[1..])
  }

  /** Runs the calls in order until one ends the process. */
  function Run(abi: Abi, host: Host, d: Driver, calls: seq<Call>): (t: Trace)
    ensures |t.writes| <= |ToneRequests(calls)|
    ensures t.outcome.Ok? ==> |t.writes| == |ToneRequests(calls)|
    ensures t.outcome.Fatal? ==> |t.writes| > 0
    ensures t.driver.name == d.name
    decreases |calls|
  {
    if calls == [] then Trace(d, [], Ok)
    else
      var s := Step(abi, host, d, calls[0]);
      if s.outcome.Fatal? then s
      else
        var t := Run(abi, host, s.driver, calls[1..]);
        Trace(t.driver, s.writes + t.writes, t.outcome)
  }

  /** The writes a device in the given mode, open on handle `fd`, receives for
      a list of requests: the i-th write carries the encoding of the i-th
      request. */
  function EncodeAll(abi: Abi, fd: int, flags: int, reqs: seq<Request>): seq<Write> {
    seq(|reqs|, i requires 0 <= i < |reqs| => Write(fd, Encode(abi, flags, reqs[i])))
  }

  /** The device would accept every tone call's record in full. */
  predicate AllWritesFull(abi: Abi, calls: seq<Call>) {
    forall i :: 0 <= i < |calls| && calls[i].IsTone() ==> calls[i].written == abi.eventSize
  }

  /** Neither re-detection nor fini happens, so the handle and mode chosen
      earlier stay in force. */
  predicate Steady(calls: seq<Call>) {
    forall i :: 0 <= i < |calls| ==> !calls[i].DetectCall? && !calls[i].FiniCall?
  }

  /** On an open handle, without re-detection or fini and with every write
      complete, the device receives exactly one record per tone call, in call
      order, on the stored handle, each encoding its request under the stored
      mode; handle and mode are not changed. */
  lemma {:induction false} RecordsInCallOrder(abi: Abi, host: Host, d: Driver, calls: seq<Call>)
    requires d.deviceFd >= 0
    requires Steady(calls) && AllWritesFull(abi, calls)
    ensures Run(abi, host, d, calls).outcome == Ok
    ensures Run(abi, host, d, calls).writes == EncodeAll(abi, d.deviceFd, d.deviceFlags, ToneRequests(calls))
    ensures Run(abi, host, d, calls).driver.deviceFlags == d.deviceFlags
    ensures Run(abi, host, d, calls).driver.deviceFd == d.deviceFd
    decreases |calls|
  {
    if calls != [] {
      var s := Step(abi, host, d, calls[0]);
      assert Steady(calls[1..]) && AllWritesFull(abi, calls[1..]) by {
        forall i | 0 <= i < |calls[1..]|
          ensures calls[1..][i] == calls[i + 1]
        {
        }
      }
      assert !calls[0].DetectCall? && !calls[0].FiniCall?;
      assert calls[0].IsTone() ==> calls[0].written == abi.eventSize;
      RecordsInCallOrder(abi, host, s.driver, calls[1..]);
      var head := if calls[0].IsTone() then [calls[0].ToRequest()] else [];
      assert ToneRequests(calls) == head + ToneRequests(calls[1..]);
      EncodeAllAppend(abi, d.deviceFd, d.deviceFlags, head, ToneRequests(calls[1..]));
    }
  }

  /** Encoding distributes over concatenation of request lists. */
  lemma EncodeAllAppend(abi: Abi, fd: int, flags: int, a: seq<Request>, b: seq<Request>)
    ensures EncodeAll(abi, fd, flags, a + b) == EncodeAll(abi, fd, flags, a) + EncodeAll(abi, fd, flags, b)
  {
    var lhs := EncodeAll(abi, fd, flags, a + b);
    var rhs := EncodeAll(abi, fd, flags, a) + EncodeAll(abi, fd, flags, b);
    assert |lhs| == |rhs|;
    forall i | 0 <= i < |lhs|
      ensures lhs[i] == rhs[i]
    {
      if i < |a| {
        assert (a + b)[i] == a[i];
      } else {
        assert (a + b)[i] == b[i - |a|];
      }
    }
  }

  /** The call `c`, made while the stored handle is `fd`, ends the process:
      it is a tone call and its write does not transfer the full record,
      either because the device accepts less or because no handle is open. */
  predicate Refused(abi: Abi, c: Call, fd: int) {
    c.IsTone() && (fd < 0 || c.written != abi.eventSize)
  }

  /** The process ends exactly when some tone call's write is refused, judged
      against the handle stored just before that call; detect, init and fini
      never end it. */
  lemma {:induction false} FatalIffRefusedWrite(abi: Abi, host: Host, d: Driver, calls: seq<Call>)
    ensures Run(abi, host, d, calls).outcome.Fatal? <==>
            exists i :: 0 <= i < |calls| && Refused(abi, calls[i], Run(abi, host, d, calls[..i]).driver.deviceFd)
    ensures Run(abi, host, d, calls).outcome.Fatal? ==>
            Run(abi, host, d, calls).outcome.message == "write EV_SND"
    decreases |calls|
  {
    if calls != [] {
      var s := Step(abi, host, d, calls[0]);
      var rest := calls[1..];
      FatalIffRefusedWrite(abi, host, s.driver, rest);
      assert calls[..0] == [];
      if s.outcome.Fatal? {
        assert Refused(abi, calls[0], Run(abi, host, d, calls[..0]).driver.deviceFd);
      } else {
        assert !Refused(abi, calls[0], d.deviceFd);
        forall i | 1 <= i <= |rest|
          ensures Run(abi, host, d, calls[..i]).driver == Run(abi, host, s.driver, rest[..i - 1]).driver
        {
          assert calls[..i][0] == calls[0];
          assert calls[..i][1..] == rest[..i - 1];
        }
        if exists i :: 0 <= i < |calls| && Refused(abi, calls[i], Run(abi, host, d, calls[..i]).driver.deviceFd) {
          var i :| 0 <= i < |calls| && Refused(abi, calls[i], Run(abi, host, d, calls[..i]).driver.deviceFd);
          assert i != 0;
          assert rest[i - 1] == calls[i];
          assert Refused(abi, rest[i - 1], Run(abi, host, s.driver, rest[..i - 1]).driver.deviceFd);
        }
        if exists j :: 0 <= j < |rest| && Refused(abi, rest[j], Run(abi, host, s.driver, rest[..j]).driver.deviceFd) {
          var j :| 0 <= j < |rest| && Refused(abi, rest[j], Run(abi, host, s.driver, rest[..j]).driver.deviceFd);
          assert calls[j + 1] == rest[j];
          assert Refused(abi, calls[j + 1], Run(abi, host, d, calls[..j + 1]).driver.deviceFd);
        }
      }
    }
  }

  /** Once a call ends the process, no later call has any effect. */
  lemma {:induction false} FatalIsFinal(abi: Abi, host: Host, d: Driver, a: seq<Call>, b: seq<Call>)
    requires Run(abi, host, d, a).outcome.Fatal?
    ensures Run(abi, host, d, a + b) == Run(abi, host, d, a)
    decreases |a|
  {
    assert a != [];
    assert (a + b)[0] == a[0];
    assert (a + b)[1..] == a[1..] + b;
    var s := Step(abi, host, d, a[0]);
    if s.outcome.Ok? {
      FatalIsFinal(abi, host, s.driver, a[1..], b);
    }
  }

  /** Running `a` then `b` is running `a`, then `b` from where `a` left the
      descriptor, with the writes of both in order. */
  lemma {:induction false} RunSequential(abi: Abi, host: Host, d: Driver, a: seq<Call>, b: seq<Call>)
    requires Run(abi, host, d, a).outcome.Ok?
    ensures var ta := Run(abi, host, d, a);
            var tb := Run(abi, host, ta.driver, b);
            Run(abi, host, d, a + b) == Trace(tb.driver, ta.writes + tb.writes, tb.outcome)
    decreases |a|
  {
    if a == [] {
      assert a + b == b;
    } else {
      assert (a + b)[0] == a[0];
      assert (a + b)[1..] == a[1..] + b;
      var s := Step(abi, host, d, a[0]);
      RunSequential(abi, host, s.driver, a[1..], b);
    }
  }

  /** On an open handle, a start followed by a stop, both written in full,
      delivers exactly two records to that handle in that order, differing
      only in value. */
  lemma BeginThenEnd(abi: Abi, host: Host, d: Driver, freq: u16)
    requires d.deviceFd >= 0
    ensures var t := Run(abi, host, d, [BeginCall(freq, abi.eventSize), EndCall(abi.eventSize)]);
            && t.outcome == Ok
            && t.writes == [Write(d.deviceFd, Encode(abi, d.deviceFlags, Begin(freq))),
                            Write(d.deviceFd, Encode(abi, d.deviceFlags, End))]
            && t.writes[0].event.evType == t.writes[1].event.evType
            && t.writes[0].event.code == t.writes[1].event.code
            && t.writes[1].event.value == 0
  {
    var calls := [BeginCall(freq, abi.eventSize), EndCall(abi.eventSize)];
    assert calls[1..] == [EndCall(abi.eventSize)];
    assert calls[1..][1..] == [];
  }

  /** After a run that ends with fini, no device is held. */
  lemma ClosedAfterFini(abi: Abi, host: Host, d: Driver, calls: seq<Call>)
    requires Run(abi, host, d, calls).outcome.Ok?
    ensures Run(abi, host, d, calls + [FiniCall]).driver.deviceFd == -1
    ensures Run(abi, host, d, calls + [FiniCall]).outcome.Ok?
  {
    RunSequential(abi, host, d, calls, [FiniCall]);
    var t := Run(abi, host, d, calls);
    assert [FiniCall][1..] == [];
  }

  /** A tone call after fini ends the process, whatever the device would have
      accepted: the record goes to handle -1. */
  lemma ToneAfterFiniFatal(abi: Abi, host: Host, d: Driver, c: Call)
    requires c.IsTone()
    ensures Run(abi, host, d, [FiniCall, c]).outcome == Fatal("write EV_SND")
    ensures Run(abi, host, d, [FiniCall, c]).writes[0].fd == -1
  {
    assert [FiniCall, c][1..] == [c];
    assert [c][1..] == [];
  }
}
