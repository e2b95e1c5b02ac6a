/** The event stream object of one run and the hub that keeps the streams of many. */
module EventStreams {
  import opened Common
  import opened SessionLedger
  import opened LedgerStore
  import opened AgentEvents

  /** A full bounded buffer drops its oldest event when a new one arrives. */
  lemma BufferStep(history: seq<AgentEvent>, event: AgentEvent, capacity: nat)
    requires capacity >= 1
    ensures var kept := LastN(history, capacity);
            LastN(history + [event], capacity) == (if |kept| == capacity then kept[1..] else kept) + [event]
  {
  }

  class RunEventStream {
    const sessionId: string
    const runId: string
    const capacity: nat
    const persist: bool
    const ledger: SessionLedgerStore

    var events: seq<AgentEvent>        // the bounded buffer
    var nextSeq: nat
    var terminal: Option<AgentEventType>
    ghost var history: seq<AgentEvent> // every event ever published

    ghost predicate Valid()
      reads this
    {
      && 1 <= capacity <= MAX_BUFFER_EVENTS
      && WellNumbered(runId, history)
      && nextSeq == |history| + 1
      && events == LastN(history, capacity)
      && terminal == TerminalOf(history)
    }

    /** Exactly when an event can be persisted as far as it has to be: it need not, or the payload
        and the file are within their limits and the ledger accepts the new line. */
    predicate Persists(
      event: AgentEvent, emission: Emission, entries: seq<Entry>, size: nat, entryBytes: nat, lineBytes: nat)
    {
      !persist || event.transient ||
      (&& entryBytes <= MAX_PAYLOAD_BYTES && size <= MAX_LEDGER_BYTES
       && NewEntry(sessionId, entries, WrapperCall(event, emission), size + lineBytes <= MAX_LEDGER_BYTES).Ok?)
    }

    /** What is checked of an emission whatever the state of the stream. */
    predicate Admits(emission: Emission) {
      !emission.origin.UnknownOrigin? && emission.payloadBytes <= MAX_EVENT_PAYLOAD_BYTES
    }

    constructor (ledger: SessionLedgerStore, sessionId: string, runId: string, maxBufferEvents: int, persist: bool)
      ensures Valid() && history == []
      ensures this.ledger == ledger && this.sessionId == sessionId && this.runId == runId && this.persist == persist
      ensures capacity == Clamp(maxBufferEvents, 1, MAX_BUFFER_EVENTS)
    {
      this.ledger, this.sessionId, this.runId, this.persist := ledger, sessionId, runId, persist;
      capacity := Clamp(maxBufferEvents, 1, MAX_BUFFER_EVENTS);
      events, nextSeq, terminal, history := [], 1, None, [];
    }

    /** Persists a durable event and only then publishes it. A rejected or unpersisted event
        changes neither numbers, buffer, terminal state nor ledger. */
    method Emit(emission: Emission, entryBytes: nat, lineBytes: nat) returns (r: Result<AgentEvent, EventError>)
      requires Valid()
      modifies this`events, this`nextSeq, this`terminal, this`history, ledger
      ensures Valid()
      ensures r.Ok? ==>
                && Admits(emission) && old(terminal).None?
                && r.value == EventOf(runId, emission, |old(history)| + 1)
                && EmitEffect(sessionId, runId, persist, old(history), old(ledger.Lines(sessionId)), emission, true)
                   == Ok((history, ledger.Lines(sessionId)))
                && (forall other :: other != sessionId ==> ledger.Lines(other) == old(ledger.Lines(other)))
      ensures r.Err? ==> history == old(history) && events == old(events) && ledger.files == old(ledger.files)
      ensures emission.origin.UnknownOrigin? ==> r == Err(UnknownOriginRejected)
      ensures !emission.origin.UnknownOrigin? && !Admits(emission) ==> r == Err(PayloadTooLarge)
      ensures Admits(emission) && old(terminal).Some? ==> r == Err(AlreadyTerminal)
      ensures (r.Err? && r.error.NotPersisted?) <==>
                && Admits(emission) && old(terminal).None?
                && !Persists(EventOf(runId, emission, |old(history)| + 1), emission, old(ledger.Lines(sessionId)),
                             old(ledger.Size(sessionId)), entryBytes, lineBytes)
    {
      if emission.origin.UnknownOrigin? {
        return Err(UnknownOriginRejected);
      }
      if emission.payloadBytes > MAX_EVENT_PAYLOAD_BYTES {
        return Err(PayloadTooLarge);
      }
      if terminal.Some? {
        return Err(AlreadyTerminal);
      }
      var event := EventOf(runId, emission, nextSeq);
      var persisted := Persist(event, emission, entryBytes, lineBytes);
      if persisted.Some? {
        return Err(NotPersisted(persisted.value));
      }
      Publish(event);
      r := Ok(event);
    }

    method Persist(event: AgentEvent, emission: Emission, entryBytes: nat, lineBytes: nat)
      returns (failure: Option<LedgerError>)
      modifies ledger
      ensures !persist || event.transient ==> failure.None? && ledger.files == old(ledger.files)
      ensures failure.Some? <==>
                !Persists(event, emission, old(ledger.Lines(sessionId)), old(ledger.Size(sessionId)),
                          entryBytes, lineBytes)
      ensures failure.Some? ==> ledger.files == old(ledger.files)
      ensures persist && !event.transient && failure.None? ==>
                var written := NewEntry(sessionId, old(ledger.Lines(sessionId)), WrapperCall(event, emission), true);
                && written.Ok?
                && ledger.files == old(ledger.files)[sessionId := old(ledger.Lines(sessionId)) + [written.value]]
    {
      failure := None;
      if persist && !event.transient {
        var written := ledger.Append(sessionId, WrapperCall(event, emission), entryBytes, lineBytes);
        if written.Err? {
          failure := Some(written.error);
        }
      }
    }

    method Publish(event: AgentEvent)
      requires Valid() && terminal.None?
      requires event.seqNo == nextSeq && event.runId == runId
      modifies this`events, this`nextSeq, this`terminal, this`history
      ensures Valid() && history == old(history) + [event]
    {
      BufferStep(history, event, capacity);
      PublishedHistory(runId, history, event);
      var room := if |events| == capacity then events[1..] else events;
      events := room + [event];
      nextSeq := nextSeq + 1;
      if IsTerminal(event.kind) {
        terminal := Some(event.kind);
      }
      history := history + [event];
    }

    /** Answers a poll exactly as if the whole history had been kept. */
    method EventsAfter(afterSeq: int, limit: int) returns (r: Result<seq<AgentEvent>, EventError>)
      requires Valid()
      ensures r == Poll(history, capacity, afterSeq, limit)
    {
      var count := Clamp(limit, 1, MAX_READ_LIMIT);
      if afterSeq < 0 {
        return Err(NegativeCursor);
      }
      ghost var lost := |history| - |events|;
      assert events == history[lost..];
      if events != [] && afterSeq < events[0].seqNo - 1 {
        return Err(CursorExpired);
      }
      var newer := [];
      ghost var skip := if afterSeq - lost > |events| then |events| else afterSeq - lost;
      for i := 0 to |events|
        invariant newer == if i <= skip then [] else events[skip..i]
      {
        assert events[i].seqNo == lost + i + 1;
        if events[i].seqNo > afterSeq {
          newer := newer + [events[i]];
        }
      }
      assert newer == if afterSeq >= |history| then [] else history[afterSeq..];
      PollSlice(history, capacity, afterSeq, limit);
      r := Ok(if |newer| > count then newer[..count] else newer);
    }
  }

  /** `after` is `before` without its least recently used ended run. */
  ghost predicate DropsFirstTerminal(before: seq<RunEventStream>, after: seq<RunEventStream>)
    reads before
  {
    exists k :: 0 <= k < |before| && before[k].terminal.Some?
                && (forall m :: 0 <= m < k ==> before[m].terminal.None?)
                && after == before[..k] + before[k + 1..]
  }

  lemma DroppingKeepsActiveRuns(before: seq<RunEventStream>, after: seq<RunEventStream>)
    requires DropsFirstTerminal(before, after)
    ensures |after| == |before| - 1
    ensures exists s :: s in before && s.terminal.Some?
    ensures forall s :: s in before && s.terminal.None? ==> s in after
    ensures forall s :: s in after ==> s in before
  {
    var k :| 0 <= k < |before| && before[k].terminal.Some? && after == before[..k] + before[k + 1..];
    assert before == before[..k] + [before[k]] + before[k + 1..];
  }

  predicate DistinctRuns(runs: seq<RunEventStream>) {
    forall i, j :: 0 <= i < j < |runs| ==> runs[i].runId != runs[j].runId
  }

  ghost predicate AllValid(runs: seq<RunEventStream>)
    reads runs
  {
    forall s :: s in runs ==> s.Valid()
  }

  lemma DroppingKeepsValid(runs: seq<RunEventStream>, k: nat)
    requires k < |runs| && DistinctRuns(runs) && AllValid(runs)
    ensures DistinctRuns(runs[..k] + runs[k + 1..]) && AllValid(runs[..k] + runs[k + 1..])
  {
    var rest := runs[..k] + runs[k + 1..];
    assert forall i :: 0 <= i < |rest| ==> rest[i] == runs[if i < k then i else i + 1];
  }

  lemma AddingKeepsValid(runs: seq<RunEventStream>, stream: RunEventStream)
    requires DistinctRuns(runs) && AllValid(runs) && stream.Valid()
    requires forall s :: s in runs ==> s.runId != stream.runId
    ensures DistinctRuns(runs + [stream]) && AllValid(runs + [stream])
  {
    assert forall i :: 0 <= i < |runs| ==> runs[i] in runs;
  }

  class AgentEventHub {
    const maxRuns: nat
    var runs: seq<RunEventStream>   // least recently used first

    ghost predicate Valid()
      reads this, runs
    {
      1 <= maxRuns <= MAX_RUNS && |runs| <= maxRuns && DistinctRuns(runs) && AllValid(runs)
    }

    constructor (maxRuns: int)
      ensures Valid() && runs == []
      ensures this.maxRuns == Clamp(maxRuns, 1, MAX_RUNS)
    {
      this.maxRuns := Clamp(maxRuns, 1, MAX_RUNS);
      runs := [];
    }

    /** Makes room by dropping ended runs only; fails, changing nothing, when every run is active. */
    method EvictTerminal() returns (ok: bool)
      requires Valid()
      modifies this`runs
      ensures Valid()
      ensures |old(runs)| < maxRuns ==> ok && runs == old(runs)
      ensures |old(runs)| == maxRuns && ok ==> DropsFirstTerminal(old(runs), runs)
      ensures !ok ==> runs == old(runs) && forall s :: s in runs ==> s.terminal.None?
      ensures ok ==> |runs| < maxRuns
    {
      ok := true;
      while ok && |runs| >= maxRuns
        invariant Valid()
        invariant |old(runs)| < maxRuns ==> ok && runs == old(runs)
        invariant |old(runs)| == maxRuns ==>
                    runs == old(runs) || (ok && |runs| < maxRuns && DropsFirstTerminal(old(runs), runs))
        invariant !ok ==> runs == old(runs) && forall s :: s in runs ==> s.terminal.None?
        decreases ok, |runs|
      {
        ok := PopFirstTerminal();
      }
    }

    method PopFirstTerminal() returns (ok: bool)
      requires Valid()
      modifies this`runs
      ensures Valid()
      ensures ok ==> DropsFirstTerminal(old(runs), runs)
      ensures !ok ==> runs == old(runs) && forall s :: s in runs ==> s.terminal.None?
    {
      var k := 0;
      while k < |runs| && runs[k].terminal.None?
        invariant 0 <= k <= |runs|
        invariant forall m :: 0 <= m < k ==> runs[m].terminal.None?
      {
        k := k + 1;
      }
      ok := k < |runs|;
      if ok {
        DroppingKeepsValid(runs, k);
        runs := runs[..k] + runs[k + 1..];
      }
    }

    method HasRun(runId: string) returns (found: bool)
      ensures found <==> exists s :: s in runs && s.runId == runId
    {
      for i := 0 to |runs|
        invariant forall m :: 0 <= m < i ==> runs[m].runId != runId
      {
        if runs[i].runId == runId {
          return true;
        }
      }
      found := false;
    }

    method Register(stream: RunEventStream) returns (ok: bool)
      requires Valid() && stream.Valid()
      modifies this`runs
      ensures Valid()
      ensures ok <==> (forall s :: s in old(runs) ==> s.runId != stream.runId)
                      && (|old(runs)| < maxRuns || exists s :: s in old(runs) && s.terminal.Some?)
      ensures ok ==> runs != [] && runs[|runs| - 1] == stream
                     && (if |old(runs)| < maxRuns then runs[..|runs| - 1] == old(runs)
                         else DropsFirstTerminal(old(runs), runs[..|runs| - 1]))
      ensures !ok ==> runs == old(runs)
    {
      var taken := HasRun(stream.runId);
      if taken {
        return false;
      }
      var room := EvictTerminal();
      if !room {
        return false;
      }
      if |old(runs)| == maxRuns {
        DroppingKeepsActiveRuns(old(runs), runs);
      }
      AddingKeepsValid(runs, stream);
      ghost var kept := runs;
      runs := runs + [stream];
      assert runs[..|runs| - 1] == kept;
      ok := true;
    }

    /** Finds a run and marks it most recently used. */
    method Get(runId: string) returns (found: Option<RunEventStream>)
      requires Valid()
      modifies this`runs
      ensures Valid()
      ensures found.Some? ==> found.value.runId == runId && found.value in old(runs)
      ensures found.Some? ==> exists k :: 0 <= k < |old(runs)| && old(runs)[k] == found.value
                                          && runs == old(runs)[..k] + old(runs)[k + 1..] + [found.value]
      ensures found.None? ==> runs == old(runs) && forall i :: 0 <= i < |runs| ==> runs[i].runId != runId
    {
      for k := 0 to |runs|
        invariant runs == old(runs)
        invariant forall m :: 0 <= m < k ==> runs[m].runId != runId
      {
        if runs[k].runId == runId {
          var stream := runs[k];
          DroppingKeepsValid(runs, k);
          assert forall s :: s in runs[..k] + runs[k + 1..] ==> s.runId != runId;
          AddingKeepsValid(runs[..k] + runs[k + 1..], stream);
          runs := runs[..k] + runs[k + 1..] + [stream];
          return Some(stream);
        }
      }
      found := None;
    }
  }
}
