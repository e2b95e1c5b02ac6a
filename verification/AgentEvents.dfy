/** The lifecycle events of one run: sequence numbers, the bounded replay buffer, polling
    consumers, and the mirror of durable events in the session ledger. */
module AgentEvents {
  import opened Common
  import opened SessionLedger

  const MAX_READ_LIMIT := 1000
  const MAX_BUFFER_EVENTS := 20000
  const MAX_RUNS := 2000
  const MAX_EVENT_PAYLOAD_BYTES := 65536

  datatype AgentEvent = AgentEvent(
    runId: string,
    seqNo: nat,
    kind: AgentEventType,
    origin: Origin,
    transient: bool,
    payload: string)

  datatype EventError =
    | UnknownOriginRejected | PayloadTooLarge | AlreadyTerminal | NotPersisted(why: LedgerError)
    | NegativeCursor | CursorExpired

  predicate IsTerminal(kind: AgentEventType) {
    kind.RunSettled? || kind.RunFailed? || kind.RunCancelled?
  }

  predicate IsDelta(kind: AgentEventType) {
    kind.ReasoningDelta? || kind.MessageDelta? || kind.ToolDelta?
  }

  function TerminalOf(history: seq<AgentEvent>): Option<AgentEventType> {
    if history != [] && IsTerminal(history[|history| - 1].kind) then Some(history[|history| - 1].kind) else None
  }

  /** What a run's full history always looks like: numbered from one without gaps, and at most
      one terminal event, the last. */
  ghost predicate WellNumbered(runId: string, history: seq<AgentEvent>) {
    && (forall i :: 0 <= i < |history| ==> history[i].seqNo == i + 1 && history[i].runId == runId)
    && (forall i :: 0 <= i < |history| - 1 ==> !IsTerminal(history[i].kind))
  }

  datatype Emission = Emission(
    kind: AgentEventType,
    payload: string,
    payloadBytes: nat,     // the encoded size of the cleaned payload
    origin: Origin,
    transient: Option<bool>,
    entryId: EntryId,      // the ledger entry's uuid and clock reading, should one be written
    ts: int)

  function EventOf(runId: string, emission: Emission, seqNo: nat): AgentEvent {
    AgentEvent(runId, seqNo, emission.kind, emission.origin,
               if emission.transient.Some? then emission.transient.value else IsDelta(emission.kind), emission.payload)
  }

  function WrapperCall(event: AgentEvent, emission: Emission): AppendCall {
    AppendCall(Custom, AgentEventNote(event.runId, event.seqNo, event.kind, event.origin), None, None,
               event.origin, emission.entryId, emission.ts)
  }

  // ---------------------------------------------------------------- the mirror in the ledger

  datatype Note = Note(eventSeq: int, eventType: AgentEventType, eventOrigin: Origin)

  /** The agent-event entries of one run, in ledger order. */
  function NotesOf(entries: seq<Entry>, runId: string): seq<Note> {
    if entries == [] then []
    else
      var last := entries[|entries| - 1].core;
      NotesOf(entries[..|entries| - 1], runId)
        + if last.payload.AgentEventNote? && last.payload.runId == runId
          then [Note(last.payload.eventSeq, last.payload.eventType, last.payload.eventOrigin)] else []
  }

  /** An agent-event entry carries the origin of the event it wraps. */
  ghost predicate OriginsAgree(entries: seq<Entry>) {
    forall e :: e in entries && e.core.payload.AgentEventNote? ==> e.core.origin == e.core.payload.eventOrigin
  }

  /** The durable part of a history. */
  function Durable(history: seq<AgentEvent>): seq<Note> {
    if history == [] then []
    else
      var last := history[|history| - 1];
      Durable(history[..|history| - 1]) + if last.transient then [] else [Note(last.seqNo, last.kind, last.origin)]
  }

  lemma NotesGrow(entries: seq<Entry>, e: Entry, runId: string)
    ensures NotesOf(entries + [e], runId)
            == NotesOf(entries, runId)
               + if e.core.payload.AgentEventNote? && e.core.payload.runId == runId
                 then [Note(e.core.payload.eventSeq, e.core.payload.eventType, e.core.payload.eventOrigin)] else []
  {
    assert (entries + [e])[..|entries|] == entries;
  }

  lemma DurableGrows(history: seq<AgentEvent>, e: AgentEvent)
    ensures Durable(history + [e]) == Durable(history) + if e.transient then [] else [Note(e.seqNo, e.kind, e.origin)]
  {
    assert (history + [e])[..|history|] == history;
  }

  /** One `emit` of a run on its history and its session's ledger file: persist first, publish
      only what was persisted. */
  function EmitEffect(session: string, runId: string, persist: bool, history: seq<AgentEvent>, entries: seq<Entry>,
                      emission: Emission, fits: bool): Result<(seq<AgentEvent>, seq<Entry>), EventError>
  {
    var event := EventOf(runId, emission, |history| + 1);
    if emission.origin.UnknownOrigin? then Err(UnknownOriginRejected)
    else if emission.payloadBytes > MAX_EVENT_PAYLOAD_BYTES then Err(PayloadTooLarge)
    else if TerminalOf(history).Some? then Err(AlreadyTerminal)
    else if !persist || event.transient then Ok((history + [event], entries))
    else
      match NewEntry(session, entries, WrapperCall(event, emission), fits)
      case Ok(e) => Ok((history + [event], entries + [e]))
      case Err(why) => Err(NotPersisted(why))
  }

  /** What an emission adds to the ledger. */
  ghost predicate LedgerFollows(
    session: string, runId: string, persist: bool, entries: seq<Entry>, es: seq<Entry>, news: seq<AgentEvent>,
    entryId: EntryId)
  {
    && entries <= es
    && NotesOf(es, runId) == NotesOf(entries, runId) + (if persist then Durable(news) else [])
    && (forall other :: other != runId ==> NotesOf(es, other) == NotesOf(entries, other))
    && (OriginsAgree(entries) ==> OriginsAgree(es))
    && (Intact(session, entries) && LegalId(entryId) && entryId !in IdsOf(entries) ==> Intact(session, es))
    && IdsOf(es) <= IdsOf(entries) + {entryId}
  }

  lemma {:induction false} WrapperFollows(
    session: string, entries: seq<Entry>, event: AgentEvent, emission: Emission, fits: bool)
    requires !event.transient && event.origin == emission.origin
    requires NewEntry(session, entries, WrapperCall(event, emission), fits).Ok?
    ensures var e := NewEntry(session, entries, WrapperCall(event, emission), fits).value;
            LedgerFollows(session, event.runId, true, entries, entries + [e], [event], emission.entryId)
  {
    var call := WrapperCall(event, emission);
    var e := NewEntry(session, entries, call, fits).value;
    DurableGrows([], event);
    assert [] + [event] == [event];
    NotesGrow(entries, e, event.runId);
    forall other | other != event.runId
      ensures NotesOf(entries + [e], other) == NotesOf(entries, other)
    {
      NotesGrow(entries, e, other);
    }
    if Intact(session, entries) {
      AppendKeepsIntact(session, entries, call, fits);
    }
  }

  /** A run that has not ended takes one more event, numbered next. */
  lemma PublishedHistory(runId: string, history: seq<AgentEvent>, event: AgentEvent)
    requires WellNumbered(runId, history) && TerminalOf(history).None?
    requires event.seqNo == |history| + 1 && event.runId == runId
    ensures WellNumbered(runId, history + [event])
    ensures TerminalOf(history + [event]) == if IsTerminal(event.kind) then Some(event.kind) else None
  {
  }

  lemma DurableOfLast(history: seq<AgentEvent>, event: AgentEvent)
    ensures (history + [event])[|history|..] == [event]
    ensures Durable(history + [event]) == Durable(history) + Durable([event])
    ensures event.transient ==> Durable([event]) == []
  {
    DurableGrows(history, event);
    DurableGrows([], event);
    assert [] + [event] == [event];
  }

  lemma {:induction false} EmitEffectFacts(
    session: string, runId: string, persist: bool, history: seq<AgentEvent>, entries: seq<Entry>, emission: Emission,
    fits: bool)
    requires WellNumbered(runId, history)
    requires EmitEffect(session, runId, persist, history, entries, emission, fits).Ok?
    ensures var (h, es) := EmitEffect(session, runId, persist, history, entries, emission, fits).value;
            && WellNumbered(runId, h) && history < h
            && Durable(h) == Durable(history) + Durable(h[|history|..])
            && LedgerFollows(session, runId, persist, entries, es, h[|history|..], emission.entryId)
  {
    var event := EventOf(runId, emission, |history| + 1);
    PublishedHistory(runId, history, event);
    DurableOfLast(history, event);
    if persist && !event.transient {
      WrapperFollows(session, entries, event, emission, fits);
    }
  }

  // ---------------------------------------------------------------- several runs, one session

  /** A session ledger shared by any number of runs: the history of every run id's present stream,
      and the notes its earlier streams left in the ledger. */
  datatype World = World(entries: seq<Entry>, histories: map<string, seq<AgentEvent>>, past: map<string, seq<Note>>)

  /** A new stream takes a run id that no present stream has, a run emits, or somebody else writes
      the same session ledger. */
  datatype Occurrence =
    | Created(runId: string)
    | Emitted(runId: string, emission: Emission, fits: bool)
    | OtherWrite(call: Call)

  function HistoryOf(w: World, runId: string): seq<AgentEvent> {
    if runId in w.histories then w.histories[runId] else []
  }

  function PastOf(w: World, runId: string): seq<Note> {
    if runId in w.past then w.past[runId] else []
  }

  function Occur(session: string, w: World, o: Occurrence): World {
    match o
    case Created(runId) =>
      w.(histories := w.histories[runId := []],
         past := w.past[runId := PastOf(w, runId) + Durable(HistoryOf(w, runId))])
    case OtherWrite(call) => w.(entries := Perform(session, w.entries, call))
    case Emitted(runId, emission, fits) =>
      match EmitEffect(session, runId, true, HistoryOf(w, runId), w.entries, emission, fits)
      case Ok((h, es)) => w.(entries := es, histories := w.histories[runId := h])
      case Err(_) => w
  }

  function Unfold(session: string, occurrences: seq<Occurrence>): World {
    if occurrences == [] then World([], map[], map[])
    else Occur(session, Unfold(session, occurrences[..|occurrences| - 1]), occurrences[|occurrences| - 1])
  }

  function EntryIdsOf(o: Occurrence): set<EntryId> {
    match o
    case Created(_) => {}
    case Emitted(_, emission, _) => {emission.entryId}
    case OtherWrite(call) => {IdOf(call)}
  }

  /** Every entry id handed out is a legal uuid nobody else got. */
  ghost predicate FreshEntryIds(occurrences: seq<Occurrence>) {
    && (forall o, id :: o in occurrences && id in EntryIdsOf(o) ==> LegalId(id))
    && (forall i, j :: 0 <= i < j < |occurrences| ==> EntryIdsOf(occurrences[i]) !! EntryIdsOf(occurrences[j]))
  }

  /** Only runs write agent-event entries; anything else may be written by others. */
  ghost predicate EventsOnlyFromRuns(occurrences: seq<Occurrence>) {
    forall o :: o in occurrences && o.OtherWrite? && o.call.Append? ==> !o.call.call.payload.AgentEventNote?
  }

  /** The ledger's entries of a run are the notes of its earlier streams and then the durable
      history of its present one. */
  ghost predicate RunAccounted(w: World, runId: string) {
    && WellNumbered(runId, HistoryOf(w, runId))
    && NotesOf(w.entries, runId) == PastOf(w, runId) + Durable(HistoryOf(w, runId))
  }

  ghost predicate Accounted(w: World) {
    OriginsAgree(w.entries) && forall runId :: RunAccounted(w, runId)
  }

  /** What every occurrence keeps, given that its entry ids are legal and new. */
  ghost predicate StepAccounted(session: string, w: World, o: Occurrence) {
    var w' := Occur(session, w, o);
    && Accounted(w')
    && IdsOf(w'.entries) <= IdsOf(w.entries) + EntryIdsOf(o)
    && (Intact(session, w.entries) && EntryIdsOf(o) !! IdsOf(w.entries)
        && (forall id :: id in EntryIdsOf(o) ==> LegalId(id))
        ==> Intact(session, w'.entries))
  }

  lemma {:induction false} OtherRunAccounted(w: World, w': World, runId: string)
    requires RunAccounted(w, runId)
    requires PastOf(w', runId) == PastOf(w, runId) && HistoryOf(w', runId) == HistoryOf(w, runId)
    requires NotesOf(w'.entries, runId) == NotesOf(w.entries, runId)
    ensures RunAccounted(w', runId)
  {
  }

  lemma {:induction false} EmitterAccounted(w: World, w': World, runId: string, news: seq<Note>)
    requires RunAccounted(w, runId) && PastOf(w', runId) == PastOf(w, runId)
    requires WellNumbered(runId, HistoryOf(w', runId))
    requires Durable(HistoryOf(w', runId)) == Durable(HistoryOf(w, runId)) + news
    requires NotesOf(w'.entries, runId) == NotesOf(w.entries, runId) + news
    ensures RunAccounted(w', runId)
  {
    Associative(PastOf(w, runId), Durable(HistoryOf(w, runId)), news);
  }

  lemma Associative(a: seq<Note>, b: seq<Note>, c: seq<Note>)
    ensures (a + b) + c == a + (b + c)
  {
  }

  lemma {:induction false} EmissionAccounted(session: string, w: World, o: Occurrence)
    requires o.Emitted? && Accounted(w)
    ensures StepAccounted(session, w, o)
  {
    var history := HistoryOf(w, o.runId);
    assert RunAccounted(w, o.runId);
    match EmitEffect(session, o.runId, true, history, w.entries, o.emission, o.fits)
    case Err(_) =>
    case Ok((h, es)) =>
      EmitEffectFacts(session, o.runId, true, history, w.entries, o.emission, o.fits);
      var w' := w.(entries := es, histories := w.histories[o.runId := h]);
      forall runId
        ensures RunAccounted(w', runId)
      {
        assert RunAccounted(w, runId);
        if runId == o.runId {
          EmitterAccounted(w, w', runId, Durable(h[|history|..]));
        } else {
          OtherRunAccounted(w, w', runId);
        }
      }
  }

  lemma OtherWriteAccounted(session: string, w: World, call: Call)
    requires Accounted(w) && (call.Append? ==> !call.call.payload.AgentEventNote?)
    ensures StepAccounted(session, w, OtherWrite(call))
  {
    var w' := Occur(session, w, OtherWrite(call));
    PerformFacts(session, w.entries, call);
    if w'.entries != w.entries {
      var e := w'.entries[|w.entries|];
      assert w'.entries == w.entries + [e] && !e.core.payload.AgentEventNote?;
      forall runId
        ensures RunAccounted(w', runId)
      {
        assert RunAccounted(w, runId);
        NotesGrow(w.entries, e, runId);
        OtherRunAccounted(w, w', runId);
      }
    }
  }

  lemma CreationAccounted(session: string, w: World, created: string)
    requires Accounted(w)
    ensures StepAccounted(session, w, Created(created))
  {
    var w' := Occur(session, w, Created(created));
    forall runId
      ensures RunAccounted(w', runId)
    {
      assert RunAccounted(w, runId);
      if runId == created {
        assert HistoryOf(w', runId) == [] && Durable([]) == [];
      } else {
        OtherRunAccounted(w, w', runId);
      }
    }
  }

  /** With any number of runs and other writers interleaved in one session ledger, any emissions
      rejected or failing to persist, and run ids taken again, the ledger's entries of every run
      match the durable histories of its streams by number, type and origin, in order, and the
      ledger stays intact. */
  lemma {:induction false} LedgerAccountsForEveryRun(session: string, occurrences: seq<Occurrence>)
    requires FreshEntryIds(occurrences) && EventsOnlyFromRuns(occurrences)
    ensures var w := Unfold(session, occurrences);
            && Accounted(w) && Intact(session, w.entries)
            && forall id :: id in IdsOf(w.entries) ==>
                 exists i :: 0 <= i < |occurrences| && id in EntryIdsOf(occurrences[i])
  {
    if occurrences != [] {
      var n := |occurrences| - 1;
      var init, o := occurrences[..n], occurrences[n];
      var w := Unfold(session, init);
      LedgerAccountsForEveryRun(session, init);
      match o {
        case Created(runId) => CreationAccounted(session, w, runId);
        case Emitted(_, _, _) => EmissionAccounted(session, w, o);
        case OtherWrite(call) => OtherWriteAccounted(session, w, call);
      }
      assert forall i :: 0 <= i < n ==> init[i] == occurrences[i];
      assert o in occurrences && EntryIdsOf(o) !! IdsOf(w.entries);
      forall id | id in IdsOf(Unfold(session, occurrences).entries)
        ensures exists i :: 0 <= i < |occurrences| && id in EntryIdsOf(occurrences[i])
      {
        if id in IdsOf(w.entries) {
          var i :| 0 <= i < n && id in EntryIdsOf(init[i]);
          assert id in EntryIdsOf(occurrences[i]);
        } else {
          assert id in EntryIdsOf(occurrences[n]);
        }
      }
    }
  }

  /** Whenever the run id was taken, the ledger held no entry of that run yet: what the caller of
      `create` can look up before the call. */
  ghost predicate TakenUnrecorded(session: string, occurrences: seq<Occurrence>, runId: string) {
    forall i :: 0 <= i < |occurrences| && occurrences[i] == Created(runId) ==>
      NotesOf(Unfold(session, occurrences[..i]).entries, runId) == []
  }

  lemma PrefixIsFresh(occurrences: seq<Occurrence>)
    requires occurrences != [] && FreshEntryIds(occurrences) && EventsOnlyFromRuns(occurrences)
    ensures var init := occurrences[..|occurrences| - 1];
            FreshEntryIds(init) && EventsOnlyFromRuns(init)
  {
    var n := |occurrences| - 1;
    assert forall i :: 0 <= i < n ==> occurrences[..n][i] == occurrences[i];
  }

  lemma TakenUnrecordedStep(session: string, occurrences: seq<Occurrence>, runId: string)
    requires occurrences != []
    ensures var n := |occurrences| - 1;
            TakenUnrecorded(session, occurrences, runId)
            <==> && TakenUnrecorded(session, occurrences[..n], runId)
                 && (occurrences[n] == Created(runId) ==>
                       NotesOf(Unfold(session, occurrences[..n]).entries, runId) == [])
  {
    var n := |occurrences| - 1;
    var init := occurrences[..n];
    assert forall i :: 0 <= i < n ==> init[i] == occurrences[i] && init[..i] == occurrences[..i];
  }

  lemma PastStep(session: string, w: World, o: Occurrence, runId: string)
    requires NotesOf(w.entries, runId) == PastOf(w, runId) + Durable(HistoryOf(w, runId))
    ensures PastOf(Occur(session, w, o), runId) == []
            <==> PastOf(w, runId) == [] && (o == Created(runId) ==> NotesOf(w.entries, runId) == [])
  {
  }

  lemma {:induction false} PastIsEmptyExactly(session: string, occurrences: seq<Occurrence>, runId: string)
    requires FreshEntryIds(occurrences) && EventsOnlyFromRuns(occurrences)
    ensures PastOf(Unfold(session, occurrences), runId) == [] <==> TakenUnrecorded(session, occurrences, runId)
  {
    if occurrences != [] {
      var n := |occurrences| - 1;
      var init := occurrences[..n];
      PrefixIsFresh(occurrences);
      PastIsEmptyExactly(session, init, runId);
      LedgerAccountsForEveryRun(session, init);
      assert RunAccounted(Unfold(session, init), runId);
      PastStep(session, Unfold(session, init), occurrences[n], runId);
      TakenUnrecordedStep(session, occurrences, runId);
    }
  }

  /** The ledger mirrors the present stream of a run exactly when the run id was never taken
      again after an earlier stream had recorded an event. */
  lemma MirrorsExactlyUntaken(session: string, occurrences: seq<Occurrence>, runId: string)
    requires FreshEntryIds(occurrences) && EventsOnlyFromRuns(occurrences)
    ensures var w := Unfold(session, occurrences);
            NotesOf(w.entries, runId) == Durable(HistoryOf(w, runId))
            <==> TakenUnrecorded(session, occurrences, runId)
  {
    var w := Unfold(session, occurrences);
    LedgerAccountsForEveryRun(session, occurrences);
    PastIsEmptyExactly(session, occurrences, runId);
    assert RunAccounted(w, runId);
    if NotesOf(w.entries, runId) == Durable(HistoryOf(w, runId)) {
      assert |PastOf(w, runId)| == 0;
    }
  }

  function Started(number: nat): Emission
  {
    Emission(RunStarted, "", 2, RuntimeOrigin, None, Evt(number), 0)
  }

  ghost predicate EndsOnMain(entries: seq<Entry>) {
    entries != [] ==> entries[|entries| - 1].core.branch == Main
  }

  lemma {:induction false} StartEntry(session: string, entries: seq<Entry>, event: AgentEvent, number: nat)
    requires EndsOnMain(entries) && event.origin.RuntimeOrigin?
    ensures var r := NewEntry(session, entries, WrapperCall(event, Started(number)), true);
            r.Ok? && r.value.core.branch == Main
  {
  }

  lemma {:induction false} StartRecorded(session: string, w: World, runId: string, number: nat)
    requires HistoryOf(w, runId) == [] && EndsOnMain(w.entries)
    ensures var w' := Occur(session, w, Emitted(runId, Started(number), true));
            && NotesOf(w'.entries, runId) == NotesOf(w.entries, runId) + [Note(1, RunStarted, RuntimeOrigin)]
            && Durable(HistoryOf(w', runId)) == [Note(1, RunStarted, RuntimeOrigin)]
            && EndsOnMain(w'.entries)
  {
    var event := EventOf(runId, Started(number), 1);
    StartEntry(session, w.entries, event, number);
    DurableGrows([], event);
    assert [] + [event] == [event];
    NotesGrow(w.entries, NewEntry(session, w.entries, WrapperCall(event, Started(number)), true).value, runId);
  }

  lemma TwoStartsAreFresh(runId: string)
    ensures var occurrences := [Emitted(runId, Started(1), true), Created(runId), Emitted(runId, Started(2), true)];
            FreshEntryIds(occurrences) && EventsOnlyFromRuns(occurrences)
  {
  }

  /** The first stream of a run records its start and leaves the hub; a second stream of the same
      run id counts from one again, so the ledger holds number one twice. */
  lemma {:induction false} NumberRecordedTwice(session: string, runId: string)
    ensures var occurrences := [Emitted(runId, Started(1), true), Created(runId), Emitted(runId, Started(2), true)];
            var w := Unfold(session, occurrences);
            && FreshEntryIds(occurrences) && EventsOnlyFromRuns(occurrences)
            && NotesOf(w.entries, runId) == [Note(1, RunStarted, RuntimeOrigin), Note(1, RunStarted, RuntimeOrigin)]
            && Durable(HistoryOf(w, runId)) == [Note(1, RunStarted, RuntimeOrigin)]
  {
    TwoStartsAreFresh(runId);
    var o1, o2, o3 := Emitted(runId, Started(1), true), Created(runId), Emitted(runId, Started(2), true);
    var w1 := Occur(session, World([], map[], map[]), o1);
    var w2 := Occur(session, w1, o2);
    StartRecorded(session, World([], map[], map[]), runId, 1);
    StartRecorded(session, w2, runId, 2);
    UnfoldThree(session, o1, o2, o3);
  }

  lemma {:induction false} UnfoldThree(session: string, o1: Occurrence, o2: Occurrence, o3: Occurrence)
    ensures Unfold(session, [o1, o2, o3])
            == Occur(session, Occur(session, Occur(session, World([], map[], map[]), o1), o2), o3)
  {
    assert [o1][..0] == [];
    assert [o1, o2][..1] == [o1] && [o1, o2, o3][..2] == [o1, o2];
    assert Unfold(session, []) == World([], map[], map[]);
    assert Unfold(session, [o1]) == Occur(session, World([], map[], map[]), o1);
    assert Unfold(session, [o1, o2]) == Occur(session, Unfold(session, [o1]), o2);
  }

  // ---------------------------------------------------------------- polling consumers

  /** What a poll answers, in terms of the full history alone: the buffer is the last
      `capacity` events of it. */
  function Poll(history: seq<AgentEvent>, capacity: nat, after: int, limit: int): Result<seq<AgentEvent>, EventError> {
    var count := Clamp(limit, 1, MAX_READ_LIMIT);
    if after < 0 then Err(NegativeCursor)
    else if |history| > capacity && after < |history| - capacity then Err(CursorExpired)
    else if after >= |history| then Ok([])
    else Ok(history[after..if after + count <= |history| then after + count else |history|])
  }

  lemma PollSlice(history: seq<AgentEvent>, capacity: nat, after: nat, limit: int)
    requires after >= |history| - |LastN(history, capacity)|
    ensures var newer := if after >= |history| then [] else history[after..];
            var count := Clamp(limit, 1, MAX_READ_LIMIT);
            Poll(history, capacity, after, limit) == Ok(if |newer| > count then newer[..count] else newer)
  {
    var count := Clamp(limit, 1, MAX_READ_LIMIT);
    if after < |history| {
      var newer := history[after..];
      assert newer == history[after..|history|];
      assert |newer| > count ==> newer[..count] == history[after..after + count];
    }
  }

  datatype Action = Publish(event: AgentEvent) | Read(limit: int)

  /** A consumer that polls with the last number it has seen. */
  datatype Consumer = Consumer(history: seq<AgentEvent>, cursor: nat, received: seq<AgentEvent>, expired: bool)

  function Act(c: Consumer, capacity: nat, action: Action): Consumer {
    match action
    case Publish(event) => c.(history := c.history + [event.(seqNo := |c.history| + 1)])
    case Read(limit) =>
      match Poll(c.history, capacity, c.cursor, limit)
      case Err(_) => c.(expired := true)
      case Ok(events) =>
        if events == [] then c
        else c.(cursor := events[|events| - 1].seqNo, received := c.received + events)
  }

  function Consume(c: Consumer, capacity: nat, actions: seq<Action>): Consumer {
    if actions == [] then c
    else Act(Consume(c, capacity, actions[..|actions| - 1]), capacity, actions[|actions| - 1])
  }

  ghost predicate Numbered(history: seq<AgentEvent>) {
    forall i :: 0 <= i < |history| ==> history[i].seqNo == i + 1
  }

  ghost predicate GapFree(c: Consumer, start: nat) {
    && Numbered(c.history)
    && start <= c.cursor <= |c.history|
    && c.received == c.history[start..c.cursor]
  }

  lemma ActKeepsGapFree(c: Consumer, start: nat, capacity: nat, action: Action)
    requires GapFree(c, start)
    ensures GapFree(Act(c, capacity, action), start) && c.history <= Act(c, capacity, action).history
    ensures c.cursor <= Act(c, capacity, action).cursor
  {
    if action.Read? && Poll(c.history, capacity, c.cursor, action.limit).Ok? {
      var events := Poll(c.history, capacity, c.cursor, action.limit).value;
      var upTo := c.cursor + |events|;
      assert events == c.history[c.cursor..upTo];
      assert c.history[start..c.cursor] + c.history[c.cursor..upTo] == c.history[start..upTo];
    }
  }

  /** However emissions and polls interleave and whatever limits are used, what a consumer has
      received is the stretch of the history from where it started to its cursor: no gap and no
      duplicate. Falling behind the buffer shows up as an explicit expiry, never as a gap. */
  lemma {:induction false} PollingIsGapFree(history: seq<AgentEvent>, start: nat, capacity: nat, actions: seq<Action>)
    requires start <= |history| && Numbered(history)
    ensures GapFree(Consume(Consumer(history, start, [], false), capacity, actions), start)
    ensures history <= Consume(Consumer(history, start, [], false), capacity, actions).history
  {
    if actions != [] {
      var n := |actions| - 1;
      PollingIsGapFree(history, start, capacity, actions[..n]);
      var before := Consume(Consumer(history, start, [], false), capacity, actions[..n]);
      ActKeepsGapFree(before, start, capacity, actions[n]);
    }
  }

  /** A poll expires exactly when an event the consumer has not seen has left the buffer, and
      an empty answer means the consumer has seen everything. */
  lemma PollAnswers(history: seq<AgentEvent>, capacity: nat, cursor: nat, limit: int)
    requires Numbered(history) && cursor <= |history|
    ensures Poll(history, capacity, cursor, limit) == Err(CursorExpired)
            <==> exists e :: e in history && e.seqNo > cursor && e !in LastN(history, capacity)
    ensures Poll(history, capacity, cursor, limit) == Ok([]) ==> cursor == |history|
    ensures cursor == |history| ==> Poll(history, capacity, cursor, limit) == Ok([])
  {
    var kept := LastN(history, capacity);
    var lost := |history| - |kept|;
    assert kept == history[lost..];
    forall i | 0 <= i < |history|
      ensures history[i] in kept <==> i >= lost
    {
      if i >= lost {
        assert kept[i - lost] == history[i];
      }
    }
    if cursor < lost {
      assert history[cursor].seqNo > cursor;
    }
  }
}
