/** What the delivery of an invoice guarantees, over every interleaving of callers, sync, clock and
    failures (src/services/clientOrderInvoiceWorker.ts): which messages go out twice, and exactly
    when. */
module DeliverySafety {
  import opened Options
  import opened InvoiceDelivery
  import N = Numbers

  // ---------------------------------------------------------------- the shape of a step

  /** Nothing happens to the channels' rows, the outbox or the calls. */
  predicate Rests(w: World, w': World) {
    w'.deliveries == w.deliveries && w'.outbox == w.outbox && w'.calls == w.calls
  }

  /** A claim succeeds and starts a call. */
  predicate Joins(w: World, w': World, e: Event) {
    && e.Claim? && e.id !in w.calls
    && w'.deliveries == w.deliveries && w'.outbox == w.outbox
    && w'.calls == w.calls[e.id := Call(e.eligible, [], Between)]
  }

  /** A call ends or stops working; only exceptions and stopping processes leave a send unrecorded. */
  predicate Leaves(w: World, w': World, e: Event) {
    && (e.Shelve? || e.Abandon? || e.Break? || e.Die? || e.Finish? || e.Ack?)
    && e.id in w.calls && (e.Die? || e.Break? || w.calls[e.id].stage !in {PdfAccepted, NoteAccepted})
    && w'.deliveries == w.deliveries && w'.outbox == w.outbox
    && (w'.calls == w.calls - {e.id} || w'.calls == w.calls[e.id := w.calls[e.id].(stage := Acking)])
  }

  /** A call executes one statement on its channel. */
  predicate Works(w: World, w': World, e: Event) {
    Working(e) && e.id in w.calls && Open(w.calls[e.id]) && Affects(w, w', e.id, EffectOf(w, e))
  }

  lemma LeaveEvents(w: World, e: Event)
    requires e.Shelve? || e.Abandon? || e.Break? || e.Die? || e.Finish? || e.Ack?
    ensures Step(w, e) == w || Leaves(w, Step(w, e), e)
  {
  }

  lemma StepShape(w: World, e: Event)
    ensures var w' := Step(w, e); Rests(w, w') || Joins(w, w', e) || Leaves(w, w', e) || Works(w, w', e)
  {
    if Working(e) {
      if e.id in w.calls && Open(w.calls[e.id]) { StatementActs(w, e); }
    } else if e.Shelve? || e.Abandon? || e.Break? || e.Die? || e.Finish? || e.Ack? {
      LeaveEvents(w, e);
    }
  }

  // ---------------------------------------------------------------- every way the invoice row changes

  predicate SentOn(c: Call, ch: Channel)
    requires |c.results| == |CHANNELS|
  {
    c.results[if ch == Telegram then 0 else 1] == Sent
  }

  /** The verdict a finished call comes to: SENT if every channel it may reach has the invoice, or, when it
      may reach none, some channel has it; PARTIAL if only some of those it may reach have it. */
  predicate Concludes(c: Call, verdict: InvoiceState)
    requires |c.results| == |CHANNELS|
  {
    var all, some := forall ch | ch in c.eligible :: SentOn(c, ch), exists ch | ch in c.eligible :: SentOn(c, ch);
    if c.eligible == {} then verdict == if SentOn(c, Telegram) || SentOn(c, Max) then SENT else ERROR
    else verdict == if all then SENT else if some then PARTIAL else ERROR
  }

  lemma FinalStateConcludes(c: Call, verdict: InvoiceState)
    requires |c.results| == |CHANNELS|
    ensures verdict == FinalState(c) <==> Concludes(c, verdict)
  {
    assert EligibleWith(c, Sent, 1) == N.One(Telegram in c.eligible && c.results[0] == Sent);
    assert EligibleWith(c, NotSent, 1) == N.One(Telegram in c.eligible && c.results[0] == NotSent);
    assert c.results == [c.results[0], c.results[1]];
    assert forall ch :: ch in c.eligible ==> ch == Telegram || ch == Max;
    assert c.eligible == {} <==> Telegram !in c.eligible && Max !in c.eligible;
  }

  /** The event writes the invoice row. */
  predicate Writes(w: World, e: Event) {
    match e
    case Claim(i, _) =>
      && i !in w.calls && w.state in {QUEUED, SENDING, PARTIAL, ERROR, AVAILABLE}
      && (w.lease.Some? ==> w.lease.value <= w.now)
    case Shelve(i) => i in w.calls && w.calls[i].stage == Between && w.pdfStored
    case Abandon(i) => i in w.calls && (w.calls[i].stage == Between || w.calls[i].stage.Looked?)
    case Break(i) => i in w.calls && w.calls[i].stage != Acking && w.state != SUPERSEDED
    case Finish(i) => i in w.calls && w.calls[i].stage == Between && |w.calls[i].results| == |CHANNELS|
    case Ack(i, ok) => i in w.calls && w.calls[i].stage == Acking && !ok && w.state != SUPERSEDED
    case Sync(reported) =>
      || reported == CANCELLED
      || (w.state != SENT && !(w.state == SENDING && w.lease.Some? && w.lease.value > w.now))
    case Replace => w.state in {WAITING, QUEUED, SENDING, AVAILABLE, PARTIAL, ERROR}
    case _ => false
  }

  /** What such an event writes. */
  predicate Means(w: World, e: Event, target: InvoiceState)
    requires Writes(w, e)
  {
    match e
    case Claim(_, _) => target == SENDING
    case Shelve(_) => target == AVAILABLE
    case Abandon(_) => target == SUPERSEDED
    case Break(_) => target == ERROR
    case Finish(i) => Concludes(w.calls[i], target)
    case Ack(_, _) => target == ERROR
    case Sync(reported) => target == reported
    case Replace => target == SUPERSEDED
  }

  lemma StatementsLeaveInvoice(w: World, e: Event)
    requires Working(e)
    ensures var w' := Step(w, e); w'.state == w.state && w'.lease == w.lease && w'.attempts == w.attempts
  {
  }

  /** From any state: the invoice takes the state an event means, and keeps its own if the event writes
      nothing; a claim sets the lease for two minutes and counts an attempt, every other write clears
      the lease, except a plain report. */
  lemma InvoiceIsExact(w: World, e: Event)
    ensures var w' := Step(w, e);
      && (if Writes(w, e) then Means(w, e, w'.state) else w'.state == w.state)
      && w'.attempts == w.attempts + N.One(e.Claim? && Writes(w, e))
      && w'.lease == (if !Writes(w, e) || (e.Sync? && e.reported != CANCELLED) then w.lease
                      else if e.Claim? then Some(w.now + 120_000) else None)
  {
    if Working(e) {
      StatementsLeaveInvoice(w, e);
    } else if e.Finish? && Writes(w, e) {
      FinalStateConcludes(w.calls[e.id], FinalState(w.calls[e.id]));
    }
  }

  // ---------------------------------------------------------------- counting messages

  function Count(outbox: seq<Message>, m: Message): nat {
    if outbox == [] then 0
    else Count(outbox[..|outbox| - 1], m) + if outbox[|outbox| - 1] == m then 1 else 0
  }

  lemma CountOut(outbox: seq<Message>, ch: Channel, sends: seq<Kind>, m: Message)
    ensures Count(outbox + Out(ch, sends), m) == Count(outbox, m) + N.One(sends != [] && Message(ch, sends[0]) == m)
  {
    if sends != [] {
      assert (outbox + [Message(ch, sends[0])])[..|outbox|] == outbox;
    } else {
      assert outbox + [] == outbox;
    }
  }

  // ---------------------------------------------------------------- notes follow documents, always

  /** Every note was preceded by its document. */
  predicate NotesFollow(outbox: seq<Message>) {
    forall i :: 0 <= i < |outbox| && outbox[i].kind == Note ==> Message(outbox[i].channel, Pdf) in outbox[..i]
  }

  predicate RowGrounded(w: World, ch: Channel) {
    && (Row(w, ch).sentAt.Some? ==> Message(ch, Pdf) in w.outbox)
    && (Row(w, ch).state == Delivered ==> Row(w, ch).sentAt.Some?)
  }

  predicate CallGrounded(w: World, c: Call) {
    Open(c) ==>
      && (c.stage == PdfAccepted ==> Message(Current(c), Pdf) in w.outbox)
      && (c.stage == NoteAccepted ==> Message(Current(c), Note) in w.outbox)
      && (c.stage in {PdfSaved, NoteAccepted} ==> Row(w, Current(c)).sentAt.Some?)
      && (c.stage.Looked? || c.stage.Marked? ==> c.stage.existing.sentAt.Some? ==> Row(w, Current(c)).sentAt.Some?)
  }

  /** Whoever is past a document, row or call, can point to it in the outbox. */
  predicate Grounded(w: World) {
    && (forall ch {:trigger RowGrounded(w, ch)} :: RowGrounded(w, ch))
    && (forall i :: i in w.calls ==> CallGrounded(w, w.calls[i]))
    && NotesFollow(w.outbox)
  }

  lemma NotesFollowGrows(outbox: seq<Message>, m: Message)
    requires NotesFollow(outbox) && (m.kind == Note ==> Message(m.channel, Pdf) in outbox)
    ensures NotesFollow(outbox + [m])
  {
    var longer := outbox + [m];
    forall i | 0 <= i < |longer| && longer[i].kind == Note ensures Message(longer[i].channel, Pdf) in longer[..i] {
      if i < |outbox| { assert longer[..i] == outbox[..i]; } else { assert longer[..i] == outbox; }
    }
  }

  /** What a statement may do to a grounded call c with row d. */
  predicate Grounding(c: Call, d: Delivery, x: Effect) {
    && (d.sentAt.Some? ==> x.row.sentAt.Some?) && (x.row.state == Delivered ==> x.row.sentAt.Some?)
    && (x.row.sentAt.Some? && d.sentAt.None? ==> c.stage == PdfAccepted)
    && (x.sends != [] && x.sends[0] == Note ==> d.sentAt.Some?)
    && (x.call.stage == Between
        || (&& x.call.results == c.results
            && (x.call.stage == PdfAccepted ==> c.stage == PdfAccepted || (x.sends != [] && x.sends[0] == Pdf))
            && (x.call.stage == NoteAccepted ==> c.stage == NoteAccepted || (x.sends != [] && x.sends[0] == Note))
            && (x.call.stage in {PdfSaved, NoteAccepted} ==> x.row.sentAt.Some?)
            && (x.call.stage.Looked? || x.call.stage.Marked? ==>
                  x.call.stage.existing.sentAt.Some? ==> x.row.sentAt.Some?)))
  }

  lemma ActGrounds(c: Call, d: Delivery, stored: bool, now: int, e: Event)
    requires Working(e) && Open(c) && (d.state == Delivered ==> d.sentAt.Some?)
    requires c.stage in {PdfSaved, NoteAccepted} ==> d.sentAt.Some?
    requires c.stage.Looked? || c.stage.Marked? ==> c.stage.existing.sentAt.Some? ==> d.sentAt.Some?
    ensures Grounding(c, d, Act(c, d, stored, now, e))
  {
  }

  lemma GroundingKeeps(w: World, w': World, i: nat, x: Effect)
    requires Grounded(w) && i in w.calls && Open(w.calls[i])
    requires Affects(w, w', i, x) && Grounding(w.calls[i], Row(w, Current(w.calls[i])), x)
    ensures Grounded(w')
  {
    var c := w.calls[i];
    var y := Current(c);
    assert CallGrounded(w, c) && RowGrounded(w, y);
    if x.sends != [] { NotesFollowGrows(w.outbox, Message(y, x.sends[0])); } else { assert w'.outbox == w.outbox; }
    assert forall m :: m in w.outbox ==> m in w'.outbox;
    forall ch {:trigger RowGrounded(w', ch)} ensures RowGrounded(w', ch) { assert RowGrounded(w, ch); }
    forall j | j in w'.calls ensures CallGrounded(w', w'.calls[j]) {
      if j != i { assert CallGrounded(w, w.calls[j]); }
    }
  }

  lemma WorkStaysGrounded(w: World, w': World, e: Event)
    requires Grounded(w) && Works(w, w', e)
    ensures Grounded(w')
  {
    var c := w.calls[e.id];
    assert CallGrounded(w, c) && RowGrounded(w, Current(c));
    ActGrounds(c, Row(w, Current(c)), w.pdfStored, w.now, e);
    GroundingKeeps(w, w', e.id, EffectOf(w, e));
  }

  /** With rows and outbox untouched, calls may come, go and stop working. */
  lemma OtherStaysGrounded(w: World, w': World)
    requires Grounded(w) && w'.deliveries == w.deliveries && w'.outbox == w.outbox
    requires forall i :: i in w'.calls ==>
      w'.calls[i].stage in {Between, Acking} || (i in w.calls && w'.calls[i] == w.calls[i])
    ensures Grounded(w')
  {
    forall ch {:trigger RowGrounded(w', ch)} ensures RowGrounded(w', ch) { assert RowGrounded(w, ch); }
    forall i | i in w'.calls ensures CallGrounded(w', w'.calls[i]) {
      if i in w.calls { assert CallGrounded(w, w.calls[i]); }
    }
  }

  lemma StepStaysGrounded(w: World, e: Event)
    requires Grounded(w)
    ensures Grounded(Step(w, e))
  {
    StepShape(w, e);
    if Works(w, Step(w, e), e) { WorkStaysGrounded(w, Step(w, e), e); } else { OtherStaysGrounded(w, Step(w, e)); }
  }

  lemma {:induction false} RunStaysGrounded(w: World, events: seq<Event>)
    requires Grounded(w)
    ensures Grounded(Run(w, events))
  {
    if events != [] {
      RunStaysGrounded(w, events[..|events| - 1]);
      StepStaysGrounded(Run(w, events[..|events| - 1]), events[|events| - 1]);
    }
  }

  /** In every run whatsoever a note goes out only after its document. */
  lemma NotesAlwaysFollow(now: int, state: InvoiceState, events: seq<Event>)
    ensures NotesFollow(Run(NewInvoice(now, state), events).outbox)
  {
    RunStaysGrounded(NewInvoice(now, state), events);
  }

  // ---------------------------------------------------------------- who may still send

  /** The message counts as sent in the channel's row. */
  predicate Done(d: Delivery, k: Kind) {
    if k == Pdf then d.sentAt.Some? else d.state == Delivered
  }

  predicate At(c: Call, ch: Channel) {
    Open(c) && Current(c) == ch
  }

  /** The call works and has not yet looked at the channel. */
  predicate Ahead(c: Call, ch: Channel) {
    Open(c) && c.stage != Acking && if Current(c) == ch then c.stage == Between else ch == Max
  }

  /** The call has looked and will send the message, or has sent it and not recorded it. */
  predicate Committed(c: Call, ch: Channel, k: Kind) {
    At(c, ch) &&
    match c.stage
    case Looked(d) => k == Note || d.sentAt.None?
    case Marked(d) => k == Note || d.sentAt.None?
    case PdfAccepted => true
    case PdfSaved => k == Note
    case NoteAccepted => k == Note
    case _ => false
  }

  /** The message is accepted and not recorded. */
  predicate Unrecorded(c: Call, ch: Channel, k: Kind) {
    At(c, ch) && c.stage == if k == Pdf then PdfAccepted else NoteAccepted
  }

  /** The call may still have the message sent, or its sending recorded. */
  predicate Risk(c: Call, d: Delivery, ch: Channel, k: Kind) {
    Committed(c, ch, k) || (Ahead(c, ch) && ch in c.eligible && !Done(d, k))
  }

  predicate AtRisk(w: World, c: Call, ch: Channel, k: Kind) {
    Risk(c, Row(w, ch), ch, k)
  }

  /** Only `id` may still send, and the count of accepted messages is what row and call say. */
  predicate RiskInv(w: World, ch: Channel, k: Kind, id: nat) {
    && (forall i :: i in w.calls && AtRisk(w, w.calls[i], ch, k) ==> i == id)
    && Count(w.outbox, Message(ch, k))
       == N.One(Done(Row(w, ch), k) || (id in w.calls && Unrecorded(w.calls[id], ch, k)))
    && (id in w.calls && Committed(w.calls[id], ch, k) ==> !Done(Row(w, ch), k))
  }

  /** A call loses what it has not recorded: its process stops, it throws, or the write fails. */
  predicate Loses(e: Event) {
    e.Die? || e.Break? || e.LoseRecord?
  }

  /** No claim that may send the message succeeds while another call may still send it, and no call
      is cut off between the acceptance of the message and its record. */
  predicate FairOn(w: World, e: Event, ch: Channel, k: Kind) {
    && (e.Claim? && DoClaim(w, e.id, e.eligible) != w && ch in e.eligible && !Done(Row(w, ch), k) ==>
          forall i :: i in w.calls ==> !AtRisk(w, w.calls[i], ch, k))
    && (Loses(e) && e.id in w.calls ==> !Unrecorded(w.calls[e.id], ch, k))
  }

  predicate FairOnRun(w: World, events: seq<Event>, ch: Channel, k: Kind) {
    events == [] ||
    (FairOnRun(w, events[..|events| - 1], ch, k) && FairOn(Run(w, events[..|events| - 1]), events[|events| - 1], ch, k))
  }

  /** An effect x of a call c, seen from a message of channel ch whose row is d.  On another channel it
      changes nothing for this one.  On this one, a call that may send moves the count together with
      row and call, and a call that may not neither sends nor records. */
  predicate Tame(c: Call, d: Delivery, x: Effect, ch: Channel, k: Kind)
    requires Open(c)
  {
    if Current(c) != ch then
      && x.call.eligible == c.eligible && Ahead(x.call, ch) == Ahead(c, ch)
      && !Committed(c, ch, k) && !Committed(x.call, ch, k)
    else if Risk(c, d, ch, k) then
      && N.One(Unrecorded(c, ch, k)) + N.One(x.sends != [] && x.sends[0] == k)
         == N.One(Done(x.row, k) || Unrecorded(x.call, ch, k))
      && (Committed(x.call, ch, k) ==> !Done(x.row, k))
    else !Risk(x.call, x.row, ch, k) && Done(x.row, k) == Done(d, k) && (x.sends == [] || x.sends[0] != k)
  }

  lemma ElsewhereIsTame(c: Call, own: Delivery, stored: bool, now: int, e: Event, d: Delivery, ch: Channel, k: Kind)
    requires Working(e) && Open(c) && Current(c) != ch
    ensures Tame(c, d, Act(c, own, stored, now, e), ch, k)
  {
  }

  lemma RiskyIsTame(c: Call, d: Delivery, stored: bool, now: int, e: Event, k: Kind)
    requires Working(e) && Open(c) && Risk(c, d, Current(c), k) && (Committed(c, Current(c), k) ==> !Done(d, k))
    requires e.LoseRecord? ==> !Unrecorded(c, Current(c), k)
    ensures Tame(c, d, Act(c, d, stored, now, e), Current(c), k)
  {
  }

  lemma HarmlessIsTame(c: Call, d: Delivery, stored: bool, now: int, e: Event, k: Kind)
    requires Working(e) && Open(c) && !Risk(c, d, Current(c), k)
    requires c.stage in {PdfSaved, NoteAccepted} ==> d.sentAt.Some?
    requires c.stage.Looked? || c.stage.Marked? ==> c.stage.existing.sentAt.Some? ==> d.sentAt.Some?
    requires d.state == Delivered ==> d.sentAt.Some?
    ensures Tame(c, d, Act(c, d, stored, now, e), Current(c), k)
  {
  }

  lemma StatementsAreTame(w: World, e: Event, ch: Channel, k: Kind)
    requires Grounded(w) && Working(e) && e.id in w.calls && Open(w.calls[e.id])
    requires (Committed(w.calls[e.id], ch, k) ==> !Done(Row(w, ch), k)) && FairOn(w, e, ch, k)
    ensures Tame(w.calls[e.id], Row(w, ch), EffectOf(w, e), ch, k)
  {
    var c := w.calls[e.id];
    var own := Row(w, Current(c));
    assert CallGrounded(w, c) && RowGrounded(w, Current(c));
    if Current(c) != ch {
      ElsewhereIsTame(c, own, w.pdfStored, w.now, e, Row(w, ch), ch, k);
    } else if Risk(c, own, ch, k) {
      RiskyIsTame(c, own, w.pdfStored, w.now, e, k);
    } else {
      HarmlessIsTame(c, own, w.pdfStored, w.now, e, k);
    }
  }

  /** The same, with the channel's row and the call before and after spelled out. */
  lemma TameKeepsSole(w: World, w': World, i: nat, x: Effect, ch: Channel, k: Kind, id: nat)
    requires RiskInv(w, ch, k, id) && i in w.calls && Open(w.calls[i])
    requires w'.calls == w.calls[i := x.call] && Tame(w.calls[i], Row(w, ch), x, ch, k)
    requires Row(w', ch) == if Current(w.calls[i]) == ch then x.row else Row(w, ch)
    ensures forall j :: j in w'.calls && AtRisk(w', w'.calls[j], ch, k) ==> j == id
  {
    assert AtRisk(w, w.calls[i], ch, k) ==> i == id;
    forall j | j in w'.calls && AtRisk(w', w'.calls[j], ch, k) ensures j == id {
      assert Done(Row(w, ch), k) ==> Done(Row(w', ch), k);
      if j != i { assert AtRisk(w, w.calls[j], ch, k); }
    }
  }

  lemma TameKeepsCount(w: World, w': World, i: nat, x: Effect, ch: Channel, k: Kind, id: nat)
    requires RiskInv(w, ch, k, id) && i in w.calls && Open(w.calls[i])
    requires w'.calls == w.calls[i := x.call] && Tame(w.calls[i], Row(w, ch), x, ch, k)
    requires Row(w', ch) == if Current(w.calls[i]) == ch then x.row else Row(w, ch)
    ensures N.One(Done(Row(w', ch), k) || (id in w'.calls && Unrecorded(w'.calls[id], ch, k)))
         == N.One(Done(Row(w, ch), k) || (id in w.calls && Unrecorded(w.calls[id], ch, k)))
            + N.One(x.sends != [] && Message(Current(w.calls[i]), x.sends[0]) == Message(ch, k))
    ensures id in w'.calls && Committed(w'.calls[id], ch, k) ==> !Done(Row(w', ch), k)
  {
    assert AtRisk(w, w.calls[i], ch, k) ==> i == id;
  }

  lemma TameKeepsRisk(w: World, w': World, i: nat, x: Effect, ch: Channel, k: Kind, id: nat)
    requires RiskInv(w, ch, k, id) && i in w.calls && Open(w.calls[i])
    requires Affects(w, w', i, x) && Tame(w.calls[i], Row(w, ch), x, ch, k)
    ensures RiskInv(w', ch, k, id)
  {
    TameKeepsSole(w, w', i, x, ch, k, id);
    TameKeepsCount(w, w', i, x, ch, k, id);
    CountOut(w.outbox, Current(w.calls[i]), x.sends, Message(ch, k));
  }

  lemma WorkKeepsRisk(w: World, w': World, e: Event, ch: Channel, k: Kind, id: nat)
    requires Grounded(w) && RiskInv(w, ch, k, id) && Works(w, w', e) && FairOn(w, e, ch, k)
    ensures RiskInv(w', ch, k, id)
  {
    assert Committed(w.calls[e.id], ch, k) ==> AtRisk(w, w.calls[e.id], ch, k);
    StatementsAreTame(w, e, ch, k);
    TameKeepsRisk(w, w', e.id, EffectOf(w, e), ch, k, id);
  }

  lemma JoinKeepsRisk(w: World, w': World, e: Event, ch: Channel, k: Kind, id: nat)
    requires RiskInv(w, ch, k, id) && Joins(w, w', e)
    requires ch in e.eligible && !Done(Row(w, ch), k) ==> forall i :: i in w.calls ==> !AtRisk(w, w.calls[i], ch, k)
    ensures RiskInv(w', ch, k, if ch in e.eligible && !Done(Row(w, ch), k) then e.id else id)
  {
    forall i | i in w'.calls && i != e.id && AtRisk(w', w'.calls[i], ch, k) ensures i == id {
      assert AtRisk(w, w.calls[i], ch, k);
    }
  }

  lemma LeaveKeepsRisk(w: World, w': World, e: Event, ch: Channel, k: Kind, id: nat)
    requires RiskInv(w, ch, k, id) && Leaves(w, w', e) && FairOn(w, e, ch, k)
    ensures RiskInv(w', ch, k, id)
  {
    forall i | i in w'.calls && AtRisk(w', w'.calls[i], ch, k) ensures i == id {
      if i != e.id { assert AtRisk(w, w.calls[i], ch, k); }
    }
  }

  lemma StepKeepsRisk(w: World, e: Event, ch: Channel, k: Kind, id: nat) returns (id': nat)
    requires Grounded(w) && RiskInv(w, ch, k, id) && FairOn(w, e, ch, k)
    ensures RiskInv(Step(w, e), ch, k, id')
  {
    var w' := Step(w, e);
    id' := id;
    StepShape(w, e);
    if Joins(w, w', e) {
      JoinKeepsRisk(w, w', e, ch, k, id);
      id' := if ch in e.eligible && !Done(Row(w, ch), k) then e.id else id;
    } else if Leaves(w, w', e) {
      LeaveKeepsRisk(w, w', e, ch, k, id);
    } else if Works(w, w', e) {
      WorkKeepsRisk(w, w', e, ch, k, id);
    } else {
      forall i | i in w'.calls && AtRisk(w', w'.calls[i], ch, k) ensures i == id {
        assert AtRisk(w, w.calls[i], ch, k);
      }
    }
  }

  lemma {:induction false} RunKeepsRisk(w: World, events: seq<Event>, ch: Channel, k: Kind, id: nat) returns (id': nat)
    requires Grounded(w) && RiskInv(w, ch, k, id) && FairOnRun(w, events, ch, k)
    ensures RiskInv(Run(w, events), ch, k, id')
  {
    id' := id;
    if events != [] {
      var earlier := events[..|events| - 1];
      var i := RunKeepsRisk(w, earlier, ch, k, id);
      RunStaysGrounded(w, earlier);
      id' := StepKeepsRisk(Run(w, earlier), events[|events| - 1], ch, k, i);
    }
  }

  lemma NewInvoiceIsSafe(now: int, state: InvoiceState, ch: Channel, k: Kind)
    ensures Grounded(NewInvoice(now, state)) && RiskInv(NewInvoice(now, state), ch, k, 0)
  {
  }

  /** However calls overlap elsewhere: while no claim overlaps a call that may still send this message
      on this channel, and its acceptance is recorded, the channel gets it at most once. */
  lemma SentAtMostOnce(now: int, state: InvoiceState, events: seq<Event>, ch: Channel, k: Kind)
    requires FairOnRun(NewInvoice(now, state), events, ch, k)
    ensures Count(Run(NewInvoice(now, state), events).outbox, Message(ch, k)) <= 1
  {
    NewInvoiceIsSafe(now, state, ch, k);
    var id := RunKeepsRisk(NewInvoice(now, state), events, ch, k, 0);
  }

  // ---------------------------------------------------------------- otherwise a second one can go out

  /** A call's statements on one channel, every send accepted. */
  function Statement(i: nat, r: nat): (e: Event)
    ensures Working(e) && e.id == i
  {
    if r == 0 then Look(i)
    else if r == 1 then Mark(i)
    else if r == 2 then SendPdf(i, true, 0)
    else if r == 3 then SavePdf(i)
    else if r == 4 then SendNote(i, true, 0)
    else SaveNote(i)
  }

  /** Statements r up to n. */
  function Statements(i: nat, r: nat, n: nat): seq<Event>
    requires r <= n
  {
    if r == n then [] else Statements(i, r, n - 1) + [Statement(i, n - 1)]
  }

  function Rank(stage: Stage): nat {
    match stage
    case Between => 0
    case Looked(_) => 1
    case Marked(_) => 2
    case PdfAccepted => 3
    case PdfSaved => 4
    case NoteAccepted => 5
    case Acking => 0
  }

  lemma {:induction false} RunCat(w: World, a: seq<Event>, b: seq<Event>)
    ensures Run(w, a + b) == Run(Run(w, a), b)
  {
    if b == [] {
      assert a + b == a;
    } else {
      assert (a + b)[..|a + b| - 1] == a + b[..|b| - 1];
      RunCat(w, a, b[..|b| - 1]);
    }
  }

  lemma {:induction false} CountGrows(a: seq<Message>, b: seq<Message>, m: Message)
    requires a <= b
    ensures Count(a, m) <= Count(b, m)
  {
    if a != b { CountGrows(a, b[..|b| - 1], m); }
  }

  lemma {:induction false} CountFinds(outbox: seq<Message>, m: Message)
    requires m in outbox
    ensures Count(outbox, m) > 0
  {
    var n := |outbox| - 1;
    if outbox[n] != m {
      assert m in outbox[..n];
      CountFinds(outbox[..n], m);
    }
  }

  /** Only call i and rows other than ch's have changed, and messages have been added. */
  predicate Spares(w: World, w': World, i: nat, ch: Channel) {
    && i in w.calls && i in w'.calls && w'.calls == w.calls[i := w'.calls[i]]
    && w'.calls[i].eligible == w.calls[i].eligible
    && Row(w', ch) == Row(w, ch) && w'.now == w.now && w'.pdfStored == w.pdfStored
    && w.outbox <= w'.outbox
  }

  /** On its way through Telegram. */
  predicate Passing(c: Call, r: nat) {
    Open(c) && c.stage != Acking && if Current(c) == Telegram then Rank(c.stage) >= r else r > 0 && c.stage == Between
  }

  lemma PassesOn(c: Call, d: Delivery, now: int, i: nat, r: nat)
    requires Passing(c, r) && r < 6
    ensures var x := Act(c, d, true, now, Statement(i, r));
      Passing(x.call, r + 1) && x.call.eligible == c.eligible && (Current(c) == Max ==> x == Effect(c, d, []))
  {
  }

  lemma PassStep(w0: World, w: World, i: nat, r: nat)
    requires Spares(w0, w, i, Max) && w.pdfStored && Passing(w.calls[i], r) && r < 6
    ensures var w' := Step(w, Statement(i, r)); Spares(w0, w', i, Max) && Passing(w'.calls[i], r + 1)
  {
    StatementActs(w, Statement(i, r));
    PassesOn(w.calls[i], Row(w, Current(w.calls[i])), w.now, i, r);
  }

  lemma {:induction false} Passes(w: World, i: nat, r: nat)
    requires i in w.calls && w.pdfStored && Passing(w.calls[i], 0) && r <= 6
    ensures var w' := Run(w, Statements(i, 0, r)); Spares(w, w', i, Max) && Passing(w'.calls[i], r)
  {
    if r == 0 {
      assert w.calls == w.calls[i := w.calls[i]];
    } else {
      Passes(w, i, r - 1);
      RunOneMore(w, Statements(i, 0, r - 1), Statement(i, r - 1));
      PassStep(w, Run(w, Statements(i, 0, r - 1)), i, r - 1);
    }
  }

  /** A committed call whose message is not yet accepted gets closer to it with every statement. */
  predicate Owes(c: Call, ch: Channel, k: Kind, r: nat) {
    Committed(c, ch, k) && !Unrecorded(c, ch, k) && Rank(c.stage) >= r
  }

  lemma PaysOff(c: Call, d: Delivery, stored: bool, now: int, i: nat, k: Kind, r: nat)
    requires 1 <= r < 5 && Open(c)
    ensures var x := Act(c, d, stored, now, Statement(i, r));
      && x.call.results == c.results
      && (Owes(c, Current(c), k, r) ==> (x.sends != [] && x.sends[0] == k) || Owes(x.call, Current(c), k, r + 1))
  {
  }

  /** The call's message has been added since w0, or is still owed. */
  predicate Paying(w0: World, w: World, i: nat, ch: Channel, k: Kind, r: nat) {
    && i in w.calls && At(w.calls[i], ch) && w.calls == w0.calls[i := w.calls[i]] && w0.outbox <= w.outbox
    && (Count(w.outbox, Message(ch, k)) > Count(w0.outbox, Message(ch, k)) || Owes(w.calls[i], ch, k, r))
  }

  lemma PayingStep(w0: World, w: World, i: nat, ch: Channel, k: Kind, r: nat)
    requires 1 <= r < 5 && Paying(w0, w, i, ch, k, r)
    ensures Paying(w0, Step(w, Statement(i, r)), i, ch, k, r + 1)
  {
    var e := Statement(i, r);
    StatementActs(w, e);
    CountOut(w.outbox, ch, EffectOf(w, e).sends, Message(ch, k));
    CountGrows(w0.outbox, w.outbox, Message(ch, k));
    PaysOff(w.calls[i], Row(w, ch), w.pdfStored, w.now, i, k, r);
  }

  lemma {:induction false} PaysUp(w: World, i: nat, ch: Channel, k: Kind, r: nat)
    requires i in w.calls && Owes(w.calls[i], ch, k, 1) && 1 <= r <= 5
    ensures Paying(w, Run(w, Statements(i, 1, r)), i, ch, k, r)
  {
    if r == 1 {
      assert w.calls == w.calls[i := w.calls[i]];
    } else {
      PaysUp(w, i, ch, k, r - 1);
      RunOneMore(w, Statements(i, 1, r - 1), Statement(i, r - 1));
      PayingStep(w, Run(w, Statements(i, 1, r - 1)), i, ch, k, r - 1);
    }
  }

  lemma RunOneMore(w: World, events: seq<Event>, e: Event)
    ensures Run(w, events + [e]) == Step(Run(w, events), e)
  {
    assert (events + [e])[..|events|] == events;
  }

  /** Through to the acceptance of both messages. */
  function Rest(i: nat): seq<Event> {
    Statements(i, 1, 5)
  }

  /** A committed call adds its message unless that is in the outbox already. */
  lemma RestSends(w: World, i: nat, ch: Channel, k: Kind)
    requires i in w.calls && Committed(w.calls[i], ch, k)
    ensures var (w', m) := (Run(w, Rest(i)), Message(ch, k));
      && i in w'.calls && w'.calls == w.calls[i := w'.calls[i]] && w.outbox <= w'.outbox
      && Count(w'.outbox, m) >= Count(w.outbox, m) + N.One(!Unrecorded(w.calls[i], ch, k))
  {
    if Unrecorded(w.calls[i], ch, k) {
      Idles(w, i, ch, 5);
      CountGrows(w.outbox, Run(w, Rest(i)).outbox, Message(ch, k));
    } else {
      PaysUp(w, i, ch, k, 5);
    }
  }

  predicate Idling(w0: World, w: World, i: nat, ch: Channel) {
    i in w.calls && At(w.calls[i], ch) && w.calls == w0.calls[i := w.calls[i]] && w0.outbox <= w.outbox
  }

  lemma IdleStep(w0: World, w: World, i: nat, ch: Channel, r: nat)
    requires 1 <= r < 5 && Idling(w0, w, i, ch)
    ensures Idling(w0, Step(w, Statement(i, r)), i, ch)
  {
    StatementActs(w, Statement(i, r));
    PaysOff(w.calls[i], Row(w, ch), w.pdfStored, w.now, i, Pdf, r);
  }

  /** Whatever its stage, these statements keep the call on its channel and only add messages. */
  lemma {:induction false} Idles(w: World, i: nat, ch: Channel, r: nat)
    requires i in w.calls && At(w.calls[i], ch) && 1 <= r <= 5
    ensures Idling(w, Run(w, Statements(i, 1, r)), i, ch)
  {
    if r == 1 {
      assert w.calls == w.calls[i := w.calls[i]];
    } else {
      Idles(w, i, ch, r - 1);
      RunOneMore(w, Statements(i, 1, r - 1), Statement(i, r - 1));
      IdleStep(w, Run(w, Statements(i, 1, r - 1)), i, ch, r - 1);
    }
  }

  /** Bringing a call to the channel it may still send on. */
  function Approach(c: Call, i: nat, ch: Channel): seq<Event> {
    if Open(c) && Current(c) != ch then Statements(i, 0, 6) else []
  }

  /** At the channel and about to look, or committed already. */
  predicate Ready(c: Call, ch: Channel, k: Kind) {
    Committed(c, ch, k) || (At(c, ch) && c.stage == Between && ch in c.eligible)
  }

  lemma Approaches(w: World, i: nat, ch: Channel, k: Kind)
    requires i in w.calls && w.pdfStored && AtRisk(w, w.calls[i], ch, k)
    ensures var w' := Run(w, Approach(w.calls[i], i, ch));
      && Spares(w, w', i, ch) && Ready(w'.calls[i], ch, k)
      && Unrecorded(w'.calls[i], ch, k) == Unrecorded(w.calls[i], ch, k)
  {
    if Current(w.calls[i]) != ch { Passes(w, i, 6); }
  }

  /** The row lets a call that looks at it go on to send. */
  predicate Inviting(d: Delivery, now: int, k: Kind) {
    !Done(d, k) && d.state != Delivered && (d.nextAttempt.Some? ==> d.nextAttempt.value <= now)
  }

  lemma LookCommits(w: World, i: nat, ch: Channel, k: Kind)
    requires i in w.calls && Ready(w.calls[i], ch, k) && w.pdfStored && Inviting(Row(w, ch), w.now, k)
    ensures var w' := Step(w, Look(i));
      && Spares(w, w', i, ch) && Committed(w'.calls[i], ch, k) && w'.outbox == w.outbox
      && Unrecorded(w'.calls[i], ch, k) == Unrecorded(w.calls[i], ch, k)
  {
    StatementActs(w, Look(i));
  }

  function DueAt(w: World, ch: Channel): int {
    N.Max(w.now, Row(w, ch).nextAttempt.GetOr(w.now))
  }

  /** From claim to acceptance for a call that nothing delays. */
  function Deliver(w: World, j: nat, ch: Channel): seq<Event>
    requires j in w.calls
  {
    [StorePdf(j), Tick(DueAt(w, ch))] + Approach(w.calls[j], j, ch) + [Look(j)] + Rest(j)
  }

  lemma Opens(w: World, j: nat, ch: Channel)
    requires j in w.calls
    ensures Run(w, [StorePdf(j), Tick(DueAt(w, ch))]) == w.(pdfStored := true, now := DueAt(w, ch))
  {
    var a, b := StorePdf(j), Tick(DueAt(w, ch));
    assert [a, b] == [] + [a] + [b];
    RunOneMore(w, [] + [a], b);
    RunOneMore(w, [], a);
  }

  lemma RunOne(w: World, e: Event)
    ensures Run(w, [e]) == Step(w, e)
  {
    assert [] + [e] == [e];
    RunOneMore(w, [], e);
  }

  /** A lone call adds its message. */
  lemma Delivers(w: World, j: nat, ch: Channel, k: Kind)
    requires Grounded(w) && j in w.calls && Ahead(w.calls[j], ch) && AtRisk(w, w.calls[j], ch, k)
    ensures var (w', m) := (Run(w, Deliver(w, j, ch)), Message(ch, k)); Count(w'.outbox, m) > Count(w.outbox, m)
  {
    assert RowGrounded(w, ch);
    var opening, up := [StorePdf(j), Tick(DueAt(w, ch))], Approach(w.calls[j], j, ch);
    Opens(w, j, ch);
    var w1 := Run(w, opening);
    Approaches(w1, j, ch, k);
    var w2 := Run(w1, up);
    LookCommits(w2, j, ch, k);
    var w3 := Step(w2, Look(j));
    RestSends(w3, j, ch, k);
    CountGrows(w.outbox, w3.outbox, Message(ch, k));
    RunCat(w, opening, up);
    RunOneMore(w, opening + up, Look(j));
    RunCat(w, opening + up + [Look(j)], Rest(j));
  }

  /** Two calls that may both send: they both look before either goes on. */
  function Overlap(w: World, i: nat, j: nat, ch: Channel): seq<Event>
    requires i in w.calls && j in w.calls
  {
    [StorePdf(j), Tick(DueAt(w, ch))] + (Approach(w.calls[i], i, ch) + Approach(w.calls[j], j, ch))
      + ([Look(i), Look(j)] + (Rest(i) + Rest(j)))
  }

  lemma BothReady(w: World, i: nat, j: nat, ch: Channel, k: Kind)
    requires i != j && i in w.calls && j in w.calls && w.pdfStored
    requires AtRisk(w, w.calls[i], ch, k) && AtRisk(w, w.calls[j], ch, k)
    ensures var w' := Run(w, Approach(w.calls[i], i, ch) + Approach(w.calls[j], j, ch));
      && i in w'.calls && j in w'.calls && Ready(w'.calls[i], ch, k) && Ready(w'.calls[j], ch, k)
      && Unrecorded(w'.calls[i], ch, k) == Unrecorded(w.calls[i], ch, k)
      && Unrecorded(w'.calls[j], ch, k) == Unrecorded(w.calls[j], ch, k)
      && Row(w', ch) == Row(w, ch) && w'.now == w.now && w'.pdfStored && w.outbox <= w'.outbox
  {
    var a, b := Approach(w.calls[i], i, ch), Approach(w.calls[j], j, ch);
    Approaches(w, i, ch, k);
    Approaches(Run(w, a), j, ch, k);
    RunCat(w, a, b);
  }

  lemma BothSend(w: World, i: nat, j: nat, ch: Channel, k: Kind)
    requires i != j && i in w.calls && j in w.calls && w.pdfStored && Inviting(Row(w, ch), w.now, k)
    requires Ready(w.calls[i], ch, k) && Ready(w.calls[j], ch, k)
    ensures var (w', m) := (Run(w, [Look(i), Look(j)] + (Rest(i) + Rest(j))), Message(ch, k));
      Count(w'.outbox, m)
      >= Count(w.outbox, m) + N.One(!Unrecorded(w.calls[i], ch, k)) + N.One(!Unrecorded(w.calls[j], ch, k))
  {
    LookCommits(w, i, ch, k);
    var w1 := Step(w, Look(i));
    LookCommits(w1, j, ch, k);
    var w2 := Step(w1, Look(j));
    RestSends(w2, i, ch, k);
    RestSends(Run(w2, Rest(i)), j, ch, k);
    RunCat(w2, Rest(i), Rest(j));
    RunOne(w, Look(i));
    RunOneMore(w, [Look(i)], Look(j));
    assert [Look(i)] + [Look(j)] == [Look(i), Look(j)];
    RunCat(w, [Look(i), Look(j)], Rest(i) + Rest(j));
  }

  /** If two calls may still send the message, and one of them has not looked yet, it goes out twice. */
  lemma OverlapSendsTwice(w: World, i: nat, j: nat, ch: Channel, k: Kind)
    requires Grounded(w) && i != j && i in w.calls && j in w.calls
    requires AtRisk(w, w.calls[i], ch, k) && AtRisk(w, w.calls[j], ch, k) && Ahead(w.calls[j], ch)
    ensures Count(Run(w, Overlap(w, i, j, ch)).outbox, Message(ch, k)) > 1
  {
    assert RowGrounded(w, ch) && CallGrounded(w, w.calls[i]);
    var m := Message(ch, k);
    var opening, up := [StorePdf(j), Tick(DueAt(w, ch))], Approach(w.calls[i], i, ch) + Approach(w.calls[j], j, ch);
    var tail := [Look(i), Look(j)] + (Rest(i) + Rest(j));
    Opens(w, j, ch);
    var w1 := Run(w, opening);
    BothReady(w1, i, j, ch, k);
    var w2 := Run(w1, up);
    BothSend(w2, i, j, ch, k);
    if Unrecorded(w.calls[i], ch, k) { CountFinds(w.outbox, m); }
    CountGrows(w.outbox, w2.outbox, m);
    RunCat(w, opening, up);
    RunCat(w, opening + up, tail);
    assert Overlap(w, i, j, ch) == opening + up + tail;
  }

  // ---------------------------------------------------------------- so the condition is exact

  ghost predicate NoneAtRisk(w: World, ch: Channel, k: Kind) {
    forall i :: i in w.calls ==> !AtRisk(w, w.calls[i], ch, k)
  }

  /** The guard of the conditional update that claims the invoice. */
  predicate Claimable(w: World) {
    Processable(w.state) && (w.lease.None? || w.lease.value <= w.now)
  }

  /** What fairness means for a new call that may send: it cannot claim now, or no other call may. */
  lemma ClaimIsFairIff(w: World, e: Event, ch: Channel, k: Kind)
    requires e.Claim? && e.id !in w.calls && ch in e.eligible && !Done(Row(w, ch), k)
    ensures FairOn(w, e, ch, k) <==> !Claimable(w) || NoneAtRisk(w, ch, k)
  {
    if Claimable(w) { assert e.id in DoClaim(w, e.id, e.eligible).calls; }
  }

  predicate Calm(e: Event) {
    !e.Claim? && !Loses(e)
  }

  lemma {:induction false} CalmIsFair(w: World, events: seq<Event>, ch: Channel, k: Kind)
    requires forall e :: e in events ==> Calm(e)
    ensures FairOnRun(w, events, ch, k)
  {
    if events != [] {
      assert events[|events| - 1] in events && forall e :: e in events[..|events| - 1] ==> e in events;
      CalmIsFair(w, events[..|events| - 1], ch, k);
    }
  }

  lemma {:induction false} StatementsAreCalm(i: nat, r: nat, n: nat)
    requires r <= n
    ensures forall e :: e in Statements(i, r, n) ==> Calm(e)
  {
    if r < n { StatementsAreCalm(i, r, n - 1); }
  }

  lemma FairOneMore(w: World, events: seq<Event>, e: Event, ch: Channel, k: Kind)
    ensures FairOnRun(w, events + [e], ch, k) <==> FairOnRun(w, events, ch, k) && FairOn(Run(w, events), e, ch, k)
  {
    assert (events + [e])[..|events|] == events;
  }

  lemma {:induction false} FairCat(w: World, a: seq<Event>, b: seq<Event>, ch: Channel, k: Kind)
    requires FairOnRun(w, a, ch, k) && FairOnRun(Run(w, a), b, ch, k)
    ensures FairOnRun(w, a + b, ch, k)
  {
    if b == [] {
      assert a + b == a;
    } else {
      var n := |b| - 1;
      FairCat(w, a, b[..n], ch, k);
      RunCat(w, a, b[..n]);
      FairOneMore(w, a + b[..n], b[n], ch, k);
      assert a + b[..n] + [b[n]] == a + b;
    }
  }

  lemma {:induction false} Bounded(s: set<nat>) returns (n: nat)
    ensures forall x :: x in s ==> x < n
  {
    n := 0;
    if x :| x in s {
      n := Bounded(s - {x});
      if n <= x { n := x + 1; }
      forall y | y in s ensures y < n {
        assert y != x ==> y in s - {x};
      }
    }
  }

  /** 1C withdraws the token and reports it again; a new call claims the invoice. */
  lemma Reclaimed(w: World, j: nat, ch: Channel)
    requires j !in w.calls
    ensures var w' := Step(Step(Step(w, Sync(CANCELLED)), Sync(QUEUED)), Claim(j, {ch}));
      w'.calls == w.calls[j := Call({ch}, [], Between)] && w'.deliveries == w.deliveries && w'.outbox == w.outbox
  {
  }

  /** When no call may send and the row is not done, the next call sends. */
  lemma NextCallSends(w: World, j: nat, ch: Channel, k: Kind) returns (rest: seq<Event>)
    requires Grounded(w) && NoneAtRisk(w, ch, k) && !Done(Row(w, ch), k) && j !in w.calls
    ensures FairOnRun(w, rest, ch, k) && Count(Run(w, rest).outbox, Message(ch, k)) > Count(w.outbox, Message(ch, k))
  {
    var a, b, c := Sync(CANCELLED), Sync(QUEUED), Claim(j, {ch});
    var opening := [a] + [b] + [c];
    RunOne(w, a);
    RunOneMore(w, [a], b);
    RunOneMore(w, [a] + [b], c);
    var w2 := Run(w, opening);
    Reclaimed(w, j, ch);
    RunStaysGrounded(w, opening);
    assert Row(w2, ch) == Row(w, ch);
    Delivers(w2, j, ch, k);
    OpeningIsFair(w, j, ch, k);
    DeliverIsFair(w2, j, ch, k);
    rest := opening + Deliver(w2, j, ch);
    RunCat(w, opening, Deliver(w2, j, ch));
    FairCat(w, opening, Deliver(w2, j, ch), ch, k);
  }

  /** What the loss leaves behind: the other calls as they were, and a row that does not know. */
  predicate LeavesNothing(w: World, w': World, i: nat, ch: Channel, k: Kind) {
    && w'.outbox == w.outbox && w'.calls.Keys <= w.calls.Keys && !Done(Row(w', ch), k)
    && (forall j :: j in w'.calls && j != i ==> w'.calls[j] == w.calls[j])
    && (i in w'.calls ==> !Ahead(w'.calls[i], ch) && !Committed(w'.calls[i], ch, k))
  }

  lemma LossLeavesNothing(w: World, e: Event, ch: Channel, k: Kind)
    requires Loses(e) && e.id in w.calls && Unrecorded(w.calls[e.id], ch, k) && !Done(Row(w, ch), k)
    ensures LeavesNothing(w, Step(w, e), e.id, ch, k)
  {
    if e.LoseRecord? { StatementActs(w, e); } else { LeaveEvents(w, e); }
  }

  /** Then no call may send the message any more, and its row does not know of it. */
  lemma RecordIsLost(w: World, e: Event, ch: Channel, k: Kind, id: nat)
    requires Grounded(w) && RiskInv(w, ch, k, id) && Loses(e) && e.id in w.calls && Unrecorded(w.calls[e.id], ch, k)
    ensures var w1 := Step(w, e);
      && NoneAtRisk(w1, ch, k) && !Done(Row(w1, ch), k) && w1.outbox == w.outbox
      && w1.calls.Keys <= w.calls.Keys && Message(ch, k) in w.outbox
  {
    var w1 := Step(w, e);
    assert CallGrounded(w, w.calls[e.id]) && AtRisk(w, w.calls[e.id], ch, k);
    LossLeavesNothing(w, e, ch, k);
    forall j | j in w1.calls ensures !AtRisk(w1, w1.calls[j], ch, k) {
      if j != e.id { assert !AtRisk(w, w.calls[j], ch, k); }
    }
  }

  /** A call cut off between an acceptance and its record: the next call sends again. */
  lemma LostRecordSendsTwice(w: World, e: Event, ch: Channel, k: Kind, id: nat) returns (rest: seq<Event>)
    requires Grounded(w) && RiskInv(w, ch, k, id) && Loses(e) && e.id in w.calls && Unrecorded(w.calls[e.id], ch, k)
    ensures var w1 := Step(w, e);
      FairOnRun(w1, rest, ch, k) && Count(Run(w1, rest).outbox, Message(ch, k)) > 1
  {
    RecordIsLost(w, e, ch, k, id);
    CountFinds(w.outbox, Message(ch, k));
    StepStaysGrounded(w, e);
    var n := Bounded(w.calls.Keys);
    assert n !in w.calls;
    rest := NextCallSends(Step(w, e), n, ch, k);
  }

  lemma OpeningIsFair(w: World, j: nat, ch: Channel, k: Kind)
    requires NoneAtRisk(w, ch, k)
    ensures FairOnRun(w, [Sync(CANCELLED)] + [Sync(QUEUED)] + [Claim(j, {ch})], ch, k)
  {
    var a, b := Sync(CANCELLED), Sync(QUEUED);
    CalmIsFair(w, [a] + [b], ch, k);
    RunOne(w, a);
    RunOneMore(w, [a], b);
    var w2 := Run(w, [a] + [b]);
    assert w2.calls == w.calls && w2.deliveries == w.deliveries;
    forall i | i in w2.calls ensures !AtRisk(w2, w2.calls[i], ch, k) { assert !AtRisk(w, w.calls[i], ch, k); }
    assert ([a] + [b] + [Claim(j, {ch})])[..2] == [a] + [b];
  }

  lemma DeliverIsFair(w: World, j: nat, ch: Channel, k: Kind)
    requires j in w.calls
    ensures FairOnRun(w, Deliver(w, j, ch), ch, k)
  {
    StatementsAreCalm(j, 0, 6);
    StatementsAreCalm(j, 1, 5);
    CalmIsFair(w, Deliver(w, j, ch), ch, k);
  }

  lemma OverlapIsFair(w: World, i: nat, j: nat, ch: Channel, k: Kind)
    requires i in w.calls && j in w.calls
    ensures FairOnRun(w, Overlap(w, i, j, ch), ch, k)
  {
    StatementsAreCalm(i, 0, 6);
    StatementsAreCalm(j, 0, 6);
    StatementsAreCalm(i, 1, 5);
    StatementsAreCalm(j, 1, 5);
    CalmIsFair(w, Overlap(w, i, j, ch), ch, k);
  }

  /** From here on, as long as events stay fair, the message goes out at most once. */
  ghost predicate StaysSingle(w: World, ch: Channel, k: Kind) {
    forall rest :: FairOnRun(w, rest, ch, k) ==> Count(Run(w, rest).outbox, Message(ch, k)) <= 1
  }

  lemma FairStepStaysSingle(w: World, e: Event, ch: Channel, k: Kind, id: nat)
    requires Grounded(w) && RiskInv(w, ch, k, id) && FairOn(w, e, ch, k)
    ensures StaysSingle(Step(w, e), ch, k)
  {
    var w' := Step(w, e);
    var i := StepKeepsRisk(w, e, ch, k, id);
    StepStaysGrounded(w, e);
    forall rest | FairOnRun(w', rest, ch, k) ensures Count(Run(w', rest).outbox, Message(ch, k)) <= 1 {
      var j := RunKeepsRisk(w', rest, ch, k, i);
    }
  }

  lemma UnfairClaimSendsTwice(w: World, e: Event, ch: Channel, k: Kind)
    requires Grounded(w) && e.Claim? && !FairOn(w, e, ch, k)
    ensures !StaysSingle(Step(w, e), ch, k)
  {
    var w' := Step(w, e);
    var i :| i in w.calls && AtRisk(w, w.calls[i], ch, k);
    StepStaysGrounded(w, e);
    assert w'.calls == w.calls[e.id := Call(e.eligible, [], Between)] && w'.deliveries == w.deliveries;
    OverlapSendsTwice(w', i, e.id, ch, k);
    OverlapIsFair(w', i, e.id, ch, k);
  }

  /** After any fair run, an event is fair if and only if every fair continuation after it keeps the
      message from going out twice. */
  lemma FairnessIsExact(now: int, state: InvoiceState, events: seq<Event>, e: Event, ch: Channel, k: Kind)
    requires FairOnRun(NewInvoice(now, state), events, ch, k)
    ensures var w := Run(NewInvoice(now, state), events); FairOn(w, e, ch, k) <==> StaysSingle(Step(w, e), ch, k)
  {
    var w0 := NewInvoice(now, state);
    var w := Run(w0, events);
    NewInvoiceIsSafe(now, state, ch, k);
    RunStaysGrounded(w0, events);
    var id := RunKeepsRisk(w0, events, ch, k, 0);
    if FairOn(w, e, ch, k) {
      FairStepStaysSingle(w, e, ch, k, id);
    } else if e.Claim? {
      UnfairClaimSendsTwice(w, e, ch, k);
    } else {
      var rest := LostRecordSendsTwice(w, e, ch, k, id);
      assert FairOnRun(Step(w, e), rest, ch, k);
    }
  }

  // ---------------------------------------------------------------- calls that do not overlap

  /** Some call still works on the invoice. */
  predicate Busy(w: World) {
    exists i :: i in w.calls && w.calls[i].stage != Acking
  }

  /** No call is cut off between an accepted send and the write that records it. */
  predicate Recorded(w: World, e: Event) {
    Loses(e) && e.id in w.calls ==> w.calls[e.id].stage !in {PdfAccepted, NoteAccepted}
  }

  /** No claim succeeds while another call works on the invoice. */
  predicate Apart(w: World, e: Event) {
    e.Claim? ==> !Busy(w) || DoClaim(w, e.id, e.eligible) == w
  }

  predicate Fair(w: World, e: Event) {
    Recorded(w, e) && Apart(w, e)
  }

  predicate FairRun(w: World, events: seq<Event>) {
    events == [] ||
    (FairRun(w, events[..|events| - 1]) && Fair(Run(w, events[..|events| - 1]), events[|events| - 1]))
  }

  predicate OneWorks(w: World) {
    forall i, j :: i in w.calls && j in w.calls && w.calls[i].stage != Acking && w.calls[j].stage != Acking ==> i == j
  }

  /** The call's results say which channels have the invoice, and a channel it works on has not. */
  predicate CallOk(w: World, c: Call) {
    && |c.results| <= |CHANNELS|
    && (forall i :: 0 <= i < |c.results| ==> (c.results[i] == Sent <==> Row(w, CHANNELS[i]).state == Delivered))
    && (c.stage !in {Between, Acking} ==> Open(c) && Row(w, Current(c)).state != Delivered)
  }

  /** Only the call `id` works, though others may still wait for their acknowledgement, and it tells
      the truth. */
  predicate Inv(w: World, id: nat) {
    && (forall i :: i in w.calls && w.calls[i].stage != Acking ==> i == id)
    && (id in w.calls ==> CallOk(w, w.calls[id]))
  }

  lemma IdleActs(c: Call, d: Delivery, stored: bool, now: int, e: Event)
    requires Working(e) && Open(c)
    ensures c.stage == Acking ==> Act(c, d, stored, now, e) == Effect(c, d, [])
  {
  }

  lemma ActTellsTheTruth(c: Call, d: Delivery, stored: bool, now: int, e: Event)
    requires Working(e) && Open(c) && (c.stage !in {Between, Acking} ==> d.state != Delivered)
    ensures var x := Act(c, d, stored, now, e);
      || (x.call.results == c.results && (x.call.stage !in {Between, Acking} ==> x.row.state != Delivered)
          && (x.call.stage in {Between, Acking} ==> x.row == d))
      || (x.call.stage == Between
          && exists r :: x.call.results == c.results + [r] && (r == Sent <==> x.row.state == Delivered))
  {
  }

  lemma WorkKeepsInv(w: World, w': World, e: Event, id: nat)
    requires Inv(w, id) && Works(w, w', e)
    ensures Inv(w', id)
  {
    var c, d := w.calls[e.id], Row(w, Current(w.calls[e.id]));
    IdleActs(c, d, w.pdfStored, w.now, e);
    if e.id == id {
      ActTellsTheTruth(c, d, w.pdfStored, w.now, e);
      assert CHANNELS[0] == Telegram && CHANNELS[1] == Max;
    }
  }

  lemma LeaveKeepsInv(w: World, w': World, e: Event, id: nat)
    requires Inv(w, id) && (Rests(w, w') || Leaves(w, w', e))
    ensures Inv(w', id)
  {
    if id in w'.calls { assert CallOk(w, w.calls[id]); }
  }

  lemma StepKeepsInv(w: World, id: nat, e: Event) returns (id': nat)
    requires Inv(w, id) && Apart(w, e)
    ensures Inv(Step(w, e), id')
  {
    var w' := Step(w, e);
    id' := id;
    StepShape(w, e);
    if Joins(w, w', e) {
      id' := e.id;
      assert forall i :: i in w.calls ==> w.calls[i].stage == Acking;
    } else if Works(w, w', e) {
      WorkKeepsInv(w, w', e, id);
    } else {
      LeaveKeepsInv(w, w', e, id);
    }
  }

  lemma {:induction false} RunKeepsInv(w: World, id: nat, events: seq<Event>) returns (id': nat)
    requires Inv(w, id) && FairRun(w, events)
    ensures Inv(Run(w, events), id')
  {
    id' := id;
    if events != [] {
      var i := RunKeepsInv(w, id, events[..|events| - 1]);
      id' := StepKeepsInv(Run(w, events[..|events| - 1]), i, events[|events| - 1]);
    }
  }

  /** Calls that do not overlap at all are fair to every message. */
  lemma {:induction false} FairRunIsFairOn(w: World, events: seq<Event>, ch: Channel, k: Kind)
    requires FairRun(w, events)
    ensures FairOnRun(w, events, ch, k)
  {
    if events != [] {
      var w1 := Run(w, events[..|events| - 1]);
      FairRunIsFairOn(w, events[..|events| - 1], ch, k);
      forall i | i in w1.calls && !Busy(w1) ensures !AtRisk(w1, w1.calls[i], ch, k) {
        assert w1.calls[i].stage == Acking;
      }
    }
  }

  /** Whatever the sends, 1C, the clock and sync do, however long a call takes: as long as no claim
      overlaps a working call and accepted sends get recorded, each channel gets the document at most
      once and the note at most once, and one call at most works. */
  lemma DeliveredAtMostOnce(now: int, state: InvoiceState, events: seq<Event>, ch: Channel, k: Kind)
    requires FairRun(NewInvoice(now, state), events)
    ensures var w := Run(NewInvoice(now, state), events); Count(w.outbox, Message(ch, k)) <= 1 && OneWorks(w)
  {
    var id := RunKeepsInv(NewInvoice(now, state), 0, events);
    FairRunIsFairOn(NewInvoice(now, state), events, ch, k);
    SentAtMostOnce(now, state, events, ch, k);
  }

  // ---------------------------------------------------------------- when a SENT delivery changes

  predicate Frozen(w: World, w': World, ch: Channel) {
    Row(w, ch).state == Delivered ==> Row(w', ch) == Row(w, ch)
  }

  lemma ActFreezes(c: Call, d: Delivery, stored: bool, now: int, e: Event)
    requires Working(e) && Open(c) && d.state == Delivered && !Committed(c, Current(c), Note)
    ensures Act(c, d, stored, now, e).row == d
  {
  }

  lemma StepFreezes(w: World, e: Event, ch: Channel, id: nat)
    requires RiskInv(w, ch, Note, id)
    ensures Frozen(w, Step(w, e), ch)
  {
    StepShape(w, e);
    if Works(w, Step(w, e), e) && Row(w, ch).state == Delivered && At(w.calls[e.id], ch) {
      assert Committed(w.calls[e.id], ch, Note) ==> AtRisk(w, w.calls[e.id], ch, Note);
      ActFreezes(w.calls[e.id], Row(w, ch), w.pdfStored, w.now, e);
    }
  }

  /** Over every run that is fair to the note, a SENT delivery never changes again. */
  lemma {:induction false} SentIsFinal(w: World, events: seq<Event>, ch: Channel, id: nat)
    requires Grounded(w) && RiskInv(w, ch, Note, id) && FairOnRun(w, events, ch, Note)
    ensures Frozen(w, Run(w, events), ch)
  {
    if events != [] {
      var earlier := events[..|events| - 1];
      SentIsFinal(w, earlier, ch, id);
      var i := RunKeepsRisk(w, earlier, ch, Note, id);
      StepFreezes(Run(w, earlier), events[|events| - 1], ch, i);
    }
  }

  /** A call that looked before the channel was SENT goes on, or fails, on it. */
  predicate Reopens(w: World, e: Event, ch: Channel) {
    && Working(e) && e.id in w.calls && At(w.calls[e.id], ch)
    && match e
       case Mark(_) => w.calls[e.id].stage.Looked?
       case SendPdf(_, ok, _) => w.calls[e.id].stage.Marked? && w.calls[e.id].stage.existing.sentAt.None? && !ok
       case SendNote(_, ok, _) => w.calls[e.id].stage == PdfSaved && !ok
       case LoseRecord(_, _) => w.calls[e.id].stage in {PdfAccepted, NoteAccepted}
       case _ => false
  }

  lemma ActReopens(c: Call, d: Delivery, stored: bool, now: int, e: Event)
    requires Working(e) && Open(c) && d.state == Delivered
    ensures Act(c, d, stored, now, e).row.state != Delivered
       <==> || (e.Mark? && c.stage.Looked?)
            || (e.SendPdf? && c.stage.Marked? && c.stage.existing.sentAt.None? && !e.ok)
            || (e.SendNote? && c.stage == PdfSaved && !e.ok)
            || (e.LoseRecord? && c.stage in {PdfAccepted, NoteAccepted})
  {
  }

  lemma WorkReopensIff(w: World, e: Event, ch: Channel)
    requires Row(w, ch).state == Delivered && Working(e) && e.id in w.calls && Open(w.calls[e.id])
    ensures Row(Step(w, e), ch).state != Delivered <==> Reopens(w, e, ch)
  {
    StatementActs(w, e);
    ActReopens(w.calls[e.id], Row(w, ch), w.pdfStored, w.now, e);
  }

  /** In any state, an event makes a SENT delivery not SENT exactly then. */
  lemma ReopensIff(w: World, e: Event, ch: Channel)
    requires Row(w, ch).state == Delivered
    ensures Row(Step(w, e), ch).state != Delivered <==> Reopens(w, e, ch)
  {
    if Working(e) && e.id in w.calls && Open(w.calls[e.id]) { WorkReopensIff(w, e, ch); } else { StepShape(w, e); }
  }

  predicate HasIt(w: World, ch: Channel) {
    Row(w, ch).state == Delivered
  }

  lemma TwoChannels(w: World, eligible: set<Channel>)
    ensures (forall ch :: ch in eligible ==> HasIt(w, ch))
       <==> (Telegram in eligible ==> HasIt(w, Telegram)) && (Max in eligible ==> HasIt(w, Max))
    ensures (exists ch :: HasIt(w, ch)) <==> HasIt(w, Telegram) || HasIt(w, Max)
    ensures (exists ch :: ch in eligible && HasIt(w, ch))
       <==> (Telegram in eligible && HasIt(w, Telegram)) || (Max in eligible && HasIt(w, Max))
  {
    forall ch | ch != Telegram ensures HasIt(w, ch) == HasIt(w, Max) && (ch in eligible) == (Max in eligible) {
      assert ch == Max;
    }
  }

  /** The verdict written at the end: SENT exactly when every eligible channel has the invoice and
      some channel does, PARTIAL exactly when some but not all eligible channels have it, and ERROR
      otherwise. */
  lemma VerdictIsExact(w: World, id: nat)
    requires Inv(w, id) && id in w.calls && w.calls[id].stage == Between && |w.calls[id].results| == |CHANNELS|
    ensures var (eligible, verdict) := (w.calls[id].eligible, Step(w, Finish(id)).state);
      && (verdict == SENT <==> (forall ch :: ch in eligible ==> HasIt(w, ch)) && exists ch :: HasIt(w, ch))
      && (verdict == PARTIAL <==>
            (exists ch :: ch in eligible && HasIt(w, ch)) && !(forall ch :: ch in eligible ==> HasIt(w, ch)))
      && verdict in {SENT, PARTIAL, ERROR}
  {
    var c := w.calls[id];
    assert CHANNELS[0] == Telegram && CHANNELS[1] == Max;
    assert c.results == [c.results[0], c.results[1]];
    assert c.results[0] == Sent <==> HasIt(w, Telegram);
    assert c.results[1] == Sent <==> HasIt(w, Max);
    TwoChannels(w, c.eligible);
    assert EligibleWith(c, Sent, 1) == N.One(Telegram in c.eligible && c.results[0] == Sent);
    assert EligibleWith(c, NotSent, 1) == N.One(Telegram in c.eligible && c.results[0] == NotSent);
  }

  // ---------------------------------------------------------------- what the lease is for

  /** Every caller respects its lease: the clock does not pass it while a call works, a token
      withdrawn meanwhile is not put back, and a failing acknowledgement of an earlier call does not
      come after a later claim. */
  predicate Timely(w: World, e: Event) {
    match e
    case Tick(now) => Busy(w) && w.lease.Some? ==> now < w.lease.value
    case Sync(reported) => Busy(w) && w.state in {SUPERSEDED, CANCELLED} ==> reported == CANCELLED
    case Ack(_, ok) => Busy(w) && w.state != SUPERSEDED ==> ok
    case _ => true
  }

  predicate TimelyRun(w: World, events: seq<Event>) {
    events == [] ||
    (TimelyRun(w, events[..|events| - 1]) && Timely(Run(w, events[..|events| - 1]), events[|events| - 1]))
  }

  predicate ApartRun(w: World, events: seq<Event>) {
    events == [] ||
    (ApartRun(w, events[..|events| - 1]) && Apart(Run(w, events[..|events| - 1]), events[|events| - 1]))
  }

  /** A working call holds a live lease, or the row has been withdrawn from processing. */
  predicate Held(w: World) {
    (w.state == SENDING && w.lease.Some? && w.now < w.lease.value) || w.state in {SUPERSEDED, CANCELLED}
  }

  predicate LeaseInv(w: World) {
    OneWorks(w) && (Busy(w) ==> Held(w))
  }

  /** A step after which no call works that did not work before. */
  predicate NoNewWork(w: World, w': World) {
    forall i :: i in w'.calls && w'.calls[i].stage != Acking ==> i in w.calls && w.calls[i].stage != Acking
  }

  lemma NoNewWorkKeepsOne(w: World, w': World)
    requires OneWorks(w) && NoNewWork(w, w')
    ensures OneWorks(w') && (Busy(w') ==> Busy(w))
  {
    if Busy(w') {
      var i :| i in w'.calls && w'.calls[i].stage != Acking;
      assert i in w.calls && w.calls[i].stage != Acking;
    }
  }

  lemma ClaimKeepsLease(w: World, e: Event)
    requires LeaseInv(w) && e.Claim?
    ensures LeaseInv(Step(w, e)) && Apart(w, e)
  {
    if Step(w, e) != w { assert forall i :: i in w.calls ==> w.calls[i].stage == Acking; }
  }

  lemma EffectKeepsLease(w: World, w': World, i: nat, x: Effect)
    requires LeaseInv(w) && i in w.calls && Open(w.calls[i]) && Affects(w, w', i, x)
    requires w.calls[i].stage == Acking ==> x.call.stage == Acking
    ensures LeaseInv(w')
  {
    NoNewWorkKeepsOne(w, w');
  }

  lemma WorkKeepsLease(w: World, w': World, e: Event)
    requires LeaseInv(w) && Works(w, w', e)
    ensures LeaseInv(w')
  {
    IdleActs(w.calls[e.id], Row(w, Current(w.calls[e.id])), w.pdfStored, w.now, e);
    EffectKeepsLease(w, w', e.id, EffectOf(w, e));
  }

  lemma StatementKeepsLease(w: World, e: Event)
    requires LeaseInv(w) && Working(e)
    ensures LeaseInv(Step(w, e))
  {
    if e.id in w.calls && Open(w.calls[e.id]) {
      StatementActs(w, e);
      WorkKeepsLease(w, Step(w, e), e);
    }
  }

  /** The only working call stops: then none works any more. */
  lemma LeaveKeepsLease(w: World, e: Event)
    requires LeaseInv(w) && (e.Shelve? || e.Abandon? || e.Break? || e.Finish?)
    ensures LeaseInv(Step(w, e))
  {
    LeaveEvents(w, e);
    var w' := Step(w, e);
    if w' != w {
      assert w.calls[e.id].stage != Acking;
      assert forall k :: k in w'.calls ==> w'.calls[k].stage == Acking;
    }
  }

  /** What happens beside the working call. */
  lemma EndKeepsLease(w: World, e: Event)
    requires LeaseInv(w) && Timely(w, e) && (e.Ack? || e.Die?)
    ensures LeaseInv(Step(w, e))
  {
    NoNewWorkKeepsOne(w, Step(w, e));
  }

  lemma RowStepKeepsLease(w: World, e: Event)
    requires LeaseInv(w) && Timely(w, e) && (e.Tick? || e.Sync? || e.Replace? || e.StorePdf?)
    ensures LeaseInv(Step(w, e))
  {
    NoNewWorkKeepsOne(w, Step(w, e));
  }

  lemma StepKeepsLease(w: World, e: Event)
    requires LeaseInv(w) && Timely(w, e)
    ensures LeaseInv(Step(w, e)) && Apart(w, e)
  {
    if e.Claim? {
      ClaimKeepsLease(w, e);
    } else if Working(e) {
      StatementKeepsLease(w, e);
    } else if e.Shelve? || e.Abandon? || e.Break? || e.Finish? {
      LeaveKeepsLease(w, e);
    } else if e.Ack? || e.Die? {
      EndKeepsLease(w, e);
    } else {
      RowStepKeepsLease(w, e);
    }
  }

  /** While calls respect their lease, no successful claim overlaps a working call, in any
      interleaving. */
  lemma {:induction false} LeaseKeepsCallsApart(w: World, events: seq<Event>)
    requires LeaseInv(w) && TimelyRun(w, events)
    ensures LeaseInv(Run(w, events)) && ApartRun(w, events)
  {
    if events != [] {
      LeaseKeepsCallsApart(w, events[..|events| - 1]);
      StepKeepsLease(Run(w, events[..|events| - 1]), events[|events| - 1]);
    }
  }

  lemma {:induction false} RecordedAndApartIsFair(w: World, events: seq<Event>)
    requires ApartRun(w, events)
    requires forall k :: 0 <= k < |events| ==> Recorded(Run(w, events[..k]), events[k])
    ensures FairRun(w, events)
  {
    if events != [] {
      var n := |events| - 1;
      assert Recorded(Run(w, events[..n]), events[n]);
      forall k | 0 <= k < n ensures Recorded(Run(w, events[..n][..k]), events[..n][k]) {
        assert events[..n][..k] == events[..k];
      }
      RecordedAndApartIsFair(w, events[..n]);
    }
  }

  /** So concurrent callers that respect their leases deliver at most once, too. */
  lemma TimelyDelivery(now: int, state: InvoiceState, events: seq<Event>, ch: Channel, k: Kind)
    requires TimelyRun(NewInvoice(now, state), events)
    requires forall n :: 0 <= n < |events| ==> Recorded(Run(NewInvoice(now, state), events[..n]), events[n])
    ensures Count(Run(NewInvoice(now, state), events).outbox, Message(ch, k)) <= 1
  {
    LeaseKeepsCallsApart(NewInvoice(now, state), events);
    RecordedAndApartIsFair(NewInvoice(now, state), events);
    DeliveredAtMostOnce(now, state, events, ch, k);
  }

  // ---------------------------------------------------------------- an undisturbed call delivers

  /** No retry of this channel is still waiting for its time. */
  predicate IsDue(w: World, ch: Channel) {
    Row(w, ch).nextAttempt.Some? ==> Row(w, ch).nextAttempt.value <= w.now
  }

  /** What an undisturbed call sends on a channel: nothing if it has the invoice, may not be reached or is
      not due; else the document, unless it went out before, and the note. */
  function Missing(w: World, c: Call, ch: Channel): seq<Message> {
    if Row(w, ch).state == Delivered || ch !in c.eligible || !IsDue(w, ch) then []
    else (if Row(w, ch).sentAt.None? then [Message(ch, Pdf)] else []) + [Message(ch, Note)]
  }

  function Comes(w: World, c: Call, ch: Channel): Result {
    if Row(w, ch).state == Delivered then Sent
    else if ch !in c.eligible then NotEligible
    else if IsDue(w, ch) then Sent else NotSent
  }

  /** One channel with every send accepted: from w to w'. */
  predicate Served(w: World, w': World, id: nat)
    requires id in w.calls && Open(w.calls[id])
  {
    var (c, ch) := (w.calls[id], Current(w.calls[id]));
    && w'.calls == w.calls[id := c.(results := c.results + [Comes(w, c, ch)], stage := Between)]
    && w'.outbox == w.outbox + Missing(w, c, ch)
    && (Row(w', ch).state == Delivered <==> Comes(w, c, ch) == Sent)
    && (forall y :: y != ch ==> Row(w', y) == Row(w, y))
    && w'.now == w.now && w'.state == w.state && w'.pdfStored == w.pdfStored
  }

  function AllAccepted(w: World, id: nat): World {
    Uninterrupted(w, id, StillCurrent, true, true, 0)
  }

  lemma LookEnds(w: World, id: nat)
    requires id in w.calls && Open(w.calls[id]) && w.calls[id].stage == Between && w.pdfStored
    ensures var (w', c, ch) := (Step(w, Look(id)), w.calls[id], Current(w.calls[id]));
      if Row(w, ch).state != Delivered && ch in c.eligible && IsDue(w, ch)
      then w' == w.(deliveries := w.deliveries[ch := Row(w, ch)],
                    calls := w.calls[id := c.(stage := Looked(Row(w, ch)))])
      else Served(w, w', id) && w'.calls[id].stage == Between
  {
    var (c, ch) := (w.calls[id], Current(w.calls[id]));
    StatementActs(w, Look(id));
    assert c.(stage := Between) == c;
  }

  lemma ChannelIsServed(w: World, id: nat)
    requires id in w.calls && Open(w.calls[id]) && w.calls[id].stage == Between && w.pdfStored
    ensures Served(w, AllAccepted(w, id), id)
  {
    var (c, ch) := (w.calls[id], Current(w.calls[id]));
    var w1 := Step(w, Look(id));
    LookEnds(w, id);
    if w1.calls[id].stage.Looked? {
      SendOutAmounts(w1, id, true, true, 0);
      assert w1.calls[id := c.(results := c.results + [Sent])] == w.calls[id := c.(results := c.results + [Sent])];
      var pdf, note := [Message(ch, Pdf)], [Message(ch, Note)];
      assert w.outbox + pdf + note == w.outbox + (pdf + note) && w.outbox + ([] + note) == w.outbox + note;
    }
  }

  lemma BothAreServed(w: World, id: nat)
    requires id in w.calls && w.calls[id].results == [] && w.calls[id].stage == Between && w.pdfStored
    ensures var (c, w2) := (w.calls[id], AllAccepted(AllAccepted(w, id), id));
      && id in w2.calls && w2.calls[id] == Call(c.eligible, [Comes(w, c, Telegram), Comes(w, c, Max)], Between)
      && w2.outbox == w.outbox + Missing(w, c, Telegram) + Missing(w, c, Max)
      && (forall ch :: Comes(w, c, ch) == Sent ==> Row(w2, ch).state == Delivered)
  {
    var c, w1 := w.calls[id], AllAccepted(w, id);
    assert Current(c) == Telegram;
    ChannelIsServed(w, id);
    assert w1.calls[id].results == [Comes(w, c, Telegram)] && Current(w1.calls[id]) == Max;
    ChannelIsServed(w1, id);
    assert Row(w1, Max) == Row(w, Max);
  }

  lemma FinishConcludes(w: World, id: nat)
    requires id in w.calls && w.calls[id].stage == Between && |w.calls[id].results| == |CHANNELS|
    requires w.calls[id].eligible != {} && forall ch :: ch in w.calls[id].eligible ==> SentOn(w.calls[id], ch)
    ensures var w' := Step(w, Finish(id));
      w'.state == SENT && w'.lease == None && w'.outbox == w.outbox && w'.deliveries == w.deliveries
  {
    FinalStateConcludes(w.calls[id], SENT);
  }

  /** In any state: a call that nothing disturbs, with every send accepted and its channels due, brings the
      invoice to every channel it may reach, sends exactly what they miss, and ends SENT. */
  lemma DeliversToAll(w: World, id: nat)
    requires id in w.calls && w.calls[id].results == [] && w.calls[id].stage == Between && w.pdfStored
    requires w.calls[id].eligible != {} && forall ch :: ch in w.calls[id].eligible ==> IsDue(w, ch)
    ensures var (c, w') := (w.calls[id], Step(AllAccepted(AllAccepted(w, id), id), Finish(id)));
      && w'.state == SENT && w'.lease == None
      && w'.outbox == w.outbox + Missing(w, c, Telegram) + Missing(w, c, Max)
      && forall ch :: ch in c.eligible ==> Row(w', ch).state == Delivered
  {
    var c, w2 := w.calls[id], AllAccepted(AllAccepted(w, id), id);
    BothAreServed(w, id);
    forall ch | ch in c.eligible ensures Comes(w, c, ch) == Sent && SentOn(w2.calls[id], ch) { }
    FinishConcludes(w2, id);
  }

  // ---------------------------------------------------------------- such moments are reached

  const FRESH_ROW := Delivery(Pending, 0, None, None)

  /** A lone call for Telegram, with its PDF stored, after its first r statements. */
  function LoneCall(r: nat): World {
    Run(Step(Step(NewInvoice(0, QUEUED), Claim(1, {Telegram})), StorePdf(1)), Statements(1, 0, r))
  }

  function StageAt(r: nat): Stage {
    if r == 0 then Between
    else if r == 1 then Looked(FRESH_ROW)
    else if r == 2 then Marked(FRESH_ROW)
    else if r == 3 then PdfAccepted
    else if r == 4 then PdfSaved
    else if r == 5 then NoteAccepted
    else Between
  }

  /** A call for Telegram and its row after r statements nobody interfered with. */
  predicate Undisturbed(c: Call, d: Delivery, r: nat) {
    && c == Call({Telegram}, if r == 6 then [Sent] else [], StageAt(r))
    && (d.sentAt.Some? <==> r >= 4) && (d.state == Delivered <==> r == 6) && d.nextAttempt == None
    && (r <= 1 ==> d == FRESH_ROW)
  }

  lemma GoesOnUndisturbed(c: Call, d: Delivery, now: int, i: nat, r: nat)
    requires r < 6 && Undisturbed(c, d, r)
    ensures var x := Act(c, d, true, now, Statement(i, r)); Undisturbed(x.call, x.row, r + 1)
  {
  }

  predicate OnlyCall(w: World, w': World, i: nat) {
    && i in w'.calls && w'.calls == w.calls[i := w'.calls[i]]
    && w'.pdfStored == w.pdfStored && w'.now == w.now && w'.state == w.state && w'.lease == w.lease
  }

  predicate AloneAfter(w0: World, w: World, i: nat, r: nat) {
    OnlyCall(w0, w, i) && Undisturbed(w.calls[i], Row(w, Telegram), r)
  }

  lemma UndisturbedStep(w0: World, w: World, i: nat, r: nat)
    requires r < 6 && w.pdfStored && AloneAfter(w0, w, i, r)
    ensures AloneAfter(w0, Step(w, Statement(i, r)), i, r + 1)
  {
    StatementActs(w, Statement(i, r));
    GoesOnUndisturbed(w.calls[i], Row(w, Telegram), w.now, i, r);
  }

  lemma {:induction false} RunsUndisturbed(w: World, i: nat, r: nat)
    requires r <= 6 && i in w.calls && w.pdfStored && Undisturbed(w.calls[i], Row(w, Telegram), 0)
    ensures AloneAfter(w, Run(w, Statements(i, 0, r)), i, r)
  {
    if r == 0 {
      assert w.calls == w.calls[i := w.calls[i]];
    } else {
      RunsUndisturbed(w, i, r - 1);
      RunOneMore(w, Statements(i, 0, r - 1), Statement(i, r - 1));
      UndisturbedStep(w, Run(w, Statements(i, 0, r - 1)), i, r - 1);
    }
  }

  lemma LoneCallIs(r: nat)
    requires r <= 6
    ensures var w := LoneCall(r);
      && w.calls.Keys == {1} && Undisturbed(w.calls[1], Row(w, Telegram), r)
      && w.pdfStored && w.now == 0 && w.state == SENDING && w.lease == Some(LEASE_MS)
  {
    var w := Step(Step(NewInvoice(0, QUEUED), Claim(1, {Telegram})), StorePdf(1));
    assert w.calls == map[1 := Call({Telegram}, [], Between)];
    RunsUndisturbed(w, 1, r);
  }

  /** Until its document is recorded, the lease alone keeps a second call from sending it: a claim is
      fair to the document exactly before the end of the lease or after the record.  Statement 0 has
      not run when r is 0, so this covers a call that only has generated the PDF. */
  lemma LeaseDecides(r: nat, now: nat)
    requires r <= 6
    ensures var w := Step(LoneCall(r), Tick(now));
      FairOn(w, Claim(2, {Telegram}), Telegram, Pdf) <==> now < LEASE_MS || r >= 4
  {
    LoneCallIs(r);
    var w0 := LoneCall(r);
    var w := w0.(now := now);
    assert Step(w0, Tick(now)) == w;
    if r < 4 {
      UndisturbedIsAtRisk(w.calls[1], Row(w0, Telegram), r);
      assert Row(w, Telegram) == Row(w0, Telegram) && AtRisk(w, w.calls[1], Telegram, Pdf);
      ClaimIsFairIff(w, Claim(2, {Telegram}), Telegram, Pdf);
    }
  }

  lemma UndisturbedIsAtRisk(c: Call, d: Delivery, r: nat)
    requires r < 4 && Undisturbed(c, d, r)
    ensures Risk(c, d, Telegram, Pdf) && !Done(d, Pdf)
  {
  }

  /** The same for either channel while the PDF is still being generated. */
  lemma SlowGeneration(ch: Channel, now: nat)
    ensures var w := Step(Step(NewInvoice(0, QUEUED), Claim(1, {ch})), Tick(now));
      FairOn(w, Claim(2, {ch}), ch, Pdf) <==> now < LEASE_MS
  {
    var w := Step(Step(NewInvoice(0, QUEUED), Claim(1, {ch})), Tick(now));
    assert w.calls == map[1 := Call({ch}, [], Between)];
    assert AtRisk(w, w.calls[1], ch, Pdf);
    ClaimIsFairIff(w, Claim(2, {ch}), ch, Pdf);
  }

  /** And when the second call is claimed at the end of the lease, both send. */
  lemma SlowGenerationSendsTwice(ch: Channel, k: Kind)
    ensures var w := Step(Step(Step(NewInvoice(0, QUEUED), Claim(1, {ch})), Tick(LEASE_MS)), Claim(2, {ch}));
      1 in w.calls && 2 in w.calls && Count(Run(w, Overlap(w, 1, 2, ch)).outbox, Message(ch, k)) > 1
  {
    var w1 := Step(NewInvoice(0, QUEUED), Claim(1, {ch}));
    var w2 := Step(w1, Tick(LEASE_MS));
    var w := Step(w2, Claim(2, {ch}));
    NewInvoiceIsSafe(0, QUEUED, ch, k);
    StepStaysGrounded(NewInvoice(0, QUEUED), Claim(1, {ch}));
    StepStaysGrounded(w1, Tick(LEASE_MS));
    StepStaysGrounded(w2, Claim(2, {ch}));
    assert w.calls == map[1 := Call({ch}, [], Between), 2 := Call({ch}, [], Between)] && w.deliveries == map[];
    OverlapSendsTwice(w, 1, 2, ch, k);
  }

  /** The first call has stored the PDF and shelved the invoice; the second has just been claimed. */
  function BeforeLateAck(): World {
    Step(Step(Step(Step(NewInvoice(0, QUEUED), Claim(1, {})), StorePdf(1)), Shelve(1)), Claim(2, {Telegram}))
  }

  lemma BeforeLateAckIs()
    ensures BeforeLateAck() == World(0, SENDING, Some(LEASE_MS), 2, true, map[],
                                     map[1 := Call({}, [], Acking), 2 := Call({Telegram}, [], Between)], [])
  {
    var shelved := Step(Step(Step(NewInvoice(0, QUEUED), Claim(1, {})), StorePdf(1)), Shelve(1));
    assert shelved == World(0, AVAILABLE, None, 1, true, map[], map[1 := Call({}, [], Acking)], []);
  }

  /** When the first call's acknowledgement fails then, with the clock standing still, a third call is
      claimed beside the second. */
  lemma LateAckOverlaps()
    ensures !FairOn(Step(BeforeLateAck(), Ack(1, false)), Claim(3, {Telegram}), Telegram, Pdf)
  {
    BeforeLateAckIs();
    var c := Call({Telegram}, [], Between);
    var w := World(0, ERROR, None, 2, true, map[], map[2 := c], []);
    assert map[1 := Call({}, [], Acking), 2 := c] - {1} == map[2 := c];
    assert Step(BeforeLateAck(), Ack(1, false)) == w;
    assert AtRisk(w, w.calls[2], Telegram, Pdf);
    ClaimIsFairIff(w, Claim(3, {Telegram}), Telegram, Pdf);
  }

  /** A call may be cut off right after the acceptance, in any of the three ways. */
  lemma RecordCanBeLost(retryAt: int)
    ensures forall e :: e in {Die(1), Break(1), LoseRecord(1, retryAt)} ==> !FairOn(LoneCall(3), e, Telegram, Pdf)
  {
    LoneCallIs(3);
  }

  /** A SENT delivery is overwritten: call 1 looks, outlives its lease, call 2 delivers, call 1 goes on. */
  lemma SentIsOverwritten()
    ensures var w := Run(Step(Step(LoneCall(1), Tick(LEASE_MS)), Claim(2, {Telegram})), Statements(2, 0, 6));
      Row(w, Telegram).state == Delivered && Reopens(w, Mark(1), Telegram)
  {
    LoneCallIs(1);
    var w0 := Step(Step(LoneCall(1), Tick(LEASE_MS)), Claim(2, {Telegram}));
    assert w0.calls == map[1 := Call({Telegram}, [], Looked(FRESH_ROW)), 2 := Call({Telegram}, [], Between)];
    RunsUndisturbed(w0, 2, 6);
  }
}
