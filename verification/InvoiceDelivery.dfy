/** Delivering one invoice to its messenger channels by concurrent processInvoice calls
    (src/services/clientOrderInvoiceWorker.ts).

    Every database statement and every send is one atomic event, and any number of callers may
    interleave; sync may overwrite the row in between.  Rows of different invoices never meet, so
    one invoice stands for all.  Sends, 1C answers and PDF generation are nondeterministic. */
module InvoiceDelivery {
  import opened Options
  import N = Numbers

  datatype Channel = Telegram | Max
  datatype DeliveryState = Pending | InProgress | Delivered | Failed | Skipped
  datatype Delivery = Delivery(state: DeliveryState, attempts: nat, nextAttempt: Option<int>, sentAt: Option<int>)
  datatype InvoiceState = WAITING | QUEUED | SENDING | AVAILABLE | PARTIAL | SENT | ERROR | SUPERSEDED | CANCELLED
  datatype Result = Sent | NotEligible | NotSent
  datatype Kind = Pdf | Note
  datatype Message = Message(channel: Channel, kind: Kind)

  /** Where a caller stands within the current channel. */
  datatype Stage =
    | Between
    | Looked(existing: Delivery)
    | Marked(existing: Delivery)
    | PdfAccepted
    | PdfSaved
    | NoteAccepted
    | Acking                            // the row is final; 1C still has to acknowledge

  /** A running processInvoice call: who may be reached, what the finished channels returned. */
  datatype Call = Call(eligible: set<Channel>, results: seq<Result>, stage: Stage)

  datatype World = World(
    now: int, state: InvoiceState, lease: Option<int>, attempts: nat, pdfStored: bool,
    deliveries: map<Channel, Delivery>, calls: map<nat, Call>, outbox: seq<Message>)

  const CHANNELS: seq<Channel> := [Telegram, Max]
  const LEASE_MS: int := 120000

  predicate Processable(s: InvoiceState) {
    s in {QUEUED, SENDING, PARTIAL, ERROR, AVAILABLE}
  }

  predicate Active(s: InvoiceState) {
    s in {WAITING, QUEUED, SENDING, AVAILABLE, PARTIAL, ERROR}
  }

  datatype Event =
    | Tick(now: int)
    | Claim(id: nat, eligible: set<Channel>)
    | StorePdf(id: nat)
    | Shelve(id: nat)
    | Abandon(id: nat)                  // the candidate is no longer the current one in 1C
    | Break(id: nat)                    // an exception that reaches the handler of the whole call
    | Look(id: nat)
    | Mark(id: nat)
    | SendPdf(id: nat, ok: bool, retryAt: int)
    | SavePdf(id: nat)
    | SendNote(id: nat, ok: bool, retryAt: int)
    | SaveNote(id: nat)
    | LoseRecord(id: nat, retryAt: int) // an acceptance is not reported back, or the write after it fails
    | Finish(id: nat)
    | Ack(id: nat, ok: bool)
    | Die(id: nat)                      // the process stops; the row keeps its lease
    | Sync(reported: InvoiceState)
    | Replace                           // a newer token supersedes this one

  // ---------------------------------------------------------------- the statements

  /** The channel the call works on now. */
  predicate Open(c: Call) {
    |c.results| < |CHANNELS|
  }

  function Current(c: Call): Channel
    requires Open(c)
  {
    CHANNELS[|c.results|]
  }

  function Row(w: World, ch: Channel): Delivery {
    if ch in w.deliveries then w.deliveries[ch] else Delivery(Pending, 0, None, None)
  }

  function PutCall(w: World, id: nat, c: Call): World {
    w.(calls := w.calls[id := c])
  }

  function EndCall(w: World, id: nat): World {
    w.(calls := w.calls - {id})
  }

  function DoClaim(w: World, id: nat, eligible: set<Channel>): World {
    if id in w.calls || !Processable(w.state) || (w.lease.Some? && w.lease.value > w.now) then w
    else
      PutCall(w.(state := SENDING, lease := Some(w.now + LEASE_MS), attempts := w.attempts + 1),
              id, Call(eligible, [], Between))
  }

  /** Writes the current channel's row and moves on to the next channel with result `r`. */
  function Record(w: World, id: nat, d: Delivery, r: Result): World
    requires id in w.calls && Open(w.calls[id])
  {
    var c := w.calls[id];
    PutCall(w.(deliveries := w.deliveries[Current(c) := d]), id, c.(stage := Between, results := c.results + [r]))
  }

  /** Reads (or creates) the channel's row and decides without sending anything. */
  function DoLook(w: World, id: nat): World {
    if id !in w.calls || !w.pdfStored || !Open(w.calls[id]) || w.calls[id].stage != Between then w
    else
      var c := w.calls[id];
      var d := Row(w, Current(c));
      if d.state == Delivered then Record(w, id, d, Sent)
      else if Current(c) !in c.eligible then Record(w, id, d.(state := Skipped), NotEligible)
      else if d.nextAttempt.Some? && d.nextAttempt.value > w.now then Record(w, id, d, NotSent)
      else PutCall(w.(deliveries := w.deliveries[Current(c) := d]), id, c.(stage := Looked(d)))
  }

  function DoMark(w: World, id: nat): World {
    if id !in w.calls || !Open(w.calls[id]) || !w.calls[id].stage.Looked? then w
    else
      var c := w.calls[id];
      var d := Row(w, Current(c));
      PutCall(w.(deliveries := w.deliveries[Current(c) := d.(state := InProgress, attempts := d.attempts + 1)]),
              id, c.(stage := Marked(c.stage.existing)))
  }

  function FailChannel(w: World, id: nat, retryAt: int): World
    requires id in w.calls && Open(w.calls[id])
  {
    Record(w, id, Row(w, Current(w.calls[id])).(state := Failed, nextAttempt := Some(retryAt)), NotSent)
  }

  /** The document goes out only if the row read at the start had no sentAt. */
  function DoSendPdf(w: World, id: nat, ok: bool, retryAt: int): World {
    if id !in w.calls || !Open(w.calls[id]) || !w.calls[id].stage.Marked? then w
    else
      var c := w.calls[id];
      if c.stage.existing.sentAt.Some? then PutCall(w, id, c.(stage := PdfSaved))
      else if ok then PutCall(w.(outbox := w.outbox + [Message(Current(c), Pdf)]), id, c.(stage := PdfAccepted))
      else FailChannel(w, id, retryAt)
  }

  function DoSavePdf(w: World, id: nat): World {
    if id !in w.calls || !Open(w.calls[id]) || w.calls[id].stage != PdfAccepted then w
    else
      var c := w.calls[id];
      var d := Row(w, Current(c)).(sentAt := Some(w.now), nextAttempt := None);
      PutCall(w.(deliveries := w.deliveries[Current(c) := d]), id, c.(stage := PdfSaved))
  }

  function DoSendNote(w: World, id: nat, ok: bool, retryAt: int): World {
    if id !in w.calls || !Open(w.calls[id]) || w.calls[id].stage != PdfSaved then w
    else
      var c := w.calls[id];
      if ok then PutCall(w.(outbox := w.outbox + [Message(Current(c), Note)]), id, c.(stage := NoteAccepted))
      else FailChannel(w, id, retryAt)
  }

  function DoSaveNote(w: World, id: nat): World {
    if id !in w.calls || !Open(w.calls[id]) || w.calls[id].stage != NoteAccepted then w
    else
      var c := w.calls[id];
      Record(w, id, Row(w, Current(c)).(state := Delivered, sentAt := Some(w.now), nextAttempt := None), Sent)
  }

  function DoLoseRecord(w: World, id: nat, retryAt: int): World {
    if id !in w.calls || !Open(w.calls[id]) || w.calls[id].stage !in {PdfAccepted, NoteAccepted} then w
    else FailChannel(w, id, retryAt)
  }

  /** How many eligible channels have the given result. */
  function EligibleWith(c: Call, r: Result, n: nat): nat
    requires n <= |c.results| <= |CHANNELS|
  {
    if n == 0 then 0
    else EligibleWith(c, r, n - 1) + if CHANNELS[n - 1] in c.eligible && c.results[n - 1] == r then 1 else 0
  }

  function FinalState(c: Call): InvoiceState
    requires |c.results| == |CHANNELS|
  {
    var sent := EligibleWith(c, Sent, 2);
    var failed := EligibleWith(c, NotSent, 2);
    var eligible := N.One(Telegram in c.eligible) + N.One(Max in c.eligible);
    if eligible == 0 then (if Sent in c.results then SENT else ERROR)
    else if failed == 0 && sent == eligible then SENT
    else if sent > 0 then PARTIAL
    else ERROR
  }

  function DoFinish(w: World, id: nat): World {
    if id !in w.calls || |w.calls[id].results| != |CHANNELS| || w.calls[id].stage != Between then w
    else PutCall(w.(state := FinalState(w.calls[id]), lease := None), id, w.calls[id].(stage := Acking))
  }

  /** A failed acknowledgement falls into the same handler as any other exception. */
  function DoAck(w: World, id: nat, ok: bool): World {
    if id !in w.calls || w.calls[id].stage != Acking then w
    else EndCall(if ok || w.state == SUPERSEDED then w else w.(state := ERROR, lease := None), id)
  }

  /** The row update of a sync item that names this token. */
  function DoSync(w: World, reported: InvoiceState): World {
    if reported == CANCELLED then w.(state := CANCELLED, lease := None)
    else if w.state == SENT then w
    else if w.state == SENDING && w.lease.Some? && w.lease.value > w.now then w
    else w.(state := reported)
  }

  /** The calls that leave without finishing.  A stored PDF may be shelved; the candidate may turn
      out withdrawn between channels or inside one; an exception, also one in the channel's own
      handler, or the end of the process may come anywhere. */
  function DoLeave(w: World, e: Event): World
    requires e.Shelve? || e.Abandon? || e.Break? || e.Die?
  {
    if e.id !in w.calls then w
    else
      var stage := w.calls[e.id].stage;
      match e
      case Die(id) => EndCall(w, id)
      case Shelve(id) =>
        if stage == Between && w.pdfStored
        then PutCall(w.(state := AVAILABLE, lease := None), id, w.calls[id].(stage := Acking))
        else w
      case Break(id) =>
        if stage == Acking then w
        else EndCall(if w.state == SUPERSEDED then w else w.(state := ERROR, lease := None), id)
      case Abandon(id) =>
        if stage == Between || stage.Looked? then EndCall(w.(state := SUPERSEDED, lease := None), id) else w
  }

  function Step(w: World, e: Event): World {
    match e
    case Tick(now) => if now >= w.now then w.(now := now) else w
    case Claim(id, eligible) => DoClaim(w, id, eligible)
    case StorePdf(id) => if id in w.calls then w.(pdfStored := true) else w
    case Look(id) => DoLook(w, id)
    case Mark(id) => DoMark(w, id)
    case SendPdf(id, ok, retryAt) => DoSendPdf(w, id, ok, retryAt)
    case SavePdf(id) => DoSavePdf(w, id)
    case SendNote(id, ok, retryAt) => DoSendNote(w, id, ok, retryAt)
    case SaveNote(id) => DoSaveNote(w, id)
    case LoseRecord(id, retryAt) => DoLoseRecord(w, id, retryAt)
    case Finish(id) => DoFinish(w, id)
    case Ack(id, ok) => DoAck(w, id, ok)
    case Sync(reported) => DoSync(w, reported)
    case Replace => if Active(w.state) then w.(state := SUPERSEDED, lease := None) else w
    case _ => DoLeave(w, e)
  }

  function Run(w: World, events: seq<Event>): World {
    if events == [] then w else Step(Run(w, events[..|events| - 1]), events[|events| - 1])
  }

  function NewInvoice(now: int, state: InvoiceState): World {
    World(now, state, None, 0, false, map[], map[], [])
  }

  /** The statements of deliverChannel. */
  predicate Working(e: Event) {
    Preparing(e) || Sending(e)
  }

  predicate Preparing(e: Event) {
    e.Look? || e.Mark?
  }

  predicate Sending(e: Event) {
    e.SendPdf? || e.SavePdf? || e.SendNote? || e.SaveNote? || e.LoseRecord?
  }

  // ---------------------------------------------------------------- one statement, seen from its call

  /** What a statement makes of the call, of its channel's row, and what it sends. */
  datatype Effect = Effect(call: Call, row: Delivery, sends: seq<Kind>)

  function Closed(c: Call, d: Delivery, r: Result): Effect {
    Effect(c.(stage := Between, results := c.results + [r]), d, [])
  }

  /** The statements of deliverChannel, on the call and the row it works on. */
  function Act(c: Call, d: Delivery, stored: bool, now: int, e: Event): Effect
    requires Working(e) && Open(c)
  {
    match e
    case Look(_) =>
      if !stored || c.stage != Between then Effect(c, d, [])
      else if d.state == Delivered then Closed(c, d, Sent)
      else if Current(c) !in c.eligible then Closed(c, d.(state := Skipped), NotEligible)
      else if d.nextAttempt.Some? && d.nextAttempt.value > now then Closed(c, d, NotSent)
      else Effect(c.(stage := Looked(d)), d, [])
    case Mark(_) =>
      if !c.stage.Looked? then Effect(c, d, [])
      else Effect(c.(stage := Marked(c.stage.existing)), d.(state := InProgress, attempts := d.attempts + 1), [])
    case SendPdf(_, ok, retryAt) =>
      if !c.stage.Marked? then Effect(c, d, [])
      else if c.stage.existing.sentAt.Some? then Effect(c.(stage := PdfSaved), d, [])
      else if ok then Effect(c.(stage := PdfAccepted), d, [Pdf])
      else Closed(c, d.(state := Failed, nextAttempt := Some(retryAt)), NotSent)
    case SavePdf(_) =>
      if c.stage != PdfAccepted then Effect(c, d, [])
      else Effect(c.(stage := PdfSaved), d.(sentAt := Some(now), nextAttempt := None), [])
    case SendNote(_, ok, retryAt) =>
      if c.stage != PdfSaved then Effect(c, d, [])
      else if ok then Effect(c.(stage := NoteAccepted), d, [Note])
      else Closed(c, d.(state := Failed, nextAttempt := Some(retryAt)), NotSent)
    case SaveNote(_) =>
      if c.stage != NoteAccepted then Effect(c, d, [])
      else Closed(c, d.(state := Delivered, sentAt := Some(now), nextAttempt := None), Sent)
    case LoseRecord(_, retryAt) =>
      if c.stage !in {PdfAccepted, NoteAccepted} then Effect(c, d, [])
      else Closed(c, d.(state := Failed, nextAttempt := Some(retryAt)), NotSent)
  }

  function Out(ch: Channel, sends: seq<Kind>): seq<Message> {
    if sends == [] then [] else [Message(ch, sends[0])]
  }

  /** w' is w after call i has had the effect x on its channel. */
  predicate Affects(w: World, w': World, i: nat, x: Effect)
    requires i in w.calls && Open(w.calls[i])
  {
    var ch := Current(w.calls[i]);
    && w'.now == w.now && w'.state == w.state && w'.lease == w.lease && w'.pdfStored == w.pdfStored
    && w'.calls == w.calls[i := x.call]
    && w'.outbox == w.outbox + Out(ch, x.sends)
    && (forall y :: Row(w', y) == if y == ch then x.row else Row(w, y))
  }

  function EffectOf(w: World, e: Event): Effect
    requires Working(e) && e.id in w.calls && Open(w.calls[e.id])
  {
    Act(w.calls[e.id], Row(w, Current(w.calls[e.id])), w.pdfStored, w.now, e)
  }

  lemma LookActs(w: World, i: nat)
    requires i in w.calls && Open(w.calls[i])
    ensures Affects(w, DoLook(w, i), i, EffectOf(w, Look(i)))
  {
  }

  lemma MarkActs(w: World, i: nat)
    requires i in w.calls && Open(w.calls[i])
    ensures Affects(w, DoMark(w, i), i, EffectOf(w, Mark(i)))
  {
  }

  lemma SendPdfActs(w: World, i: nat, ok: bool, retryAt: int)
    requires i in w.calls && Open(w.calls[i])
    ensures Affects(w, DoSendPdf(w, i, ok, retryAt), i, EffectOf(w, SendPdf(i, ok, retryAt)))
  {
  }

  lemma SendNoteActs(w: World, i: nat, ok: bool, retryAt: int)
    requires i in w.calls && Open(w.calls[i])
    ensures Affects(w, DoSendNote(w, i, ok, retryAt), i, EffectOf(w, SendNote(i, ok, retryAt)))
  {
  }

  lemma SaveActs(w: World, i: nat)
    requires i in w.calls && Open(w.calls[i])
    ensures Affects(w, DoSavePdf(w, i), i, EffectOf(w, SavePdf(i)))
    ensures Affects(w, DoSaveNote(w, i), i, EffectOf(w, SaveNote(i)))
  {
  }

  lemma LoseRecordActs(w: World, i: nat, retryAt: int)
    requires i in w.calls && Open(w.calls[i])
    ensures Affects(w, DoLoseRecord(w, i, retryAt), i, EffectOf(w, LoseRecord(i, retryAt)))
  {
  }

  /** The table of effects is what the statements do. */
  lemma StatementActs(w: World, e: Event)
    requires Working(e) && e.id in w.calls && Open(w.calls[e.id])
    ensures Affects(w, Step(w, e), e.id, EffectOf(w, e))
  {
    match e
    case Look(i) => LookActs(w, i);
    case Mark(i) => MarkActs(w, i);
    case SendPdf(i, ok, retryAt) => SendPdfActs(w, i, ok, retryAt);
    case SendNote(i, ok, retryAt) => SendNoteActs(w, i, ok, retryAt);
    case SavePdf(i) => SaveActs(w, i);
    case SaveNote(i) => SaveActs(w, i);
    case LoseRecord(i, retryAt) => LoseRecordActs(w, i, retryAt);
  }

  // ---------------------------------------------------------------- the service's own control flow

  /** The sending half of deliverChannel, statement by statement. */
  function SendOut(w: World, id: nat, pdfOk: bool, noteOk: bool, retryAt: int): World {
    Step(Step(Step(Step(Step(w, Mark(id)), SendPdf(id, pdfOk, retryAt)), SavePdf(id)), SendNote(id, noteOk, retryAt)),
         SaveNote(id))
  }

  /** What validating the candidate in 1C can come to. */
  datatype Validation = StillCurrent | Outdated | Throws

  /** deliverChannel run without interruption, as the sequence of its statements. */
  function Uninterrupted(w: World, id: nat, answer: Validation, pdfOk: bool, noteOk: bool, retryAt: int): World {
    var w1 := Step(w, Look(id));
    if id !in w1.calls || !w1.calls[id].stage.Looked? then w1
    else
      match answer
      case Throws => Step(w1, Break(id))
      case Outdated => Step(w1, Abandon(id))
      case StillCurrent => SendOut(w1, id, pdfOk, noteOk, retryAt)
  }

  /** What those statements amount to: the row, the messages and the result they leave. */
  lemma SendOutAmounts(w: World, id: nat, pdfOk: bool, noteOk: bool, retryAt: int)
    requires id in w.calls && Open(w.calls[id]) && Current(w.calls[id]) in w.deliveries
    requires w.calls[id].stage == Looked(w.deliveries[Current(w.calls[id])])
    ensures var (c, d) := (w.calls[id], w.deliveries[Current(w.calls[id])]);
      var tried := d.(state := InProgress, attempts := d.attempts + 1);
      var stored := if d.sentAt.Some? then tried else tried.(sentAt := Some(w.now), nextAttempt := None);
      var pdf := if d.sentAt.Some? then w.outbox else w.outbox + [Message(Current(c), Pdf)];
      SendOut(w, id, pdfOk, noteOk, retryAt)
      == if d.sentAt.None? && !pdfOk then
           Record(w, id, tried.(state := Failed, nextAttempt := Some(retryAt)), NotSent)
         else if !noteOk then
           Record(w, id, stored.(state := Failed, nextAttempt := Some(retryAt)), NotSent).(outbox := pdf)
         else
           Record(w, id, stored.(state := Delivered, sentAt := Some(w.now), nextAttempt := None), Sent)
             .(outbox := pdf + [Message(Current(c), Note)])
  {
    DocumentHalf(w, id, pdfOk, retryAt);
    var w3 := Step(Step(Step(w, Mark(id)), SendPdf(id, pdfOk, retryAt)), SavePdf(id));
    if w.deliveries[Current(w.calls[id])].sentAt.None? && !pdfOk {
      FailedChannelRests(w3, id, noteOk, retryAt);
    } else {
      NoteHalf(w3, id, noteOk, retryAt);
    }
  }

  lemma DocumentHalf(w: World, id: nat, pdfOk: bool, retryAt: int)
    requires id in w.calls && Open(w.calls[id]) && Current(w.calls[id]) in w.deliveries
    requires w.calls[id].stage == Looked(w.deliveries[Current(w.calls[id])])
    ensures var (c, d) := (w.calls[id], w.deliveries[Current(w.calls[id])]);
      var tried := d.(state := InProgress, attempts := d.attempts + 1);
      Step(Step(Step(w, Mark(id)), SendPdf(id, pdfOk, retryAt)), SavePdf(id))
      == if d.sentAt.None? && !pdfOk then
           Record(w, id, tried.(state := Failed, nextAttempt := Some(retryAt)), NotSent)
         else if d.sentAt.None? then
           PutCall(w, id, c.(stage := PdfSaved))
             .(deliveries := w.deliveries[Current(c) := tried.(sentAt := Some(w.now), nextAttempt := None)],
               outbox := w.outbox + [Message(Current(c), Pdf)])
         else PutCall(w, id, c.(stage := PdfSaved)).(deliveries := w.deliveries[Current(c) := tried])
  {
    MarkAmounts(w, id);
    var (c, d) := (w.calls[id], w.deliveries[Current(w.calls[id])]);
    var tried := d.(state := InProgress, attempts := d.attempts + 1);
    var marked := PutCall(w.(deliveries := w.deliveries[Current(c) := tried]), id, c.(stage := Marked(d)));
    PdfAmounts(marked, id, pdfOk, retryAt);
  }

  lemma MarkAmounts(w: World, id: nat)
    requires id in w.calls && Open(w.calls[id]) && Current(w.calls[id]) in w.deliveries
    requires w.calls[id].stage == Looked(w.deliveries[Current(w.calls[id])])
    ensures var (c, d) := (w.calls[id], w.deliveries[Current(w.calls[id])]);
      Step(w, Mark(id))
      == PutCall(w.(deliveries := w.deliveries[Current(c) := d.(state := InProgress, attempts := d.attempts + 1)]),
                 id, c.(stage := Marked(d)))
  {
  }

  lemma PdfAmounts(w: World, id: nat, pdfOk: bool, retryAt: int)
    requires id in w.calls && Open(w.calls[id]) && Current(w.calls[id]) in w.deliveries && w.calls[id].stage.Marked?
    ensures var (c, tried) := (w.calls[id], w.deliveries[Current(w.calls[id])]);
      Step(Step(w, SendPdf(id, pdfOk, retryAt)), SavePdf(id))
      == if c.stage.existing.sentAt.None? && !pdfOk then
           Record(w, id, tried.(state := Failed, nextAttempt := Some(retryAt)), NotSent)
         else if c.stage.existing.sentAt.None? then
           PutCall(w, id, c.(stage := PdfSaved))
             .(deliveries := w.deliveries[Current(c) := tried.(sentAt := Some(w.now), nextAttempt := None)],
               outbox := w.outbox + [Message(Current(c), Pdf)])
         else PutCall(w, id, c.(stage := PdfSaved))
  {
  }

  lemma NoteHalf(w: World, id: nat, noteOk: bool, retryAt: int)
    requires id in w.calls && Open(w.calls[id]) && w.calls[id].stage == PdfSaved && Current(w.calls[id]) in w.deliveries
    ensures var (c, d) := (w.calls[id], w.deliveries[Current(w.calls[id])]);
      Step(Step(w, SendNote(id, noteOk, retryAt)), SaveNote(id))
      == if noteOk then
           Record(w, id, d.(state := Delivered, sentAt := Some(w.now), nextAttempt := None), Sent)
             .(outbox := w.outbox + [Message(Current(c), Note)])
         else Record(w, id, d.(state := Failed, nextAttempt := Some(retryAt)), NotSent)
  {
  }

  lemma FailedChannelRests(w: World, id: nat, noteOk: bool, retryAt: int)
    requires id in w.calls && w.calls[id].stage == Between
    ensures Step(Step(w, SendNote(id, noteOk, retryAt)), SaveNote(id)) == w
  {
  }

  class InvoiceStore {
    var now: int
    var state: InvoiceState
    var lease: Option<int>
    var attempts: nat
    var pdfStored: bool
    var deliveries: map<Channel, Delivery>
    var calls: map<nat, Call>
    var outbox: seq<Message>

    ghost function View(): World
      reads this
    {
      World(now, state, lease, attempts, pdfStored, deliveries, calls, outbox)
    }

    /** The conditional update that claims the invoice; the count of rows hit tells who won. */
    method ClaimInvoice(id: nat, eligible: set<Channel>) returns (count: nat)
      requires id !in calls
      modifies this
      ensures View() == Step(old(View()), Claim(id, eligible))
      ensures count == 1 <==> Processable(old(state)) && (old(lease).None? || old(lease).value <= now)
    {
      if state !in {QUEUED, SENDING, PARTIAL, ERROR, AVAILABLE} { return 0; }
      if lease.Some? && lease.value > now { return 0; }
      state, lease, attempts := SENDING, Some(now + LEASE_MS), attempts + 1;
      calls := calls[id := Call(eligible, [], Between)];
      count := 1;
    }

    /** Sends the document unless it went out before, then the note, recording each acceptance. */
    method SendMessages(id: nat, pdfOk: bool, noteOk: bool, retryAt: int)
      requires id in calls && Open(calls[id]) && Current(calls[id]) in deliveries
      requires calls[id].stage == Looked(deliveries[Current(calls[id])])
      modifies `deliveries, `calls, `outbox
      ensures View() == SendOut(old(View()), id, pdfOk, noteOk, retryAt)
    {
      SendOutAmounts(View(), id, pdfOk, noteOk, retryAt);
      var c := calls[id];
      var ch := Current(c);
      var existing := deliveries[ch];
      var d := existing.(state := InProgress, attempts := existing.attempts + 1);
      var r := NotSent;
      var failed := existing.sentAt.None? && !pdfOk;
      if existing.sentAt.None? && pdfOk {
        outbox := outbox + [Message(ch, Pdf)];
        d := d.(sentAt := Some(now), nextAttempt := None);
      }
      if !failed && noteOk {
        outbox := outbox + [Message(ch, Note)];
        d, r := d.(state := Delivered, sentAt := Some(now), nextAttempt := None), Sent;
      } else {
        d := d.(state := Failed, nextAttempt := Some(retryAt));
      }
      deliveries := deliveries[ch := d];
      calls := calls[id := c.(stage := Between, results := c.results + [r])];
    }

    /** The first half of deliverChannel: reads or creates the row and decides whether to send. */
    method LookAtChannel(id: nat) returns (ready: bool)
      requires id in calls && Open(calls[id]) && calls[id].stage == Between && pdfStored
      modifies `deliveries, `calls
      ensures View() == Step(old(View()), Look(id))
      ensures id in calls && (ready <==> calls[id].stage.Looked?)
      ensures ready ==> Open(calls[id]) && Current(calls[id]) in deliveries
                        && calls[id].stage == Looked(deliveries[Current(calls[id])])
    {
      var c := calls[id];
      var ch := Current(c);
      var d := if ch in deliveries then deliveries[ch] else Delivery(Pending, 0, None, None);
      deliveries := deliveries[ch := d];
      var r := NotSent;
      ready := false;
      if d.state == Delivered {
        r := Sent;
      } else if ch !in c.eligible {
        deliveries, r := deliveries[ch := d.(state := Skipped)], NotEligible;
      } else if d.nextAttempt.None? || d.nextAttempt.value <= now {
        calls := calls[id := c.(stage := Looked(d))];
        return true;
      }
      calls := calls[id := c.(results := c.results + [r])];
    }

    /** deliverChannel for the call's current channel; `answer`, `pdfOk` and `noteOk` come from 1C
        and from the messenger.  A validation that throws ends the call in processInvoice's handler. */
    method DeliverChannel(id: nat, answer: Validation, pdfOk: bool, noteOk: bool, retryAt: int)
      requires id in calls && Open(calls[id]) && calls[id].stage == Between && pdfStored
      modifies `state, `lease, `deliveries, `calls, `outbox
      ensures View() == Uninterrupted(old(View()), id, answer, pdfOk, noteOk, retryAt)
    {
      var ready := LookAtChannel(id);
      if !ready { return; }
      if answer == Throws {
        calls := calls - {id};
        if state != SUPERSEDED { state, lease := ERROR, None; }
      } else if answer == Outdated {
        calls, state, lease := calls - {id}, SUPERSEDED, None;
      } else {
        SendMessages(id, pdfOk, noteOk, retryAt);
      }
    }

    /** The closing update: counts the channel results and writes the verdict. */
    method WriteVerdict(id: nat) returns (verdict: InvoiceState)
      requires id in calls && |calls[id].results| == |CHANNELS| && calls[id].stage == Between
      modifies `state, `lease, `calls
      ensures View() == Step(old(View()), Finish(id)) && verdict == state
    {
      var c := calls[id];
      var eligible, sent, failed, historical := 0, 0, 0, false;
      for k := 0 to |CHANNELS|
        invariant eligible == N.One(k > 0 && Telegram in c.eligible) + N.One(k > 1 && Max in c.eligible)
        invariant sent == EligibleWith(c, Sent, k) && failed == EligibleWith(c, NotSent, k)
        invariant historical <==> Sent in c.results[..k]
        invariant calls == old(calls)
      {
        assert c.results[..k + 1] == c.results[..k] + [c.results[k]];
        if c.results[k] == Sent { historical := true; }
        if CHANNELS[k] in c.eligible {
          eligible := eligible + 1;
          if c.results[k] == Sent { sent := sent + 1; }
          if c.results[k] == NotSent { failed := failed + 1; }
        }
      }
      assert c.results[..|CHANNELS|] == c.results;
      if eligible == 0 {
        verdict := if historical then SENT else ERROR;
      } else if failed == 0 && sent == eligible {
        verdict := SENT;
      } else {
        verdict := if sent > 0 then PARTIAL else ERROR;
      }
      state, lease, calls := verdict, None, calls[id := c.(stage := Acking)];
    }
  }
}
