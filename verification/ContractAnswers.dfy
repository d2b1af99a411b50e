/** What the contract loop's answers mean when the executor keeps its word: reads see the last write, a reply
    says whether the state changed, and the loop stops exactly on a fatal error. */
module ContractAnswers {
  import opened Messages
  import opened DelegateLoop
  import opened Stores
  import opened C = ContractLoop

  // ---------------------------------------------------------------- one event

  predicate IsWrite(e: Event) {
    e.PutQuery? || (e.UpdateQuery? && AsUpsert(e.data).Some?)
  }

  /** What the contract makes of the write in an event. */
  function Outcome<S>(m: Meaning<S>, s: S, e: Event): Result<Blob, ExecutorError>
    requires IsWrite(e)
  {
    if e.PutQuery? then m.merge(s, e.key, FullState(e.state), e.related, e.contract)
    else m.merge(s, e.key, AsUpsert(e.data).value, e.related, None)
  }

  /** The error the executor runs into on an event. */
  function Failure<S>(x: Executor<S>, m: Meaning<S>, s: S, e: Event): Option<ExecutorError> {
    if IsWrite(e) then (if Outcome(m, s, e).Err? then Some(Outcome(m, s, e).error) else None)
    else if e.GetQuery? && Known(x, s, e.instanceId) then m.unreadable(s, x.lookup(s, e.instanceId).value, e.returnCode)
    else None
  }

  /** The error a reply to a get, put or update reports. */
  function Reported(reply: Event): Option<ExecutorError> {
    match reply
    case GetResponse(_, Err(error)) => Some(error)
    case PutResponse(Err(error), _) => Some(error)
    case UpdateResponse(Err(error), _) => Some(error)
    case _ => None
  }

  /** The reply says that the state changed. */
  predicate SaysChanged(v: Verdict) {
    v.Answer? && ((v.reply.PutResponse? && v.reply.stateChanged) || (v.reply.UpdateResponse? && v.reply.stateChanged))
  }

  lemma {:induction false} WriteLaws<S(!new)>(x: Executor<S>, m: Meaning<S>, s: S, e: Event)
    requires Lawful(x, m) && IsWrite(e)
    ensures e.PutQuery? ==> Writes(x, m, s, e.key, FullState(e.state), e.related, e.contract)
    ensures e.UpdateQuery? ==> Writes(x, m, s, e.key, AsUpsert(e.data).value, e.related, None)
    ensures e.UpdateQuery? ==> Reads(x, m, x.upsert(s, e.key, AsUpsert(e.data).value, e.related, None).0, e.key, false)
  {
  }

  /** A put or update leaves what the contract makes of it, or what was there if the contract refuses; the
      reply says that the state changed exactly when it did; no other contract is touched. */
  lemma {:induction false} JudgedWrite<S(!new)>(x: Executor<S>, m: Meaning<S>, h: Host<S>, e: Event)
    requires Lawful(x, m) && IsWrite(e)
    ensures var (w, verdict) := Judge(x, h, e);
            && (Outcome(m, h.store, e).Ok? ==> Holds(x, m, w.store, e.key.id, Outcome(m, h.store, e).value))
            && (Outcome(m, h.store, e).Err? ==> Kept(x, m, h.store, w.store, e.key.id))
            && (SaysChanged(verdict) <==> m.value(w.store, e.key.id) != m.value(h.store, e.key.id))
  {
    hide Lawful, Conversation;
    WriteLaws(x, m, h.store, e);
  }

  /** An event that runs no delegate leaves every contract alone that it does not change. */
  lemma {:induction false} JudgedElsewhere<S(!new)>(x: Executor<S>, m: Meaning<S>, h: Host<S>, e: Event, id: ContractInstanceId)
    requires Lawful(x, m) && !e.DelegateQuery? && (IsWrite(e) && e.key.id == id ==> !SaysChanged(Judge(x, h, e).1))
    ensures Kept(x, m, h.store, Judge(x, h, e).0.store, id)
  {
    hide Lawful, Conversation;
    if IsWrite(e) {
      WriteLaws(x, m, h.store, e);
      JudgedWrite(x, m, h, e);
      var change := if e.PutQuery? then FullState(e.state) else AsUpsert(e.data).value;
      var s := x.upsert(h.store, e.key, change, e.related, if e.PutQuery? then e.contract else None).0;
      if e.key.id != id {
        assert Kept(x, m, h.store, s, id) && (e.UpdateQuery? ==> Kept(x, m, s, x.fetch(s, e.key, false).0, id));
      }
    } else {
      QuietLaws(x, m, h, e);
    }
  }

  lemma {:induction false} QuietLaws<S(!new)>(x: Executor<S>, m: Meaning<S>, h: Host<S>, e: Event)
    requires Lawful(x, m)
    ensures e.GetQuery? && Known(x, h.store, e.instanceId) ==>
              Reads(x, m, h.store, x.lookup(h.store, e.instanceId).value, e.returnCode)
              && x.lookup(h.store, e.instanceId).value.id == e.instanceId
    ensures e.GetSummaryQuery? ==> Unchanged(x, m, h.store, x.summarize(h.store, e.key).0)
    ensures e.GetDeltaQuery? ==> Unchanged(x, m, h.store, x.delta(h.store, e.key, e.theirSummary).0)
    ensures Books(x, m, h, e)
  {
  }

  /** The put was merged into the state on record without changing it, and is not that state itself. */
  predicate Stale<S>(x: Executor<S>, m: Meaning<S>, s: S, e: Event)
    requires e.PutQuery?
  {
    x.upsert(s, e.key, FullState(e.state), e.related, e.contract).1 == Ok(NoChange) && m.value(s, e.key.id) != Some(e.state)
  }

  /** An accepted put is answered with the state now on record, except when a stale one is reported as making
      no change: then it is answered with itself. */
  lemma {:induction false} PutAnswer<S(!new)>(x: Executor<S>, m: Meaning<S>, h: Host<S>, e: Event)
    requires Lawful(x, m) && e.PutQuery? && Outcome(m, h.store, e).Ok?
    ensures var (w, verdict) := Judge(x, h, e);
            && verdict.Answer? && verdict.reply.PutResponse? && verdict.reply.newValue.Ok?
            && (Some(verdict.reply.newValue.value) == m.value(w.store, e.key.id) <==> !Stale(x, m, h.store, e))
            && (Stale(x, m, h.store, e) ==> verdict.reply.newValue.value == e.state)
  {
    hide Lawful, Conversation;
    WriteLaws(x, m, h.store, e);
  }

  /** An accepted update is answered with the state now on record; only an update that changes nothing on a
      state that cannot be read back is answered without one. */
  lemma {:induction false} UpdateAnswer<S(!new)>(x: Executor<S>, m: Meaning<S>, h: Host<S>, e: Event)
    requires Lawful(x, m) && IsWrite(e) && e.UpdateQuery? && Outcome(m, h.store, e).Ok?
    ensures var (w, verdict) := Judge(x, h, e);
            var (s, r) := x.upsert(h.store, e.key, AsUpsert(e.data).value, e.related, None);
            verdict.Answer? &&
            if r == Ok(NoChange) && m.unreadable(s, e.key, false).Some? then verdict.reply == UpdateNoChange(e.key)
            else verdict.reply.UpdateResponse? && verdict.reply.newValue.Ok?
                 && Some(verdict.reply.newValue.value) == m.value(w.store, e.key.id)
  {
    hide Lawful, Conversation;
    WriteLaws(x, m, h.store, e);
  }

  /** A get of an unknown contract finds nothing; of a known one, the state on record, and the code if and only
      if it was asked for. */
  lemma {:induction false} GetAnswer<S(!new)>(x: Executor<S>, m: Meaning<S>, h: Host<S>, e: Event)
    requires Lawful(x, m) && e.GetQuery? && Failure(x, m, h.store, e).None?
    ensures var verdict := Judge(x, h, e).1;
            verdict == Answer(
              if Known(x, h.store, e.instanceId)
              then GetResponse(x.lookup(h.store, e.instanceId),
                               Ok(StoreResponse(m.value(h.store, e.instanceId),
                                                if e.returnCode then m.code(h.store, x.lookup(h.store, e.instanceId).value)
                                                else None)))
              else GetResponse(None, Ok(StoreResponse(None, None))))
  {
    hide Lawful, Conversation;
    QuietLaws(x, m, h, e);
  }

  /** A get, put or update reports exactly the error the executor ran into; a fatal one is not answered and
      stops the loop, and nothing else does. */
  lemma {:induction false} FailsExactly<S(!new)>(x: Executor<S>, m: Meaning<S>, h: Host<S>, e: Event)
    requires Lawful(x, m)
    ensures var verdict, failure := Judge(x, h, e).1, Failure(x, m, h.store, e);
            && (verdict.Fatal? <==> failure.Some? && failure.value.fatal)
            && (verdict.Answer? ==> Reported(verdict.reply) == failure)
            && (failure.Some? && !failure.value.fatal ==> verdict.Answer?)
  {
    hide Lawful, Conversation;
    if IsWrite(e) {
      WriteLaws(x, m, h.store, e);
    } else {
      QuietLaws(x, m, h, e);
    }
  }

  /** Summaries and deltas are the contract's own, of the state on record and against the summary given. */
  lemma {:induction false} SummaryAnswer<S(!new)>(x: Executor<S>, m: Meaning<S>, h: Host<S>, e: Event)
    requires Lawful(x, m)
    ensures e.GetSummaryQuery? ==> Judge(x, h, e).1 == Answer(GetSummaryResponse(e.key, m.summary(h.store, e.key)))
    ensures e.GetDeltaQuery? ==> Judge(x, h, e).1 == Answer(GetDeltaResponse(e.key, m.difference(h.store, e.key, e.theirSummary)))
  {
    hide Conversation;
  }

  // ---------------------------------------------------------------- whole runs

  /** The loop when it comes to serving an event: the channel drained and the notifications handled. */
  function Drained<S>(x: Executor<S>, l: Loop<S>, env: Env): Loop<S> {
    Drain(x, Arrive(l, env.arrivals, env.notes, env.close), MAX_DRAIN_BATCH)
  }

  function Prepared<S>(x: Executor<S>, l: Loop<S>, env: Env): Loop<S> {
    Notes(x, Drained(x, l, env), MAX_DELEGATE_DRAIN_BATCH)
  }

  predicate Serves<S>(x: Executor<S>, l: Loop<S>, env: Env, item: Item) {
    && l.status.Running? && Drained(x, l, env).status.Running?
    && CanPop(Prepared(x, l, env).queue) && Prepared(x, l, env).queue[0].items[0] == item
  }

  /** What the iteration decides for the event it serves, and on which store. */
  function VerdictOn<S>(x: Executor<S>, l: Loop<S>, env: Env, item: Item): Verdict {
    Judge(x, Prepared(x, l, env).host, item.event).1
  }

  function StoreFor<S>(x: Executor<S>, l: Loop<S>, env: Env): S {
    Prepared(x, l, env).host.store
  }

  ghost predicate NoteSpares<S(!new)>(x: Executor<S>, m: Meaning<S>, h: Host<S>, n: Notification, id: ContractInstanceId) {
    Spared(x, m, h, NotificationRequest(n), None, n.delegate, id)
  }

  /** No delegate notified writes the contract. */
  ghost predicate NotesSpared<S(!new)>(x: Executor<S>, m: Meaning<S>, l: Loop<S>, n: nat, id: ContractInstanceId)
    decreases |l.notes|
  {
    n == 0 || l.notes == [] || (NoteSpares(x, m, l.host, l.notes[0], id) && NotesSpared(x, m, NoteOne(x, l), n - 1, id))
  }

  /** The event served is no write of the contract that changes it, nor a delegate that is granted one. */
  ghost predicate EventSpares<S(!new)>(x: Executor<S>, m: Meaning<S>, h: Host<S>, e: Event, id: ContractInstanceId) {
    if e.DelegateQuery? then Spared(x, m, h, e.req, e.origin, e.req.key, id)
    else IsWrite(e) && e.key.id == id ==> !SaysChanged(Judge(x, h, e).1)
  }

  /** Nobody changes the contract before the iteration serves its event. */
  ghost predicate PreludeSpares<S(!new)>(x: Executor<S>, m: Meaning<S>, l: Loop<S>, env: Env, id: ContractInstanceId) {
    NotesSpared(x, m, Drained(x, l, env), MAX_DELEGATE_DRAIN_BATCH, id)
  }

  /** Nobody changes the contract in the iteration. */
  ghost predicate Spares<S(!new)>(x: Executor<S>, m: Meaning<S>, l: Loop<S>, env: Env, id: ContractInstanceId) {
    l.status.Running? ==>
      && PreludeSpares(x, m, l, env, id)
      && var p := Prepared(x, l, env);
         if CanPop(p.queue) then EventSpares(x, m, p.host, p.queue[0].items[0].event, id)
         else var b := Arrive(p, env.late, env.lateNotes, env.lateClose);
              env.wake.WakeNote? && b.notes != [] ==> NoteSpares(x, m, b.host, b.notes[0], id)
  }

  lemma {:induction false} DrainKept<S(!new)>(x: Executor<S>, m: Meaning<S>, l: Loop<S>, n: nat, id: ContractInstanceId)
    requires Lawful(x, m)
    ensures Kept(x, m, l.host.store, Drain(x, l, n).host.store, id)
    decreases n
  {
    hide Lawful, Q.Accepts, Q.Pushed, QueueFullReply;
    if n > 0 && l.pending != [] {
      QuietLaws(x, m, l.host, l.pending[0].event);
      assert Kept(x, m, l.host.store, x.bookkeeping(l.host, l.pending[0].event).store, id);
      DrainKept(x, m, DrainOne(x, l), n - 1, id);
    }
  }

  lemma {:induction false} NoteKept<S(!new)>(x: Executor<S>, m: Meaning<S>, l: Loop<S>, id: ContractInstanceId)
    requires Lawful(x, m) && l.notes != [] && NoteSpares(x, m, l.host, l.notes[0], id)
    ensures Kept(x, m, l.host.store, NoteOne(x, l).host.store, id)
  {
    hide Lawful, Conversation, Spared, ForApps;
    var n := l.notes[0];
    SparedIsKept(x, m, l.host, NotificationRequest(n), None, n.delegate, id);
  }

  lemma {:induction false} NotesKept<S(!new)>(x: Executor<S>, m: Meaning<S>, l: Loop<S>, n: nat, id: ContractInstanceId)
    requires Lawful(x, m) && NotesSpared(x, m, l, n, id)
    ensures Kept(x, m, l.host.store, Notes(x, l, n).host.store, id)
    decreases n
  {
    hide Lawful, NoteOne, NoteSpares;
    if n > 0 && l.notes != [] {
      NoteKept(x, m, l, id);
      NotesKept(x, m, NoteOne(x, l), n - 1, id);
    }
  }

  lemma {:induction false} PreludeKept<S(!new)>(x: Executor<S>, m: Meaning<S>, l: Loop<S>, env: Env, id: ContractInstanceId)
    requires Lawful(x, m) && PreludeSpares(x, m, l, env, id)
    ensures Kept(x, m, l.host.store, StoreFor(x, l, env), id) && Kept(x, m, l.host.store, Drained(x, l, env).host.store, id)
  {
    hide Lawful, Drain, Notes, NotesSpared;
    DrainKept(x, m, Arrive(l, env.arrivals, env.notes, env.close), MAX_DRAIN_BATCH, id);
    NotesKept(x, m, Drained(x, l, env), MAX_DELEGATE_DRAIN_BATCH, id);
  }

  lemma {:induction false} EventKept<S(!new)>(x: Executor<S>, m: Meaning<S>, h: Host<S>, e: Event, id: ContractInstanceId)
    requires Lawful(x, m) && EventSpares(x, m, h, e, id)
    ensures Kept(x, m, h.store, Judge(x, h, e).0.store, id)
  {
    hide Lawful, Conversation, Spared, SaysChanged;
    if e.DelegateQuery? {
      SparedIsKept(x, m, h, e.req, e.origin, e.req.key, id);
      var h1 := Conversation(x, h, e.req, e.origin, e.req.key).0;
      QuietLaws(x, m, h1, e);
      assert Kept(x, m, h1.store, x.bookkeeping(h1, e).store, id);
    } else {
      JudgedElsewhere(x, m, h, e, id);
    }
  }

  lemma {:induction false} IterateKept<S(!new)>(x: Executor<S>, m: Meaning<S>, l: Loop<S>, env: Env, id: ContractInstanceId)
    requires Lawful(x, m) && Spares(x, m, l, env, id)
    ensures Kept(x, m, l.host.store, Iterate(x, l, env).host.store, id)
  {
    hide Lawful, Drain, Notes, NotesSpared, NoteOne, NoteSpares, Judge, EventSpares, Enqueue, Q.Popped;
    if l.status.Running? {
      PreludeKept(x, m, l, env, id);
      var p := Prepared(x, l, env);
      if CanPop(p.queue) {
        EventKept(x, m, p.host, p.queue[0].items[0].event, id);
        HandleHost(x, p.(queue := Q.Popped(p.queue), served := p.served + [p.queue[0].items[0]]), p.queue[0].items[0]);
      } else {
        var b := Arrive(p, env.late, env.lateNotes, env.lateClose);
        EnqueueHost(b);
        if env.wake.WakeNote? && b.notes != [] {
          NoteKept(x, m, b, id);
        }
      }
    }
  }

  lemma {:induction false} HandleHost<S>(x: Executor<S>, l: Loop<S>, item: Item)
    ensures Handle(x, l, item).host == Judge(x, l.host, item.event).0
  {
    hide Judge;
  }

  lemma {:induction false} EnqueueHost<S>(l: Loop<S>)
    ensures l.pending != [] ==> Enqueue(Receive(l), l.pending[0]).host == l.host
  {
    hide Q.Accepts, Q.Pushed, QueueFullReply;
  }

  /** A contract that nobody changes from iteration `i` to `j` is the same at both. */
  lemma {:induction false} RunKept<S(!new)>(x: Executor<S>, m: Meaning<S>, l: Loop<S>, envs: seq<Env>, i: nat, j: nat, id: ContractInstanceId)
    requires Lawful(x, m) && i <= j <= |envs|
    requires forall k :: i <= k < j ==> Spares(x, m, Run(x, l, envs[..k]), envs[k], id)
    ensures Kept(x, m, Run(x, l, envs[..i]).host.store, Run(x, l, envs[..j]).host.store, id)
    decreases j
  {
    hide Lawful, Spares, Iterate;
    if i < j {
      RunKept(x, m, l, envs, i, j - 1, id);
      assert envs[..j][..j - 1] == envs[..j - 1];
      IterateKept(x, m, Run(x, l, envs[..j - 1]), envs[j - 1], id);
    }
  }

  /** The state a put or an update is answered with. */
  function Stated(v: Verdict): Option<Blob> {
    match v
    case Answer(PutResponse(Ok(state), _)) => Some(state)
    case Answer(UpdateResponse(Ok(state), _)) => Some(state)
    case _ => None
  }

  /** A write served in an iteration and answered with a state leaves that state, unless it is a stale put. */
  lemma {:induction false} ServedWriteHolds<S(!new)>(x: Executor<S>, m: Meaning<S>, l: Loop<S>, env: Env, item: Item)
    requires Lawful(x, m) && Serves(x, l, env, item) && IsWrite(item.event) && Stated(VerdictOn(x, l, env, item)).Some?
    requires item.event.PutQuery? ==> !Stale(x, m, StoreFor(x, l, env), item.event)
    ensures Holds(x, m, Iterate(x, l, env).host.store, item.event.key.id, Stated(VerdictOn(x, l, env, item)).value)
  {
    hide Lawful, Drain, Notes, Judge, Stale, Q.Popped;
    var p := Prepared(x, l, env);
    JudgedWrite(x, m, p.host, item.event);
    FailsExactly(x, m, p.host, item.event);
    if item.event.PutQuery? {
      PutAnswer(x, m, p.host, item.event);
    } else {
      UpdateAnswer(x, m, p.host, item.event);
    }
    HandleHost(x, p.(queue := Q.Popped(p.queue), served := p.served + [item]), item);
  }

  /** In every run: a get served after a put or an update that was answered with state `v`, while nobody changes
      the contract in between, is answered with `v`, or with the error the executor ran into. */
  lemma {:induction false} GetSeesLastWrite<S(!new)>(x: Executor<S>, m: Meaning<S>, l: Loop<S>, envs: seq<Env>, i: nat, j: nat,
                                                     write: Item, get: Item)
    requires Lawful(x, m) && i < j < |envs| && IsWrite(write.event) && get.event.GetQuery? && get.event.instanceId == write.event.key.id
    requires Serves(x, Run(x, l, envs[..i]), envs[i], write) && Serves(x, Run(x, l, envs[..j]), envs[j], get)
    requires Stated(VerdictOn(x, Run(x, l, envs[..i]), envs[i], write)).Some?
    requires write.event.PutQuery? ==> !Stale(x, m, StoreFor(x, Run(x, l, envs[..i]), envs[i]), write.event)
    requires forall k :: i < k < j ==> Spares(x, m, Run(x, l, envs[..k]), envs[k], write.event.key.id)
    requires PreludeSpares(x, m, Run(x, l, envs[..j]), envs[j], write.event.key.id)
    ensures var v := VerdictOn(x, Run(x, l, envs[..j]), envs[j], get);
            if Failure(x, m, StoreFor(x, Run(x, l, envs[..j]), envs[j]), get.event).None? then
              && v.Answer? && v.reply.GetResponse? && v.reply.found.Some? && v.reply.found.value.id == write.event.key.id
              && v.reply.response.Ok?
              && v.reply.response.value.state == Stated(VerdictOn(x, Run(x, l, envs[..i]), envs[i], write))
            else v.Fatal? || (v.Answer? && Reported(v.reply) == Failure(x, m, StoreFor(x, Run(x, l, envs[..j]), envs[j]), get.event))
  {
    hide Lawful, Drain, Notes, Judge, Stale, Spares, PreludeSpares, Iterate, Failure, Serves, Run;
    var id, a, b := write.event.key.id, Run(x, l, envs[..i]), Run(x, l, envs[..j]);
    ServedWriteHolds(x, m, a, envs[i], write);
    RunSnoc(x, l, envs, i);
    RunKept(x, m, l, envs, i + 1, j, id);
    PreludeKept(x, m, b, envs[j], id);
    var h := Prepared(x, b, envs[j]).host;
    assert Holds(x, m, h.store, id, Stated(VerdictOn(x, a, envs[i], write)).value);
    FailsExactly(x, m, h, get.event);
    QuietLaws(x, m, h, get.event);
    if Failure(x, m, h.store, get.event).None? {
      GetAnswer(x, m, h, get.event);
    }
  }

  lemma {:induction false} RunSnoc<S>(x: Executor<S>, l: Loop<S>, envs: seq<Env>, i: nat)
    requires i < |envs|
    ensures Run(x, l, envs[..i + 1]) == Iterate(x, Run(x, l, envs[..i]), envs[i])
  {
    hide Iterate;
    assert envs[..i + 1][..i] == envs[..i];
  }

  /** An answer reaches the caller as the iteration's only settlement of a served event, and the loop goes on;
      a fatal error stops the loop with the event in hand. */
  lemma {:induction false} ServedIsSettled<S>(x: Executor<S>, l: Loop<S>, env: Env, item: Item)
    requires C.Inv(l) && Once(Ids(Accounted(l)) + Ids(SentIn(x, l, env))) && Serves(x, l, env, item)
    ensures var p, w, v := Prepared(x, l, env), Iterate(x, l, env), VerdictOn(x, l, env, item);
            && (v.Answer? ==> w.settled == p.settled + [Settlement(item, Some(v.reply), false)] && w.status.Running?)
            && (v.Fatal? ==> w.settled == p.settled && w.status == Failed && w.inHand == Some(item))
            && (w.status == Failed <==> v.Fatal?)
  {
    hide Drain, Notes, Judge, C.Inv, Ids, Accounted, Q.Popped;
    ArriveKeeps(l, env.arrivals, env.notes, env.close);
    DrainKeeps(x, Arrive(l, env.arrivals, env.notes, env.close), MAX_DRAIN_BATCH);
    NotesKeep(x, Drained(x, l, env), MAX_DELEGATE_DRAIN_BATCH);
    var p := Prepared(x, l, env);
    PopHolds(p);
    StillWaiting(p.(queue := Q.Popped(p.queue), served := p.served + [item]), item);
  }

  lemma {:induction false} StillWaiting<S>(l: Loop<S>, item: Item)
    requires Holding(l, item)
    ensures item.id in l.waiting
  {
    hide Ids, Held, Accounted, Q.WellFormed, History;
    assert (Ids(Held(l)) + multiset{item.id})[item.id] > 0;
  }

  /** The loop stops on serving an event exactly when the executor failed fatally. */
  lemma {:induction false} StopsExactly<S(!new)>(x: Executor<S>, m: Meaning<S>, l: Loop<S>, env: Env, item: Item)
    requires Lawful(x, m) && C.Inv(l) && Once(Ids(Accounted(l)) + Ids(SentIn(x, l, env))) && Serves(x, l, env, item)
    ensures var failure := Failure(x, m, StoreFor(x, l, env), item.event);
            Iterate(x, l, env).status == Failed <==> failure.Some? && failure.value.fatal
  {
    hide Lawful, Prepared, Judge, C.Inv, Ids, Accounted, SentIn, Iterate, Serves, Failure;
    ServedIsSettled(x, l, env, item);
    FailsExactly(x, m, Prepared(x, l, env).host, item.event);
  }

  // ---------------------------------------------------------------- a lawful executor, and a stale put

  /** A store in memory: code and state by contract, and the listeners. */
  datatype Shelf = Shelf(states: map<ContractInstanceId, (nat, Blob)>, listeners: set<(ContractInstanceId, ClientId)>)

  const MISSING := ExecutorError(false, "missing contract")

  /** Of two full states the longer wins, the older one on a tie; a delta is appended. */
  function ShelfMerge(s: Shelf, key: ContractKey, change: Upsert, related: Blob, contract: Option<ContractContainer>)
    : Result<Blob, ExecutorError>
  {
    if key.id in s.states then
      var current := s.states[key.id].1;
      match change
      case FullState(state) => Ok(if |state| > |current| then state else current)
      case Delta(delta) => Ok(current + delta)
    else if change.FullState? && contract.Some? then Ok(change.state)
    else Err(MISSING)
  }

  function ShelfUpsert(s: Shelf, key: ContractKey, change: Upsert, related: Blob, contract: Option<ContractContainer>)
    : (Shelf, Result<UpsertResult, ExecutorError>)
  {
    match ShelfMerge(s, key, change, related, contract)
    case Err(error) => (s, Err(error))
    case Ok(v) =>
      (s.(states := s.states[key.id := (key.code, v)]),
       if key.id in s.states && s.states[key.id].1 == v then Ok(NoChange) else Ok(Updated(v)))
  }

  function ShelfBooks(h: Host<Shelf>, e: Event): Host<Shelf> {
    match e
    case RegisterSubscriberListener(id, c) => h.(store := h.store.(listeners := h.store.listeners + {(id, c)}))
    case ClientDisconnect(c) => h.(store := h.store.(listeners := set p <- h.store.listeners | p.1 != c))
    case _ => h
  }

  function ShelfValue(s: Shelf, id: ContractInstanceId): Option<Blob> {
    if id in s.states then Some(s.states[id].1) else None
  }

  function ShelfExecutor(): Executor<Shelf> {
    Executor(
      (s: Shelf, id: ContractInstanceId) => if id in s.states then Some(ContractKey(id, s.states[id].0)) else None,
      (s: Shelf, key: ContractKey, code: bool) => (s, Ok(StoreResponse(ShelfValue(s, key.id), None))),
      ShelfUpsert,
      (h: Host<Shelf>, req: DelegateRequest, origin: Option<ContractInstanceId>) => (h, Ok(HostOk)),
      (s: Shelf, key: ContractKey) => (s, Ok([])),
      (s: Shelf, key: ContractKey, summary: Blob) => (s, Ok([])),
      ShelfBooks)
  }

  function ShelfMeaning(): Meaning<Shelf> {
    Meaning(ShelfValue, (s: Shelf, key: ContractKey) => None, (s: Shelf, key: ContractKey, code: bool) => None, ShelfMerge,
            (s: Shelf, key: ContractKey) => Ok([]), (s: Shelf, key: ContractKey, summary: Blob) => Ok([]), (s: Shelf) => s.listeners)
  }

  /** The laws can be met. */
  lemma {:induction false} ShelfIsLawful()
    ensures Lawful(ShelfExecutor(), ShelfMeaning())
  {
    hide Writes, Books, ShelfUpsert, ShelfMerge, ShelfBooks;
    forall s, key, change, related, contract
      ensures Writes(ShelfExecutor(), ShelfMeaning(), s, key, change, related, contract)
    {
      ShelfWrites(s, key, change, related, contract);
    }
    forall h, e ensures Books(ShelfExecutor(), ShelfMeaning(), h, e) {
      ShelfKeepsBooks(h, e);
    }
  }

  lemma {:induction false} ShelfIsGenerous()
    ensures Generous(ShelfExecutor(), ShelfMeaning())
  {
    hide ShelfMerge;
  }

  lemma {:induction false} ShelfWrites(s: Shelf, key: ContractKey, change: Upsert, related: Blob, contract: Option<ContractContainer>)
    ensures Writes(ShelfExecutor(), ShelfMeaning(), s, key, change, related, contract)
  {
    hide ShelfMerge;
  }

  lemma {:induction false} ShelfKeepsBooks(h: Host<Shelf>, e: Event)
    ensures Books(ShelfExecutor(), ShelfMeaning(), h, e)
  {
    hide ShelfUpsert, ShelfMerge;
  }

  /** A put that loses against a longer state is answered with itself, although the store keeps the longer one,
      as the next get shows. */
  lemma {:induction false} StalePutIsAnsweredWithItself()
    ensures var x, key := ShelfExecutor(), ContractKey(7, 0);
            var (h1, first) := Judge(x, Host(Shelf(map[], {}), map[]), PutQuery(key, [1, 2], [], Some(ContractContainer(key, []))));
            var (h2, second) := Judge(x, h1, PutQuery(key, [3], [], None));
            && first == Answer(PutResponse(Ok([1, 2]), true))
            && second == Answer(PutResponse(Ok([3]), false))
            && Judge(x, h2, GetQuery(7, false)).1 == Answer(GetResponse(Some(key), Ok(StoreResponse(Some([1, 2]), None))))
  {
    hide Conversation;
  }

  // ---------------------------------------------------------------- listeners of disconnected clients

  function Leavers(items: seq<Item>): set<ClientId> {
    if items == [] then {}
    else (if items[0].event.ClientDisconnect? then {items[0].event.client} else {}) + Leavers(items[1..])
  }

  function Without(listeners: set<(ContractInstanceId, ClientId)>, gone: set<ClientId>): set<(ContractInstanceId, ClientId)> {
    set p <- listeners | p.1 !in gone
  }

  /** The events one batch takes off the channel. */
  function Batch(pending: seq<Item>, n: nat): seq<Item> {
    if |pending| <= n then pending else pending[..n]
  }

  lemma {:induction false} DrainOneHost<S>(x: Executor<S>, l: Loop<S>)
    requires l.pending != []
    ensures DrainOne(x, l).pending == l.pending[1..]
    ensures DrainOne(x, l).host == if l.pending[0].event.ClientDisconnect? then x.bookkeeping(l.host, l.pending[0].event) else l.host
  {
    hide Q.Accepts, Q.Pushed, QueueFullReply;
  }

  lemma {:induction false} DrainListeners<S(!new)>(x: Executor<S>, m: Meaning<S>, l: Loop<S>, n: nat)
    requires Lawful(x, m)
    ensures AtMost(x, m, m.listeners(Drain(x, l, n).host.store), Without(m.listeners(l.host.store), Leavers(Batch(l.pending, n))))
    decreases n
  {
    hide Lawful, Generous, DrainOne;
    if n > 0 && l.pending != [] {
      var item, w := l.pending[0], DrainOne(x, l);
      DrainOneHost(x, l);
      BooksExactly(x, m, l.host, item.event);
      DrainListeners(x, m, w, n - 1);
      assert Batch(l.pending, n)[0] == item && Batch(l.pending, n)[1..] == Batch(w.pending, n - 1);
    }
  }

  lemma {:induction false} BooksExactly<S(!new)>(x: Executor<S>, m: Meaning<S>, h: Host<S>, e: Event)
    requires Lawful(x, m)
    ensures AtMost(x, m, m.listeners(x.bookkeeping(h, e).store), Booked(m.listeners(h.store), e))
  {
    assert Books(x, m, h, e);
  }

  lemma {:induction false} NoteListeners<S(!new)>(x: Executor<S>, m: Meaning<S>, l: Loop<S>)
    requires Lawful(x, m) && l.notes != []
    ensures AtMost(x, m, m.listeners(NoteOne(x, l).host.store), m.listeners(l.host.store))
  {
    hide Lawful, Generous, Converse, ForApps;
    var req := NotificationRequest(l.notes[0]);
    ConverseListeners(x, m, l.host, req, None, l.notes[0].delegate, ParamsOf(req), MAX_CONTRACT_REQUEST_ITERATIONS);
  }

  lemma {:induction false} NotesListeners<S(!new)>(x: Executor<S>, m: Meaning<S>, l: Loop<S>, n: nat)
    requires Lawful(x, m)
    ensures AtMost(x, m, m.listeners(Notes(x, l, n).host.store), m.listeners(l.host.store))
    decreases n
  {
    hide Lawful, Generous, NoteOne;
    if n > 0 && l.notes != [] {
      NoteListeners(x, m, l);
      NotesListeners(x, m, NoteOne(x, l), n - 1);
    }
  }

  lemma {:induction false} StoreListeners<S(!new)>(x: Executor<S>, m: Meaning<S>, s: S, key: ContractKey)
    requires Lawful(x, m)
    ensures forall code :: AtMost(x, m, m.listeners(x.fetch(s, key, code).0), m.listeners(s))
    ensures forall change, related, contract :: AtMost(x, m, m.listeners(x.upsert(s, key, change, related, contract).0), m.listeners(s))
    ensures AtMost(x, m, m.listeners(x.summarize(s, key).0), m.listeners(s))
    ensures forall summary :: AtMost(x, m, m.listeners(x.delta(s, key, summary).0), m.listeners(s))
  {
    forall code ensures AtMost(x, m, m.listeners(x.fetch(s, key, code).0), m.listeners(s)) {
      assert Reads(x, m, s, key, code);
    }
    forall change, related, contract
      ensures AtMost(x, m, m.listeners(x.upsert(s, key, change, related, contract).0), m.listeners(s))
    {
      assert Writes(x, m, s, key, change, related, contract);
    }
  }

  /** Handling an event books it, and does nothing else to the listeners. */
  lemma {:induction false} JudgedListeners<S(!new)>(x: Executor<S>, m: Meaning<S>, h: Host<S>, e: Event)
    requires Lawful(x, m)
    ensures AtMost(x, m, m.listeners(Judge(x, h, e).0.store), Booked(m.listeners(h.store), e))
  {
    hide Lawful, Generous, Converse;
    if e.GetQuery? {
      if Known(x, h.store, e.instanceId) {
        StoreListeners(x, m, h.store, x.lookup(h.store, e.instanceId).value);
      }
    } else if IsWrite(e) {
      WriteListeners(x, m, h, e);
    } else if e.GetSummaryQuery? || e.GetDeltaQuery? {
      StoreListeners(x, m, h.store, e.key);
    } else if e.DelegateQuery? {
      ConverseListeners(x, m, h, e.req, e.origin, e.req.key, ParamsOf(e.req), MAX_CONTRACT_REQUEST_ITERATIONS);
      BooksExactly(x, m, Conversation(x, h, e.req, e.origin, e.req.key).0, e);
    } else {
      BooksExactly(x, m, h, e);
    }
  }

  lemma {:induction false} WriteListeners<S(!new)>(x: Executor<S>, m: Meaning<S>, h: Host<S>, e: Event)
    requires Lawful(x, m) && IsWrite(e)
    ensures AtMost(x, m, m.listeners(Judge(x, h, e).0.store), m.listeners(h.store))
  {
    hide Lawful, Generous, Conversation;
    var change := if e.PutQuery? then FullState(e.state) else AsUpsert(e.data).value;
    var s := x.upsert(h.store, e.key, change, e.related, if e.PutQuery? then e.contract else None).0;
    StoreListeners(x, m, h.store, e.key);
    StoreListeners(x, m, s, e.key);
  }

  /** The iteration serves this event. */
  predicate Takes<S>(x: Executor<S>, l: Loop<S>, env: Env, e: Event) {
    && l.status.Running? && Drained(x, l, env).status.Running?
    && CanPop(Prepared(x, l, env).queue) && Prepared(x, l, env).queue[0].items[0].event == e
  }

  /** The iteration handles a disconnect of the client: in the batch, ahead of everything queued, or in turn. */
  predicate Leaves<S>(x: Executor<S>, l: Loop<S>, env: Env, c: ClientId) {
    l.status.Running? && (c in Leavers(Batch(l.pending + env.arrivals, MAX_DRAIN_BATCH)) || Takes(x, l, env, ClientDisconnect(c)))
  }

  lemma {:induction false} IterateListeners<S(!new)>(x: Executor<S>, m: Meaning<S>, l: Loop<S>, env: Env, id: ContractInstanceId, c: ClientId)
    requires Lawful(x, m)
    ensures var was, now := (id, c) in m.listeners(l.host.store), (id, c) in m.listeners(Iterate(x, l, env).host.store);
            var due := Takes(x, l, env, RegisterSubscriberListener(id, c)) || (was && !Leaves(x, l, env, c));
            (now ==> due) && (Generous(x, m) ==> now == due)
  {
    hide Lawful, Generous, Drain, Notes, NoteOne, Judge, Enqueue, Q.Popped, Leavers, Batch;
    if l.status.Running? {
      DrainListeners(x, m, Arrive(l, env.arrivals, env.notes, env.close), MAX_DRAIN_BATCH);
      NotesListeners(x, m, Drained(x, l, env), MAX_DELEGATE_DRAIN_BATCH);
      var p := Prepared(x, l, env);
      if CanPop(p.queue) {
        var item := p.queue[0].items[0];
        JudgedListeners(x, m, p.host, item.event);
        HandleHost(x, p.(queue := Q.Popped(p.queue), served := p.served + [item]), item);
      } else {
        var b := Arrive(p, env.late, env.lateNotes, env.lateClose);
        EnqueueHost(b);
        if env.wake.WakeNote? && b.notes != [] {
          NoteListeners(x, m, b);
        }
      }
    }
  }

  /** Iteration `k` of the run serves a registration of the client, and none from then on handles a disconnect of it. */
  ghost predicate Stands<S>(x: Executor<S>, l: Loop<S>, envs: seq<Env>, k: nat, id: ContractInstanceId, c: ClientId) {
    && k < |envs| && Takes(x, Run(x, l, envs[..k]), envs[k], RegisterSubscriberListener(id, c))
    && forall j :: k < j < |envs| ==> !Leaves(x, Run(x, l, envs[..j]), envs[j], c)
  }

  /** In every run that starts without listeners: a client listens to a contract only if a registration of it was
      served since its last disconnect was handled; and exactly then if registrations meet no limit. */
  lemma {:induction false} ListenerIff<S(!new)>(x: Executor<S>, m: Meaning<S>, l: Loop<S>, envs: seq<Env>, id: ContractInstanceId, c: ClientId)
    requires Lawful(x, m) && m.listeners(l.host.store) == {}
    ensures var listens := (id, c) in m.listeners(Run(x, l, envs).host.store);
            && (listens ==> exists k: nat :: Stands(x, l, envs, k, id, c))
            && (Generous(x, m) ==> (listens <==> exists k: nat :: Stands(x, l, envs, k, id, c)))
    decreases |envs|
  {
    hide Lawful, Generous, Iterate, Takes, Leaves, Stands;
    if envs != [] {
      var n := |envs| - 1;
      var before := envs[..n];
      ListenerIff(x, m, l, before, id, c);
      IterateListeners(x, m, Run(x, l, before), envs[n], id, c);
      forall k: nat
        ensures Stands(x, l, envs, k, id, c) <==>
                  if k == n then Takes(x, Run(x, l, before), envs[n], RegisterSubscriberListener(id, c))
                  else Stands(x, l, before, k, id, c) && !Leaves(x, Run(x, l, before), envs[n], c)
      {
        StandsNext(x, l, envs, k, id, c);
      }
      if Takes(x, Run(x, l, before), envs[n], RegisterSubscriberListener(id, c)) {
        assert Stands(x, l, envs, n, id, c);
      } else if k: nat :| Stands(x, l, before, k, id, c) {
        StandsNext(x, l, envs, k, id, c);
        assert Stands(x, l, envs, k, id, c) <==> !Leaves(x, Run(x, l, before), envs[n], c);
      }
    } else {
      forall k: nat ensures !Stands(x, l, envs, k, id, c) {
        NothingStands(x, l, k, id, c);
      }
    }
  }

  lemma {:induction false} NothingStands<S>(x: Executor<S>, l: Loop<S>, k: nat, id: ContractInstanceId, c: ClientId)
    ensures !Stands(x, l, [], k, id, c)
  {
  }

  lemma {:induction false} StandsNext<S>(x: Executor<S>, l: Loop<S>, envs: seq<Env>, k: nat, id: ContractInstanceId, c: ClientId)
    requires envs != []
    ensures var n := |envs| - 1;
            Stands(x, l, envs, k, id, c) <==>
              if k == n then Takes(x, Run(x, l, envs[..n]), envs[n], RegisterSubscriberListener(id, c))
              else Stands(x, l, envs[..n], k, id, c) && !Leaves(x, Run(x, l, envs[..n]), envs[n], c)
    ensures Stands(x, l, envs[..|envs| - 1], k, id, c) ==> k < |envs| - 1
  {
    hide Run, Takes, Leaves;
    var n := |envs| - 1;
    var before := envs[..n];
    assert forall j :: 0 <= j < n ==> before[..j] == envs[..j] && before[j] == envs[j];
  }

  const FRESH := Loop([], false, [], [], {}, Host(Shelf(map[], {}), map[]), [], [], [], [], None, Running)
  const REGISTER := Item(0, RegisterSubscriberListener(7, 1))
  const DISCONNECT := Item(1, ClientDisconnect(1))
  const BOTH := Env([REGISTER, DISCONNECT], [], false, [], [], false, WakeEvent)

  /** The clean-up on disconnect can come too early: a client registers, then disconnects, and in one iteration
      the disconnect is handled first and the registration after it, so the listener stays. */
  lemma {:induction false} DisconnectOvertakesRegistration()
    ensures var w := Iterate(ShelfExecutor(), FRESH, BOTH);
            w.host.store.listeners == {(7, 1)} && w.pending == [] && w.queue == [] && |w.settled| == 2
  {
    hide Judge, Iterate, ShelfExecutor;
    var x := ShelfExecutor();
    var l0 := Arrive(FRESH, BOTH.arrivals, [], false);
    DrainBoth();
    var l1 := Drain(x, l0, MAX_DRAIN_BATCH);
    assert Notes(x, l1, MAX_DELEGATE_DRAIN_BATCH) == l1;
    ServeRegistration(l1);
    IterateServes(x, FRESH, BOTH, l1);
  }

  lemma {:induction false} IterateServes<S>(x: Executor<S>, l: Loop<S>, env: Env, p: Loop<S>)
    requires l.status.Running? && Drained(x, l, env).status.Running? && Prepared(x, l, env) == p && CanPop(p.queue)
    ensures Iterate(x, l, env) == ServeNext(x, p)
  {
    hide Drain, Notes, ServeNext;
  }

  const QUEUED := FRESH.(queue := [Q.Lane(Q.Contract(7), [REGISTER])], waiting := {0}, settled := [Settlement(DISCONNECT, None, false)])

  lemma {:induction false} DrainBoth()
    ensures Drain(ShelfExecutor(), Arrive(FRESH, BOTH.arrivals, [], false), MAX_DRAIN_BATCH) == QUEUED
  {
    hide DrainOne, ShelfExecutor, Drain;
    var x, n := ShelfExecutor(), MAX_DRAIN_BATCH;
    var l0 := Arrive(FRESH, BOTH.arrivals, [], false);
    assert l0 == FRESH.(pending := [REGISTER, DISCONNECT]);
    DrainRegister(x, l0);
    var l1 := DrainOne(x, l0);
    DrainDisconnect(l1);
    DrainUnfolds(x, l0, n);
    DrainUnfolds(x, l1, n - 1);
    DrainUnfolds(x, QUEUED, n - 2);
  }

  lemma {:induction false} DrainRegister(x: Executor<Shelf>, l: Loop<Shelf>)
    requires l == FRESH.(pending := [REGISTER, DISCONNECT])
    ensures DrainOne(x, l) == FRESH.(pending := [DISCONNECT], queue := QUEUED.queue, waiting := {0})
  {
    assert Q.Contents([]) == [] && Q.LaneOf([], Q.KeyOf(REGISTER)) == [];
    assert Q.Pushed([], REGISTER) == [] + [Q.Lane(Q.Contract(7), [REGISTER])];
  }

  lemma {:induction false} DrainDisconnect(l: Loop<Shelf>)
    requires l == FRESH.(pending := [DISCONNECT], queue := QUEUED.queue, waiting := {0})
    ensures DrainOne(ShelfExecutor(), l) == QUEUED
  {
    assert l.host.store.listeners == {};
    assert ShelfBooks(l.host, DISCONNECT.event).store.listeners == {};
    assert {0} + {1} - {1} == {0} && [] + [Settlement(DISCONNECT, None, false)] == QUEUED.settled;
  }

  lemma {:induction false} DrainUnfolds<S>(x: Executor<S>, l: Loop<S>, n: nat)
    requires n > 0
    ensures Drain(x, l, n) == if l.pending == [] then (if l.closed then l.(status := Failed) else l) else Drain(x, DrainOne(x, l), n - 1)
  {
    hide DrainOne;
  }

  lemma {:induction false} ServeRegistration(l: Loop<Shelf>)
    requires l == QUEUED
    ensures CanPop(l.queue)
    ensures var w := ServeNext(ShelfExecutor(), l);
            w.host.store.listeners == {(7, 1)} && w.pending == [] && w.queue == [] && |w.settled| == 2
  {
    hide Conversation;
    assert ShelfBooks(l.host, REGISTER.event).store.listeners == {(7, 1)};
    assert Judge(ShelfExecutor(), l.host, REGISTER.event) == (ShelfBooks(l.host, REGISTER.event), Answer(RegisterSubscriberListenerResponse));
  }

  // ---------------------------------------------------------------- delegates and what the executor is told

  /** A client that runs a delegate gets what its rounds said to it, nothing meant for other delegates, and a
      contract request only if a delegate it wrote to made one. */
  lemma {:induction false} DelegateAnswer<S>(x: Executor<S>, h: Host<S>, e: Event)
    requires e.DelegateQuery?
    ensures var rounds := Converse(x, h, e.req, e.origin, e.req.key, ParamsOf(e.req), MAX_CONTRACT_REQUEST_ITERATIONS).1;
            var verdict := Judge(x, h, e).1;
            && verdict == Answer(DelegateResponse(Said(rounds)))
            && (forall m <- verdict.reply.messages :: !m.SendDelegateMessage?)
            && ((exists m <- verdict.reply.messages :: IsContractRequest(m)) <==>
                  exists r <- rounds :: exists m <- r.targets :: IsContractRequest(m))
  {
    hide Converse, Said;
    WhatTheClientSees(Converse(x, h, e.req, e.origin, e.req.key, ParamsOf(e.req), MAX_CONTRACT_REQUEST_ITERATIONS).1);
  }

  /** An executor whose store is a tape of what it is told besides contracts and delegates. */
  function Tape(): Executor<seq<Event>> {
    Executor(
      (s: seq<Event>, id: ContractInstanceId) => None,
      (s: seq<Event>, key: ContractKey, code: bool) => (s, Ok(StoreResponse(None, None))),
      (s: seq<Event>, key: ContractKey, change: Upsert, related: Blob, contract: Option<ContractContainer>) => (s, Ok(NoChange)),
      (h: Host<seq<Event>>, req: DelegateRequest, origin: Option<ContractInstanceId>) => (h, Ok(HostOk)),
      (s: seq<Event>, key: ContractKey) => (s, Ok([])),
      (s: seq<Event>, key: ContractKey, summary: Blob) => (s, Ok([])),
      (h: Host<seq<Event>>, e: Event) => h.(store := h.store + [e]))
  }

  /** Listeners, failed subscriptions, disconnects and registered delegates are the executor's to keep track of. */
  function TellOf(e: Event): seq<Event> {
    if e.RegisterSubscriberListener? || e.NotifySubscriptionError? || e.ClientDisconnect? || (e.DelegateQuery? && e.req.RegisterDelegate?)
    then [e] else []
  }

  function Disconnects(items: seq<Item>): seq<Event> {
    if items == [] then [] else (if items[0].event.ClientDisconnect? then [items[0].event] else []) + Disconnects(items[1..])
  }

  lemma {:induction false} TapeIsQuiet(h: Host<seq<Event>>, req: DelegateRequest, origin: Option<ContractInstanceId>, me: DelegateKey, left: nat)
    requires left > 0
    ensures Converse(Tape(), h, req, origin, me, ParamsOf(req), left).0 == h
  {
    assert Turn(Tape(), h, req, origin, me) == (h, Round(req, [], [], []));
    assert Quiet([]);
    hide Tape, Turn, Quiet;
    ConverseUnfolds(Tape(), h, req, origin, me, ParamsOf(req), left);
  }

  lemma {:induction false} ToldByJudge(h: Host<seq<Event>>, e: Event)
    ensures Judge(Tape(), h, e).0.store == h.store + TellOf(e)
  {
    hide Converse, Said;
    if e.DelegateQuery? {
      TapeIsQuiet(h, e.req, e.origin, e.req.key, MAX_CONTRACT_REQUEST_ITERATIONS);
    }
  }

  lemma {:induction false} ToldByDrain(l: Loop<seq<Event>>, n: nat)
    ensures Drain(Tape(), l, n).host.store == l.host.store + Disconnects(Batch(l.pending, n))
    decreases n
  {
    hide DrainOne;
    if n > 0 && l.pending != [] {
      var w := DrainOne(Tape(), l);
      DrainOneHost(Tape(), l);
      ToldByDrain(w, n - 1);
      assert Batch(l.pending, n)[0] == l.pending[0] && Batch(l.pending, n)[1..] == Batch(w.pending, n - 1);
    }
  }

  lemma {:induction false} NotesTellNothing(l: Loop<seq<Event>>, n: nat)
    ensures Notes(Tape(), l, n).host == l.host
    decreases n
  {
    hide Converse, Said, ForApps, Tape;
    if n > 0 && l.notes != [] {
      TapeIsQuiet(l.host, NotificationRequest(l.notes[0]), None, l.notes[0].delegate, MAX_CONTRACT_REQUEST_ITERATIONS);
      NotesTellNothing(NoteOne(Tape(), l), n - 1);
    }
  }

  /** An iteration tells the executor of the batch's disconnects, in order, and then of the event it serves if
      that is the executor's to know. */
  lemma {:induction false} ToldExactly(l: Loop<seq<Event>>, env: Env)
    requires l.status.Running?
    ensures var p := Prepared(Tape(), l, env);
            var batch := Disconnects(Batch(l.pending + env.arrivals, MAX_DRAIN_BATCH));
            Iterate(Tape(), l, env).host.store == l.host.store + batch +
              if Drained(Tape(), l, env).status.Running? && CanPop(p.queue) then TellOf(p.queue[0].items[0].event) else []
  {
    hide Drain, Notes, Judge, ServeNext, Block, Q.Popped, Batch, Disconnects, TellOf, Tape;
    var x := Tape();
    ToldByDrain(Arrive(l, env.arrivals, env.notes, env.close), MAX_DRAIN_BATCH);
    NotesTellNothing(Drained(x, l, env), MAX_DELEGATE_DRAIN_BATCH);
    var p := Prepared(x, l, env);
    if CanPop(p.queue) {
      ToldByServing(p);
    } else {
      BlockTellsNothing(Arrive(p, env.late, env.lateNotes, env.lateClose), env.wake);
    }
  }

  lemma {:induction false} ToldByServing(l: Loop<seq<Event>>)
    requires CanPop(l.queue)
    ensures ServeNext(Tape(), l).host.store == l.host.store + TellOf(l.queue[0].items[0].event)
  {
    hide Judge, Q.Popped, Tape, TellOf;
    var item := l.queue[0].items[0];
    ToldByJudge(l.host, item.event);
    HandleHost(Tape(), l.(queue := Q.Popped(l.queue), served := l.served + [item]), item);
  }

  lemma {:induction false} BlockTellsNothing(l: Loop<seq<Event>>, wake: Wake)
    ensures Block(Tape(), l, wake).host == l.host
  {
    hide Enqueue, Tape, NoteOne;
    EnqueueHost(l);
    OneNote(l);
  }

  lemma {:induction false} OneNote(l: Loop<seq<Event>>)
    ensures l.notes != [] ==> NoteOne(Tape(), l).host == l.host
  {
    hide NoteOne, Tape;
    NotesTellNothing(l, 1);
    if l.notes != [] {
      NotesOnce(Tape(), l);
    }
  }

  lemma {:induction false} NotesOnce<S>(x: Executor<S>, l: Loop<S>)
    requires l.notes != []
    ensures Notes(x, l, 1) == NoteOne(x, l)
  {
    hide NoteOne;
    assert Notes(x, NoteOne(x, l), 0) == NoteOne(x, l);
  }

  /** Each notification runs the delegate it is for, once, in order, with the contract and its new state. */
  lemma {:induction false} NotificationsReachDelegates(l: Loop<seq<DelegateRequest>>, n: nat)
    requires n <= |l.notes|
    ensures var log := Notes(Recorder(), l, n).host.store;
            && |log| == |l.host.store| + n && log[..|l.host.store|] == l.host.store
            && forall i :: 0 <= i < n ==>
                             log[|l.host.store| + i] == ApplicationMessages(l.notes[i].delegate, [],
                                                          [ContractNotification(l.notes[i].contract, l.notes[i].state)])
    decreases n
  {
    hide ForApps, Recorder, Converse, Said;
    if n > 0 {
      var w := NoteOne(Recorder(), l);
      RecordedOnce(l.host, NotificationRequest(l.notes[0]), l.notes[0].delegate, MAX_CONTRACT_REQUEST_ITERATIONS);
      NotificationsReachDelegates(w, n - 1);
    }
  }

  lemma {:induction false} RecordedOnce(h: Host<seq<DelegateRequest>>, req: DelegateRequest, me: DelegateKey, left: nat)
    requires left > 0
    ensures Converse(Recorder(), h, req, None, me, ParamsOf(req), left).0 == h.(store := h.store + [req])
  {
    assert Turn(Recorder(), h, req, None, me) == (h.(store := h.store + [req]), Round(req, [], [], []));
    assert Quiet([]);
    hide Recorder, Turn, Quiet;
    ConverseUnfolds(Recorder(), h, req, None, me, ParamsOf(req), left);
  }

  /** What a notified delegate says is passed on to its applications, whole, exactly when some of it is for them. */
  lemma {:induction false} RoutedExactly<S>(x: Executor<S>, l: Loop<S>)
    requires l.notes != []
    ensures var n := l.notes[0];
            var said := Conversation(x, l.host, NotificationRequest(n), None, n.delegate).1;
            NoteOne(x, l).routed == if exists i :: 0 <= i < |said| && said[i].ApplicationMessage? then l.routed + [(n.delegate, said)] else l.routed
  {
    hide Conversation;
    var n := l.notes[0];
    var said := Conversation(x, l.host, NotificationRequest(n), None, n.delegate).1;
    assert (exists m <- said :: m.ApplicationMessage?) <==> exists i :: 0 <= i < |said| && said[i].ApplicationMessage?;
  }

  /** The loop ends exactly when its channel is closed and empty where it reads it, or a fatal error stops it. */
  lemma {:induction false} EndsExactly<S>(x: Executor<S>, l: Loop<S>, env: Env)
    requires l.status.Running?
    ensures var p, dry := Prepared(x, l, env), |l.pending + env.arrivals| < MAX_DRAIN_BATCH && (l.closed || env.close);
            Iterate(x, l, env).status == Failed <==>
              || dry
              || (CanPop(p.queue) && Judge(x, p.host, p.queue[0].items[0].event).1.Fatal?)
              || (!CanPop(p.queue) && env.wake.WakeEvent? && p.pending + env.late == [] && (l.closed || env.close || env.lateClose))
  {
    hide Notes, Judge, Q.Popped, NoteOne, DrainOne;
    var l0 := Arrive(l, env.arrivals, env.notes, env.close);
    DrainEnds(x, l0, MAX_DRAIN_BATCH);
    NotesStatus(x, Drained(x, l, env), MAX_DELEGATE_DRAIN_BATCH);
    var p := Prepared(x, l, env);
    EnqueueStatus(Arrive(p, env.late, env.lateNotes, env.lateClose));
    if env.wake.WakeNote? && Arrive(p, env.late, env.lateNotes, env.lateClose).notes != [] {
      NotesOnce(x, Arrive(p, env.late, env.lateNotes, env.lateClose));
      NotesStatus(x, Arrive(p, env.late, env.lateNotes, env.lateClose), 1);
    }
  }

  lemma {:induction false} DrainEnds<S>(x: Executor<S>, l: Loop<S>, n: nat)
    requires l.status.Running?
    ensures Drain(x, l, n).status == (if |l.pending| < n && l.closed then Failed else Running)
    ensures Drain(x, l, n).closed == l.closed
    decreases n
  {
    hide DrainOne;
    if n > 0 && l.pending != [] {
      DrainOneHost(x, l);
      DrainOneStatus(x, l);
      DrainEnds(x, DrainOne(x, l), n - 1);
    }
  }

  lemma {:induction false} DrainOneStatus<S>(x: Executor<S>, l: Loop<S>)
    requires l.pending != []
    ensures DrainOne(x, l).status == l.status && DrainOne(x, l).closed == l.closed
  {
    hide Q.Accepts, Q.Pushed, QueueFullReply;
  }

  lemma {:induction false} EnqueueStatus<S>(l: Loop<S>)
    ensures l.pending != [] ==> Enqueue(Receive(l), l.pending[0]).status == l.status
  {
    hide Q.Accepts, Q.Pushed, QueueFullReply;
  }

  lemma {:induction false} NotesStatus<S>(x: Executor<S>, l: Loop<S>, n: nat)
    ensures Notes(x, l, n).status == l.status && Notes(x, l, n).closed == l.closed && Notes(x, l, n).pending == l.pending
    decreases n
  {
    hide Conversation, ForApps;
    if n > 0 && l.notes != [] {
      NotesStatus(x, NoteOne(x, l), n - 1);
    }
  }
}
