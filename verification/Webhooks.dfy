/** Send, then mark: a change id is persisted as processed only after its success event has been
    handed to the recorder, and from then on it is silent. */
module Webhooks {
  import opened Text
  import opened Config
  import opened Builder
  import opened Status
  import opened Api
  import opened Cycle
  import opened CycleFacts
  import opened Reconciler
  import opened Effects
  import opened Runs
  import opened NoLostEdits
  import opened Readiness
  import opened FastPathSoundness

  const SUCCESS := ReconcileCompleted

  // ----- the events of one cycle -----

  lemma {:induction false} EmissionsOf(app: App, whats: seq<What>)
    ensures app.webhookURL == "" || app.changeID == "" || app.status.lastChangeID == app.changeID ==>
              Emissions(app, whats) == []
    ensures forall e :: e in Emissions(app, whats) ==>
              e.changeID == app.changeID && app.status.lastChangeID != app.changeID
    ensures app.webhookURL != "" && app.changeID != "" && app.status.lastChangeID != app.changeID && whats != [] ==>
              Event(app.changeID, whats[|whats| - 1]) in Emissions(app, whats)
  {
    if whats != [] {
      EmissionsOf(app, whats[..|whats| - 1]);
    }
  }

  /** A cycle that finds everything ready ends with the success event. */
  lemma ReadyEvent(first: Spec, app: App, ans: Oracle)
    requires var r := Process(first, app, ans); !r.panicked && r.ready && r.error.None?
    ensures var events := Process(first, app, ans).events; events != [] && events[|events| - 1] == SUCCESS
  {
    hide BuildAll, Paused, ApplyAll, Checked, MarkAll, SliceOf, Initialize, FinalPhase, SetCondition;
  }

  /** Delivery is configured for every change a status was computed from. */
  ghost predicate DeliveryConfigured(writes: seq<Write>) {
    forall k :: 0 <= k < |writes| && writes[k].cause.Processed? && writes[k].cause.app.changeID != "" ==>
      writes[k].cause.app.webhookURL != ""
  }

  ghost predicate SentBeforeMarked(w: World) {
    DeliveryConfigured(w.writes) && w.store.Some? && w.store.value.status.lastChangeID != "" ==>
      Event(w.store.value.status.lastChangeID, SUCCESS) in w.events
  }

  /** A write that marks a change comes from a cycle that had just sent its success event, or
      had read it as marked already. */
  lemma MarkingSends(wr: Write)
    requires wr.cause.Processed? && WriteGood(wr) && Marks(wr, wr.after.status.lastChangeID)
    requires wr.cause.app.webhookURL != ""
    ensures var c := wr.after.status.lastChangeID;
            || wr.before.status.lastChangeID == c
            || Event(c, SUCCESS) in Emissions(wr.cause.app,
                                              Process(wr.cause.first, wr.cause.app, wr.cause.answers).events)
  {
    hide Process, Initialize, SetCondition;
    ReadyEvent(wr.cause.first, wr.cause.app, wr.cause.answers);
    EmissionsOf(wr.cause.app, Process(wr.cause.first, wr.cause.app, wr.cause.answers).events);
  }

  /** A ready cycle with a change not yet marked hands its success event to the recorder exactly
      when delivery is configured; it marks the change in either case. */
  lemma SendsIffConfigured(first: Spec, app: App, ans: Oracle)
    requires var r := Process(first, app, ans); !r.panicked && r.ready && r.error.None?
    requires app.changeID != "" && app.status.lastChangeID != app.changeID
    ensures Event(app.changeID, SUCCESS) in Emissions(app, Process(first, app, ans).events) <==> app.webhookURL != ""
    ensures Process(first, app, ans).status.lastChangeID == app.changeID
  {
    hide Process;
    ReadyEvent(first, app, ans);
    ProcessFacts(first, app, ans);
    EmissionsOf(app, Process(first, app, ans).events);
  }

  lemma ShorterConfigured(writes: seq<Write>, longer: seq<Write>)
    requires writes <= longer && DeliveryConfigured(longer)
    ensures DeliveryConfigured(writes)
  {
    forall k | 0 <= k < |writes| && writes[k].cause.Processed? && writes[k].cause.app.changeID != ""
      ensures writes[k].cause.app.webhookURL != ""
    {
      assert longer[k] == writes[k];
    }
  }

  lemma ConfiguredFor(writes: seq<Write>, wr: Write)
    requires DeliveryConfigured(writes) && wr in writes && wr.cause.Processed? && wr.cause.app.changeID != ""
    ensures wr.cause.app.webhookURL != ""
  {
  }

  lemma SentCycle(env: Environment, w: World)
    requires SentBeforeMarked(w)
    ensures SentBeforeMarked(Reconcile(env, w, WATCHED).0)
  {
    hide Reconcile, Process, WriteGood, Emissions, DeliveryConfigured, Acting, Marks;
    CycleShape(env, w);
    var t := TraceOf(env, w);
    var w' := Reconcile(env, w, WATCHED).0;
    if DeliveryConfigured(w'.writes) {
      ShorterConfigured(w.writes, w'.writes);
      if Stored(w, w') {
        var wr := w'.last.value;
        WrittenStatus(wr);
        if wr.after.status.lastChangeID != wr.before.status.lastChangeID {
          MarkedFor(wr);
          ConfiguredFor(w'.writes, wr);
          MarkingSends(wr);
        }
      }
    }
  }

  lemma MarkedFor(wr: Write)
    requires Marks(wr, wr.after.status.lastChangeID)
    ensures wr.cause.Processed? && wr.cause.app.changeID == wr.after.status.lastChangeID && wr.cause.app.changeID != ""
  {
  }

  /** In every run with delivery configured, a persisted change id was preceded by its success event. */
  lemma {:induction false} SendThenMark(env: Environment, w: World, n: nat)
    requires IsInitial(w)
    ensures SentBeforeMarked(Run(env, w, n))
  {
    hide Reconcile, SentBeforeMarked;
    if n == 0 {
      NothingMarkedInitially(w);
    } else {
      SendThenMark(env, w, n - 1);
      SentCycle(env, Run(env, w, n - 1));
    }
  }

  lemma NothingMarkedInitially(w: World)
    requires IsInitial(w)
    ensures SentBeforeMarked(w)
  {
  }

  // ----- silence after marking -----

  lemma StartingKeepsChange(wr: Write)
    requires WriteGood(wr) && IsStatusWrite(wr.cause) && !wr.cause.Processed?
    ensures wr.after.status.lastChangeID == wr.before.status.lastChangeID
  {
    hide SetCondition, Initialize;
  }

  /** Change c is persisted as processed, and the annotation still names it. */
  predicate Persisted(w: World, c: string) {
    w.store.Some? && w.store.value.status.lastChangeID == c && w.store.value.changeID == c
  }

  /** A cycle that reads nothing but the persisted change emits nothing, and cannot mark another. */
  lemma SilentCycle(env: Environment, w: World, c: string)
    requires w.store.Some? && w.store.value.status.lastChangeID == c
    requires var t := TraceOf(env, w); t.Acted? ==> t.app.changeID == c
    requires var s := Reconcile(env, w, WATCHED).0.store; s.Some? ==> s.value.changeID == c
    ensures var w' := Reconcile(env, w, WATCHED).0;
            w'.events == w.events && (w'.store.Some? ==> w'.store.value.status.lastChangeID == c)
  {
    hide Reconcile, Process, WriteGood, Emissions, Acting, TraceOf, GoodWrites;
    CycleShape(env, w);
    var w' := Reconcile(env, w, WATCHED).0;
    var t := TraceOf(env, w);
    if t.Acted? {
      EmissionsOf(t.app, Process(t.first, t.app, t.answers).events);
    }
    if !Quiet(w, w') {
      WrittenStatus(w'.last.value);
      if w'.last.value.cause.Processed? {
        MarksOwnChange(w'.last.value);
      } else {
        StartingKeepsChange(w'.last.value);
      }
    }
  }

  lemma MarksOwnChange(wr: Write)
    requires WriteGood(wr) && wr.cause.Processed?
    ensures wr.after.status.lastChangeID == wr.before.status.lastChangeID
            || wr.after.status.lastChangeID == wr.cause.app.changeID
  {
    hide Process, Initialize;
    WrittenStatus(wr);
  }

  /** Once a change id is persisted, and while every update carries it, it stays persisted, and
      not one more webhook event is emitted - whatever else the updates change and whatever fails. */
  lemma {:induction false} SilentOnceMarked(env: Environment, w: World, n: nat, m: nat, c: string)
    requires n <= m && Persisted(Run(env, w, n), c) && AlwaysCarry(env, Run(env, w, n).tick, c)
    ensures var a, b := Run(env, w, n), Run(env, w, m);
            b.events == a.events && (b.store.Some? ==> Persisted(b, c))
  {
    hide Reconcile, Views, PathOf, AlwaysCarry;
    if n < m {
      SilentOnceMarked(env, w, n, m - 1, c);
      var w0, w1 := Run(env, w, n), Run(env, w, m - 1);
      var t0, v := w0.tick, ViewOf(w0.store.value);
      FaithfulRun(env, w, n, m - 1);
      FaithfulRun(env, w, n, m);
      PathFaithful(env, t0, v, w1);
      var p := PathOf(env, w1);
      if p.Worked? {
        ViewsCarry(env, t0, p.w1.tick, v, c);
      }
      ViewsCarry(env, t0, Run(env, w, m).tick, v, c);
      if w1.store.Some? {
        SilentCycle(env, w1, c);
      } else {
        GoneIsSilent(env, w1);
      }
    }
  }

  lemma GoneIsSilent(env: Environment, w: World)
    requires w.store.None?
    ensures var w' := Reconcile(env, w, WATCHED).0; w'.events == w.events && w'.store.None?
  {
    hide Handle;
  }

  // ----- events are never lost -----

  /** The cycle found everything ready for a change not yet marked, with delivery configured. */
  ghost predicate Succeeds(t: Trace, c: string) {
    && t.Acted? && t.app.changeID == c && c != "" && t.app.status.lastChangeID != c && t.app.webhookURL != ""
    && var r := Process(t.first, t.app, t.answers); !r.panicked && r.ready && r.error.None?
  }

  /** The recorder was handed e in addition to what it had. */
  predicate AddsEvent(before: seq<Event>, after: seq<Event>, e: Event) {
    before <= after && e in after[|before|..]
  }

  lemma SuccessEmitted(env: Environment, w: World, c: string)
    requires Succeeds(TraceOf(env, w), c)
    ensures var w' := Reconcile(env, w, WATCHED).0;
            AddsEvent(w.events, w'.events, Event(c, SUCCESS))
  {
    hide Reconcile, Process, Emissions, Acting, TraceOf, GoodWrites, WriteGood;
    CycleShape(env, w);
    var t := TraceOf(env, w);
    SendsIffConfigured(t.first, t.app, t.answers);
    var w' := Reconcile(env, w, WATCHED).0;
    assert w'.events[|w.events|..] == Emissions(t.app, Process(t.first, t.app, t.answers).events);
  }

  lemma {:induction false} EventsGrow(env: Environment, w: World, n: nat, m: nat)
    requires n <= m
    ensures Run(env, w, n).events <= Run(env, w, m).events
  {
    hide Reconcile, Process, Emissions, Acting, TraceOf, GoodWrites, WriteGood;
    if n < m {
      EventsGrow(env, w, n, m - 1);
      CycleShape(env, Run(env, w, m - 1));
    }
  }

  /** No success is lost: the success event of a change is with the recorder in every state after
      the cycle that earned it, whether or not that cycle's status was ever stored. */
  lemma SuccessNeverLost(env: Environment, w: World, n: nat, m: nat, c: string)
    requires n < m && Succeeds(TraceOf(env, Run(env, w, n)), c)
    ensures Event(c, SUCCESS) in Run(env, w, m).events
  {
    hide Reconcile, Succeeds, TraceOf;
    SuccessEmitted(env, Run(env, w, n), c);
    EventsGrow(env, w, n + 1, m);
  }

  /** A lost status write only repeats the event: while no status has been stored since, the next
      cycle that is ready for the same change emits its success event again. */
  lemma SuccessRepeated(env: Environment, w: World, n: nat, m: nat, c: string)
    requires n < m && Succeeds(TraceOf(env, Run(env, w, n)), c)
    requires NothingStored(env, w, n, m)
    requires var t := TraceOf(env, Run(env, w, m));
             t.Acted? && t.app.changeID == c && t.app.webhookURL != ""
             && var r := Process(t.first, t.app, t.answers); !r.panicked && r.ready && r.error.None?
    ensures AddsEvent(Run(env, w, n).events, Run(env, w, n + 1).events, Event(c, SUCCESS))
    ensures Run(env, w, n + 1).events <= Run(env, w, m).events
    ensures AddsEvent(Run(env, w, m).events, Run(env, w, m + 1).events, Event(c, SUCCESS))
  {
    hide Run, Reconcile, TraceOf, Process, Emissions, NothingStored, Succeeds;
    RunNext(env, w, n);
    RunNext(env, w, m);
    EventsGrow(env, w, n + 1, m);
    SuccessEmitted(env, Run(env, w, n), c);
    SucceedsAgain(env, w, n, m, c);
    SuccessEmitted(env, Run(env, w, m), c);
  }

  lemma SucceedsAgain(env: Environment, w: World, n: nat, m: nat, c: string)
    requires n < m && Succeeds(TraceOf(env, Run(env, w, n)), c) && NothingStored(env, w, n, m)
    requires var t := TraceOf(env, Run(env, w, m));
             t.Acted? && t.app.changeID == c && t.app.webhookURL != ""
             && var r := Process(t.first, t.app, t.answers); !r.panicked && r.ready && r.error.None?
    ensures Succeeds(TraceOf(env, Run(env, w, m)), c)
  {
    hide Run, Reconcile, TraceOf, Process, NothingStored;
    QuietStretch(env, w, n, m);
    ActedOnStored(env, Run(env, w, n));
    ActedOnStored(env, Run(env, w, m));
  }
}
