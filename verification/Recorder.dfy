/** Webhook event deduplication (pkg/webrecorder/recorder.go): the dedup key, the recorder as
    a class, and the interleaving of its senders with the cleanup goroutine. SHA-256 is taken
    to be injective, so the hashed text stands for the key; time is a counter. */
module Recorder {
  import opened Text

  type Time = nat
  type Key = string

  const TTL: nat := 3600

  /** The text that is hashed into the dedup key. */
  function EventKey(changeID: string, phase: string, step: string, status: string): Key {
    changeID + ":" + phase + ":" + step + ":" + status
  }

  lemma SplitAtLastColon(a: string, x: string, b: string, y: string)
    requires a + ":" + x == b + ":" + y
    requires ':' !in x && ':' !in y
    ensures a == b && x == y
  {
    var l, r := a + ":" + x, b + ":" + y;
    assert l[|a|] == ':' && r[|b|] == ':';
    assert forall i :: |a| < i < |l| ==> l[i] == x[i - |a| - 1] && l[i] != ':';
    assert forall i :: |b| < i < |r| ==> r[i] == y[i - |b| - 1] && r[i] != ':';
    assert |a| == |b|;
    assert a == l[..|a|] && b == r[..|b|];
    assert x == l[|a| + 1..] && y == r[|b| + 1..];
  }

  /** Phases, steps and statuses without a colon make the key unambiguous, whatever the
      change identifier contains. */
  lemma EventKeyInjective(c: string, p: string, t: string, s: string, c': string, p': string, t': string, s': string)
    requires ':' !in p && ':' !in t && ':' !in s && ':' !in p' && ':' !in t' && ':' !in s'
    ensures EventKey(c, p, t, s) == EventKey(c', p', t', s') <==> c == c' && p == p' && t == t' && s == s'
  {
    if EventKey(c, p, t, s) == EventKey(c', p', t', s') {
      SplitAtLastColon(c + ":" + p + ":" + t, s, c' + ":" + p' + ":" + t', s');
      SplitAtLastColon(c + ":" + p, t, c' + ":" + p', t');
      SplitAtLastColon(c, p, c', p');
    }
  }

  /** The parts in their order; what was sent is remembered for an hour. */
  lemma KeyText()
    ensures EventKey("change", "phase", "step", "status") == "change:phase:step:status"
    ensures TTL == 60 * 60
  {
  }

  /** With a colon in the phase two different events share a key. */
  lemma ColonsCollide()
    ensures EventKey("a", "b:c", "d", "e") == EventKey("a:b", "c", "d", "e")
  {
  }

  // ----- the recorder object -----

  class WebhookEventRecorder {
    var sentEvents: map<Key, Time>

    constructor ()
      ensures sentEvents == map[]
    {
      sentEvents := map[];
    }

    method ShouldSendEvent(changeID: string, phase: string, step: string, status: string, now: Time)
      returns (send: bool)
      modifies this
      ensures var k := EventKey(changeID, phase, step, status);
              && send == (k !in old(sentEvents))
              && sentEvents == if send then old(sentEvents)[k := now] else old(sentEvents)
    {
      var key := EventKey(changeID, phase, step, status);
      if key in sentEvents {
        return false;
      }
      sentEvents := sentEvents[key := now];
      return true;
    }

    /** One round of the cleanup goroutine, run without interference. */
    method CleanupOldEvents(now: Time)
      modifies this
      ensures sentEvents == map k | k in old(sentEvents) && now - old(sentEvents)[k] <= TTL :: old(sentEvents)[k]
    {
      var todo := sentEvents.Keys;
      while todo != {}
        invariant todo <= old(sentEvents).Keys
        invariant sentEvents == map k | k in old(sentEvents)
                  && (k in todo || now - old(sentEvents)[k] <= TTL) :: old(sentEvents)[k]
        decreases todo
      {
        var key :| key in todo;
        todo := todo - {key};
        if now - sentEvents[key] > TTL {
          sentEvents := sentEvents - {key};
        }
      }
    }
  }

  // ----- interleavings -----

  datatype Sent = Sent(key: Key, at: Time)

  /** missed maps a sender between Load and Store to the key it did not find; visiting is the
      expired entry the cleaner has read and is about to delete. */
  datatype State = State(now: Time, sent: map<Key, Time>, missed: map<nat, Key>,
                         sweepAt: Time, visiting: Option<Key>, log: seq<Sent>)

  datatype Step = Tick(d: nat) | Load(who: nat, key: Key) | Store(who: nat) | Sweep | Visit(key: Key) | Delete

  const INITIAL := State(0, map[], map[], 0, None, [])

  function Next(s: State, e: Step): State {
    match e
    case Tick(d) => s.(now := s.now + d)
    case Load(who, key) =>
      if who in s.missed || key in s.sent then s else s.(missed := s.missed[who := key])
    case Store(who) =>
      if who !in s.missed then s
      else s.(sent := s.sent[s.missed[who] := s.now], missed := s.missed - {who},
              log := s.log + [Sent(s.missed[who], s.now)])
    case Sweep => if s.visiting.Some? then s else s.(sweepAt := s.now)
    case Visit(key) =>
      if s.visiting.None? && key in s.sent && s.sweepAt - s.sent[key] > TTL then s.(visiting := Some(key)) else s
    case Delete =>
      if s.visiting.None? then s else s.(sent := s.sent - {s.visiting.value}, visiting := None)
  }

  function Run(steps: seq<Step>): State {
    if steps == [] then INITIAL else Next(Run(steps[..|steps| - 1]), steps[|steps| - 1])
  }

  /** ShouldSendEvent without interference is Load followed by Store. */
  lemma AtomicSend(s: State, who: nat, key: Key)
    requires who !in s.missed
    ensures var t := Next(Next(s, Load(who, key)), Store(who));
            if key in s.sent then t == s else t.sent == s.sent[key := s.now] && t.log == s.log + [Sent(key, s.now)]
  {
  }

  /** Another sender has looked for the key, not found it and not yet marked it. */
  ghost predicate Pending(s: State, key: Key) {
    exists who :: who in s.missed && s.missed[who] == key
  }

  /** Nobody starts to send a key that a sender is in the middle of sending. */
  ghost predicate NoRivals(steps: seq<Step>) {
    forall i :: 0 <= i < |steps| && steps[i].Load? ==>
      steps[i].who in Run(steps[..i]).missed || !Pending(Run(steps[..i]), steps[i].key)
  }

  ghost predicate Spaced(log: seq<Sent>) {
    forall i, j :: 0 <= i < j < |log| && log[i].key == log[j].key ==> log[j].at - log[i].at > TTL
  }

  /** No key was sent within the last TTL unless the map still has it. */
  ghost predicate Remembered(s: State) {
    forall i :: 0 <= i < |s.log| ==>
      s.log[i].at <= s.now && (s.now - s.log[i].at <= TTL ==> s.log[i].key in s.sent)
  }

  /** The map holds the time of the last send of each of its keys. */
  ghost predicate Latest(s: State) {
    && (forall k :: k in s.sent ==> exists i :: 0 <= i < |s.log| && s.log[i] == Sent(k, s.sent[k]))
    && (forall i :: 0 <= i < |s.log| && s.log[i].key in s.sent ==> s.log[i].at <= s.sent[s.log[i].key])
  }

  /** What keeps sends apart: senders that missed a key still miss it and miss different ones, and
      an entry under deletion is still the expired one. */
  ghost predicate Inv(s: State) {
    && s.sweepAt <= s.now
    && (forall who :: who in s.missed ==> s.missed[who] !in s.sent)
    && (forall a, b :: a in s.missed && b in s.missed && a != b ==> s.missed[a] != s.missed[b])
    && (s.visiting.Some? ==> s.visiting.value in s.sent && s.sweepAt - s.sent[s.visiting.value] > TTL)
    && Remembered(s) && Latest(s) && Spaced(s.log)
  }

  lemma InvStore(s: State, who: nat)
    requires Inv(s) && who in s.missed
    ensures Inv(Next(s, Store(who)))
  {
    var key := s.missed[who];
    var t := Next(s, Store(who));
    assert t.log[|s.log|] == Sent(key, s.now);
    assert forall i :: 0 <= i < |s.log| ==> t.log[i] == s.log[i];
    assert Spaced(t.log);
    forall k | k in t.sent ensures exists i :: 0 <= i < |t.log| && t.log[i] == Sent(k, t.sent[k]) {
      if k != key {
        var i :| 0 <= i < |s.log| && s.log[i] == Sent(k, s.sent[k]);
        assert t.log[i] == Sent(k, t.sent[k]);
      }
    }
    assert Latest(t);
  }

  lemma InvStep(s: State, e: Step)
    requires Inv(s)
    requires e.Load? ==> e.who in s.missed || !Pending(s, e.key)
    ensures Inv(Next(s, e))
  {
    if e.Store? && e.who in s.missed {
      InvStore(s, e.who);
    }
  }

  lemma {:induction false} InvRun(steps: seq<Step>)
    requires NoRivals(steps)
    ensures Inv(Run(steps))
  {
    if steps != [] {
      var front := steps[..|steps| - 1];
      forall i | 0 <= i < |front| ensures front[..i] == steps[..i] {
      }
      InvRun(front);
      InvStep(Run(front), steps[|steps| - 1]);
    }
  }

  /** Any number of senders, any interleaving with the cleaner: as long as no two of them are in
      the middle of sending one key, equal keys are sent more than the TTL apart, and a key that
      was never sent is never held back. */
  lemma NoDuplicateWithinTTL(steps: seq<Step>, key: Key)
    requires NoRivals(steps)
    ensures Spaced(Run(steps).log)
    ensures (forall i :: 0 <= i < |Run(steps).log| ==> Run(steps).log[i].key != key) ==> key !in Run(steps).sent
  {
    InvRun(steps);
    var s := Run(steps);
  }

  /** The boundary is exact: wherever two senders are in the middle of sending one key, both can
      go on to send it at the same time. */
  lemma RivalsBothSend(steps: seq<Step>, a: nat, b: nat)
    requires a != b && a in Run(steps).missed && b in Run(steps).missed && Run(steps).missed[a] == Run(steps).missed[b]
    ensures !Spaced(Run(steps + [Store(a), Store(b)]).log)
  {
    var s, longer := Run(steps), steps + [Store(a), Store(b)];
    assert longer[..|longer| - 1] == steps + [Store(a)];
    assert (steps + [Store(a)])[..|steps|] == steps;
    var t := Next(Next(s, Store(a)), Store(b));
    assert Run(longer) == t;
    var n := |s.log|;
    assert t.log[n].key == t.log[n + 1].key && t.log[n].at == t.log[n + 1].at;
  }

  /** Two senders that both look before either marks send the same key at the same time. */
  lemma TwoSendersBothPass(key: Key)
    ensures var s := Run([Load(0, key), Load(1, key), Store(0), Store(1)]);
            s.log == [Sent(key, 0), Sent(key, 0)] && !Spaced(s.log)
  {
    var steps := [Load(0, key), Load(1, key), Store(0), Store(1)];
    assert steps[..3] == [Load(0, key), Load(1, key), Store(0)];
    assert steps[..3][..2] == [Load(0, key), Load(1, key)];
    assert steps[..3][..2][..1] == [Load(0, key)];
    assert steps[..3][..2][..1][..0] == [];
    var s1 := Next(INITIAL, Load(0, key));
    assert Run([Load(0, key)]) == s1;
    var s2 := Next(s1, Load(1, key));
    assert Run([Load(0, key), Load(1, key)]) == s2;
    var s3 := Next(s2, Store(0));
    assert Run([Load(0, key), Load(1, key), Store(0)]) == s3;
    var s4 := Next(s3, Store(1));
    assert Run(steps) == s4;
    assert s4.log[0].key == s4.log[1].key;
  }
}
