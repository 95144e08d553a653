/**
 * What a connection attempt does to the outside world, recorded as a trace
 * of events: the initiation command sent to the radio co-processor, each
 * user callback invocation, each blocking delay and each poll together with
 * the answer the co-processor gave.
 */
module Trace {
  import opened Types

  /** A callback slot: a null function pointer, or a function identified by `id`. */
  datatype Callback = Null | Fn(id: nat)

  /** The initiation requests the controller sends to the co-processor driver. */
  datatype Command =
    | SetNetwork(ssid: string)
    | SetKey(ssid: string, keyIndex: uint8, key: string)
    | SetPassphrase(ssid: string, passphrase: string)
    | SetApNetwork(ssid: string, channel: uint8)
    | SetApPassphrase(ssid: string, passphrase: string, channel: uint8)
    | StartScan

  datatype Event =
    | Issue(command: Command)
    | Notify(callback: nat)
    | Delay(ms: uint32)
    | Poll(answer: uint8)

  /** Number of events one pass of the poll loop records. */
  function RoundLength(cb: Callback): nat
  {
    if cb.Fn? then 3 else 2
  }

  /** One pass of the do-while body: the callback if the slot is set, the delay, the poll. */
  function Round(cb: Callback, ms: uint32, answer: uint8): seq<Event>
  {
    (if cb.Fn? then [Notify(cb.id)] else []) + [Delay(ms), Poll(answer)]
  }

  /** The passes of the poll loop that received `answers`, in order. */
  function Rounds(cb: Callback, ms: uint32, answers: seq<uint8>): (r: seq<Event>)
    ensures |r| == RoundLength(cb) * |answers|
  {
    if answers == [] then []
    else Rounds(cb, ms, answers[..|answers| - 1]) + Round(cb, ms, answers[|answers| - 1])
  }

  /** The answers of all polls in a trace, in order. */
  function Polled(trace: seq<Event>): seq<uint8>
  {
    if trace == [] then []
    else (if trace[0].Poll? then [trace[0].answer] else []) + Polled(trace[1..])
  }

  /** The callbacks invoked in a trace, in order. */
  function Notifications(trace: seq<Event>): seq<nat>
  {
    if trace == [] then []
    else (if trace[0].Notify? then [trace[0].callback] else []) + Notifications(trace[1..])
  }

  /** A trace with its callback invocations removed. */
  function Silenced(trace: seq<Event>): seq<Event>
  {
    if trace == [] then []
    else (if trace[0].Notify? then [] else [trace[0]]) + Silenced(trace[1..])
  }

  /**
   * Every poll in `trace` is immediately preceded by the delay, and that by
   * the invocation of the callback in slot `cb` when the slot is set.
   */
  ghost predicate NotifiedBeforeEachPoll(cb: Callback, ms: uint32, trace: seq<Event>)
  {
    forall j :: 0 <= j < |trace| && trace[j].Poll? ==>
      RoundLength(cb) - 1 <= j &&
      trace[j - 1] == Delay(ms) &&
      (cb.Fn? ==> trace[j - 2] == Notify(cb.id))
  }

  lemma {:induction false} PolledAppend(s: seq<Event>, t: seq<Event>)
    ensures Polled(s + t) == Polled(s) + Polled(t)
  {
    if s == [] {
      assert s + t == t;
    } else {
      assert (s + t)[1..] == s[1..] + t;
      PolledAppend(s[1..], t);
    }
  }

  lemma {:induction false} NotificationsAppend(s: seq<Event>, t: seq<Event>)
    ensures Notifications(s + t) == Notifications(s) + Notifications(t)
  {
    if s == [] {
      assert s + t == t;
    } else {
      assert (s + t)[1..] == s[1..] + t;
      NotificationsAppend(s[1..], t);
    }
  }

  lemma {:induction false} SilencedAppend(s: seq<Event>, t: seq<Event>)
    ensures Silenced(s + t) == Silenced(s) + Silenced(t)
  {
    if s == [] {
      assert s + t == t;
    } else {
      assert (s + t)[1..] == s[1..] + t;
      SilencedAppend(s[1..], t);
    }
  }

  /** What one pass of the loop records: one poll, at most one callback, and a delay. */
  lemma RoundObservations(cb: Callback, ms: uint32, answer: uint8)
    ensures Polled(Round(cb, ms, answer)) == [answer]
    ensures Notifications(Round(cb, ms, answer)) == if cb.Fn? then [cb.id] else []
    ensures Silenced(Round(cb, ms, answer)) == Round(Null, ms, answer)
  {
    var tail := [Delay(ms), Poll(answer)];
    assert tail[1..] == [Poll(answer)];
    var last := [Poll(answer)];
    assert last[1..] == [];
    assert Polled(last) == [answer] && Notifications(last) == [] && Silenced(last) == last;
    assert Polled(tail) == [answer] && Notifications(tail) == [] && Silenced(tail) == tail;
    if cb.Fn? {
      assert Round(cb, ms, answer)[1..] == tail;
    } else {
      assert Round(cb, ms, answer) == tail;
    }
  }

  /** Each pass of the loop polls exactly once, so the polls of the loop are its answers. */
  lemma {:induction false} PolledRounds(cb: Callback, ms: uint32, answers: seq<uint8>)
    ensures Polled(Rounds(cb, ms, answers)) == answers
  {
    if answers != [] {
      var n := |answers| - 1;
      var round := Round(cb, ms, answers[n]);
      PolledRounds(cb, ms, answers[..n]);
      PolledAppend(Rounds(cb, ms, answers[..n]), round);
      RoundObservations(cb, ms, answers[n]);
      assert answers[..n] + [answers[n]] == answers;
    }
  }

  /** A set callback fires exactly once per poll; a null one never fires. */
  lemma {:induction false} NotificationsRounds(cb: Callback, ms: uint32, answers: seq<uint8>)
    ensures cb.Fn? ==> Notifications(Rounds(cb, ms, answers)) == seq(|answers|, _ => cb.id)
    ensures cb.Null? ==> Notifications(Rounds(cb, ms, answers)) == []
  {
    if answers != [] {
      var n := |answers| - 1;
      var round := Round(cb, ms, answers[n]);
      NotificationsRounds(cb, ms, answers[..n]);
      NotificationsAppend(Rounds(cb, ms, answers[..n]), round);
      RoundObservations(cb, ms, answers[n]);
    }
  }

  /** Clearing a callback slot removes the invocations and changes nothing else. */
  lemma {:induction false} SilencedRounds(id: nat, ms: uint32, answers: seq<uint8>)
    ensures Silenced(Rounds(Fn(id), ms, answers)) == Rounds(Null, ms, answers)
  {
    if answers != [] {
      var n := |answers| - 1;
      var round := Round(Fn(id), ms, answers[n]);
      SilencedRounds(id, ms, answers[..n]);
      SilencedAppend(Rounds(Fn(id), ms, answers[..n]), round);
      RoundObservations(Fn(id), ms, answers[n]);
    }
  }

  /** Within every pass the callback fires before the delay, and the delay comes before the poll. */
  lemma {:induction false} RoundsNotifyBeforePoll(cb: Callback, ms: uint32, answers: seq<uint8>)
    ensures NotifiedBeforeEachPoll(cb, ms, Rounds(cb, ms, answers))
    ensures answers != [] ==> Rounds(cb, ms, answers)[|Rounds(cb, ms, answers)| - 1] == Poll(answers[|answers| - 1])
  {
    if answers != [] {
      var n := |answers| - 1;
      var prefix := Rounds(cb, ms, answers[..n]);
      var round := Round(cb, ms, answers[n]);
      var r := prefix + round;
      assert r == Rounds(cb, ms, answers);
      RoundsNotifyBeforePoll(cb, ms, answers[..n]);
      forall j | 0 <= j < |r| && r[j].Poll?
        ensures RoundLength(cb) - 1 <= j && r[j - 1] == Delay(ms) && (cb.Fn? ==> r[j - 2] == Notify(cb.id))
      {
        if j < |prefix| {
          assert prefix[j] == r[j];
        } else {
          assert round[j - |prefix|].Poll?;
          assert j == |r| - 1;
        }
      }
    }
  }
}
