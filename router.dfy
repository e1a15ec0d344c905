/** The topic router of a device registry: `handleMqtt` run for each switch in
    turn, and the client handing an inbound message to the switch callback
    registered for its topic. */
module Router {
  import opened Mqtt
  import opened Statuses
  import opened SwitchLogic

  predicate Distinct(names: seq<string>)
  {
    forall i, j :: 0 <= i < j < |names| ==> names[i] != names[j]
  }

  /** Names that give every element its own topics. */
  predicate WellNamed(names: seq<string>)
  {
    Distinct(names) && forall i :: 0 <= i < |names| ==> NoSlash(names[i])
  }

  /** Position of the first element named `n`. */
  function IndexOf(names: seq<string>, n: string): (i: nat)
    requires n in names
    ensures i < |names| && names[i] == n
    ensures forall j :: 0 <= j < i ==> names[j] != n
  {
    if names[0] == n then 0 else 1 + IndexOf(names[1..], n)
  }

  /** `handleMqtt(client, device)` for each switch, in order. */
  function AttachAll(l: Link, device: string, names: seq<string>): Link
  {
    if names == [] then l else Attach(AttachAll(l, device, names[..|names| - 1]), device, names[|names| - 1])
  }

  predicate IsSwitchCallback(cb: Callback)
  {
    cb.RestoreSwitch? || cb.CommandSwitch?
  }

  /** The client runs the callback registered for the message's topic; only
      switch callbacks of this registry change the switches or the client. */
  function Dispatch(sws: seq<SwitchState>, names: seq<string>, l: Link, m: Inbound): (r: (seq<SwitchState>, Link))
    requires |sws| == |names|
    ensures |r.0| == |sws|
  {
    if m.topic !in l.subscriptions then (sws, l)
    else
      var cb := l.subscriptions[m.topic];
      if IsSwitchCallback(cb) && cb.element in names then
        var i := IndexOf(names, cb.element);
        var n := SwitchLogic.Run(Node(sws[i], l), cb, m.payload);
        (sws[i := n.sw], n.link)
      else (sws, l)
  }

  function DispatchAll(sws: seq<SwitchState>, names: seq<string>, l: Link, ms: seq<Inbound>): (r: (seq<SwitchState>, Link))
    requires |sws| == |names|
    ensures |r.0| == |sws|
  {
    if ms == [] then (sws, l)
    else
      var (s1, l1) := DispatchAll(sws, names, l, ms[..|ms| - 1]);
      Dispatch(s1, names, l1, ms[|ms| - 1])
  }

  function Topics(device: string, names: seq<string>): set<string>
  {
    (set n | n in names :: StatusTopic(device, n)) + (set n | n in names :: CommandTopic(device, n))
  }

  /** A switch callback for the `i`-th name runs on the `i`-th switch. */
  lemma DispatchAt(sws: seq<SwitchState>, names: seq<string>, l: Link, m: Inbound, i: nat)
    requires |sws| == |names| && Distinct(names) && i < |names|
    requires m.topic in l.subscriptions && IsSwitchCallback(l.subscriptions[m.topic])
    requires l.subscriptions[m.topic].element == names[i]
    ensures var n := SwitchLogic.Run(Node(sws[i], l), l.subscriptions[m.topic], m.payload);
            Dispatch(sws, names, l, m) == (sws[i := n.sw], n.link)
  {
    var j := IndexOf(names, names[i]);
    assert j == i;
  }

  lemma AttachAllSnoc(l: Link, device: string, names: seq<string>, n: string)
    ensures AttachAll(l, device, names + [n]) == Attach(AttachAll(l, device, names), device, n)
  {
    assert (names + [n])[..|names|] == names;
  }

  lemma AttachFacts(l: Link, device: string, n: string)
    requires NoSlash(n)
    ensures var r := Attach(l, device, n);
            var st, ct := StatusTopic(device, n), CommandTopic(device, n);
            && r.published == l.published
            && r.subscriptions.Keys == l.subscriptions.Keys + {st, ct}
            && r.subscriptions[st] == RestoreSwitch(n, st)
            && r.subscriptions[ct] == CommandSwitch(n, st)
            && (forall t :: t in l.subscriptions && t != st && t != ct ==> r.subscriptions[t] == l.subscriptions[t])
  {
    TopicsDistinct(device, n, n);
  }

  /** The topics of the last name differ from those of all earlier names. */
  lemma LastTopicsFresh(device: string, names: seq<string>)
    requires WellNamed(names) && names != []
    ensures var last := names[|names| - 1];
            StatusTopic(device, last) !in Topics(device, names[..|names| - 1]) &&
            CommandTopic(device, last) !in Topics(device, names[..|names| - 1])
  {
    var front, last := names[..|names| - 1], names[|names| - 1];
    forall i | 0 <= i < |front|
      ensures StatusTopic(device, front[i]) != StatusTopic(device, last)
      ensures StatusTopic(device, front[i]) != CommandTopic(device, last)
      ensures CommandTopic(device, front[i]) != StatusTopic(device, last)
      ensures CommandTopic(device, front[i]) != CommandTopic(device, last)
    {
      assert names[i] == front[i];
      TopicsDistinct(device, front[i], last);
      TopicsDistinct(device, last, front[i]);
    }
  }

  lemma TopicsSnoc(device: string, names: seq<string>)
    requires names != []
    ensures var last := names[|names| - 1];
            Topics(device, names) == Topics(device, names[..|names| - 1]) + {StatusTopic(device, last), CommandTopic(device, last)}
  {
    assert names == names[..|names| - 1] + [names[|names| - 1]];
  }

  /** Registering adds exactly the switches' topics, keeps every other entry and publishes nothing. */
  lemma {:induction false} AttachAllShape(l: Link, device: string, names: seq<string>)
    requires WellNamed(names)
    ensures var r := AttachAll(l, device, names);
            && r.published == l.published
            && r.subscriptions.Keys == l.subscriptions.Keys + Topics(device, names)
            && (forall t :: t in l.subscriptions && t !in Topics(device, names) ==> r.subscriptions[t] == l.subscriptions[t])
  {
    if names != [] {
      var front, last := names[..|names| - 1], names[|names| - 1];
      assert WellNamed(front);
      AttachAllShape(l, device, front);
      AttachFacts(AttachAll(l, device, front), device, last);
      TopicsSnoc(device, names);
    }
  }

  /** Registering gives every switch its recovery and command callbacks. */
  lemma {:induction false} AttachAllEntries(l: Link, device: string, names: seq<string>)
    requires WellNamed(names)
    ensures var r := AttachAll(l, device, names);
            forall i :: 0 <= i < |names| ==>
              StatusTopic(device, names[i]) in r.subscriptions &&
              CommandTopic(device, names[i]) in r.subscriptions &&
              r.subscriptions[StatusTopic(device, names[i])] == RestoreSwitch(names[i], StatusTopic(device, names[i])) &&
              r.subscriptions[CommandTopic(device, names[i])] == CommandSwitch(names[i], StatusTopic(device, names[i]))
  {
    if names != [] {
      var front, last := names[..|names| - 1], names[|names| - 1];
      assert WellNamed(front);
      AttachAllEntries(l, device, front);
      AttachAllShape(l, device, front);
      var r0 := AttachAll(l, device, front);
      AttachFacts(r0, device, last);
      LastTopicsFresh(device, names);
      var r := AttachAll(l, device, names);
      assert r == Attach(r0, device, last);
      forall i | 0 <= i < |front|
        ensures StatusTopic(device, names[i]) in r.subscriptions && CommandTopic(device, names[i]) in r.subscriptions
        ensures r.subscriptions[StatusTopic(device, names[i])] == RestoreSwitch(names[i], StatusTopic(device, names[i]))
        ensures r.subscriptions[CommandTopic(device, names[i])] == CommandSwitch(names[i], StatusTopic(device, names[i]))
      {
        assert names[i] == front[i];
        assert StatusTopic(device, front[i]) in Topics(device, front);
        assert CommandTopic(device, front[i]) in Topics(device, front);
      }
    }
  }

  /** Registering the switches under one device name gives every switch its
      recovery callback on its status topic and its command callback on its
      command topic, adds no other topic, and publishes nothing. */
  lemma AttachAllRegisters(l: Link, device: string, names: seq<string>)
    requires WellNamed(names)
    ensures var r := AttachAll(l, device, names);
            && r.published == l.published
            && r.subscriptions.Keys == l.subscriptions.Keys + Topics(device, names)
            && (forall t :: t in l.subscriptions && t !in Topics(device, names) ==> r.subscriptions[t] == l.subscriptions[t])
            && (forall i :: 0 <= i < |names| ==>
                  r.subscriptions[StatusTopic(device, names[i])] == RestoreSwitch(names[i], StatusTopic(device, names[i])) &&
                  r.subscriptions[CommandTopic(device, names[i])] == CommandSwitch(names[i], StatusTopic(device, names[i])))
  {
    AttachAllShape(l, device, names);
    AttachAllEntries(l, device, names);
  }

  /** A message changes at most the switch its callback belongs to. */
  lemma DispatchTouchesOne(sws: seq<SwitchState>, names: seq<string>, l: Link, m: Inbound, j: nat)
    requires |sws| == |names| && j < |names|
    requires m.topic !in l.subscriptions || !IsSwitchCallback(l.subscriptions[m.topic]) ||
             l.subscriptions[m.topic].element != names[j]
    ensures Dispatch(sws, names, l, m).0[j] == sws[j]
  {
  }

  /** This registry only ever publishes the retained status "OK". */
  lemma {:induction false} DispatchAllOkOnly(sws: seq<SwitchState>, names: seq<string>, l: Link, ms: seq<Inbound>)
    requires |sws| == |names|
    requires OkOnly(l.published)
    ensures OkOnly(DispatchAll(sws, names, l, ms).1.published)
  {
    if ms != [] {
      DispatchAllOkOnly(sws, names, l, ms[..|ms| - 1]);
    }
  }

  /** Recovery is one-shot at the registry too: once a recovery callback has run,
      its status topic is gone from the subscriptions and nothing is published. */
  lemma RecoveryUnsubscribes(sws: seq<SwitchState>, names: seq<string>, l: Link, m: Inbound)
    requires |sws| == |names|
    requires m.topic in l.subscriptions && l.subscriptions[m.topic].RestoreSwitch?
    requires l.subscriptions[m.topic].element in names
    ensures var r := Dispatch(sws, names, l, m);
            && r.1.subscriptions == l.subscriptions - {l.subscriptions[m.topic].statusTopic}
            && r.1.published == l.published
  {
  }

  /** One registry callback keeps every retained status "OK": the only thing a
      switch publishes is the status "OK". */
  lemma DispatchKeepsStatusOk(sws: seq<SwitchState>, names: seq<string>, l: Link, m: Inbound)
    requires |sws| == |names|
    requires StatusOkOnly(l.published)
    ensures StatusOkOnly(Dispatch(sws, names, l, m).1.published)
  {
  }

  /** Running registry callbacks keeps every retained status "OK". */
  lemma {:induction false} DispatchAllKeepsStatusOk(sws: seq<SwitchState>, names: seq<string>, l: Link, ms: seq<Inbound>)
    requires |sws| == |names|
    requires StatusOkOnly(l.published)
    ensures StatusOkOnly(DispatchAll(sws, names, l, ms).1.published)
  {
    if ms != [] {
      DispatchAllKeepsStatusOk(sws, names, l, ms[..|ms| - 1]);
      var (s1, l1) := DispatchAll(sws, names, l, ms[..|ms| - 1]);
      DispatchKeepsStatusOk(s1, names, l1, ms[|ms| - 1]);
    }
  }

  /** After a restart the registry registers again and the broker replays the
      retained value of a switch's status topic into its recovery callback. If
      every retained status in the log is "OK", that replay leaves every switch
      as it booted. */
  lemma ReplayOfStatusOk(sws: seq<SwitchState>, names: seq<string>, l0: Link, device: string, k: nat, log: seq<Message>)
    requires |sws| == |names| && WellNamed(names) && k < |names|
    requires StatusOkOnly(log)
    ensures var st := StatusTopic(device, names[k]);
            Retained(log, st).Some? ==>
              Retained(log, st).value.Text? &&
              Dispatch(sws, names, AttachAll(l0, device, names), Inbound(st, Retained(log, st).value.text)).0 == sws
  {
    var st := StatusTopic(device, names[k]);
    StatusTopicIsStatus(device, names[k]);
    StatusOkRefused(log, st, sws[k]);
    if Retained(log, st).Some? {
      var l := AttachAll(l0, device, names);
      AttachAllRegisters(l0, device, names);
      var m := Inbound(st, STATUS_OK);
      assert l.subscriptions[st] == RestoreSwitch(names[k], st);
      assert st in Topics(device, names);
      DispatchAt(sws, names, l, m, k);
      assert sws[k := sws[k]] == sws;
    }
  }

  /** Whatever the registry did before the restart, the retained status it left
      behind, replayed into the re-registered recovery callback, leaves every
      switch as it booted. */
  lemma ReplayLeavesSwitches(sws: seq<SwitchState>, names: seq<string>, l0: Link, device: string, k: nat,
                             before: seq<SwitchState>, history: Link, ms: seq<Inbound>)
    requires |sws| == |names| && |before| == |names| && WellNamed(names) && k < |names|
    requires StatusOkOnly(history.published)
    ensures var log := DispatchAll(before, names, history, ms).1.published;
            var st := StatusTopic(device, names[k]);
            Retained(log, st).Some? ==>
              Retained(log, st).value.Text? &&
              Dispatch(sws, names, AttachAll(l0, device, names), Inbound(st, Retained(log, st).value.text)).0 == sws
  {
    DispatchAllKeepsStatusOk(before, names, history, ms);
    ReplayOfStatusOk(sws, names, l0, device, k, DispatchAll(before, names, history, ms).1.published);
  }
}
