/** The switch element as values: its on/off flag and pin, the two topics it
    derives, and the two callbacks it registers (boot recovery and commands). */
module SwitchLogic {
  import opened Wrappers
  import opened Mqtt
  import opened Statuses

  const ON: string := "ON"
  const OFF: string := "OFF"
  const STATUS_SUFFIX: string := "/status"

  /** A `digitalWrite` level. */
  datatype Level = Low | High

  /** The relay is active-low: on drives the pin LOW. */
  function LevelFor(on: bool): Level
  {
    if on then Low else High
  }

  /** The `switched` flag and every level written to the pin, in order. */
  datatype SwitchState = SwitchState(switched: bool, writes: seq<Level>)

  /** The pin shows the flag: the last level written is the one the flag calls for. */
  predicate PinMatches(s: SwitchState)
  {
    s.writes != [] ==> s.writes[|s.writes| - 1] == LevelFor(s.switched)
  }

  function On(s: SwitchState): SwitchState
  {
    SwitchState(true, s.writes + [Low])
  }

  function Off(s: SwitchState): SwitchState
  {
    SwitchState(false, s.writes + [High])
  }

  function SwitchTo(s: SwitchState, high: bool): SwitchState
  {
    if high then On(s) else Off(s)
  }

  /** Exactly the two case-sensitive tokens are commands. */
  predicate Accepts(command: string)
  {
    command == ON || command == OFF
  }

  function HandleCommand(s: SwitchState, command: string): SwitchState
  {
    if command == ON then SwitchTo(s, true)
    else if command == OFF then SwitchTo(s, false)
    else s
  }

  function CommandTopic(device: string, name: string): string
  {
    device + "/" + name
  }

  function StatusTopic(device: string, name: string): string
  {
    CommandTopic(device, name) + STATUS_SUFFIX
  }

  /** `handleMqtt`: the recovery callback on the status topic, then the command
      callback on the command topic; each captures the status topic. */
  function Attach(l: Link, device: string, name: string): Link
  {
    var st := StatusTopic(device, name);
    l.Subscribe(st, RestoreSwitch(name, st)).Subscribe(CommandTopic(device, name), CommandSwitch(name, st))
  }

  /** A switch together with the client its callbacks act on. */
  datatype Node = Node(sw: SwitchState, link: Link)

  /** One of the switch's callbacks, run on `payload`. The recovery callback
      hands the payload to the command handler and unsubscribes itself; the
      command callback publishes the (retained) status when the command is taken. */
  function Run(n: Node, cb: Callback, payload: string): Node
  {
    match cb
    case RestoreSwitch(_, st) =>
      Node(HandleCommand(n.sw, payload), n.link.Unsubscribe(st))
    case CommandSwitch(_, st) =>
      if Accepts(payload)
      then Node(HandleCommand(n.sw, payload), n.link.Publish(Message(st, Text(STATUS_OK), true)))
      else n
    case _ => n
  }

  /** The broker delivering one message to a client that only this switch uses. */
  function Deliver(n: Node, m: Inbound): Node
  {
    if m.topic in n.link.subscriptions then Run(n, n.link.subscriptions[m.topic], m.payload) else n
  }

  function DeliverAll(n: Node, ms: seq<Inbound>): Node
  {
    if ms == [] then n else Deliver(DeliverAll(n, ms[..|ms| - 1]), ms[|ms| - 1])
  }

  /** Nothing but the status "OK", retained, has been published. */
  predicate OkOnly(published: seq<Message>)
  {
    forall i :: 0 <= i < |published| ==> published[i].payload == Text(STATUS_OK) && published[i].retained
  }

  /** A topic of the form `<anything>/status`. */
  predicate IsStatusTopic(t: string)
  {
    |STATUS_SUFFIX| <= |t| && t[|t| - |STATUS_SUFFIX|..] == STATUS_SUFFIX
  }

  /** Every retained message published to a status topic says "OK". Unlike
      `OkOnly`, this leaves room for the sensors' readings, which share the
      client but are published to other topics. */
  predicate StatusOkOnly(published: seq<Message>)
  {
    forall i :: 0 <= i < |published| && published[i].retained && IsStatusTopic(published[i].topic) ==>
      published[i].payload == Text(STATUS_OK)
  }

  predicate NoSlash(name: string)
  {
    forall i :: 0 <= i < |name| ==> name[i] != '/'
  }

  // ---------------------------------------------------------------------------
  // The switch state machine

  lemma OnOffFlag(s: SwitchState)
    ensures On(s).switched && On(s).writes == s.writes + [Low]
    ensures !Off(s).switched && Off(s).writes == s.writes + [High]
    ensures SwitchTo(s, true).switched && !SwitchTo(s, false).switched
  {
  }

  /** "ON" and "OFF" are taken and set the flag; everything else, "on" and "OK"
      included, is refused and changes nothing. */
  lemma HandleCommandCases(s: SwitchState, command: string)
    ensures Accepts(command) <==> command == "ON" || command == "OFF"
    ensures command == "ON" ==> HandleCommand(s, command) == On(s)
    ensures command == "OFF" ==> HandleCommand(s, command) == Off(s)
    ensures !Accepts(command) ==> HandleCommand(s, command) == s
    ensures !Accepts("on") && !Accepts("off") && !Accepts("OK") && !Accepts("")
  {
  }

  /** Taking a command twice leaves the flag and the pin level as taking it once. */
  lemma HandleCommandIdempotent(s: SwitchState, command: string)
    ensures HandleCommand(HandleCommand(s, command), command).switched == HandleCommand(s, command).switched
    ensures PinMatches(HandleCommand(s, command)) ==> PinMatches(HandleCommand(HandleCommand(s, command), command))
  {
  }

  lemma HandleCommandKeepsPin(s: SwitchState, command: string)
    requires PinMatches(s)
    ensures PinMatches(HandleCommand(s, command))
  {
  }

  // ---------------------------------------------------------------------------
  // Topics

  lemma PrefixCancel(p: string, a: string, b: string)
    ensures p + a == p + b ==> a == b
  {
    assert a == (p + a)[|p|..];
    assert b == (p + b)[|p|..];
  }

  lemma SuffixHasSlash(b: string)
    ensures !NoSlash(b + STATUS_SUFFIX)
  {
    assert (b + STATUS_SUFFIX)[|b|] == '/';
  }

  /** Topics of names without '/' in one device never collide: a command topic
      determines the name, a status topic determines the name, and no command
      topic is a status topic. */
  lemma {:induction false} TopicsDistinct(device: string, a: string, b: string)
    requires NoSlash(a) && NoSlash(b)
    ensures CommandTopic(device, a) == CommandTopic(device, b) <==> a == b
    ensures StatusTopic(device, a) == StatusTopic(device, b) <==> a == b
    ensures CommandTopic(device, a) != StatusTopic(device, b)
  {
    var p := device + "/";
    assert CommandTopic(device, a) == p + a;
    assert CommandTopic(device, b) == p + b;
    assert StatusTopic(device, a) == p + (a + STATUS_SUFFIX);
    assert StatusTopic(device, b) == p + (b + STATUS_SUFFIX);
    PrefixCancel(p, a, b);
    PrefixCancel(p, a + STATUS_SUFFIX, b + STATUS_SUFFIX);
    assert a == (a + STATUS_SUFFIX)[..|a|];
    assert b == (b + STATUS_SUFFIX)[..|b|];
    PrefixCancel(p, a, b + STATUS_SUFFIX);
    SuffixHasSlash(b);
  }

  // ---------------------------------------------------------------------------
  // The topic protocol of one switch

  /** The first message on the status topic is handed to the command handler,
      nothing is published, and the status topic is dropped; a later message on
      that topic is not processed at all. */
  lemma RecoveryIsOneShot(n: Node, device: string, name: string, first: string, later: string)
    requires NoSlash(name)
    ensures var st := StatusTopic(device, name);
            var n1 := Deliver(Node(n.sw, Attach(n.link, device, name)), Inbound(st, first));
            && n1.sw == HandleCommand(n.sw, first)
            && n1.link.published == n.link.published
            && st !in n1.link.subscriptions
            && Deliver(n1, Inbound(st, later)) == n1
  {
    TopicsDistinct(device, name, name);
  }

  /** A command-topic message publishes the retained status exactly when the
      command is taken, and never touches the subscriptions. */
  lemma CommandPublishesOnAccept(n: Node, device: string, name: string, payload: string)
    requires NoSlash(name)
    ensures var a := Node(n.sw, Attach(n.link, device, name));
            var n1 := Deliver(a, Inbound(CommandTopic(device, name), payload));
            && n1.sw == HandleCommand(n.sw, payload)
            && n1.link.subscriptions == a.link.subscriptions
            && n1.link.published == n.link.published +
                 (if Accepts(payload) then [Message(StatusTopic(device, name), Text(STATUS_OK), true)] else [])
  {
  }

  /** However messages arrive, the switch only ever publishes "OK", retained. */
  lemma {:induction false} OnlyOkPublished(n: Node, ms: seq<Inbound>)
    requires OkOnly(n.link.published)
    ensures OkOnly(DeliverAll(n, ms).link.published)
  {
    if ms != [] {
      OnlyOkPublished(n, ms[..|ms| - 1]);
    }
  }

  lemma StatusTopicIsStatus(device: string, name: string)
    ensures IsStatusTopic(StatusTopic(device, name))
  {
    var t := StatusTopic(device, name);
    assert t == CommandTopic(device, name) + STATUS_SUFFIX;
    assert t[|t| - |STATUS_SUFFIX|..] == STATUS_SUFFIX;
  }

  /** A topic whose last character is not 's' is no status topic. */
  lemma NotStatusTopic(t: string, suffix: string)
    requires suffix != [] && suffix[|suffix| - 1] != 's'
    ensures !IsStatusTopic(t + suffix)
  {
    var u := t + suffix;
    assert u[|u| - 1] == suffix[|suffix| - 1];
    if |STATUS_SUFFIX| <= |u| {
      assert u[|u| - |STATUS_SUFFIX|..][|STATUS_SUFFIX| - 1] == u[|u| - 1];
    }
  }

  /** However messages arrive, every retained status the switch leaves behind is "OK". */
  lemma {:induction false} DeliverAllKeepsStatusOk(n: Node, ms: seq<Inbound>)
    requires StatusOkOnly(n.link.published)
    ensures StatusOkOnly(DeliverAll(n, ms).link.published)
  {
    if ms != [] {
      DeliverAllKeepsStatusOk(n, ms[..|ms| - 1]);
    }
  }

  /** The retained value of a status topic in such a log is "OK", and the
      command handler refuses it without change. */
  lemma StatusOkRefused(published: seq<Message>, st: string, s: SwitchState)
    requires StatusOkOnly(published) && IsStatusTopic(st)
    ensures Retained(published, st).Some? ==>
              Retained(published, st).value == Text(STATUS_OK) &&
              HandleCommand(s, Retained(published, st).value.text) == s
  {
    RetainedWasPublished(published, st);
  }

  /** As written, boot recovery never restores anything: whatever the switch did
      before the restart, the retained status it left behind is "OK" (or there is
      none), and replaying that value into the recovery callback leaves the fresh
      switch exactly as it booted. The client may carry anything else, as long
      as no one else published a retained status other than "OK". */
  lemma ReplayNeverRestores(before: Node, ms: seq<Inbound>, device: string, name: string, boot: SwitchState, subs: map<string, Callback>)
    requires NoSlash(name)
    requires StatusOkOnly(before.link.published)
    ensures var log := DeliverAll(before, ms).link.published;
            var st := StatusTopic(device, name);
            var rebooted := Node(boot, Attach(Link(subs, log), device, name));
            Retained(log, st).Some? ==>
              Retained(log, st).value.Text? &&
              Deliver(rebooted, Inbound(st, Retained(log, st).value.text)).sw == boot
  {
    var log := DeliverAll(before, ms).link.published;
    DeliverAllKeepsStatusOk(before, ms);
    StatusTopicIsStatus(device, name);
    StatusOkRefused(log, StatusTopic(device, name), boot);
    TopicsDistinct(device, name, name);
  }

  /** With the intended replay of "ON", recovery would switch the element on. */
  lemma RecoveryOfOn(n: Node, device: string, name: string)
    requires NoSlash(name)
    ensures Deliver(Node(n.sw, Attach(n.link, device, name)), Inbound(StatusTopic(device, name), ON)).sw.switched
  {
    TopicsDistinct(device, name, name);
  }
}
