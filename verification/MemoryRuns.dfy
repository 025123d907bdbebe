/**
 Runs of the in-memory transport in which it does what one would not expect. The exact conditions are
 `RemovingOnceIsTheCondition` and `ConnectsToADialerBeingMade` of `MemoryRegistry`,
 `OwnPortOnlyDuringRemoval` of `MemoryOrigins`, and `DroppingATransport` of `MemorySafety`.
 */
module MemoryRuns {
  import opened Common
  import opened MemoryModel
  import opened MemoryCore
  import opened MemorySafety

  /** One action at a time, from the front. */
  lemma Unroll(w: World, a: Action, rest: seq<Action>)
    ensures Run(w, [a] + rest) == Run(Apply(w, a), rest)
    ensures DisciplinedRun(w, [a] + rest) <==> Disciplined(w, a) && DisciplinedRun(Apply(w, a), rest)
  {
    hide Apply, Disciplined;
    assert ([a] + rest)[1..] == rest;
  }

  const FIRST := Listener(1, 5, 0, true)
  const SECOND := Listener(2, 5, 1, true)

  function ListenerChannel(id: nat, removed: bool, closed: bool, queue: seq<Message>): Channel {
    Channel(5, ListenerOf(0, id), queue, removed, closed)
  }

  /** Both runs begin by listening on port 5. */
  lemma ListenFirst()
    ensures Apply(Start(1), Listen(0, 1, 5, 0)) ==
            World(map[5 := 0], [ListenerChannel(1, false, false, [])], [[FIRST]], map[], [], [])
  {
    var w := Start(1);
    assert w.transports == [[]] && [] + [FIRST] == [FIRST];
    assert Apply(w, Listen(0, 1, 5, 0)).transports == [[FIRST]];
  }

  // ----- removing a listener twice -----

  // The worlds of the run after listening, one an action.
  const T1 := World(map[5 := 0], [ListenerChannel(1, false, false, [])], [[FIRST]], map[], [], [])
  const T2 := World(map[], [ListenerChannel(1, true, false, [])], [[FIRST]], map[0 := 0], [], [])
  const T3 := World(map[], [ListenerChannel(1, true, true, [])], [[FIRST]], map[], [], [])
  const T4 := World(map[5 := 1], [ListenerChannel(1, true, true, []), ListenerChannel(2, false, false, [])],
                    [[FIRST, SECOND]], map[], [], [])

  lemma RemoveFirst()
    ensures Apply(T1, RemoveListener(0, 1)) == T2
  {
    assert Position([FIRST], 1) == Some(0);
  }

  lemma CloseFirst()
    ensures Apply(T2, CloseReceiver(0)) == T3
  {
  }

  lemma ListenSecond()
    ensures Apply(T3, Listen(0, 2, 5, 0)) == T4
  {
    assert [FIRST] + [SECOND] == [FIRST, SECOND];
    assert Apply(T3, Listen(0, 2, 5, 0)).transports == [[FIRST, SECOND]];
    assert Apply(T3, Listen(0, 2, 5, 0)).channels == T3.channels + [ListenerChannel(2, false, false, [])];
  }

  const TWICE: seq<Action> :=
    [Listen(0, 1, 5, 0)] + ([RemoveListener(0, 1)] + ([CloseReceiver(0)] +
    ([Listen(0, 2, 5, 0)] + ([RemoveListener(0, 1)] + []))))

  /**
   A listener removed twice while another has taken its port: the registry loses the other's port,
   although the other listener was never removed and is in its queue.
   */
  lemma RemovingTwiceHitsAnother()
    ensures var w := Run(Start(1), TWICE);
            && w.hub == map[]
            && w.transports == [[FIRST, SECOND]]
            && |w.channels| == 2 && !w.channels[1].removed && !w.channels[1].closed
            && !RegistryInv(w)
    ensures !DisciplinedRun(Start(1), TWICE)
  {
    ListenFirst();
    RemoveFirst();
    CloseFirst();
    ListenSecond();
    assert Position([FIRST, SECOND], 1) == Some(0);
    var end := Apply(T4, RemoveListener(0, 1));
    assert end.hub == map[] && end.transports == T4.transports && end.channels == T4.channels;
    assert !Disciplined(T4, RemoveListener(0, 1));
    assert !ChannelOk(end, 1);
    hide Apply, Disciplined;
    var r5: seq<Action> := [];
    var r4 := [RemoveListener(0, 1)] + r5;
    var r3 := [Listen(0, 2, 5, 0)] + r4;
    var r2 := [CloseReceiver(0)] + r3;
    var r1 := [RemoveListener(0, 1)] + r2;
    Unroll(T4, RemoveListener(0, 1), r5);
    Unroll(T3, Listen(0, 2, 5, 0), r4);
    Unroll(T2, CloseReceiver(0), r3);
    Unroll(T1, RemoveListener(0, 1), r2);
    Unroll(Start(1), Listen(0, 1, 5, 0), r1);
  }

  // ----- a dial from the listener's own port -----

  function EphemeralChannel(closed: bool): Channel {
    Channel(5, DialerOf(0), [], false, closed)
  }

  const LOG: seq<Event> := [Discarded(1, []), Sent(0, 0, 5)]

  // The worlds of the run after listening, one an action.
  const W1 := World(map[5 := 0], [ListenerChannel(1, false, false, [])], [[FIRST]], map[], [], [])
  const W2 := W1.(dialers := [Dialer(5, 0, 0, Located)])
  const W3 := World(map[], [ListenerChannel(1, true, false, [])], [[FIRST]], map[0 := 0],
                    [Dialer(5, 0, 0, Located)], [])
  const W4 := World(map[5 := 1], [ListenerChannel(1, true, false, []), EphemeralChannel(false)], [[FIRST]],
                    map[0 := 0], [Dialer(5, 0, 1, Opening)], [])
  const W5 := World(map[5 := 1], [ListenerChannel(1, true, false, []), EphemeralChannel(true)], [[FIRST]],
                    map[0 := 0], [Dialer(5, 0, 1, Dialing)], [Discarded(1, [])])
  const W6 := World(map[5 := 1], [ListenerChannel(1, true, false, [Message(0, 5)]), EphemeralChannel(true)],
                    [[FIRST]], map[0 := 0], [Dialer(5, 0, 1, Connected)], LOG)
  const W7 := World(map[5 := 1], [ListenerChannel(1, true, true, [Message(0, 5)]), EphemeralChannel(true)],
                    [[FIRST]], map[], [Dialer(5, 0, 1, Connected)], LOG)
  const W8 := World(map[5 := 1], [ListenerChannel(1, true, true, [Message(0, 5)]), EphemeralChannel(true)],
                    [[FIRST.(tellListenAddr := false)]], map[], [Dialer(5, 0, 1, Connected)],
                    LOG + [NewAddress(0, 1, 5)])
  const W9 := World(map[5 := 1], [ListenerChannel(1, true, true, []), EphemeralChannel(true)],
                    [[FIRST.(tellListenAddr := false)]], map[], [Dialer(5, 0, 1, Connected)],
                    LOG + [NewAddress(0, 1, 5)] + [Incoming(0, 1, 5, 5, 0)])

  lemma Dialed()
    ensures Apply(W1, Locate(5)) == W2
    ensures Apply(W2, RemoveListener(0, 1)) == W3 && Disciplined(W2, RemoveListener(0, 1))
  {
    assert Position([FIRST], 1) == Some(0);
  }

  lemma Drawn()
    ensures Apply(W3, Register(0, 5)) == W4 && Apply(W4, Settle(0)) == W5
  {
    assert Apply(W3, Register(0, 5)).channels == W3.channels + [EphemeralChannel(false)];
  }

  lemma Delivered()
    ensures Apply(W5, PollDial(0, true)) == W6 && Apply(W6, CloseReceiver(0)) == W7
  {
    assert [] + [Message(0, 5)] == [Message(0, 5)];
    assert [Discarded(1, [])] + [Sent(0, 0, 5)] == LOG;
  }

  lemma Polled()
    ensures Apply(W7, PollTransport(0)) == W8 && Apply(W8, PollTransport(0)) == W9
  {
    var told := FIRST.(tellListenAddr := false);
    assert Stop([FIRST], W7.channels, Senders(W7)) == Some(0);
    assert Rotated([FIRST], 0, [told]) == [told];
    assert Stop([told], W8.channels, Senders(W8)) == Some(0);
    assert Rotated([told], 0, [told]) == [told];
    assert [Message(0, 5)][1..] == [];
  }

  const OWN_PORT: seq<Action> :=
    [Listen(0, 1, 5, 0)] + ([Locate(5)] + ([RemoveListener(0, 1)] + ([Register(0, 5)] + ([Settle(0)] +
    ([PollDial(0, true)] + ([CloseReceiver(0)] + ([PollTransport(0)] + ([PollTransport(0)] + []))))))))

  /** Discipline is about removals. */
  lemma Others(w: World, a: Action, rest: seq<Action>)
    requires !a.RemoveListener?
    ensures Run(w, [a] + rest) == Run(Apply(w, a), rest)
    ensures DisciplinedRun(w, [a] + rest) <==> DisciplinedRun(Apply(w, a), rest)
  {
    Unroll(w, a, rest);
  }

  /**
   A dialer looks the listener on port 5 up, the listener is unregistered, the dialer draws port 5 for
   itself and sends before the listener is closed: the listener reports a dial from its own address.
   */
  lemma DialFromTheListenersOwnPort()
    ensures DisciplinedRun(Start(1), OWN_PORT)
    ensures Incoming(0, 1, 5, 5, 0) in Run(Start(1), OWN_PORT).log
  {
    ListenFirst();
    Dialed();
    Drawn();
    Delivered();
    Polled();
    assert W9.log[3] == Incoming(0, 1, 5, 5, 0);
    hide Apply, Disciplined;
    var r9: seq<Action> := [];
    var r8 := [PollTransport(0)] + r9;
    var r7 := [PollTransport(0)] + r8;
    var r6 := [CloseReceiver(0)] + r7;
    var r5 := [PollDial(0, true)] + r6;
    var r4 := [Settle(0)] + r5;
    var r3 := [Register(0, 5)] + r4;
    var r2 := [RemoveListener(0, 1)] + r3;
    var r1 := [Locate(5)] + r2;
    Others(W8, PollTransport(0), r9);
    Others(W7, PollTransport(0), r8);
    Others(W6, CloseReceiver(0), r7);
    Others(W5, PollDial(0, true), r6);
    Others(W4, Settle(0), r5);
    Others(W3, Register(0, 5), r4);
    Unroll(W2, RemoveListener(0, 1), r3);
    Others(W1, Locate(5), r2);
    Others(Start(1), Listen(0, 1, 5, 0), r1);
  }

  // ----- a dial to a dialer -----

  function Ephemeral(port: nat, dialer: nat, queue: seq<Message>, closed: bool): Channel {
    Channel(port, DialerOf(dialer), queue, false, closed)
  }

  const OPEN := ListenerChannel(1, false, false, [])

  // The worlds of the run after the first lookup, one an action.
  const D3 := World(map[5 := 0, 6 := 1], [OPEN, Ephemeral(6, 0, [], false)], [[FIRST]], map[],
      [Dialer(5, 0, 1, Opening)], [])
  const D4 := D3.(dialers := [Dialer(5, 0, 1, Opening), Dialer(6, 1, 0, Located)])
  const D5 := World(map[5 := 0, 6 := 1, 7 := 2], [OPEN, Ephemeral(6, 0, [], false), Ephemeral(7, 1, [], false)],
                    [[FIRST]], map[], [Dialer(5, 0, 1, Opening), Dialer(6, 1, 2, Opening)], [])
  const D6 := World(map[5 := 0, 6 := 1, 7 := 2], [OPEN, Ephemeral(6, 0, [], false), Ephemeral(7, 1, [], true)],
                    [[FIRST]], map[], [Dialer(5, 0, 1, Opening), Dialer(6, 1, 2, Dialing)], [Discarded(2, [])])
  const D7 := World(map[5 := 0, 6 := 1, 7 := 2],
                    [OPEN, Ephemeral(6, 0, [Message(1, 7)], false), Ephemeral(7, 1, [], true)],
                    [[FIRST]], map[], [Dialer(5, 0, 1, Opening), Dialer(6, 1, 2, Connected)],
                    [Discarded(2, [])] + [Sent(1, 1, 7)])

  lemma FirstDialer()
    ensures Apply(W2, Register(0, 6)) == D3 && Apply(D3, Locate(6)) == D4
  {
    assert Apply(W2, Register(0, 6)).channels == W2.channels + [Ephemeral(6, 0, [], false)];
    assert Apply(D3, Locate(6)).dialers == D3.dialers + [Dialer(6, 1, 0, Located)];
  }

  lemma SecondDialer()
    ensures Apply(D4, Register(1, 7)) == D5 && Apply(D5, Settle(1)) == D6
  {
    assert Apply(D4, Register(1, 7)).channels == D4.channels + [Ephemeral(7, 1, [], false)];
  }

  lemma SentToADialer()
    ensures Apply(D6, PollDial(1, true)) == D7
    ensures Apply(D7, Settle(0)).dialers[1].stage == Connected
    ensures Apply(D7, Settle(0)).log == D7.log + [Discarded(1, [Message(1, 7)])]
  {
    assert [] + [Message(1, 7)] == [Message(1, 7)];
  }

  const TO_A_DIALER: seq<Action> :=
    [Listen(0, 1, 5, 0)] + ([Locate(5)] + ([Register(0, 6)] + ([Locate(6)] + ([Register(1, 7)] +
    ([Settle(1)] + ([PollDial(1, true)] + ([Settle(0)] + [])))))))

  /**
   A second dialer looks up the ephemeral port of a first that is still being made, and sends: it gets
   its connection, and the other end is dropped when the first has been made.
   */
  lemma DialToADialerIsDropped()
    ensures DisciplinedRun(Start(1), TO_A_DIALER)
    ensures var w := Run(Start(1), TO_A_DIALER);
            && |w.dialers| == 2 && w.dialers[1].stage == Connected
            && Discarded(1, [Message(1, 7)]) in w.log
  {
    ListenFirst();
    Dialed();
    FirstDialer();
    SecondDialer();
    SentToADialer();
    var end := Apply(D7, Settle(0));
    assert |end.dialers| == 2;
    assert end.log[|D7.log|] == Discarded(1, [Message(1, 7)]);
    hide Apply, Disciplined;
    var r8: seq<Action> := [];
    var r7 := [Settle(0)] + r8;
    var r6 := [PollDial(1, true)] + r7;
    var r5 := [Settle(1)] + r6;
    var r4 := [Register(1, 7)] + r5;
    var r3 := [Locate(6)] + r4;
    var r2 := [Register(0, 6)] + r3;
    var r1 := [Locate(5)] + r2;
    Others(D7, Settle(0), r8);
    Others(D6, PollDial(1, true), r7);
    Others(D5, Settle(1), r6);
    Others(D4, Register(1, 7), r5);
    Others(D3, Locate(6), r4);
    Others(W2, Register(0, 6), r3);
    Others(W1, Locate(5), r2);
    Others(Start(1), Listen(0, 1, 5, 0), r1);
  }

  // ----- dropping a transport -----

  /** A transport that listens and is dropped leaves its port registered to nobody. */
  lemma DroppedTransportKeepsItsPort()
    ensures var w := DropTransport(Apply(Start(1), Listen(0, 1, 5, 0)), 0);
            && w.hub == map[5 := 0] && w.transports == [[]] && |w.channels| == 1 && w.channels[0].closed
            && !RegistryInv(w)
  {
    ListenFirst();
    assert W1.transports[0][0].channel == 0;
    assert InQueue(W1, 0, 0);
    var w := DropTransport(W1, 0);
    assert w.transports == [[]];
    assert !ChannelOk(w, 0);
  }
}
