/**
 The tunnel controller's methods as they run with the mutex held (wintunnel/tunnel.go): fields
 updated in place and a record of what has been done outside. TunnelProtocol interleaves the same
 steps with other threads. The outcomes of outside calls are parameters.
 */
module Tunnel {
  import opened Wrappers
  import opened TunnelSteps

  /** What the engine reports of a peer; a time is seconds since the epoch, or absent. */
  datatype PeerStats = PeerStats(
    publicKey: string, endpoint: string, connected: bool, lastHandshake: Option<int>, lastReceived: Option<int>,
    rxBytes: nat, txBytes: nat, frameBudget: int)

  /** What the front-end is told, an absent time being 0. */
  datatype PeerStatus = PeerStatus(
    publicKey: string, endpoint: string, connected: bool, lastHandshake: int, lastReceived: int,
    rxBytes: nat, txBytes: nat, frameBudget: int)

  predicate Shows(p: PeerStatus, ps: PeerStats) {
    && p.publicKey == ps.publicKey && p.endpoint == ps.endpoint && p.connected == ps.connected
    && p.rxBytes == ps.rxBytes && p.txBytes == ps.txBytes && p.frameBudget == ps.frameBudget
    && (ps.lastHandshake == Some(p.lastHandshake) || (ps.lastHandshake.None? && p.lastHandshake == 0))
    && (ps.lastReceived == Some(p.lastReceived) || (ps.lastReceived.None? && p.lastReceived == 0))
  }

  datatype TunnelState = StateDisconnected | StateConnecting | StateConnected

  datatype TunnelStatus = TunnelStatus(state: TunnelState, name: string, iface: string, peers: seq<PeerStatus>)

  /** What the outside says to each step of Connect; adapter is a fresh attempt or a failure. */
  datatype Outside = Outside(configOk: bool, adapter: Option<nat>, socketOk: bool, routesOk: bool, engineOk: bool)

  function Succeeds(outside: Outside): bool {
    outside.configOk && outside.adapter.Some? && outside.socketOk && outside.routesOk && outside.engineOk
  }

  /** The word of the attempt that Connect makes against such an outside, if it makes one. */
  function AttemptWord(outside: Outside): Option<seq<Event>> {
    if !outside.configOk || outside.adapter.None? then None
    else Some(if !outside.socketOk then UndoneTo(1, 0)
              else if !outside.routesOk then UndoneTo(2, 0)
              else if !outside.engineOk then UndoneTo(3, 0)
              else UP)
  }

  /** What outside did is what was done: an attempt acquires each resource that was granted to it, and no
      other, up to the first refusal; and it is up if nothing was refused, over if something was. */
  lemma AttemptDoesAsTold(outside: Outside)
    ensures AttemptWord(outside).Some? <==> outside.configOk && outside.adapter.Some?
    ensures AttemptWord(outside).Some? ==>
      var word := AttemptWord(outside).value;
      && AdapterUp in word
      && (SocketUp in word <==> outside.socketOk)
      && (RoutesUp in word <==> outside.socketOk && outside.routesOk)
      && (EngineRun in word <==> outside.socketOk && outside.routesOk && outside.engineOk)
      && (if outside.socketOk && outside.routesOk && outside.engineOk then word == UP else Settled(word))
  {
    UndoneWords();
  }

  /** Every attempt but the current one is over. */
  ghost predicate OthersSettled(words: map<nat, seq<Event>>, current: Option<nat>) {
    forall a | a in words && current != Some(a) :: Settled(words[a])
  }

  /** The watcher of the current session, and no other, has the current generation. */
  ghost predicate WatchersOk(watchers: map<nat, nat>, gen: nat, current: Option<nat>) {
    && (current.Some? ==> current.value in watchers)
    && forall a | a in watchers :: watchers[a] <= gen && (watchers[a] == gen <==> current == Some(a))
  }

  lemma SettledByUpdate(words: map<nat, seq<Event>>, current: Option<nat>, a: nat, word: seq<Event>)
    requires OthersSettled(words, current) && (current.Some? ==> current.value == a)
    ensures Settled(word) ==> OthersSettled(words[a := word], None)
    ensures OthersSettled(words[a := word], Some(a))
  {
  }

  class Controller {
    var running: bool
    var gen: nat
    var name: string
    var iface: string
    var eng: Option<nat>
    var tun: Option<nat>
    var conn: Option<nat>
    var cleanup: Option<nat>
    var done: Option<nat>
    var words: map<nat, seq<Event>>   // everything done so far to the resources of each attempt
    var watchers: map<nat, nat>       // the generation each session's watcher has been started with

    ghost function Fields(): Core
      reads this
    {
      Core(running, gen, name, iface, eng, tun, conn, cleanup, done)
    }

    /** At most one session is up, and nothing else is held. */
    ghost predicate Valid()
      reads this
    {
      && (running ==>
            && eng.Some? && eng == tun == conn == cleanup == done
            && eng.value in words && words[eng.value] == UP && iface == ADAPTER_NAME)
      && (!running ==> Fields() == InitialCore().(gen := gen))
      && OthersSettled(words, if running then eng else None)
      && WatchersOk(watchers, gen, if running then eng else None) && watchers.Keys <= words.Keys
    }

    /** The words once the running session, if any, has been stopped. */
    ghost function StoppedWords(): map<nat, seq<Event>>
      reads this
    {
      if running && eng.Some? then words[eng.value := UP + DOWN] else words
    }

    constructor ()
      ensures Valid() && Fields() == InitialCore() && words == map[] && watchers == map[]
    {
      running, gen, name, iface := false, 0, "", "";
      eng, tun, conn, cleanup, done, words, watchers := None, None, None, None, None, map[], map[];
    }

    /** One thing done outside; base is the record at the start of the call, sofar the word since. */
    method Do(a: nat, e: Event, ghost base: map<nat, seq<Event>>, ghost sofar: seq<Event>)
      requires words == base[a := sofar]
      modifies this`words
      ensures words == base[a := sofar + [e]]
    {
      words := words[a := words[a] + [e]];
    }

    /** The closing part of stopLocked: each field that is not nil is closed, in the order that lets
        the wait for the engine end. */
    method CloseAll(ghost a: nat)
      requires eng == tun == conn == cleanup == done == Some(a)
      requires a in words && words[a] == UP
      modifies this`words
      ensures words == old(words)[a := UP + DOWN]
    {
      DownSteps();
      ghost var base := words;
      if eng.Some? {
        Do(eng.value, EngineClosed, base, UP + DOWN[..0]);
      }
      if cleanup.Some? {
        Do(cleanup.value, RoutesDown, base, UP + DOWN[..1]);
      }
      if conn.Some? {
        Do(conn.value, SocketClosed, base, UP + DOWN[..2]);
      }
      if tun.Some? {
        Do(tun.value, AdapterClosed, base, UP + DOWN[..3]);
      }
      if eng.Some? {
        Do(eng.value, EngineAwaited, base, UP + DOWN[..4]);
      }
      if done.Some? {
        Do(done.value, DoneClosed, base, UP + DOWN[..5]);
      }
    }

    method Clear()
      modifies this
      ensures Fields() == InitialCore().(gen := old(gen)) && words == old(words) && watchers == old(watchers)
    {
      eng, conn, tun, cleanup, done := None, None, None, None, None;
      running, name, iface := false, "", "";
    }

    method StopLocked()
      requires Valid()
      modifies this
      ensures Valid() && !running
      ensures Fields() == Stopped(old(Fields())) && words == old(StoppedWords()) && watchers == old(watchers)
      ensures gen == old(gen) + if old(running) then 1 else 0
    {
      if !running {
        return;
      }
      gen := gen + 1;
      SettledByUpdate(words, eng, eng.value, UP + DOWN);
      CloseAll(eng.value);
      Clear();
    }

    /** Releases what a failed Connect holds, from the end: its first total resources. */
    method UndoAll(a: nat, total: nat, ghost base: map<nat, seq<Event>>)
      requires 1 <= total <= 3 && words == base[a := UP[..total]]
      modifies this`words
      ensures words == base[a := UndoneTo(total, 0)]
    {
      UndoSteps(total, total);
      if total >= 3 {
        UndoSteps(total, 3);
        Do(a, RoutesDown, base, UndoneTo(total, 3));
      }
      if total >= 2 {
        UndoSteps(total, 2);
        Do(a, SocketClosed, base, UndoneTo(total, 2));
      }
      UndoSteps(total, 1);
      Do(a, AdapterClosed, base, UndoneTo(total, 1));
    }

    /** Stores the new session and starts its watcher. */
    method Publish(a: nat, displayName: string)
      modifies this
      ensures Fields() == Published(old(Fields()), a, displayName) && words == old(words)
      ensures watchers == old(watchers)[a := gen]
    {
      eng, tun, conn, cleanup, done := Some(a), Some(a), Some(a), Some(a), Some(a);
      name, iface, running := displayName, ADAPTER_NAME, true;
      gen := gen + 1;
      watchers := watchers[a := gen];
    }

    /** Connect from the created adapter a on. */
    method BringUp(a: nat, displayName: string, outside: Outside) returns (ok: bool)
      requires outside.configOk && outside.adapter == Some(a)
      modifies this
      ensures ok == Succeeds(outside)
      ensures Fields() == if ok then Published(old(Fields()), a, displayName) else old(Fields())
      ensures words == old(words)[a := AttemptWord(outside).value]
      ensures watchers == if ok then old(watchers)[a := gen] else old(watchers)
    {
      UpSteps();
      ghost var base := words;
      words := words[a := [AdapterUp]];
      if !outside.socketOk {
        UndoAll(a, 1, base);
        return false;
      }
      Do(a, SocketUp, base, UP[..1]);
      if !outside.routesOk {
        UndoAll(a, 2, base);
        return false;
      }
      Do(a, RoutesUp, base, UP[..2]);
      if !outside.engineOk {
        UndoAll(a, 3, base);
        return false;
      }
      Do(a, EngineBuilt, base, UP[..3]);
      Do(a, EngineRun, base, UP[..4]);
      Publish(a, displayName);
      return true;
    }

    /** Whatever fails, the session that was up is down and nothing of the new attempt is left; if
        nothing fails, the new attempt is up under the next generation, which its watcher gets. */
    method Connect(displayName: string, outside: Outside) returns (ok: bool)
      requires Valid()
      requires outside.adapter.Some? ==> outside.adapter.value !in words
      modifies this
      ensures Valid() && ok == running == Succeeds(outside)
      ensures Fields() == if ok then Published(Stopped(old(Fields())), outside.adapter.value, displayName)
                          else Stopped(old(Fields()))
      ensures words == if AttemptWord(outside).None? then old(StoppedWords())
                       else old(StoppedWords())[outside.adapter.value := AttemptWord(outside).value]
      ensures watchers == if ok then old(watchers)[outside.adapter.value := gen] else old(watchers)
      ensures ok ==> name == displayName && iface == "veil0" && eng == outside.adapter
      ensures ok ==> tun == conn == cleanup == done == outside.adapter
      ensures gen == old(gen) + (if old(running) then 1 else 0) + if ok then 1 else 0
    {
      if running {
        StopLocked();
      }
      if !outside.configOk {
        return false;
      }
      if outside.adapter.None? {
        return false;
      }
      SettledByUpdate(words, None, outside.adapter.value, AttemptWord(outside).value);
      ok := BringUp(outside.adapter.value, displayName, outside);
    }

    method Disconnect()
      requires Valid()
      modifies this
      ensures Valid() && !running
      ensures Fields() == Stopped(old(Fields())) && words == old(StoppedWords()) && watchers == old(watchers)
    {
      StopLocked();
    }

    /** The watcher of session a, with an engine error in hand: it stops that session if it is still the
        current one, and nothing else. */
    method EngineFailed(a: nat)
      requires Valid() && a in watchers
      modifies this
      ensures Valid() && watchers == old(watchers)
      ensures if old(running && eng == Some(a)) then !running && words == old(StoppedWords())
              else Fields() == old(Fields()) && words == old(words)
    {
      if running && gen == watchers[a] {
        StopLocked();
      }
    }

    /** stats is what the engine reports. */
    method Status(stats: seq<PeerStats>) returns (st: TunnelStatus)
      requires Valid()
      ensures st.state == StateDisconnected <==> !running
      ensures !running ==> st.name == "" && st.iface == "" && st.peers == []
      ensures running ==> st.name == name && st.iface == iface && |st.peers| == |stats|
      ensures running ==> forall i | 0 <= i < |stats| :: Shows(st.peers[i], stats[i])
      ensures running ==> (st.state == StateConnected <==> exists i :: 0 <= i < |stats| && stats[i].connected)
    {
      if !running || eng == None {
        return TunnelStatus(StateDisconnected, "", "", []);
      }
      var peers: seq<PeerStatus> := [];
      var anyConnected := false;
      for i := 0 to |stats|
        invariant |peers| == i && forall j | 0 <= j < i :: Shows(peers[j], stats[j])
        invariant anyConnected <==> exists j :: 0 <= j < i && stats[j].connected
      {
        var ps := stats[i];
        var p := PeerStatus(ps.publicKey, ps.endpoint, ps.connected, 0, 0, ps.rxBytes, ps.txBytes, ps.frameBudget);
        if ps.lastHandshake.Some? {
          p := p.(lastHandshake := ps.lastHandshake.value);
        }
        if ps.lastReceived.Some? {
          p := p.(lastReceived := ps.lastReceived.value);
        }
        peers := peers + [p];
        anyConnected := anyConnected || ps.connected;
      }
      st := TunnelStatus(StateConnected, name, iface, peers);
      if !anyConnected {
        st := st.(state := StateConnecting);
      }
    }
  }
}
